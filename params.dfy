/** The parameter mirror: the 30 tunable fields of a farm animal's
    parameters, the Preset record that carries them, and the two copies
    between the host's per-species table and a list of presets. The values are
    only ever copied, never computed. */
module AnimalParams {

  import opened Wrappers

  /** A C# float. The mod only copies these values, so their arithmetic is not modelled. */
  type Float32 = real

  /** A named snapshot of one species' tunables (Preset.cs): 29 floats and one int. */
  datatype Preset = Preset(
    name: string,
    foodCapacity: Float32,
    waterCapacity: Float32,
    sleepTime: Float32,
    decreaseFoodLevelPerSec: Float32,
    decreaseWaterLevelPerSec: Float32,
    decreasePoisonLevelPerSec: Float32,
    waterLevelToDrink: Float32,
    foodLevelToEat: Float32,
    decreaseTrustPerSec: Float32,
    increaseTrustPerSec: Float32,
    trustDecreaseOnHitMe: Float32,
    trustDecreaseOnHitOther: Float32,
    outsideFarmDecreaseTrustPerSec: Float32,
    trustLevelToRunAway: Float32,
    pregnantCooldown: Float32,
    pregnantDuration: Float32,
    maturationPerSec: Float32,
    decreaseHealthPerSec: Float32,
    increaseHealthPerSec: Float32,
    minFoodToGainTrust: Float32,
    minWaterToGainTrust: Float32,
    noTrustDistanceToPlayer: Float32,
    followWhistlerDuration: Float32,
    shitInterval: Float32,
    durationOfBeingTied: Float32,
    poisonFromShitPerSec: Float32,
    shitPoisonLimit: int,
    minTrustToWhistle: Float32,
    minTrustToPet: Float32,
    minTrustToSetName: Float32)

  /** What the host keeps per species besides the 30 mirrored fields: among
      others the members Preset leaves commented out. The mod never touches them. */
  datatype Unmirrored = Unmirrored(
    timeToCollapse: Float32,
    maturityMinScale: Float32,
    farmTriggerIconName: string,
    sleepingTriggerIconName: string)

  /** The host's FarmAnimalParams: the mirrored fields and the rest. */
  datatype FarmAnimalParams = FarmAnimalParams(
    foodCapacity: Float32,
    waterCapacity: Float32,
    sleepTime: Float32,
    decreaseFoodLevelPerSec: Float32,
    decreaseWaterLevelPerSec: Float32,
    decreasePoisonLevelPerSec: Float32,
    waterLevelToDrink: Float32,
    foodLevelToEat: Float32,
    decreaseTrustPerSec: Float32,
    increaseTrustPerSec: Float32,
    trustDecreaseOnHitMe: Float32,
    trustDecreaseOnHitOther: Float32,
    outsideFarmDecreaseTrustPerSec: Float32,
    trustLevelToRunAway: Float32,
    pregnantCooldown: Float32,
    pregnantDuration: Float32,
    maturationPerSec: Float32,
    decreaseHealthPerSec: Float32,
    increaseHealthPerSec: Float32,
    minFoodToGainTrust: Float32,
    minWaterToGainTrust: Float32,
    noTrustDistanceToPlayer: Float32,
    followWhistlerDuration: Float32,
    shitInterval: Float32,
    durationOfBeingTied: Float32,
    poisonFromShitPerSec: Float32,
    shitPoisonLimit: int,
    minTrustToWhistle: Float32,
    minTrustToPet: Float32,
    minTrustToSetName: Float32,
    unmirrored: Unmirrored)

  /** The host's AIID values of the three species the mod knows. */
  datatype SpeciesIds = SpeciesIds(peccary: int, capybara: int, tapir: int)
  {
    /** Three distinct keys, none of them the -1 that marks "no species". */
    predicate Distinct()
    {
      0 <= peccary && 0 <= capybara && 0 <= tapir &&
      peccary != capybara && peccary != tapir && capybara != tapir
    }
  }

  /** The host's table m_FarmAnimalParamsMap, keyed by AIID. */
  type ParamsTable = map<int, FarmAnimalParams>

  const PeccaryName: string := "Peccary"
  const CapybaraName: string := "Capybara"
  const TapirName: string := "Tapir"

  /** A Preset as `new Preset()` leaves it before any field is copied. */
  function DefaultPreset(name: string): (r: Preset)
    ensures r.name == name && r.maturationPerSec == 0.01 && r.shitPoisonLimit == 0
    ensures r.foodCapacity == 0.0 && r.waterCapacity == 0.0 && r.sleepTime == 0.0
    ensures r.decreaseFoodLevelPerSec == 0.0 && r.decreaseWaterLevelPerSec == 0.0 && r.decreasePoisonLevelPerSec == 0.0
    ensures r.waterLevelToDrink == 0.0 && r.foodLevelToEat == 0.0 && r.decreaseTrustPerSec == 0.0
    ensures r.increaseTrustPerSec == 0.0 && r.trustDecreaseOnHitMe == 0.0 && r.trustDecreaseOnHitOther == 0.0
    ensures r.outsideFarmDecreaseTrustPerSec == 0.0 && r.trustLevelToRunAway == 0.0 && r.pregnantCooldown == 0.0
    ensures r.pregnantDuration == 0.0 && r.decreaseHealthPerSec == 0.0 && r.increaseHealthPerSec == 0.0
    ensures r.minFoodToGainTrust == 0.0 && r.minWaterToGainTrust == 0.0 && r.noTrustDistanceToPlayer == 0.0
    ensures r.followWhistlerDuration == 0.0 && r.shitInterval == 0.0 && r.durationOfBeingTied == 0.0
    ensures r.poisonFromShitPerSec == 0.0 && r.minTrustToWhistle == 0.0 && r.minTrustToPet == 0.0
    ensures r.minTrustToSetName == 0.0
  {
    Preset(name,
      0.0,
      0.0,
      0.0,
      0.0,
      0.0,
      0.0,
      0.0,
      0.0,
      0.0,
      0.0,
      0.0,
      0.0,
      0.0,
      0.0,
      0.0,
      0.0,
      0.01,
      0.0,
      0.0,
      0.0,
      0.0,
      0.0,
      0.0,
      0.0,
      0.0,
      0.0,
      0,
      0.0,
      0.0,
      0.0)
  }

  /** The preset that holds `entry`'s mirrored fields. */
  function Capture(name: string, entry: FarmAnimalParams): (r: Preset)
    ensures r.name == name
  {
    Preset(name,
      entry.foodCapacity,
      entry.waterCapacity,
      entry.sleepTime,
      entry.decreaseFoodLevelPerSec,
      entry.decreaseWaterLevelPerSec,
      entry.decreasePoisonLevelPerSec,
      entry.waterLevelToDrink,
      entry.foodLevelToEat,
      entry.decreaseTrustPerSec,
      entry.increaseTrustPerSec,
      entry.trustDecreaseOnHitMe,
      entry.trustDecreaseOnHitOther,
      entry.outsideFarmDecreaseTrustPerSec,
      entry.trustLevelToRunAway,
      entry.pregnantCooldown,
      entry.pregnantDuration,
      entry.maturationPerSec,
      entry.decreaseHealthPerSec,
      entry.increaseHealthPerSec,
      entry.minFoodToGainTrust,
      entry.minWaterToGainTrust,
      entry.noTrustDistanceToPlayer,
      entry.followWhistlerDuration,
      entry.shitInterval,
      entry.durationOfBeingTied,
      entry.poisonFromShitPerSec,
      entry.shitPoisonLimit,
      entry.minTrustToWhistle,
      entry.minTrustToPet,
      entry.minTrustToSetName)
  }

  /** `entry` with its 30 mirrored fields overwritten by `preset`'s. */
  function Apply(entry: FarmAnimalParams, preset: Preset): (r: FarmAnimalParams)
    ensures Capture(preset.name, r) == preset
    ensures r.unmirrored == entry.unmirrored
  {
    entry.(
      foodCapacity := preset.foodCapacity,
      waterCapacity := preset.waterCapacity,
      sleepTime := preset.sleepTime,
      decreaseFoodLevelPerSec := preset.decreaseFoodLevelPerSec,
      decreaseWaterLevelPerSec := preset.decreaseWaterLevelPerSec,
      decreasePoisonLevelPerSec := preset.decreasePoisonLevelPerSec,
      waterLevelToDrink := preset.waterLevelToDrink,
      foodLevelToEat := preset.foodLevelToEat,
      decreaseTrustPerSec := preset.decreaseTrustPerSec,
      increaseTrustPerSec := preset.increaseTrustPerSec,
      trustDecreaseOnHitMe := preset.trustDecreaseOnHitMe,
      trustDecreaseOnHitOther := preset.trustDecreaseOnHitOther,
      outsideFarmDecreaseTrustPerSec := preset.outsideFarmDecreaseTrustPerSec,
      trustLevelToRunAway := preset.trustLevelToRunAway,
      pregnantCooldown := preset.pregnantCooldown,
      pregnantDuration := preset.pregnantDuration,
      maturationPerSec := preset.maturationPerSec,
      decreaseHealthPerSec := preset.decreaseHealthPerSec,
      increaseHealthPerSec := preset.increaseHealthPerSec,
      minFoodToGainTrust := preset.minFoodToGainTrust,
      minWaterToGainTrust := preset.minWaterToGainTrust,
      noTrustDistanceToPlayer := preset.noTrustDistanceToPlayer,
      followWhistlerDuration := preset.followWhistlerDuration,
      shitInterval := preset.shitInterval,
      durationOfBeingTied := preset.durationOfBeingTied,
      poisonFromShitPerSec := preset.poisonFromShitPerSec,
      shitPoisonLimit := preset.shitPoisonLimit,
      minTrustToWhistle := preset.minTrustToWhistle,
      minTrustToPet := preset.minTrustToPet,
      minTrustToSetName := preset.minTrustToSetName)
  }

  /** Capturing an entry and writing the capture back leaves the entry unchanged. */
  lemma ApplyCaptured(entry: FarmAnimalParams, name: string)
    ensures Apply(entry, Capture(name, entry)) == entry
  {
  }

  predicate HasSpecies(table: ParamsTable, ids: SpeciesIds)
  {
    ids.peccary in table && ids.capybara in table && ids.tapir in table
  }

  /** The AIID a preset's name selects in LoadPreset; -1 for any other name. */
  function PresetKey(name: string, ids: SpeciesIds): (key: int)
    ensures key >= 0 ==> key == ids.peccary || key == ids.capybara || key == ids.tapir
    ensures name == PeccaryName ==> key == ids.peccary
    ensures name == CapybaraName ==> key == ids.capybara
    ensures name == TapirName ==> key == ids.tapir
    ensures name != PeccaryName && name != CapybaraName && name != TapirName ==> key == -1
  {
    if name == PeccaryName then ids.peccary
    else if name == CapybaraName then ids.capybara
    else if name == TapirName then ids.tapir
    else -1
  }

  /** CurrentSettingsToPreset: always the three presets Peccary, Capybara and
      Tapir in that order; each holds its species' entry when the table has all
      three species, and the record defaults otherwise. `table` is None when the
      AI manager or its map is missing. */
  function CurrentSettingsToPreset(table: Option<ParamsTable>, ids: SpeciesIds): (r: seq<Preset>)
    ensures |r| == 3 && r[0].name == PeccaryName && r[1].name == CapybaraName && r[2].name == TapirName
    ensures table.Some? && HasSpecies(table.value, ids) ==>
      forall i :: 0 <= i < 3 ==>
        PresetKey(r[i].name, ids) in table.value &&
        r[i] == Capture(r[i].name, table.value[PresetKey(r[i].name, ids)])
    ensures !(table.Some? && HasSpecies(table.value, ids)) ==>
      forall i :: 0 <= i < 3 ==> r[i] == DefaultPreset(r[i].name)
  {
    if table.Some? && HasSpecies(table.value, ids) then
      var m := table.value;
      [Capture(PeccaryName, m[ids.peccary]),
       Capture(CapybaraName, m[ids.capybara]),
       Capture(TapirName, m[ids.tapir])]
    else
      [DefaultPreset(PeccaryName), DefaultPreset(CapybaraName), DefaultPreset(TapirName)]
  }

  /** One turn of LoadPreset's loop: a preset with a recognised name overwrites
      the mirrored fields of its species' entry; any other preset is skipped. */
  function ApplyOne(table: ParamsTable, preset: Preset, ids: SpeciesIds): (r: ParamsTable)
    requires HasSpecies(table, ids)
    ensures r.Keys == table.Keys
  {
    var key := PresetKey(preset.name, ids);
    if key >= 0 then table[key := Apply(table[key], preset)] else table
  }

  /** LoadPreset's loop over the whole list, in list order. */
  function ApplyAll(table: ParamsTable, presets: seq<Preset>, ids: SpeciesIds): (r: ParamsTable)
    requires HasSpecies(table, ids)
    ensures r.Keys == table.Keys
    decreases |presets|
  {
    if presets == [] then table
    else ApplyOne(ApplyAll(table, presets[..|presets| - 1], ids), presets[|presets| - 1], ids)
  }

  /** The table after LoadPreset(settings): `settings` is None for a null list. */
  function LoadedTable(table: Option<ParamsTable>, settings: Option<seq<Preset>>, ids: SpeciesIds)
    : (r: Option<ParamsTable>)
    ensures r.Some? <==> table.Some?
    ensures r.Some? ==> r.value.Keys == table.value.Keys
    ensures r != table ==> LoadApplies(table, settings, ids)
  {
    if LoadApplies(table, settings, ids) then Some(ApplyAll(table.value, settings.value, ids))
    else table
  }

  /** LoadPreset's guard: a list of exactly three presets and a table holding all three species. */
  predicate LoadApplies(table: Option<ParamsTable>, settings: Option<seq<Preset>>, ids: SpeciesIds)
  {
    settings.Some? && |settings.value| == 3 && table.Some? && HasSpecies(table.value, ids)
  }

  /** An entry that no preset of the list selects keeps its value. */
  lemma {:induction false} ApplyAllLeavesOthers(table: ParamsTable, presets: seq<Preset>, ids: SpeciesIds, k: int)
    requires HasSpecies(table, ids) && k in table
    requires forall i :: 0 <= i < |presets| ==> PresetKey(presets[i].name, ids) < 0 || PresetKey(presets[i].name, ids) != k
    ensures ApplyAll(table, presets, ids)[k] == table[k]
  {
    if presets != [] {
      var prefix := presets[..|presets| - 1];
      assert forall i :: 0 <= i < |prefix| ==> prefix[i] == presets[i];
      ApplyAllLeavesOthers(table, prefix, ids, k);
    }
  }

  /** No entry loses the fields the presets do not carry. */
  lemma {:induction false} ApplyAllKeepsUnmirrored(table: ParamsTable, presets: seq<Preset>, ids: SpeciesIds, k: int)
    requires HasSpecies(table, ids) && k in table
    ensures ApplyAll(table, presets, ids)[k].unmirrored == table[k].unmirrored
  {
    if presets != [] {
      ApplyAllKeepsUnmirrored(table, presets[..|presets| - 1], ids, k);
    }
  }

  /** The entry a preset selects ends up with that preset's fields, unless a
      later preset of the list selects the same entry. */
  lemma {:induction false} ApplyAllLastWins(table: ParamsTable, presets: seq<Preset>, ids: SpeciesIds, i: nat)
    requires HasSpecies(table, ids)
    requires i < |presets| && PresetKey(presets[i].name, ids) >= 0
    requires forall j :: i < j < |presets| ==> PresetKey(presets[j].name, ids) != PresetKey(presets[i].name, ids)
    ensures Capture(presets[i].name, ApplyAll(table, presets, ids)[PresetKey(presets[i].name, ids)]) == presets[i]
  {
    var prefix := presets[..|presets| - 1];
    if i < |presets| - 1 {
      assert prefix[i] == presets[i];
      assert forall j :: i < j < |prefix| ==> prefix[j] == presets[j];
      ApplyAllLastWins(table, prefix, ids, i);
    }
  }

  /** Round trip, one way: loading the settings just captured leaves the table as it was. */
  lemma LoadCapturedIsIdentity(table: Option<ParamsTable>, ids: SpeciesIds)
    ensures LoadedTable(table, Some(CurrentSettingsToPreset(table, ids)), ids) == table
  {
    if table.Some? && HasSpecies(table.value, ids) {
      var m := table.value;
      var s := CurrentSettingsToPreset(table, ids);
      forall i | 0 <= i < 3
        ensures ApplyOne(m, s[i], ids) == m
      {
        var key := PresetKey(s[i].name, ids);
        if key >= 0 {
          ApplyCaptured(m[key], s[i].name);
          assert m[key := Apply(m[key], s[i])] == m;
        }
      }
      assert s[..0] == [] && s[..1][..0] == [] && s[..2][..1] == s[..1] && s[..3] == s;
      assert ApplyAll(m, s[..1], ids) == m;
      assert ApplyAll(m, s[..2], ids) == m;
      assert ApplyAll(m, s, ids) == ApplyOne(ApplyAll(m, s[..2], ids), s[2], ids);
    }
  }

  /** A list of exactly the three species, in the order CurrentSettingsToPreset produces. */
  predicate IsSpeciesTriple(settings: seq<Preset>)
  {
    |settings| == 3 &&
    settings[0].name == PeccaryName && settings[1].name == CapybaraName && settings[2].name == TapirName
  }

  /** Round trip, other way: capturing right after loading such a list returns
      the list, provided the three AIIDs are distinct keys. */
  lemma CaptureAfterLoad(table: ParamsTable, settings: seq<Preset>, ids: SpeciesIds)
    requires HasSpecies(table, ids) && ids.Distinct() && IsSpeciesTriple(settings)
    ensures CurrentSettingsToPreset(LoadedTable(Some(table), Some(settings), ids), ids) == settings
  {
    var after := LoadedTable(Some(table), Some(settings), ids);
    var r := CurrentSettingsToPreset(after, ids);
    forall i | 0 <= i < 3
      ensures r[i] == settings[i]
    {
      ApplyAllLastWins(table, settings, ids, i);
    }
  }
}
