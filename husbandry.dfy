/** The mod object: its selection state, the start-up step, LoadPreset and the
    button handlers of the presets and filter panels. The host's AI manager and
    the presets folder are objects the handlers change in place. */
module Husbandry {

  import opened Wrappers
  import opened Strings
  import opened AnimalParams
  import opened PresetFiles
  import Shortcut
  import AnimalFilter

  /** The host's AIs.AIManager, reduced to its per-species table (None when the map is null). */
  class AIManager {
    var farmAnimalParamsMap: Option<ParamsTable>

    constructor (table: Option<ParamsTable>)
      ensures farmAnimalParamsMap == table
    {
      farmAnimalParamsMap := table;
    }
  }

  /** The presets folder: the names of its *.txt files in listing order, and what
      deserialising each readable file yields (a file missing from `contents`
      cannot be deserialised). */
  class PresetFolder {
    var files: seq<string>
    var contents: map<string, seq<Preset>>

    constructor (files: seq<string>, contents: map<string, seq<Preset>>)
      ensures this.files == files && this.contents == contents
    {
      this.files := files;
      this.contents := contents;
    }
  }

  /** The HUD messages the handlers show. */
  datatype Message =
    | PresetApplied(presetName: string)
    | DefaultsRestored
    | SelectPresetFirst
    | CouldNotLoadPreset
    | NoPresetToLoad
    | PresetDeleted(deletedName: string)
    | CouldNotDeletePreset
    | NoPresetToDelete
    | PresetNameMissing
    | PresetNameInvalid
    | PresetAlreadyExists
    | PresetSaved(savedName: string)
    | SelectAnimalFirst

  /** The table of a possibly missing AI manager. */
  function TableOf(manager: AIManager?): Option<ParamsTable>
    reads manager
  {
    if manager == null then None else manager.farmAnimalParamsMap
  }

  /** What the load handler deserialises for the listed name `name`: None when the
      name is blank, its file is gone, or the file cannot be read. */
  function StoredPresets(folder: PresetFolder, name: string, whiteSpace: char -> bool): Option<seq<Preset>>
    reads folder
  {
    var file := name + PresetExtension;
    if !IsNullOrWhiteSpace(name, whiteSpace) && file in folder.files && file in folder.contents then
      Some(folder.contents[file])
    else None
  }

  /** The messages OnClickLoadPresetButton shows, as written, once the selected
      index is in range: the handler has no `return` after LoadPreset, so it
      reports failure after a successful load too. */
  function LoadMessagesAsWritten(name: string, applied: bool): (r: seq<Message>)
    ensures CouldNotLoadPreset in r
    ensures PresetApplied(name) in r <==> applied
  {
    (if applied then [PresetApplied(name)] else []) + [CouldNotLoadPreset]
  }

  /** The messages the load handler evidently means to show: success or failure, never both. */
  function LoadMessages(name: string, applied: bool): (r: seq<Message>)
    ensures |r| == 1
    ensures CouldNotLoadPreset in r <==> !applied
    ensures PresetApplied(name) in r <==> applied
  {
    if applied then [PresetApplied(name)] else [CouldNotLoadPreset]
  }

  /** The discrepancy: as written, a successful load shows both messages. */
  lemma SuccessfulLoadAlsoReportsFailure(name: string)
    ensures LoadMessagesAsWritten(name, true) == [PresetApplied(name), CouldNotLoadPreset]
    ensures LoadMessages(name, true) == [PresetApplied(name)]
  {
  }

  /** The messages of the save handler for a rejected name. */
  function RejectionMessage(verdict: NameVerdict): Message
    requires verdict != Accepted
  {
    match verdict
    case NameMissing => PresetNameMissing
    case InvalidCharacters => PresetNameInvalid
    case AlreadyExists => PresetAlreadyExists
  }

  class AnimalHusbandry {
    /** The host's AIID values of the three species. */
    const ids: SpeciesIds
    var modKeybindingId: Shortcut.KeyCode
    var defaultAnimalSettings: Option<seq<Preset>>
    var selectedFilterIndex: int
    var selectedFilterName: string
    var selectedFilter: AnimalFilter.Animals
    var selectedPresetIndex: int
    var selectedPresetName: string
    var presetNameFieldValue: string

    constructor (ids: SpeciesIds)
      ensures this.ids == ids
      ensures modKeybindingId == Shortcut.DefaultModKeybindingId && defaultAnimalSettings == None
      ensures selectedFilterIndex == 0 && selectedFilter == AnimalFilter.None
      ensures selectedFilterName == "" && selectedPresetIndex == 0 && selectedPresetName == ""
      ensures presetNameFieldValue == ""
    {
      this.ids := ids;
      modKeybindingId := Shortcut.DefaultModKeybindingId;
      defaultAnimalSettings := None;
      selectedFilterIndex := 0;
      selectedFilterName := "";
      selectedFilter := AnimalFilter.None;
      selectedPresetIndex := 0;
      selectedPresetName := "";
      presetNameFieldValue := "";
    }

    /** Start: read the shortcut and keep the current settings as the defaults. */
    method Start(manager: AIManager?, configuration: Option<seq<string>>,
                 parse: string -> Option<Shortcut.KeyCode>)
      modifies this`modKeybindingId, this`defaultAnimalSettings
      ensures modKeybindingId == Shortcut.ConfiguredKey(configuration, parse)
      ensures defaultAnimalSettings == Some(CurrentSettingsToPreset(TableOf(manager), ids))
    {
      modKeybindingId := Shortcut.GetConfigurableKey(configuration, parse);
      defaultAnimalSettings := Some(CurrentSettingsToPreset(TableOf(manager), ids));
    }

    /** LoadPreset: when the list has three presets and the table all three
        species, each preset in list order overwrites the mirrored fields of its
        species' entry in place; otherwise nothing changes. */
    method LoadPreset(manager: AIManager?, settings: Option<seq<Preset>>) returns (applied: bool)
      modifies manager
      ensures applied == LoadApplies(old(TableOf(manager)), settings, ids)
      ensures TableOf(manager) == LoadedTable(old(TableOf(manager)), settings, ids)
    {
      applied := false;
      if settings.Some? && |settings.value| == 3 {
        if manager != null && manager.farmAnimalParamsMap.Some? && HasSpecies(manager.farmAnimalParamsMap.value, ids) {
          var presets := settings.value;
          ghost var initial := manager.farmAnimalParamsMap.value;
          for i := 0 to |presets|
            invariant manager.farmAnimalParamsMap == Some(ApplyAll(initial, presets[..i], ids))
          {
            assert presets[..i + 1][..i] == presets[..i];
            var preset := presets[i];
            var key := PresetKey(preset.name, ids);
            if key >= 0 {
              var table := manager.farmAnimalParamsMap.value;
              manager.farmAnimalParamsMap := Some(table[key := Apply(table[key], preset)]);
            }
          }
          assert presets[..|presets|] == presets;
          applied := true;
        }
      }
    }

    method OnClickRestoreDefaultsButton(manager: AIManager?) returns (messages: seq<Message>)
      modifies manager
      ensures TableOf(manager) == LoadedTable(old(TableOf(manager)), defaultAnimalSettings, ids)
      ensures messages == if LoadApplies(old(TableOf(manager)), defaultAnimalSettings, ids)
                          then [DefaultsRestored] else []
    {
      var applied := LoadPreset(manager, defaultAnimalSettings);
      messages := if applied then [DefaultsRestored] else [];
    }

    /** OnClickSavePresetButton: a name that passes the checks gets a new file
        holding the current settings; any other name changes nothing. */
    method OnClickSavePresetButton(manager: AIManager?, folder: PresetFolder,
                                   letterOrDigit: char -> bool, whiteSpace: char -> bool)
      returns (messages: seq<Message>)
      modifies folder
      ensures var verdict := CheckPresetName(presetNameFieldValue, old(folder.files), letterOrDigit, whiteSpace);
        if verdict == Accepted then
          && folder.files == old(folder.files) + [presetNameFieldValue + PresetExtension]
          && folder.contents == old(folder.contents)[presetNameFieldValue + PresetExtension :=
                                                     CurrentSettingsToPreset(TableOf(manager), ids)]
          && Stem(folder.files[|folder.files| - 1]) == presetNameFieldValue
          && messages == [PresetSaved(presetNameFieldValue)]
        else
          && folder.files == old(folder.files) && folder.contents == old(folder.contents)
          && messages == [RejectionMessage(verdict)]
    {
      var verdict := CheckPresetName(presetNameFieldValue, folder.files, letterOrDigit, whiteSpace);
      if verdict != Accepted {
        return [RejectionMessage(verdict)];
      }
      var filePath := presetNameFieldValue + PresetExtension;
      var presets := CurrentSettingsToPreset(TableOf(manager), ids);
      folder.files := folder.files + [filePath];
      folder.contents := folder.contents[filePath := presets];
      StemOfPresetFile(presetNameFieldValue);
      messages := [PresetSaved(presetNameFieldValue)];
    }

    /** OnClickLoadPresetButton, with the messages corrected to LoadMessages: index
        0 (the "None" entry) and below is refused, an index past the listing finds
        nothing, and otherwise the listed name is selected and its file loaded. */
    method OnClickLoadPresetButton(manager: AIManager?, folder: PresetFolder, whiteSpace: char -> bool)
      returns (messages: seq<Message>)
      modifies this`selectedPresetName, manager
      ensures selectedPresetIndex <= 0 ==>
        && messages == [SelectPresetFirst]
        && selectedPresetName == old(selectedPresetName) && TableOf(manager) == old(TableOf(manager))
      ensures |folder.files| < selectedPresetIndex ==>
        && messages == [NoPresetToLoad]
        && selectedPresetName == old(selectedPresetName) && TableOf(manager) == old(TableOf(manager))
      ensures 0 < selectedPresetIndex <= |folder.files| ==>
        var settings := StoredPresets(folder, selectedPresetName, whiteSpace);
        && selectedPresetName == Stem(folder.files[selectedPresetIndex - 1])
        && TableOf(manager) == LoadedTable(old(TableOf(manager)), settings, ids)
        && messages == LoadMessages(selectedPresetName, LoadApplies(old(TableOf(manager)), settings, ids))
    {
      if selectedPresetIndex <= 0 {
        return [SelectPresetFirst];
      }
      var presets := GetPresets(folder.files);
      if |presets| > selectedPresetIndex {
        selectedPresetName := presets[selectedPresetIndex];
        var applied := false;
        if !IsNullOrWhiteSpace(selectedPresetName, whiteSpace) {
          var filePath := selectedPresetName + PresetExtension;
          if filePath in folder.files {
            var settings := if filePath in folder.contents then Some(folder.contents[filePath]) else None;
            applied := LoadPreset(manager, settings);
          }
        }
        messages := LoadMessages(selectedPresetName, applied);
      } else {
        messages := [NoPresetToLoad];
      }
    }

    /** OnClickDeletePresetButton: the same index guards as loading; a successful
        delete removes the file and resets the selection to the "None" entry. */
    method OnClickDeletePresetButton(folder: PresetFolder, whiteSpace: char -> bool)
      returns (messages: seq<Message>)
      modifies this`selectedPresetIndex, this`selectedPresetName, folder
      ensures old(selectedPresetIndex) <= 0 || |old(folder.files)| < old(selectedPresetIndex) ==>
        && messages == (if old(selectedPresetIndex) <= 0 then [SelectPresetFirst] else [NoPresetToDelete])
        && selectedPresetIndex == old(selectedPresetIndex) && selectedPresetName == old(selectedPresetName)
        && folder.files == old(folder.files) && folder.contents == old(folder.contents)
      ensures 0 < old(selectedPresetIndex) <= |old(folder.files)| ==>
        var name := Stem(old(folder.files)[old(selectedPresetIndex) - 1]);
        var file := name + PresetExtension;
        if !IsNullOrWhiteSpace(name, whiteSpace) && file in old(folder.files) then
          && folder.files == RemoveFile(old(folder.files), file)
          && folder.contents == old(folder.contents) - {file}
          && selectedPresetIndex == 0 && selectedPresetName == ""
          && messages == [PresetDeleted(name)]
        else
          && folder.files == old(folder.files) && folder.contents == old(folder.contents)
          && selectedPresetIndex == old(selectedPresetIndex) && selectedPresetName == name
          && messages == [CouldNotDeletePreset]
    {
      if selectedPresetIndex <= 0 {
        return [SelectPresetFirst];
      }
      var presets := GetPresets(folder.files);
      if |presets| > selectedPresetIndex {
        selectedPresetName := presets[selectedPresetIndex];
        if !IsNullOrWhiteSpace(selectedPresetName, whiteSpace) {
          var filePath := selectedPresetName + PresetExtension;
          if filePath in folder.files {
            var deleted := selectedPresetName;
            folder.files := RemoveFile(folder.files, filePath);
            folder.contents := folder.contents - {filePath};
            selectedPresetIndex := 0;
            selectedPresetName := "";
            return [PresetDeleted(deleted)];
          }
        }
        messages := [CouldNotDeletePreset];
      } else {
        messages := [NoPresetToDelete];
      }
    }

    /** OnClickApplyFilterButton: the grid's label at the selected index, mapped
        back to the enum value shown there. */
    method OnClickApplyFilterButton() returns (messages: seq<Message>)
      requires 0 <= selectedFilterIndex < AnimalFilter.AnimalCount
      modifies this`selectedFilterName, this`selectedFilter
      ensures selectedFilter == AnimalFilter.AnimalAt(selectedFilterIndex)
      ensures selectedFilterName == AnimalFilter.DisplayName(selectedFilter)
      ensures messages == if selectedFilterIndex == 0 then [SelectAnimalFirst] else []
    {
      var filters := AnimalFilter.GetAnimals();
      selectedFilterName := filters[selectedFilterIndex];
      AnimalFilter.DisplayNameParsesBack(AnimalFilter.AnimalAt(selectedFilterIndex));
      var parsed := AnimalFilter.ParseAnimal(ReplaceChar(selectedFilterName, ' ', '_'));
      selectedFilter := parsed.value;
      messages := if selectedFilterIndex == 0 then [SelectAnimalFirst] else [];
    }
  }
}
