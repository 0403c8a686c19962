/** The species filter: the Animals enumeration, the names the selection grid
    shows, and the way a selected index is mapped back to an enum value. */
module AnimalFilter {

  import Wrappers
  import opened Strings

  /** AnimalHusbandry.Animals, in declaration (and value) order. */
  datatype Animals = None | Peccary | Capybara | Tapir

  const AnimalCount: nat := 4

  /** The enum value with the given underlying value. */
  function AnimalAt(i: nat): Animals
    requires i < AnimalCount
  {
    [None, Peccary, Capybara, Tapir][i]
  }

  /** Enum ToString. */
  function Name(a: Animals): string
  {
    match a
    case None => "None"
    case Peccary => "Peccary"
    case Capybara => "Capybara"
    case Tapir => "Tapir"
  }

  /** Enum.Parse(typeof(Animals), s) on the enum names, the only strings the filter
      handler passes it; None for every other string. */
  function ParseAnimal(s: string): (r: Wrappers.Option<Animals>)
    ensures forall a :: r == Wrappers.Some(a) <==> Name(a) == s
  {
    if s == "None" then Wrappers.Some(None)
    else if s == "Peccary" then Wrappers.Some(Peccary)
    else if s == "Capybara" then Wrappers.Some(Capybara)
    else if s == "Tapir" then Wrappers.Some(Tapir)
    else Wrappers.None
  }

  /** The label the grid shows for an enum value: '_' shown as a space. */
  function DisplayName(a: Animals): string
  {
    ReplaceChar(Name(a), '_', ' ')
  }

  /** GetAnimals: the enum names in order, each with '_' rewritten in place as a space. */
  method GetAnimals() returns (animals: array<string>)
    ensures fresh(animals) && animals.Length == AnimalCount
    ensures forall i :: 0 <= i < AnimalCount ==> animals[i] == DisplayName(AnimalAt(i))
  {
    animals := new string[AnimalCount](i requires 0 <= i < AnimalCount => Name(AnimalAt(i)));
    ghost var names := animals[..];
    var len := animals.Length;
    for i := 0 to len
      invariant forall j :: 0 <= j < i ==> animals[j] == ReplaceChar(names[j], '_', ' ')
      invariant forall j :: i <= j < len ==> animals[j] == names[j]
    {
      animals[i] := ReplaceChar(animals[i], '_', ' ');
    }
  }

  /** No enum name contains a space. */
  lemma NoSpaceInNames(a: Animals)
    ensures ' ' !in Name(a)
  {
  }

  /** The filter handler's mapping back: a shown label, with spaces turned into
      '_' again, parses as the enum value it was made from. */
  lemma DisplayNameParsesBack(a: Animals)
    ensures ParseAnimal(ReplaceChar(DisplayName(a), ' ', '_')) == Wrappers.Some(a)
  {
    NoSpaceInNames(a);
    ReplaceCharRoundTrip(Name(a), '_', ' ');
  }
}
