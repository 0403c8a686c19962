/** Preset files: the rules for a new preset's name, the listing of the
    presets folder, and what deleting a file does to that listing. A preset
    named N is stored as the file "N.txt". */
module PresetFiles {

  import opened Strings

  const PresetExtension: string := ".txt"

  /** The sentinel at index 0 of the listing, standing for "no preset selected". */
  const NoPresetEntry: string := "None"

  /** The listed name of a file: its name without ".txt" when it ends so and is longer than that. */
  function Stem(fileName: string): (r: string)
    ensures r == fileName || (|fileName| > |PresetExtension| && fileName == r + PresetExtension)
  {
    if EndsWith(fileName, PresetExtension) && |fileName| > |PresetExtension| then
      fileName[..|fileName| - |PresetExtension|]
    else fileName
  }

  /** The file a preset is saved to is listed under the preset's name again. */
  lemma StemOfPresetFile(name: string)
    requires name != ""
    ensures Stem(name + PresetExtension) == name
  {
  }

  /** GetPresets: the sentinel, then one entry per file of the folder in listing order. */
  method GetPresets(files: seq<string>) returns (presets: seq<string>)
    ensures |presets| == |files| + 1 && presets[0] == NoPresetEntry
    ensures forall i :: 0 <= i < |files| ==> presets[i + 1] == Stem(files[i])
  {
    presets := [NoPresetEntry];
    if |files| > 0 {
      for i := 0 to |files|
        invariant |presets| == i + 1 && presets[0] == NoPresetEntry
        invariant forall j :: 0 <= j < i ==> presets[j + 1] == Stem(files[j])
      {
        presets := presets + [Stem(files[i])];
      }
    }
  }

  /** A character a preset name may hold, with char.IsLetterOrDigit given as `letterOrDigit`. */
  predicate AllowedNameChar(c: char, letterOrDigit: char -> bool)
  {
    letterOrDigit(c) || c == ' ' || c == '-' || c == '_'
  }

  datatype NameVerdict = NameMissing | InvalidCharacters | AlreadyExists | Accepted

  /** The checks OnClickSavePresetButton makes, in its order, before writing a file. */
  function CheckPresetName(name: string, files: seq<string>, letterOrDigit: char -> bool, whiteSpace: char -> bool)
    : (v: NameVerdict)
    ensures v == NameMissing <==> IsNullOrWhiteSpace(name, whiteSpace)
    ensures v == InvalidCharacters <==>
      && !IsNullOrWhiteSpace(name, whiteSpace)
      && !(forall i :: 0 <= i < |name| ==> AllowedNameChar(name[i], letterOrDigit))
    ensures v == Accepted <==>
      && !IsNullOrWhiteSpace(name, whiteSpace)
      && (forall i :: 0 <= i < |name| ==> AllowedNameChar(name[i], letterOrDigit))
      && name + PresetExtension !in files
    ensures v == Accepted ==> name != ""
  {
    if IsNullOrWhiteSpace(name, whiteSpace) then NameMissing
    else if !(forall i :: 0 <= i < |name| ==> AllowedNameChar(name[i], letterOrDigit)) then InvalidCharacters
    else if name + PresetExtension in files then AlreadyExists
    else Accepted
  }

  /** The folder listing once `fileName` is deleted: every other file, in the same order. */
  function RemoveFile(files: seq<string>, fileName: string): (r: seq<string>)
    ensures forall f :: f in r <==> f in files && f != fileName
    ensures |r| <= |files|
    ensures fileName in files ==> |r| < |files|
  {
    if files == [] then []
    else if files[0] == fileName then RemoveFile(files[1..], fileName)
    else [files[0]] + RemoveFile(files[1..], fileName)
  }
}
