# AnimalHusbandry — a Dafny model of the mod's settings core

AnimalHusbandry is a Green Hell mod that lets a player tune the farm-animal
parameters of three species (Peccary, Capybara, Tapir) and save or load them
as named presets. This project models the part of `AnimalHusbandry.cs` that is
logic rather than GUI:

- **Shortcut parsing** (`Shortcut`): `GetConfigurableKey` scans the runtime
  configuration lines in order, takes the text between the first
  `<Button ID="AnimalHusbandry">` and the next `</Button>`, rewrites `NumPad`
  to `Keypad`, removes `Oem`, and returns the first key that parses, falling
  back to `Keypad6`.
- **Preset files** (`PresetFiles`): the preset-name checks of the save
  button, the folder listing (`"None"` followed by the file names without
  `.txt`), and the effect of deleting a file on that listing.
- **Species filter** (`AnimalFilter`): the `Animals` enumeration, the labels
  `GetAnimals` builds in place, and the way the filter button maps an index
  back to an enum value.
- **Parameter mirror** (`AnimalParams`): the `Preset` record (29 floats, one
  int and a name), the host's per-species parameters, `CurrentSettingsToPreset`
  (table to presets) and the in-place write-back of `LoadPreset`, with both
  round trips proved.
- **The mod object** (`Husbandry`): the selection fields and the start-up,
  restore, save, load, delete and filter handlers, over an `AIManager` object
  holding the species table and a `PresetFolder` object holding the files.

Foreign pieces are parameters: `Enum.TryParse<KeyCode>` is a function
`string -> Option<KeyCode>`, `char.IsLetterOrDigit` and `char.IsWhiteSpace`
are `char -> bool`, and the host's AIID values of the three species are a
`SpeciesIds` record. Floats are only copied, so `Float32` is `real`.

## Model

| member | source | states |
|---|---|---|
| Strings.FindFrom | AnimalHusbandry.cs:136-144 | the result is an occurrence of the pattern and no earlier position holds one; None means no position holds one |
| Strings.Replace | AnimalHusbandry.cs:150 | String.Replace as one left-to-right scan; its meaning is given by ReplaceWithoutOccurrence and ReplaceAtFirstOccurrence, which together fix its result on every input |
| Strings.ReplaceWithoutOccurrence | AnimalHusbandry.cs:150 | String.Replace, modelled as one left-to-right scan, returns a string without the pattern unchanged |
| Strings.ReplaceAtFirstOccurrence | AnimalHusbandry.cs:150 | the text before the first occurrence (as IndexOf finds it) is kept, that occurrence becomes the new value, and the scan resumes right after it |
| Strings.ReplaceLeavesNone | AnimalHusbandry.cs:150 | when the new value can neither start nor end an occurrence of the pattern, the result holds no occurrence of it |
| Strings.ReplaceLength | AnimalHusbandry.cs:150 | a replacement no longer than the pattern never lengthens the string, and one of equal length keeps its length |
| Strings.ReplaceChar | AnimalHusbandry.cs:460 | same length, each character equal to the old one except the replaced character |
| Strings.ReplaceCharRoundTrip | AnimalHusbandry.cs:954 | swapping '_' for ' ' and back restores a string that had no ' ' |
| Shortcut.ExtractShortcut | AnimalHusbandry.cs:132-148 | some text exactly when the line has the start delimiter, an end delimiter after it, and not immediately after it; the text is non-empty, starts right after the first start delimiter, is followed by an end delimiter and has no end delimiter starting inside it |
| Shortcut.ShortcutHasNoEndDelimiter | AnimalHusbandry.cs:142-147 | the extracted text never contains `</Button>` |
| Shortcut.Normalize | AnimalHusbandry.cs:150 | the rewritten text is never longer than the shortcut text, and text holding neither NumPad nor Oem is left as it is |
| Shortcut.NumPadBecomesKeypad | AnimalHusbandry.cs:150 | the first scan leaves no NumPad behind and keeps the length, so every NumPad is Keypad before the Oem scan runs |
| Shortcut.OemCutLeavesNumPad | AnimalHusbandry.cs:150 | the `Oem` scan can form a new NumPad: `OuNumOemPad` holds none, yet normalises to `OuNumPad`, which holds one |
| Shortcut.LineKey | AnimalHusbandry.cs:136-156 | the key one line yields: none unless ExtractShortcut finds text and its normalised form is non-empty, else whatever the key parser gives; its meaning is given by the ExtractShortcut and Normalize contracts |
| Shortcut.FirstKey | AnimalHusbandry.cs:134-165 | the first key any line yields under a per-line key function, else Keypad6; characterised by FirstKeyIsFirstMatch, FirstKeyFallsBack and FirstKeyComesFromALine |
| Shortcut.ConfiguredKey | AnimalHusbandry.cs:117-166 | Keypad6 when the configuration file is missing or unreadable, else FirstKey with LineKey; GetConfigurableKey is proved to compute it |
| Shortcut.FirstKeyIsFirstMatch | AnimalHusbandry.cs:134-155 | for any per-line key function (LineKey in ConfiguredKey): when line i is the first line yielding a key, that key is the result |
| Shortcut.FirstKeyFallsBack | AnimalHusbandry.cs:164-165 | for any per-line key function: when no line yields a key, the result is Keypad6 |
| Shortcut.FirstKeyComesFromALine | AnimalHusbandry.cs:134-165 | for any per-line key function: the result is Keypad6 or the key of some line |
| Shortcut.GetConfigurableKey | AnimalHusbandry.cs:117-166 | the loop with its early return computes the configured key: first matching line, else Keypad6, also when the file is missing or unreadable |
| AnimalParams.DefaultPreset | Preset.cs:5-41 | a fresh record has the given name, MaturationPerSec 0.01 and every other field zero |
| AnimalParams.Capture | AnimalHusbandry.cs:260-289 | the captured preset carries the given species name |
| AnimalParams.ApplyCaptured | AnimalHusbandry.cs:260-289 | writing a capture back into the entry it came from leaves that entry unchanged |
| AnimalParams.Apply | AnimalHusbandry.cs:387-416 | writing a preset into an entry sets all 30 mirrored fields to the preset's and keeps every other field of the entry |
| AnimalParams.PresetKey | AnimalHusbandry.cs:375-383 | Peccary selects the Peccary AIID, Capybara the Capybara AIID and Tapir the Tapir AIID; any other name gives -1 |
| AnimalParams.CurrentSettingsToPreset | AnimalHusbandry.cs:245-359 | always three presets named Peccary, Capybara, Tapir in that order; copied from the entries their names select when all three species are present, record defaults otherwise |
| AnimalParams.ApplyOne | AnimalHusbandry.cs:375-417 | one loop turn never adds or removes a table key |
| AnimalParams.ApplyAll | AnimalHusbandry.cs:373-418 | the whole loop never adds or removes a table key |
| AnimalParams.LoadedTable | AnimalHusbandry.cs:365-372 | the table changes only when the list has exactly three presets and all three species are present; keys are kept |
| AnimalParams.ApplyAllLeavesOthers | AnimalHusbandry.cs:385-417 | an entry that no recognised preset selects is untouched, so presets with unknown names change nothing |
| AnimalParams.ApplyAllKeepsUnmirrored | AnimalHusbandry.cs:387-416 | no entry loses the fields the presets do not carry |
| AnimalParams.ApplyAllLastWins | AnimalHusbandry.cs:373-418 | an entry ends with the fields of the last preset in the list that selects it |
| AnimalParams.LoadCapturedIsIdentity | AnimalHusbandry.cs:245-358 | loading the settings just captured leaves the table as it was (so restoring defaults right after start-up changes nothing) |
| AnimalParams.CaptureAfterLoad | AnimalHusbandry.cs:387-416 | with distinct AIIDs, capturing right after loading a Peccary/Capybara/Tapir list returns that list |
| PresetFiles.Stem | AnimalHusbandry.cs:440 | the listed name is the file name, or the file name minus a trailing `.txt` when it is longer than that |
| PresetFiles.StemOfPresetFile | AnimalHusbandry.cs:978 | a non-empty name saved as name + `.txt` is listed as name again |
| PresetFiles.GetPresets | AnimalHusbandry.cs:425-451 | `"None"` at index 0, then one entry per file in listing order, entry i+1 the stem of file i |
| PresetFiles.CheckPresetName | AnimalHusbandry.cs:964-983 | a name is accepted exactly when it is not blank, every character is a letter, digit, space, `-` or `_`, and its file does not exist; blank names get the missing-name verdict; a non-blank name with a disallowed character gets the invalid-characters verdict even when its file exists; accepted names are non-empty |
| PresetFiles.RemoveFile | AnimalHusbandry.cs:882 | after deleting a file the folder holds exactly the other files, and fewer files when the deleted one was there |
| AnimalFilter.ParseAnimal | AnimalHusbandry.cs:954 | parsing is the inverse of the enum names: it yields a value exactly when the text is that value's name |
| AnimalFilter.GetAnimals | AnimalHusbandry.cs:453-463 | a fresh array of the four labels in enum order, each with '_' rewritten as a space |
| AnimalFilter.NoSpaceInNames | AnimalHusbandry.cs:23-29 | no enum name holds a space |
| AnimalFilter.DisplayNameParsesBack | AnimalHusbandry.cs:953-954 | a grid label, with spaces turned back into '_', parses as the value it was made from |
| Husbandry.LoadMessagesAsWritten | AnimalHusbandry.cs:930-939 | as written, the failure message is shown on every in-range load, successful or not |
| Husbandry.LoadMessages | AnimalHusbandry.cs:930-939 | corrected: exactly one message, the failure message exactly when nothing was applied |
| Husbandry.StoredPresets | AnimalHusbandry.cs:917-929 | the presets the load handler reads for a listed name: none when the name is blank or its file does not exist, else the file's contents; OnClickLoadPresetButton's contract states the load it feeds |
| Husbandry.SuccessfulLoadAlsoReportsFailure | AnimalHusbandry.cs:930-939 | a successful load shows success then failure as written, success alone when corrected |
| Husbandry.AnimalHusbandry.constructor | AnimalHusbandry.cs:58-92 | shortcut Keypad6, no default settings, filter None, indices 0, empty names and preset name field |
| Husbandry.AnimalHusbandry.Start | AnimalHusbandry.cs:1015-1027 | the shortcut becomes the configured key and the defaults become the current settings; nothing else changes |
| Husbandry.AnimalHusbandry.LoadPreset | AnimalHusbandry.cs:361-423 | the manager's table becomes LoadedTable of the old one, and the result says whether the guard passed |
| Husbandry.AnimalHusbandry.OnClickRestoreDefaultsButton | AnimalHusbandry.cs:859-862 | the saved defaults are loaded; the restored message appears exactly when they were applied |
| Husbandry.AnimalHusbandry.OnClickSavePresetButton | AnimalHusbandry.cs:960-999 | an accepted name adds one file holding the current settings, listed under that name; any other name leaves the folder unchanged with its rejection message |
| Husbandry.AnimalHusbandry.OnClickLoadPresetButton | AnimalHusbandry.cs:904-946 | index <= 0 or past the listing changes nothing; otherwise the listed name is selected and the table becomes LoadedTable of the stored presets of that name; the messages shown follow the corrected LoadMessages, not the fall-through of the source (see Findings) |
| Husbandry.AnimalHusbandry.OnClickDeletePresetButton | AnimalHusbandry.cs:864-902 | same index guards; a successful delete removes exactly that file and resets the index to 0 and the name to ""; a failed one keeps the folder and leaves the listed name selected |
| Husbandry.AnimalHusbandry.OnClickApplyFilterButton | AnimalHusbandry.cs:948-958 | the selected filter is the enum value at the selected index and its name the grid label; index 0 asks for an animal |

## Left out

- The immediate-mode GUI (windows, sliders, labels, scroll views, the
  collapse/close buttons and `ShowUI`/`IsMinimized` toggles, window
  rectangles): engine UI with float geometry; slider clamping happens in a
  library the mod does not contain. The `F3` float formatting is display only.
- `Update` and the key-press toggle, cursor and player blocking, the
  multiplayer-host check, `ModAPI.Log` output: host-engine calls with nothing to check.
  HUD messages are kept only as which message a handler shows.
- File and XML I/O: the configuration file is an optional sequence of lines,
  the presets folder is a `PresetFolder` of `*.txt` names plus what each file
  deserialises to. The XML wire format is not visible, so a saved file is
  assumed to deserialise to the presets written into it; exceptions from the
  file system are not modelled.
- Where a newly saved file appears in the folder listing is the file system's
  choice; the model puts it last. File names are compared case-sensitively.
- `Enum.TryParse<KeyCode>`, `GetAIID` and the AIID values, `char.IsLetterOrDigit`
  and `char.IsWhiteSpace` are parameters, not definitions.
- `IndexOf(string)` and `EndsWith(string)` in .NET compare culture-sensitively;
  the model's `Strings.IndexOf` and `Strings.EndsWith` (used by `PresetFiles.Stem`
  for `.txt`) compare ordinally, which agrees for the ASCII delimiters and suffix
  except around characters a culture ignores.
- `SelectedPresetName` and `SelectedFilterName` start as null in C#; the model starts them as "".
- .NET strings are sequences of UTF-16 code units; the model's `char` is a
  Unicode scalar value. A character outside the Basic Multilingual Plane counts
  once in the model and twice in C#, which differs for the `Length > 4` test of
  the preset listing and the per-character name check; the model assumes names
  and file names from that plane.
- Husbandry.AnimalHusbandry.LoadPreset and AnimalParams.LoadedTable: the deserialised list's elements and the
  host table's entries are assumed non-null. In C# a null element (at the
  `preset.Name` read) or a null `FarmAnimalParams` entry throws part-way through
  the loop, after earlier presets were written, and the load handler then shows
  only its failure message over a partly updated table; the model's load applies
  all presets or none.
- `FarmAnimalParams` is a class in the host, and the write-back assigns through
  the dictionary's entry object; the model makes it a value, so each AIID key
  holds its own entry. Two AIIDs sharing one object cannot be represented; for
  such a table `ApplyAllLastWins` and `CaptureAfterLoad` would not carry over.
- The `FarmAnimalParams` fields beyond the 30 mirrored ones are represented by
  four of the six members that `Preset.cs` leaves commented out (the two harvesting-result lists are not represented); the rest of the host record
  is not visible.

## Findings

| source | as written | input that shows it | evidently intended | confidence | as-written member | corrected member |
|---|---|---|---|---|---|---|
| AnimalHusbandry.cs:930-939 | after `LoadPreset` succeeds the handler falls through, logs "Could not load preset" and shows the "Could not load preset … check logs" HUD | select an existing preset at index 1 while all three species are in the table | return after a successful load, as the delete handler does | high, not executed | Husbandry.LoadMessagesAsWritten | Husbandry.LoadMessages |
