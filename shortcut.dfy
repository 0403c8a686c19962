/** Reading the "show settings" shortcut from the mod loader's runtime
    configuration (RuntimeConfiguration.xml), one line at a time. */
module Shortcut {

  import opened Wrappers
  import opened Strings

  /** A value of Unity's KeyCode enumeration. */
  type KeyCode = int

  /** KeyCode.Keypad6. */
  const Keypad6: KeyCode := 262

  /** The shortcut used when the configuration yields none. */
  const DefaultModKeybindingId: KeyCode := Keypad6

  const ModName: string := "AnimalHusbandry"
  const StartDelimiter: string := "<Button ID=\"" + ModName + "\">"
  const EndDelimiter: string := "</Button>"

  /** The text of one configuration line between the first start delimiter and
      the first end delimiter after it; None when the line has no such
      non-empty text. */
  function ExtractShortcut(line: string): (r: Option<string>)
    ensures r.Some? <==>
      && IndexOf(line, StartDelimiter).Some?
      && var b := IndexOf(line, StartDelimiter).value + |StartDelimiter|;
         IndexOf(line[b..], EndDelimiter).Some? && IndexOf(line[b..], EndDelimiter).value > 0
    ensures r.Some? ==>
      && IndexOf(line, StartDelimiter).Some?
      && var b := IndexOf(line, StartDelimiter).value + |StartDelimiter|;
      && |r.value| > 0
      && b + |r.value| <= |line|
      && line[b..b + |r.value|] == r.value
      && OccursAt(line, EndDelimiter, b + |r.value|)
      && forall j :: b <= j < b + |r.value| ==> !OccursAt(line, EndDelimiter, j)
  {
    if !Contains(line, StartDelimiter) || !Contains(line, EndDelimiter) then
      EndAfterStartIsInLine(line);
      None
    else
      var stt := IndexOf(line, StartDelimiter).value;
      if |line| <= stt + |StartDelimiter| then None
      else
        var split := line[stt + |StartDelimiter|..];
        if !Contains(split, EndDelimiter) then None
        else
          var end := IndexOf(split, EndDelimiter).value;
          if end > 0 && |split| > end then
            ShortcutPosition(line, stt + |StartDelimiter|, end);
            Some(split[..end])
          else None
  }

  /** An end delimiter found after the start delimiter is an end delimiter of the line. */
  lemma EndAfterStartIsInLine(line: string)
    ensures IndexOf(line, StartDelimiter).Some? &&
            IndexOf(line[IndexOf(line, StartDelimiter).value + |StartDelimiter|..], EndDelimiter).Some?
            ==> Contains(line, EndDelimiter)
  {
    var stt := IndexOf(line, StartDelimiter);
    if stt.Some? {
      var b := stt.value + |StartDelimiter|;
      var e := IndexOf(line[b..], EndDelimiter);
      if e.Some? {
        OccursInSuffix(line, EndDelimiter, b, e.value);
        assert OccursAt(line, EndDelimiter, b + e.value);
      }
    }
  }

  /** Where the extracted text sits in the line: right after `b`, followed by the
      first end delimiter at or after `b`. */
  lemma ShortcutPosition(line: string, b: nat, end: nat)
    requires b <= |line|
    requires IndexOf(line[b..], EndDelimiter) == Some(end)
    ensures b + end <= |line| && line[b..b + end] == line[b..][..end]
    ensures OccursAt(line, EndDelimiter, b + end)
    ensures forall j :: b <= j < b + end ==> !OccursAt(line, EndDelimiter, j)
  {
    OccursInSuffix(line, EndDelimiter, b, end);
    forall j | b <= j < b + end
      ensures !OccursAt(line, EndDelimiter, j)
    {
      OccursInSuffix(line, EndDelimiter, b, j - b);
    }
  }

  /** The extracted text never contains the end delimiter. */
  lemma ShortcutHasNoEndDelimiter(line: string)
    requires ExtractShortcut(line).Some?
    ensures !Contains(ExtractShortcut(line).value, EndDelimiter)
  {
    var text := ExtractShortcut(line).value;
    var b := IndexOf(line, StartDelimiter).value + |StartDelimiter|;
    var rest := line[b..];
    assert text == rest[..|text|];
    forall j | 0 <= j
      ensures !OccursAt(text, EndDelimiter, j)
    {
      OccursInPrefix(rest, EndDelimiter, |text|, j);
      OccursInSuffix(line, EndDelimiter, b, j);
    }
  }

  /** The rewriting applied before parsing: "NumPad" becomes "Keypad", then every
      "Oem" met by a second scan is removed. */
  function Normalize(text: string): (r: string)
    ensures !Contains(text, "NumPad") && !Contains(text, "Oem") ==> r == text
    ensures |r| <= |text|
  {
    var keypad := Replace(text, "NumPad", "Keypad");
    ReplaceWithoutOccurrence(text, "NumPad", "Keypad");
    ReplaceWithoutOccurrence(keypad, "Oem", "");
    ReplaceLength(text, "NumPad", "Keypad");
    ReplaceLength(keypad, "Oem", "");
    Replace(keypad, "Oem", "")
  }

  /** The first scan of Normalize leaves no "NumPad" and keeps the length, so
      the "Oem" scan works on text in which every "NumPad" is already "Keypad". */
  lemma NumPadBecomesKeypad(text: string)
    ensures !Contains(Replace(text, "NumPad", "Keypad"), "NumPad")
    ensures |Replace(text, "NumPad", "Keypad")| == |text|
  {
    assert 'K' !in "NumPad" && 'N' !in "Keypad";
    ReplaceLeavesNone(text, "NumPad", "Keypad");
    ReplaceLength(text, "NumPad", "Keypad");
  }

  /** "OuNumOemPad" holds no "NumPad", so the first scan returns it unchanged.
      The strings are parameters pinned by the precondition, which keeps the
      scan from being unfolded without bound on literals. */
  lemma FirstScanKeepsOuNumOemPad(s: string, p: string, n: string)
    requires s == "OuNumOemPad" && p == "NumPad" && n == "Keypad"
    ensures Replace(s, p, n) == s
  {
    assert Replace(s[6..], p, n) == s[6..];
    assert s[5..][..6][0] != p[0];
    ReplaceSkipsChar(s[5..], p, n);
    assert s[5..][1..] == s[6..];
    assert s[4..][..6][0] != p[0];
    ReplaceSkipsChar(s[4..], p, n);
    assert s[4..][1..] == s[5..];
    assert s[3..][..6][0] != p[0];
    ReplaceSkipsChar(s[3..], p, n);
    assert s[3..][1..] == s[4..];
    assert s[2..][..6][3] != p[3];
    ReplaceSkipsChar(s[2..], p, n);
    assert s[2..][1..] == s[3..];
    assert s[1..][..6][0] != p[0];
    ReplaceSkipsChar(s[1..], p, n);
    assert s[1..][1..] == s[2..];
    assert s[..6][0] != p[0];
    ReplaceSkipsChar(s, p, n);
  }

  /** The "Oem" scan on "OemPad": the occurrence at the start is cut. */
  lemma OemScanOnOemPad(s: string, p: string, n: string)
    requires s == "OemPad" && p == "Oem" && n == ""
    ensures Replace(s, p, n) == "Pad"
  {
    var t := s[3..];
    assert t == "Pad" && t[1..] == "ad";
    assert Replace(t[1..], p, n) == t[1..];
    assert t[..3][0] != p[0];
    ReplaceSkipsChar(t, p, n);
    assert s[..3] == p;
    ReplaceAtMatch(s, p, n);
  }

  /** The "Oem" scan on "NumOemPad": cutting "Oem" joins "Num" and "Pad". */
  lemma OemScanOnNumOemPad(s: string, p: string, n: string)
    requires s == "NumOemPad" && p == "Oem" && n == ""
    ensures Replace(s, p, n) == "NumPad"
  {
    OemScanOnOemPad(s[3..], p, n);
    assert s[2..][..3][0] != p[0];
    ReplaceSkipsChar(s[2..], p, n);
    assert s[2..][1..] == s[3..];
    assert s[1..][..3][0] != p[0];
    ReplaceSkipsChar(s[1..], p, n);
    assert s[1..][1..] == s[2..];
    assert s[..3][0] != p[0];
    ReplaceSkipsChar(s, p, n);
    assert [s[0]] + ([s[1]] + ([s[2]] + "Pad")) == "NumPad";
  }

  /** The "Oem" scan on "OuNumOemPad" copies "Ou" and goes on as on "NumOemPad". */
  lemma OemScanOnOuNumOemPad(s: string, p: string, n: string)
    requires s == "OuNumOemPad" && p == "Oem" && n == ""
    ensures Replace(s, p, n) == "OuNumPad"
  {
    OemScanOnNumOemPad(s[2..], p, n);
    assert s[1..][..3][0] != p[0];
    ReplaceSkipsChar(s[1..], p, n);
    assert s[1..][1..] == s[2..];
    assert s[..3][1] != p[1];
    ReplaceSkipsChar(s, p, n);
    assert [s[0]] + ([s[1]] + "NumPad") == "OuNumPad";
  }

  /** The "Oem" scan can form a new "NumPad": text with none before Normalize
      ends up holding one, so NumPadBecomesKeypad does not carry over to the
      result of Normalize. */
  lemma OemCutLeavesNumPad(text: string)
    requires text == "OuNumOemPad"
    ensures !Contains(text, "NumPad")
    ensures Normalize(text) == "OuNumPad" && OccursAt(Normalize(text), "NumPad", 2)
  {
    FirstScanKeepsOuNumOemPad(text, "NumPad", "Keypad");
    OemScanOnOuNumOemPad(text, "Oem", "");
    NumPadBecomesKeypad(text);
    assert "OuNumPad"[2..8] == "NumPad";
  }

  /** The key one configuration line yields, with Enum.TryParse<KeyCode> given as `parse`. */
  function LineKey(line: string, parse: string -> Option<KeyCode>): Option<KeyCode>
  {
    match ExtractShortcut(line)
    case None => None
    case Some(text) =>
      var normalized := Normalize(text);
      if normalized == "" then None else parse(normalized)
  }

  /** The key of the first line that yields one under `lineKey`, else the default. */
  function FirstKey(lines: seq<string>, lineKey: string -> Option<KeyCode>): KeyCode
  {
    if lines == [] then DefaultModKeybindingId
    else match lineKey(lines[0])
      case Some(k) => k
      case None => FirstKey(lines[1..], lineKey)
  }

  /** The configured shortcut; `configuration` is None when the file is missing or unreadable. */
  function ConfiguredKey(configuration: Option<seq<string>>, parse: string -> Option<KeyCode>): KeyCode
  {
    match configuration
    case None => DefaultModKeybindingId
    case Some(lines) => FirstKey(lines, line => LineKey(line, parse))
  }

  lemma {:induction false} FirstKeyIsFirstMatch(lines: seq<string>, lineKey: string -> Option<KeyCode>, i: nat)
    requires i < |lines| && lineKey(lines[i]).Some?
    requires forall j :: 0 <= j < i ==> lineKey(lines[j]).None?
    ensures FirstKey(lines, lineKey) == lineKey(lines[i]).value
  {
    if i > 0 {
      assert lineKey(lines[0]).None?;
      FirstKeyIsFirstMatch(lines[1..], lineKey, i - 1);
    }
  }

  lemma {:induction false} FirstKeyFallsBack(lines: seq<string>, lineKey: string -> Option<KeyCode>)
    requires forall j :: 0 <= j < |lines| ==> lineKey(lines[j]).None?
    ensures FirstKey(lines, lineKey) == Keypad6
  {
    if lines != [] {
      assert lineKey(lines[0]).None?;
      FirstKeyFallsBack(lines[1..], lineKey);
    }
  }

  /** Whatever FirstKey returns is the default or the key of some line. */
  lemma {:induction false} FirstKeyComesFromALine(lines: seq<string>, lineKey: string -> Option<KeyCode>)
    ensures FirstKey(lines, lineKey) == Keypad6 ||
            exists i :: 0 <= i < |lines| && lineKey(lines[i]) == Some(FirstKey(lines, lineKey))
  {
    if lines != [] && lineKey(lines[0]).None? {
      FirstKeyComesFromALine(lines[1..], lineKey);
      if FirstKey(lines, lineKey) != Keypad6 {
        var i :| 0 <= i < |lines[1..]| && lineKey(lines[1..][i]) == Some(FirstKey(lines, lineKey));
        assert lineKey(lines[i + 1]) == Some(FirstKey(lines, lineKey));
      }
    }
  }

  /** GetConfigurableKey: the lines are tried in order and the first one whose
      shortcut text parses as a key wins. */
  method GetConfigurableKey(configuration: Option<seq<string>>, parse: string -> Option<KeyCode>)
    returns (key: KeyCode)
    ensures key == ConfiguredKey(configuration, parse)
  {
    if configuration.Some? && |configuration.value| > 0 {
      var lines := configuration.value;
      ghost var lineKey := line => LineKey(line, parse);
      var i := 0;
      while i < |lines|
        invariant 0 <= i <= |lines|
        invariant FirstKey(lines[i..], lineKey) == FirstKey(lines, lineKey)
      {
        assert lines[i..][0] == lines[i] && lines[i..][1..] == lines[i + 1..];
        var parsed := ExtractShortcut(lines[i]);
        if parsed.Some? && parsed.value != "" {
          var normalized := Normalize(parsed.value);
          if normalized != "" {
            var parsedKey := parse(normalized);
            if parsedKey.Some? {
              return parsedKey.value;
            }
          }
        }
        i := i + 1;
      }
    }
    return DefaultModKeybindingId;
  }
}
