// The environment file as text: lines with their endings, and the settings they hold
// (updater/platform.py:719-736; scripts/system-update-updater-atomic.py:206-226).

module EnvText {
  import opened Common

  // The characters at which a text splits into lines.
  predicate IsBreak(c: char) {
    c in ['\n', '\r', '\U{0B}', '\U{0C}', '\U{1C}', '\U{1D}', '\U{1E}', '\U{85}', '\U{2028}', '\U{2029}']
  }

  datatype Line = Line(body: string, ending: string)

  predicate Unbroken(text: string) {
    forall i :: 0 <= i < |text| ==> !IsBreak(text[i])
  }

  function FirstBreak(text: string): (i: nat)
    ensures i <= |text| && Unbroken(text[..i]) && (i < |text| ==> IsBreak(text[i]))
  {
    if text == "" || IsBreak(text[0]) then 0
    else
      var i := 1 + FirstBreak(text[1..]);
      assert text[..i] == [text[0]] + text[1..][..i - 1];
      i
  }

  // How long the line ending at the start of a text is: two for CR LF.
  function EndingLength(text: string): nat {
    if text == "" then 0 else if text[0] == '\r' && |text| > 1 && text[1] == '\n' then 2 else 1
  }

  function FirstLine(text: string): (line: Line)
    ensures |line.body| + |line.ending| <= |text|
    ensures text == line.body + line.ending + text[|line.body| + |line.ending|..]
    ensures text != "" ==> line.body != "" || line.ending != ""
  {
    var i := FirstBreak(text);
    Line(text[..i], text[i..i + EndingLength(text[i..])])
  }

  function After(text: string): string {
    text[|FirstLine(text).body| + |FirstLine(text).ending|..]
  }

  function Lines(text: string): seq<Line>
    decreases |text|
  {
    if text == "" then [] else [FirstLine(text)] + Lines(After(text))
  }

  function Whole(line: Line): string {
    line.body + line.ending
  }

  function Joined(lines: seq<Line>): string {
    if lines == [] then "" else Whole(lines[0]) + Joined(lines[1..])
  }

  lemma {:induction false} JoinedLines(text: string)
    ensures Joined(Lines(text)) == text
    decreases |text|
  {
    if text != "" {
      JoinedLines(After(text));
      assert Lines(text)[1..] == Lines(After(text));
      assert text == Whole(FirstLine(text)) + After(text);
    }
  }

  lemma Associative(a: string, b: string, c: string)
    ensures a + (b + c) == (a + b) + c
  {
  }

  lemma JoinedFrontLine(line: Line, lines: seq<Line>)
    ensures Joined([line] + lines) == Whole(line) + Joined(lines)
  {
    assert ([line] + lines)[1..] == lines;
  }

  lemma {:induction false} JoinedParts(a: seq<Line>, b: seq<Line>)
    ensures Joined(a + b) == Joined(a) + Joined(b)
  {
    if a == [] {
      assert a + b == b;
      assert Joined(a) == "";
      return;
    }
    hide Joined, Whole;
    JoinedParts(a[1..], b);
    JoinedFrontLine(a[0], a[1..]);
    JoinedFrontLine(a[0], a[1..] + b);
    assert a == [a[0]] + a[1..] && a + b == [a[0]] + (a[1..] + b);
    Associative(Whole(a[0]), Joined(a[1..]), Joined(b));
  }

  // A line a splitting could give, with something behind it.
  predicate Proper(line: Line, rest: string) {
    && Unbroken(line.body)
    && if line.ending == "" then rest == "" && line.body != ""
       else if line.ending == "\r" then rest == "" || rest[0] != '\n'
       else line.ending == "\r\n" || (|line.ending| == 1 && IsBreak(line.ending[0]))
  }

  // Such a line is split off first.
  lemma FirstLineIs(line: Line, rest: string)
    requires Proper(line, rest)
    ensures Whole(line) + rest != "" && FirstLine(Whole(line) + rest) == line && After(Whole(line) + rest) == rest
    ensures Lines(Whole(line) + rest) == [line] + Lines(rest)
  {
    var text := Whole(line) + rest;
    BreakAfter(line.body, line.ending + rest);
    assert text == line.body + (line.ending + rest);
    assert text[|line.body|..] == line.ending + rest;
    assert text[..|line.body|] == line.body;
  }

  // The first break is where an unbroken beginning ends.
  lemma {:induction false} BreakAfter(body: string, rest: string)
    requires Unbroken(body) && (rest == "" || IsBreak(rest[0]))
    ensures FirstBreak(body + rest) == |body|
  {
    if body != "" {
      BreakAfter(body[1..], rest);
      assert (body + rest)[1..] == body[1..] + rest;
    } else {
      assert body + rest == rest;
    }
  }

  // Lines as a splitting gives them.
  predicate AllProper(lines: seq<Line>) {
    forall k :: 0 <= k < |lines| ==> Proper(lines[k], Joined(lines[k + 1..]))
  }

  lemma FirstLineIsProper(text: string)
    requires text != ""
    ensures Proper(FirstLine(text), After(text)) && text == Whole(FirstLine(text)) + After(text)
  {
    var i := FirstBreak(text);
    var n := EndingLength(text[i..]);
    assert After(text) == text[i + n..];
    if i == |text| {
      assert text[i..] == "";
    } else {
      assert text[i..][0] == text[i];
    }
  }

  lemma ProperInFront(line: Line, lines: seq<Line>)
    requires Proper(line, Joined(lines)) && AllProper(lines)
    ensures AllProper([line] + lines)
  {
    hide Proper, Joined;
    var more := [line] + lines;
    forall k | 0 <= k < |more| ensures Proper(more[k], Joined(more[k + 1..])) {
      if k == 0 {
        assert more[1..] == lines;
      } else {
        assert more[k] == lines[k - 1] && more[k + 1..] == lines[k..];
      }
    }
  }

  lemma {:induction false} LinesAreProper(text: string)
    ensures AllProper(Lines(text))
    decreases |text|
  {
    if text != "" {
      FirstLineIsProper(text);
      LinesAreProper(After(text));
      JoinedLines(After(text));
      ProperInFront(FirstLine(text), Lines(After(text)));
    }
  }

  lemma ProperTail(lines: seq<Line>)
    requires AllProper(lines) && lines != []
    ensures AllProper(lines[1..])
  {
    hide Proper, Joined;
    forall k | 0 <= k < |lines| - 1 ensures Proper(lines[1..][k], Joined(lines[1..][k + 1..])) {
      assert lines[1..][k + 1..] == lines[k + 2..];
      assert Proper(lines[k + 1], Joined(lines[k + 2..]));
    }
  }

  // Splitting undoes joining.
  lemma {:induction false} LinesOfJoined(lines: seq<Line>)
    requires AllProper(lines)
    ensures Lines(Joined(lines)) == lines
  {
    if lines == [] {
      return;
    }
    hide Proper, Joined, Lines, Whole, FirstLine, After;
    ProperTail(lines);
    LinesOfJoined(lines[1..]);
    assert lines[0 + 1..] == lines[1..];
    FirstLineIs(lines[0], Joined(lines[1..]));
    JoinedFrontLine(lines[0], lines[1..]);
    assert lines == [lines[0]] + lines[1..];
  }

  // Settings.

  predicate IsKeyStart(c: char) {
    'A' <= c <= 'Z' || 'a' <= c <= 'z' || c == '_'
  }

  predicate IsKeyChar(c: char) {
    IsKeyStart(c) || '0' <= c <= '9'
  }

  predicate IsKey(text: string) {
    text != "" && IsKeyStart(text[0]) && forall i :: 0 <= i < |text| ==> IsKeyChar(text[i])
  }

  // In ASCII codes: a letter (65-90, 97-122) or an underscore (95) first, then those and digits (48-57).
  lemma KeysAreNames(text: string)
    ensures IsKey(text) <==>
              && text != ""
              && (forall i :: 0 <= i < |text| ==>
                    var code := text[i] as int;
                    65 <= code <= 90 || 97 <= code <= 122 || code == 95 || (i > 0 && 48 <= code <= 57))
  {
  }

  // Up to the first equals sign.
  function KeyLength(text: string): (n: nat)
    ensures n <= |text| && (n < |text| ==> text[n] == '=') && forall i :: 0 <= i < n ==> text[i] != '='
  {
    if text == "" || text[0] == '=' then 0 else 1 + KeyLength(text[1..])
  }

  datatype Setting = Setting(key: string, value: string)

  // A line NAME=value, where the value may be anything.
  function SettingOf(text: string): Option<Setting> {
    var n := KeyLength(text);
    if n < |text| && IsKey(text[..n]) then Some(Setting(text[..n], text[n + 1..])) else None
  }

  lemma SettingOfText(key: string, value: string)
    requires IsKey(key)
    ensures SettingOf(key + "=" + value) == Some(Setting(key, value))
  {
    var text := key + "=" + value;
    KeyEnds(key, "=" + value);
    assert text == key + ("=" + value);
    assert text[..|key|] == key && text[|key| + 1..] == value;
  }

  lemma {:induction false} KeyEnds(key: string, rest: string)
    requires (forall i :: 0 <= i < |key| ==> key[i] != '=') && rest != "" && rest[0] == '='
    ensures KeyLength(key + rest) == |key|
  {
    if key != "" {
      KeyEnds(key[1..], rest);
      assert (key + rest)[1..] == key[1..] + rest;
    } else {
      assert key + rest == rest;
    }
  }

  predicate Skipped(text: string) {
    text == "" || text[0] == '#'
  }

  // A line ending other than CR, LF and CR LF.
  predicate Exotic(ending: string) {
    ending != "" && ending != "\n" && ending != "\r" && ending != "\r\n"
  }

  // What a reader takes a line to say: one that only knows CR and LF sees other endings as text.
  function Said(line: Line, onlyCrLf: bool): string {
    if onlyCrLf && Exotic(line.ending) then line.body + line.ending else line.body
  }

  type Settings = map<string, string>

  // One more line.
  function Read(settings: Option<Settings>, said: string): Option<Settings> {
    match settings
    case None => None
    case Some(known) =>
      if Skipped(said) then settings
      else match SettingOf(said)
        case None => None
        case Some(s) => if s.key in known then None else Some(known[s.key := s.value])
  }

  // What a line does to the settings so far: blank lines and comments nothing, NAME=value adds a name not there yet, and
  // anything else makes the file unreadable.
  lemma LinesRead(known: Settings, said: string)
    ensures Read(None, said) == None
    ensures said == "" || said[0] == '#' ==> Read(Some(known), said) == Some(known)
    ensures forall key, value ::
              IsKey(key) && key !in known && said == key + "=" + value ==>
                Read(Some(known), said) == Some(known[key := value])
    ensures Read(Some(known), said).Some? ==>
              said == "" || said[0] == '#' || exists key, value :: IsKey(key) && key !in known && said == key + "=" + value
  {
    forall key, value | IsKey(key) && key !in known && said == key + "=" + value
      ensures Read(Some(known), said) == Some(known[key := value])
    {
      SettingOfText(key, value);
      assert said[0] == key[0];
    }
    if said != "" && said[0] != '#' && SettingOf(said).Some? {
      var n := KeyLength(said);
      assert said == said[..n] + "=" + said[n + 1..];
    }
  }

  // The settings of a file; None where the file is refused.
  function Parsed(lines: seq<Line>, onlyCrLf: bool): Option<Settings> {
    if lines == [] then Some(map[])
    else Read(Parsed(lines[..|lines| - 1], onlyCrLf), Said(lines[|lines| - 1], onlyCrLf))
  }

  predicate Sets(line: Line, key: string, onlyCrLf: bool) {
    var said := Said(line, onlyCrLf);
    !Skipped(said) && SettingOf(said).Some? && SettingOf(said).value.key == key
  }

  lemma ParsedOneMore(lines: seq<Line>, line: Line, onlyCrLf: bool)
    ensures Parsed(lines + [line], onlyCrLf) == Read(Parsed(lines, onlyCrLf), Said(line, onlyCrLf))
  {
    assert (lines + [line])[..|lines|] == lines;
  }

  // What reading one more line of an accepted file does.
  lemma ReadAdds(lines: seq<Line>, line: Line, onlyCrLf: bool)
    requires Parsed(lines + [line], onlyCrLf).Some?
    ensures Parsed(lines, onlyCrLf).Some?
    ensures var known, next := Parsed(lines, onlyCrLf).value, Parsed(lines + [line], onlyCrLf).value;
            && (forall key :: key in known ==> key in next && next[key] == known[key])
            && (forall key :: Sets(line, key, onlyCrLf) ==>
                  key !in known && next == known[key := SettingOf(Said(line, onlyCrLf)).value.value])
  {
    ParsedOneMore(lines, line, onlyCrLf);
    hide Parsed, SettingOf;
  }

  // In an accepted file a setting's line is the only one of its key and gives its value.
  lemma {:induction false} LineDecides(lines: seq<Line>, k: nat, key: string, onlyCrLf: bool)
    requires Parsed(lines, onlyCrLf).Some? && k < |lines| && Sets(lines[k], key, onlyCrLf)
    ensures key in Parsed(lines, onlyCrLf).value
    ensures Parsed(lines, onlyCrLf).value[key] == SettingOf(Said(lines[k], onlyCrLf)).value.value
    ensures forall j :: 0 <= j < |lines| && Sets(lines[j], key, onlyCrLf) ==> j == k
  {
    var n := |lines| - 1;
    var front := lines[..n];
    assert lines == front + [lines[n]];
    ReadAdds(front, lines[n], onlyCrLf);
    hide Parsed, SettingOf, Said, Sets;
    if k < n {
      LineDecides(front, k, key, onlyCrLf);
      forall j | 0 <= j < |lines| && Sets(lines[j], key, onlyCrLf) ensures j == k {
        if j < n {
          assert front[j] == lines[j];
        }
      }
    } else {
      forall j | 0 <= j < n ensures !Sets(lines[j], key, onlyCrLf) {
        assert front[j] == lines[j];
        if Sets(front[j], key, onlyCrLf) {
          LineDecides(front, j, key, onlyCrLf);
        }
      }
    }
  }

  lemma {:induction false} SomeLineSets(lines: seq<Line>, key: string, onlyCrLf: bool) returns (k: nat)
    requires Parsed(lines, onlyCrLf).Some? && key in Parsed(lines, onlyCrLf).value
    ensures k < |lines| && Sets(lines[k], key, onlyCrLf)
  {
    var n := |lines| - 1;
    if Sets(lines[n], key, onlyCrLf) {
      k := n;
    } else {
      k := SomeLineSets(lines[..n], key, onlyCrLf);
    }
  }

  // Reading on does not touch what is known.
  lemma ReadKeepsKnown(known: Settings, said: string, key: string, value: string)
    requires key in known && Read(Some(known), said).Some?
    ensures Read(Some(known[key := value]), said) == Some(Read(Some(known), said).value[key := value])
  {
    hide SettingOf;
    if !Skipped(said) {
      var s := SettingOf(said).value;
      assert known[key := value][s.key := s.value] == known[s.key := s.value][key := value];
    }
  }

  lemma ReplacedLast(front: seq<Line>, was: Line, line: Line, key: string, onlyCrLf: bool)
    requires Parsed(front + [was], onlyCrLf).Some? && Sets(was, key, onlyCrLf) && Sets(line, key, onlyCrLf)
    ensures Parsed(front + [line], onlyCrLf)
         == Some(Parsed(front + [was], onlyCrLf).value[key := SettingOf(Said(line, onlyCrLf)).value.value])
  {
    ReadAdds(front, was, onlyCrLf);
    ParsedOneMore(front, line, onlyCrLf);
    hide Parsed, SettingOf, Said;
    var known, value := Parsed(front, onlyCrLf).value, SettingOf(Said(line, onlyCrLf)).value.value;
    assert Parsed(front + [was], onlyCrLf).value[key := value] == known[key := value];
  }

  // Giving a setting's line another value changes that setting alone.
  lemma {:induction false} ReplacedLine(lines: seq<Line>, k: nat, line: Line, key: string, onlyCrLf: bool)
    requires Parsed(lines, onlyCrLf).Some? && k < |lines| && Sets(lines[k], key, onlyCrLf) && Sets(line, key, onlyCrLf)
    ensures Parsed(lines[k := line], onlyCrLf)
         == Some(Parsed(lines, onlyCrLf).value[key := SettingOf(Said(line, onlyCrLf)).value.value])
  {
    hide Parsed, SettingOf, Said, Read;
    var n := |lines| - 1;
    var front := lines[..n];
    assert lines == front + [lines[n]];
    if k < n {
      ReadAdds(front, lines[n], onlyCrLf);
      ReplacedLine(front, k, line, key, onlyCrLf);
      LineDecides(front, k, key, onlyCrLf);
      assert lines[k := line] == front[k := line] + [lines[n]];
      ParsedOneMore(front, lines[n], onlyCrLf);
      ParsedOneMore(front[k := line], lines[n], onlyCrLf);
      ReadKeepsKnown(Parsed(front, onlyCrLf).value, Said(lines[n], onlyCrLf), key,
                     SettingOf(Said(line, onlyCrLf)).value.value);
    } else {
      assert lines[k := line] == front + [line];
      ReplacedLast(front, lines[n], line, key, onlyCrLf);
    }
  }

  // A line that says nothing can go.
  lemma {:induction false} DroppedLine(a: seq<Line>, line: Line, b: seq<Line>, onlyCrLf: bool)
    requires Skipped(Said(line, onlyCrLf))
    ensures Parsed(a + [line] + b, onlyCrLf) == Parsed(a + b, onlyCrLf)
  {
    if b == [] {
      ParsedOneMore(a, line, onlyCrLf);
      assert a + [line] + b == a + [line] && a + b == a;
    } else {
      var n := |b| - 1;
      DroppedLine(a, line, b[..n], onlyCrLf);
      assert a + [line] + b == (a + [line] + b[..n]) + [b[n]];
      assert a + b == (a + b[..n]) + [b[n]];
      ParsedOneMore(a + [line] + b[..n], b[n], onlyCrLf);
      ParsedOneMore(a + b[..n], b[n], onlyCrLf);
    }
  }
}
