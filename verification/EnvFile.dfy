// Rewriting one tag of the environment file: persist_version (updater/platform.py:314-339) and
// capture_environment (scripts/system-update-updater-atomic.py:175-239).

module EnvFile {
  import opened Common
  import opened EnvText

  const WEB_TAG := "FINREC_WEB_IMAGE_TAG"
  const UPDATER_TAG := "FINREC_UPDATER_IMAGE_TAG"

  predicate Numeral(text: string) {
    text != "" && (text[0] != '0' || |text| == 1) && forall i :: 0 <= i < |text| ==> '0' <= text[i] <= '9'
  }

  // A version whose dots are at i and j.
  predicate DotsAt(text: string, i: nat, j: nat)
    requires 0 < i < j < |text|
  {
    && text[0] == 'v' && text[i] == '.' && text[j] == '.'
    && Numeral(text[1..i]) && Numeral(text[i + 1..j]) && Numeral(text[j + 1..])
  }

  // v1.20.3 and the like.
  predicate IsVersion(text: string) {
    exists i, j :: 0 < i < j < |text| && DotsAt(text, i, j)
  }

  // The digits of a number, the highest first.
  function Decimal(n: nat): (text: string)
    ensures text != ""
  {
    var digit := [('0' as int + n % 10) as char];
    if n < 10 then digit else Decimal(n / 10) + digit
  }

  lemma {:induction false} DecimalIsNumeral(n: nat)
    ensures Numeral(Decimal(n)) && (n > 0 ==> Decimal(n)[0] != '0')
  {
    if n >= 10 {
      DecimalIsNumeral(n / 10);
    }
  }

  lemma {:induction false} NumeralIsDecimal(text: string) returns (n: nat)
    requires Numeral(text)
    ensures text == Decimal(n) && (text != "0" ==> n > 0)
  {
    var last := |text| - 1;
    var digit := text[last] as int - '0' as int;
    if last == 0 {
      n := digit;
      assert text == [text[0]];
    } else {
      var high := NumeralIsDecimal(text[..last]);
      n := 10 * high + digit;
      assert n / 10 == high && n % 10 == digit && n >= 10;
      assert text == text[..last] + [text[last]];
    }
  }

  lemma TripleIsVersion(x: string, y: string, z: string)
    requires Numeral(x) && Numeral(y) && Numeral(z)
    ensures IsVersion("v" + x + "." + y + "." + z)
  {
    hide Numeral;
    var front, back := "v" + x, "." + z;
    var text := "v" + x + "." + y + "." + z;
    var i := |front|;
    var j := i + 1 + |y|;
    assert text == front + ("." + y + back);
    assert text[..i] == front;
    assert text[1..i] == front[1..] == x;
    assert text[i..] == "." + y + back;
    assert text[i + 1..j] == text[i..][1..1 + |y|] == y;
    assert text[j..] == back;
    assert text[j + 1..] == text[j..][1..] == z;
    assert DotsAt(text, i, j);
  }

  lemma VersionIsTriple(text: string, i: nat, j: nat) returns (a: nat, b: nat, c: nat)
    requires 0 < i < j < |text| && DotsAt(text, i, j)
    ensures text == "v" + Decimal(a) + "." + Decimal(b) + "." + Decimal(c)
  {
    hide Numeral, Decimal;
    a := NumeralIsDecimal(text[1..i]);
    b := NumeralIsDecimal(text[i + 1..j]);
    c := NumeralIsDecimal(text[j + 1..]);
    assert text == "v" + text[1..i] + "." + text[i + 1..j] + "." + text[j + 1..];
  }

  // A version is what three numbers give, each written without leading zeros.
  lemma VersionsAreTriples(text: string)
    ensures IsVersion(text) <==>
              exists a: nat, b: nat, c: nat :: text == "v" + Decimal(a) + "." + Decimal(b) + "." + Decimal(c)
  {
    hide Numeral, Decimal, DotsAt;
    if IsVersion(text) {
      var i, j :| 0 < i < j < |text| && DotsAt(text, i, j);
      var a, b, c := VersionIsTriple(text, i, j);
    }
    if a: nat, b: nat, c: nat :| text == "v" + Decimal(a) + "." + Decimal(b) + "." + Decimal(c) {
      DecimalIsNumeral(a);
      DecimalIsNumeral(b);
      DecimalIsNumeral(c);
      TripleIsVersion(Decimal(a), Decimal(b), Decimal(c));
    }
  }

  lemma NumeralIsUnbroken(text: string, from: nat, to: nat, k: nat)
    requires from <= k < to <= |text| && Numeral(text[from..to])
    ensures !IsBreak(text[k])
  {
    assert text[from..to][k - from] == text[k];
  }

  lemma PartsAreUnbroken(text: string, i: nat, j: nat)
    requires 0 < i < j < |text| && DotsAt(text, i, j)
    ensures Unbroken(text)
  {
    assert text[j + 1..|text|] == text[j + 1..];
    hide Numeral;
    forall k | 0 <= k < |text| ensures !IsBreak(text[k]) {
      if 1 <= k < i {
        NumeralIsUnbroken(text, 1, i, k);
      } else if i < k < j {
        NumeralIsUnbroken(text, i + 1, j, k);
      } else if j < k {
        NumeralIsUnbroken(text, j + 1, |text|, k);
      }
    }
  }

  lemma VersionsAreUnbroken(text: string)
    requires IsVersion(text)
    ensures Unbroken(text)
  {
    hide DotsAt, Unbroken;
    var i, j :| 0 < i < j < |text| && DotsAt(text, i, j);
    PartsAreUnbroken(text, i, j);
  }

  datatype EnvError = BadVersion | BadEnvironment | MissingTag | BadOldVersion | SameVersion

  // The line a rewrite puts in place of the tag's: without the ending when it is one the code does not know.
  function Kept(ending: string): string {
    if Exotic(ending) then "" else ending
  }

  // One step of the rewriting loop: the ending is taken off character by character.
  function Stripped(whole: string): (string, string) {
    var feed := whole != "" && whole[|whole| - 1] == '\n';
    var raw := if feed then whole[..|whole| - 1] else whole;
    if raw != "" && raw[|raw| - 1] == '\r'
    then (raw[..|raw| - 1], if feed then "\r\n" else "\r")
    else (raw, if feed then "\n" else "")
  }

  lemma StrippedWithFeed(body: string)
    requires body == "" || body[|body| - 1] != '\r'
    ensures Stripped(body + "\n") == (body, "\n")
  {
    assert (body + "\n")[..|body|] == body;
  }

  lemma StrippedWithReturnAndFeed(body: string)
    ensures Stripped(body + "\r\n") == (body, "\r\n")
  {
    var whole := body + "\r\n";
    var raw := whole[..|whole| - 1];
    assert raw[..|body|] == body && raw[|body|] == '\r' && |raw| == |body| + 1;
  }

  lemma StrippedWithReturn(body: string)
    ensures Stripped(body + "\r") == (body, "\r")
  {
    assert (body + "\r")[..|body|] == body;
  }

  lemma StrippedAsItIs(whole: string)
    requires whole == "" || (whole[|whole| - 1] != '\r' && whole[|whole| - 1] != '\n')
    ensures Stripped(whole) == (whole, "")
  {
  }

  lemma StrippedLine(line: Line, rest: string)
    requires Proper(line, rest)
    ensures Stripped(Whole(line)) == (Said(line, true), Kept(line.ending))
  {
    hide Stripped, Unbroken;
    if line.ending == "\r\n" {
      StrippedWithReturnAndFeed(line.body);
    } else if line.ending == "\r" {
      StrippedWithReturn(line.body);
    } else if line.ending == "\n" {
      LastIsNoBreak(line.body);
      StrippedWithFeed(line.body);
    } else if line.ending == "" {
      LastIsNoBreak(line.body);
      assert Whole(line) == line.body;
      StrippedAsItIs(line.body);
    } else {
      StrippedAsItIs(line.body + line.ending);
    }
  }

  lemma LastIsNoBreak(body: string)
    requires Unbroken(body)
    ensures body != "" ==> body[|body| - 1] != '\r' && body[|body| - 1] != '\n'
  {
    assert body != "" ==> !IsBreak(body[|body| - 1]);
  }

  // A key before an equals sign is found whatever follows the line.
  lemma KeyInFront(body: string, ending: string)
    requires KeyLength(body) < |body|
    ensures KeyLength(body + ending) == KeyLength(body)
    ensures (body + ending)[..KeyLength(body)] == body[..KeyLength(body)]
  {
    var n := KeyLength(body);
    var front, back := body[..n], body[n..];
    assert forall i :: 0 <= i < n ==> front[i] != '=';
    assert back[0] == '=';
    hide KeyLength;
    KeyEnds(front, back + ending);
    Associative(front, back, ending);
    assert front + back == body;
  }

  lemma KeyBeforeEnding(body: string, ending: string)
    requires |ending| == 1 && IsBreak(ending[0])
    ensures var n := KeyLength(body);
            if n < |body| then KeyLength(body + ending) == n && (body + ending)[..n] == body[..n]
            else SettingOf(body + ending) == None
  {
    hide KeyLength, SettingOf, IsBreak;
    if KeyLength(body) < |body| {
      KeyInFront(body, ending);
    } else {
      NoKey(body, ending);
    }
  }

  // Where the code finds the tag is where the reader finds it.
  lemma MatchIsSets(line: Line, key: string)
    requires Unbroken(line.body) && IsKey(key) && (Exotic(line.ending) ==> |line.ending| == 1 && IsBreak(line.ending[0]))
    ensures SettingOf(Said(line, true)).Some? && SettingOf(Said(line, true)).value.key == key <==> Sets(line, key, false)
  {
    if Exotic(line.ending) {
      KeyBeforeEnding(line.body, line.ending);
    }
    hide KeyLength, Unbroken, IsBreak;
  }

  lemma NoKey(body: string, ending: string)
    requires KeyLength(body) == |body| && |ending| == 1 && IsBreak(ending[0])
    ensures SettingOf(body + ending) == None
  {
    NoEquals(body);
    assert forall i :: 0 <= i < |body + ending| ==> (body + ending)[i] != '=';
  }

  lemma NoEquals(body: string)
    requires KeyLength(body) == |body|
    ensures forall i :: 0 <= i < |body| ==> body[i] != '='
  {
  }

  // The text with the tag's line rewritten.
  function Rewritten(lines: seq<Line>, t: nat, key: string, version: string): string
    requires t < |lines|
  {
    Joined(lines[..t]) + (key + "=" + version + Kept(lines[t].ending)) + Joined(lines[t + 1..])
  }

  // What the loop has written after k lines.
  function WrittenUpTo(lines: seq<Line>, t: nat, k: nat, key: string, version: string): string
    requires t < |lines| && k <= |lines|
  {
    if k <= t then Joined(lines[..k])
    else Joined(lines[..t]) + (key + "=" + version + Kept(lines[t].ending)) + Joined(lines[t + 1..k])
  }

  lemma WrittenOneMore(lines: seq<Line>, t: nat, k: nat, key: string, version: string)
    requires t < |lines| && k < |lines|
    ensures WrittenUpTo(lines, t, k + 1, key, version)
         == WrittenUpTo(lines, t, k, key, version)
            + (if k == t then key + "=" + version + Kept(lines[t].ending) else Whole(lines[k]))
  {
    if k < t {
      JoinedUpTo(lines, 0, k);
      assert lines[0..k] == lines[..k] && lines[0..k + 1] == lines[..k + 1];
    } else if k == t {
      assert lines[t + 1..k + 1] == [];
    } else {
      JoinedUpTo(lines, t + 1, k);
    }
  }

  lemma WrittenEnds(lines: seq<Line>, t: nat, key: string, version: string)
    requires t < |lines|
    ensures WrittenUpTo(lines, t, 0, key, version) == ""
    ensures WrittenUpTo(lines, t, |lines|, key, version) == Rewritten(lines, t, key, version)
  {
    assert lines[..0] == [] && lines[t + 1..|lines|] == lines[t + 1..];
  }

  // The rewriting loop of persist_version.
  method RewriteLines(lines: seq<Line>, key: string, version: string, ghost t: nat)
    returns (updated: string, count: nat)
    requires AllProper(lines) && IsKey(key) && t < |lines|
    requires forall j :: 0 <= j < |lines| ==> (Sets(lines[j], key, false) <==> j == t)
    ensures count == 1 && updated == Rewritten(lines, t, key, version)
  {
    hide Sets, SettingOf, Said, Proper, Stripped, Whole, Kept, WrittenUpTo, Rewritten, Joined, IsKey;
    count, updated := 0, "";
    WrittenEnds(lines, t, key, version);
    for k := 0 to |lines|
      invariant count == if k <= t then 0 else 1
      invariant updated == WrittenUpTo(lines, t, k, key, version)
    {
      StrippedLine(lines[k], Joined(lines[k + 1..]));
      ProperMatch(lines[k], Joined(lines[k + 1..]), key);
      WrittenOneMore(lines, t, k, key, version);
      var (raw, ending) := Stripped(Whole(lines[k]));
      var found := SettingOf(raw);
      if found.Some? && found.value.key == key {
        updated := updated + (key + "=" + version + ending);
        count := count + 1;
      } else {
        updated := updated + Whole(lines[k]);
      }
    }
  }

  lemma JoinedUpTo(lines: seq<Line>, from: nat, k: nat)
    requires from <= k < |lines|
    ensures Joined(lines[from..k + 1]) == Joined(lines[from..k]) + Whole(lines[k])
  {
    hide Joined, Whole;
    assert lines[from..k + 1] == lines[from..k] + [lines[k]];
    JoinedOneMore(lines[from..k], lines[k]);
  }

  // persist_version.  Its check that exactly one line was replaced cannot fail, and is the assertion.
  method PersistVersion(text: string, version: string) returns (result: Result<string, EnvError>)
    ensures var lines := Lines(text);
            result.Ok? <==>
              && IsVersion(version) && Parsed(lines, false).Some? && WEB_TAG in Parsed(lines, false).value
              && IsVersion(Parsed(lines, false).value[WEB_TAG])
    ensures result.Ok? ==> exists t: nat ::
              t < |Lines(text)| && Sets(Lines(text)[t], WEB_TAG, false)
              && result.value == Rewritten(Lines(text), t, WEB_TAG, version)
  {
    if !IsVersion(version) {
      return Err(BadVersion);
    }
    var lines := Lines(text);
    var parsed := Parsed(lines, false);
    if parsed.None? {
      return Err(BadEnvironment);
    }
    if WEB_TAG !in parsed.value {
      return Err(MissingTag);
    }
    if !IsVersion(parsed.value[WEB_TAG]) {
      return Err(BadOldVersion);
    }
    hide Parsed, Lines, Sets, IsVersion, Rewritten;
    LinesAreProper(text);
    ghost var t := SomeLineSets(lines, WEB_TAG, false);
    LineDecides(lines, t, WEB_TAG, false);
    var updated, count := RewriteLines(lines, WEB_TAG, version, t);
    assert count == 1;
    result := Ok(updated);
  }

  lemma JoinedOneMore(lines: seq<Line>, line: Line)
    ensures Joined(lines + [line]) == Joined(lines) + Whole(line)
  {
    JoinedParts(lines, [line]);
    assert [line][1..] == [];
    assert Joined([line]) == Whole(line) + "";
  }

  lemma ProperMatch(line: Line, rest: string, key: string)
    requires Proper(line, rest) && IsKey(key)
    ensures SettingOf(Said(line, true)).Some? && SettingOf(Said(line, true)).value.key == key <==> Sets(line, key, false)
  {
    MatchIsSets(line, key);
  }

  // How the rewritten text splits.

  // Unchanged lines in front split as before, whatever visible text follows.
  lemma {:induction false} FrontSplits(lines: seq<Line>, t: nat, text: string)
    requires AllProper(lines) && t < |lines| && text != "" && text[0] != '\n'
    ensures Lines(Joined(lines[..t]) + text) == lines[..t] + Lines(text)
  {
    if t == 0 {
      assert lines[..0] == [];
      assert Joined(lines[..0]) + text == text;
    } else {
      ProperTail(lines);
      FrontSplits(lines[1..], t - 1, text);
      StillProper(lines, t, text);
      FrontStep(lines, t, text);
    }
  }

  lemma FrontStep(lines: seq<Line>, t: nat, text: string)
    requires 0 < t < |lines| && Proper(lines[0], Joined(lines[1..][..t - 1]) + text)
    requires Lines(Joined(lines[1..][..t - 1]) + text) == lines[1..][..t - 1] + Lines(text)
    ensures Lines(Joined(lines[..t]) + text) == lines[..t] + Lines(text)
  {
    hide Lines, Joined, Proper, Whole, FirstLine, After;
    var rest := Joined(lines[1..][..t - 1]) + text;
    FirstLineIs(lines[0], rest);
    JoinedFront(lines, t);
    assert Joined(lines[..t]) + text == Whole(lines[0]) + rest;
    assert lines[..t] == [lines[0]] + lines[1..][..t - 1];
    assert [lines[0]] + (lines[1..][..t - 1] + Lines(text)) == lines[..t] + Lines(text);
  }

  lemma JoinedFront(lines: seq<Line>, t: nat)
    requires 0 < t <= |lines|
    ensures Joined(lines[..t]) == Whole(lines[0]) + Joined(lines[1..][..t - 1])
  {
    assert lines[..t][1..] == lines[1..][..t - 1];
  }

  lemma StillProper(lines: seq<Line>, t: nat, text: string)
    requires AllProper(lines) && 0 < t < |lines| && text != "" && text[0] != '\n'
    ensures Proper(lines[0], Joined(lines[1..][..t - 1]) + text)
  {
    assert Proper(lines[0], Joined(lines[1..]));
    assert Proper(lines[1], Joined(lines[2..]));
    var tail := lines[1..];
    assert Joined(tail) == Whole(tail[0]) + Joined(tail[1..]) && Whole(tail[0]) != "";
    if t > 1 {
      assert tail[..t - 1][0] == tail[0];
    }
  }

  // The line that ends up in the tag's place, and the lines that follow it.
  function NewLine(lines: seq<Line>, t: nat, key: string, version: string): Line
    requires t < |lines|
  {
    var body := key + "=" + version;
    if !Exotic(lines[t].ending) then Line(body, lines[t].ending)
    else if t + 1 == |lines| then Line(body, "")
    else Line(body + lines[t + 1].body, lines[t + 1].ending)
  }

  function Following(lines: seq<Line>, t: nat): seq<Line>
    requires t < |lines|
  {
    if Exotic(lines[t].ending) && t + 1 < |lines| then lines[t + 2..] else lines[t + 1..]
  }

  lemma {:induction false} ProperFrom(lines: seq<Line>, k: nat)
    requires AllProper(lines) && k <= |lines|
    ensures AllProper(lines[k..])
    decreases k
  {
    if k == 0 {
      assert lines[0..] == lines;
    } else {
      ProperTail(lines);
      ProperFrom(lines[1..], k - 1);
      assert lines[1..][k - 1..] == lines[k..];
    }
  }

  lemma NewLineIsProper(lines: seq<Line>, t: nat, key: string, version: string)
    requires AllProper(lines) && t < |lines| && IsKey(key) && Unbroken(key + "=" + version)
    ensures Proper(NewLine(lines, t, key, version), Joined(Following(lines, t)))
  {
    assert Proper(lines[t], Joined(lines[t + 1..]));
    if Exotic(lines[t].ending) && t + 1 < |lines| {
      assert Proper(lines[t + 1], Joined(lines[t + 2..]));
    }
  }

  lemma FollowingIsProper(lines: seq<Line>, t: nat)
    requires AllProper(lines) && t < |lines|
    ensures AllProper(Following(lines, t))
  {
    ProperFrom(lines, if Exotic(lines[t].ending) && t + 1 < |lines| then t + 2 else t + 1);
  }

  lemma RewrittenSplits(lines: seq<Line>, t: nat, key: string, version: string)
    requires AllProper(lines) && t < |lines| && IsKey(key) && Unbroken(key + "=" + version)
    ensures Lines(Rewritten(lines, t, key, version))
         == lines[..t] + [NewLine(lines, t, key, version)] + Following(lines, t)
  {
    hide Lines, Joined, Proper, Following, NewLine, Kept, AllProper, Whole, Exotic;
    var line, following := NewLine(lines, t, key, version), Following(lines, t);
    var text := (key + "=" + version + Kept(lines[t].ending)) + Joined(lines[t + 1..]);
    NewText(lines, t, key, version);
    NewLineIsProper(lines, t, key, version);
    FollowingIsProper(lines, t);
    LinesOfJoined(following);
    FirstLineIs(line, Joined(following));
    assert text == key + text[|key|..];
    KeyStartsVisibly(key, version, text[|key|..]);
    FrontSplits(lines, t, text);
    assert Rewritten(lines, t, key, version) == Joined(lines[..t]) + text;
    assert lines[..t] + ([line] + following) == lines[..t] + [line] + following;
  }

  lemma KeyStartsVisibly(key: string, version: string, rest: string)
    requires IsKey(key)
    ensures (key + rest) != "" && (key + rest)[0] != '\n'
  {
  }

  lemma NewText(lines: seq<Line>, t: nat, key: string, version: string)
    requires t < |lines| && IsKey(key)
    ensures (key + "=" + version + Kept(lines[t].ending)) + Joined(lines[t + 1..])
         == Whole(NewLine(lines, t, key, version)) + Joined(Following(lines, t))
    ensures ((key + "=" + version + Kept(lines[t].ending)) + Joined(lines[t + 1..]))[..|key|] == key
  {
    var body := key + "=" + version;
    if Exotic(lines[t].ending) && t + 1 < |lines| {
      assert lines[t + 1..][0] == lines[t + 1] && lines[t + 1..][1..] == lines[t + 2..];
      assert Joined(lines[t + 1..]) == Whole(lines[t + 1]) + Joined(lines[t + 2..]);
    }
  }

  // The rewrite is a point update.

  // The place where it goes right: an ordinary line ending, or nothing on the next line to run into.
  predicate GoodSpot(lines: seq<Line>, t: nat)
    requires t < |lines|
  {
    !Exotic(lines[t].ending) || t + 1 == |lines| || lines[t + 1].body == ""
  }

  // With the next line blank, taking over its ending is dropping it.
  lemma NewLinesAtGoodSpot(lines: seq<Line>, t: nat, key: string, version: string)
    requires t < |lines| && GoodSpot(lines, t)
    ensures Parsed(lines[..t] + [NewLine(lines, t, key, version)] + Following(lines, t), false)
         == Parsed(lines[t := NewLine(lines, t, key, version)], false)
    ensures NewLine(lines, t, key, version).body == key + "=" + version
  {
    hide Parsed;
    var line := NewLine(lines, t, key, version);
    assert key + "=" + version + "" == key + "=" + version;
    if Exotic(lines[t].ending) && t + 1 < |lines| {
      DroppedLine(lines[..t] + [line], lines[t + 1], lines[t + 2..], false);
      assert lines[t := line] == (lines[..t] + [line]) + [lines[t + 1]] + lines[t + 2..];
    } else {
      assert lines[t := line] == lines[..t] + [line] + lines[t + 1..];
    }
  }

  lemma RewriteAtGoodSpot(lines: seq<Line>, t: nat, key: string, version: string)
    requires t < |lines| && IsKey(key) && GoodSpot(lines, t)
    requires Parsed(lines, false).Some? && Sets(lines[t], key, false)
    ensures Parsed(lines[..t] + [NewLine(lines, t, key, version)] + Following(lines, t), false)
         == Some(Parsed(lines, false).value[key := version])
  {
    var line := NewLine(lines, t, key, version);
    NewLinesAtGoodSpot(lines, t, key, version);
    SettingOfText(key, version);
    hide SettingOf, Parsed, NewLine, Following, Exotic, GoodSpot;
    assert Sets(line, key, false);
    ReplacedLine(lines, t, line, key, false);
  }

  lemma RewriteAtBadSpot(lines: seq<Line>, t: nat, key: string, version: string)
    requires AllProper(lines) && t < |lines| && IsKey(key) && !GoodSpot(lines, t)
    ensures var after := Parsed(lines[..t] + [NewLine(lines, t, key, version)] + Following(lines, t), false);
            after.Some? ==> key in after.value && after.value[key] == version + lines[t + 1].body != version
  {
    var line := NewLine(lines, t, key, version);
    var next := lines[..t] + [line] + Following(lines, t);
    SettingOfText(key, version + lines[t + 1].body);
    assert line.body == key + "=" + (version + lines[t + 1].body);
    hide SettingOf, Parsed;
    if Parsed(next, false).Some? {
      assert next[t] == line;
      LineDecides(next, t, key, false);
    }
  }

  lemma KeysAreUnbroken(key: string, version: string)
    requires IsKey(key) && Unbroken(version)
    ensures Unbroken(key + "=" + version)
  {
  }

  // Reading the rewritten file gives the old settings with the one tag changed, exactly when the tag's line
  // ended in LF, CR or CR LF, or ended the file, or was followed by an empty line.
  lemma RewriteIsPointUpdate(text: string, t: nat, key: string, version: string)
    requires t < |Lines(text)| && IsKey(key) && IsVersion(version)
    requires Parsed(Lines(text), false).Some? && Sets(Lines(text)[t], key, false)
    ensures Parsed(Lines(Rewritten(Lines(text), t, key, version)), false)
              == Some(Parsed(Lines(text), false).value[key := version])
            <==> GoodSpot(Lines(text), t)
  {
    var lines := Lines(text);
    LinesAreProper(text);
    VersionsAreUnbroken(version);
    KeysAreUnbroken(key, version);
    hide Lines, Parsed, SettingOf, Joined, IsVersion, Rewritten, Said, Exotic;
    RewrittenSplits(lines, t, key, version);
    if GoodSpot(lines, t) {
      RewriteAtGoodSpot(lines, t, key, version);
    } else {
      RewriteAtBadSpot(lines, t, key, version);
    }
  }

  // A vertical tab behind the tag swallows the next setting: A=1 becomes part of the tag.

  const TAB_LINES := [Line(WEB_TAG + "=v1.0.0", "\U{0B}"), Line("A=1", "")]

  // One setting, alone or after others.
  lemma OneLineReads(lines: seq<Line>, line: Line, key: string, value: string)
    requires IsKey(key) && line.body == key + "=" + value
    requires Parsed(lines, false).Some? && key !in Parsed(lines, false).value
    ensures Parsed(lines + [line], false) == Some(Parsed(lines, false).value[key := value]) && Sets(line, key, false)
  {
    SettingOfText(key, value);
    ParsedOneMore(lines, line, false);
    hide SettingOf, Parsed, IsKey;
  }

  lemma WebTagIsKey()
    ensures IsKey(WEB_TAG)
  {
  }

  lemma TabFileReads()
    ensures Parsed(TAB_LINES, false) == Some(map[WEB_TAG := "v1.0.0", "A" := "1"])
    ensures |TAB_LINES| == 2 && Sets(TAB_LINES[0], WEB_TAG, false)
  {
    var first, second := TAB_LINES[0], TAB_LINES[1];
    WebTagIsKey();
    assert WEB_TAG != "A" by { assert |WEB_TAG| != |"A"|; }
    assert first.body == WEB_TAG + "=v1.0.0" == WEB_TAG + "=" + "v1.0.0";
    assert IsKey("A") && second.body == "A" + "=" + "1";
    assert Parsed([], false) == Some(map[]);
    hide SettingOf, WEB_TAG, IsKey, Parsed;
    OneLineReads([], first, WEB_TAG, "v1.0.0");
    assert [] + [first] == [first] && [first] + [second] == TAB_LINES;
    OneLineReads([first], second, "A", "1");
  }

  lemma TwoProperLines(first: Line, second: Line)
    requires Unbroken(first.body) && |first.ending| == 1 && IsBreak(first.ending[0]) && first.ending[0] != '\r'
    requires Unbroken(second.body) && second.body != "" && second.ending == ""
    ensures AllProper([first, second])
  {
    var lines := [first, second];
    assert lines[1..] == [second] && lines[2..] == [];
    assert Proper(first, Joined(lines[1..])) && Proper(second, Joined(lines[2..]));
  }

  lemma TabFileIsProper()
    ensures AllProper(TAB_LINES)
  {
    hide Proper, Joined, WEB_TAG, IsKey;
    WebTagIsKey();
    KeysAreUnbroken(WEB_TAG, "v1.0.0");
    assert WEB_TAG + "=" + "v1.0.0" == WEB_TAG + "=v1.0.0";
    TwoProperLines(TAB_LINES[0], TAB_LINES[1]);
  }

  lemma SwallowedSetting(lines: seq<Line>, key: string, version: string)
    requires AllProper(lines) && |lines| == 2 && !GoodSpot(lines, 0)
    requires IsKey(key) && Unbroken(key + "=" + version)
    ensures Parsed(Lines(Rewritten(lines, 0, key, version)), false) == Some(map[key := version + lines[1].body])
  {
    hide Lines, Rewritten, SettingOf, Proper, IsKey, Unbroken;
    var line := NewLine(lines, 0, key, version);
    RewrittenSplits(lines, 0, key, version);
    assert lines[..0] + [line] + Following(lines, 0) == [] + [line];
    assert line.body == key + "=" + (version + lines[1].body);
    OneLineReads([], line, key, version + lines[1].body);
  }

  lemma TabVersions()
    ensures IsVersion("v1.0.0") && IsVersion("v2.0.0")
  {
    forall v | v == "v1.0.0" || v == "v2.0.0" ensures IsVersion(v) {
      assert v[0] == 'v' && v[2] == '.' && v[4] == '.';
      assert Numeral(v[1..2]) && Numeral(v[3..4]) && Numeral(v[5..]);
      assert Numeral(v[2 + 1..4]) && Numeral(v[4 + 1..]);
      assert DotsAt(v, 2, 4);
    }
  }

  lemma TabSpotIsBad()
    ensures |TAB_LINES| == 2 && !GoodSpot(TAB_LINES, 0) && "v2.0.0" + TAB_LINES[1].body == "v2.0.0A=1"
  {
  }

  lemma TabRewriteReads()
    ensures |TAB_LINES| == 2
    ensures Parsed(Lines(Rewritten(TAB_LINES, 0, WEB_TAG, "v2.0.0")), false) == Some(map[WEB_TAG := "v2.0.0A=1"])
  {
    hide *;
    TabSpotIsBad();
    TabVersions();
    VersionsAreUnbroken("v2.0.0");
    WebTagIsKey();
    KeysAreUnbroken(WEB_TAG, "v2.0.0");
    TabFileIsProper();
    SwallowedSetting(TAB_LINES, WEB_TAG, "v2.0.0");
  }

  // persist_version takes the file and the version, and writes a file without the setting A.
  lemma VerticalTabSwallowsASetting()
    ensures |TAB_LINES| == 2 && Lines(Joined(TAB_LINES)) == TAB_LINES && Sets(TAB_LINES[0], WEB_TAG, false)
    ensures IsVersion("v1.0.0") && IsVersion("v2.0.0")
    ensures Parsed(TAB_LINES, false) == Some(map[WEB_TAG := "v1.0.0", "A" := "1"])
    ensures Parsed(Lines(Rewritten(TAB_LINES, 0, WEB_TAG, "v2.0.0")), false) == Some(map[WEB_TAG := "v2.0.0A=1"])
  {
    hide *;
    TabVersions();
    TabFileReads();
    TabFileIsProper();
    LinesOfJoined(TAB_LINES);
    TabRewriteReads();
  }

  // capture_environment.

  lemma {:induction false} RefusedForGood(lines: seq<Line>, k: nat, onlyCrLf: bool)
    requires k <= |lines| && Parsed(lines[..k], onlyCrLf).None?
    ensures Parsed(lines, onlyCrLf).None?
    decreases |lines| - k
  {
    if k == |lines| {
      assert lines[..k] == lines;
    } else {
      assert lines[..k + 1] == lines[..k] + [lines[k]];
      ParsedOneMore(lines[..k], lines[k], onlyCrLf);
      RefusedForGood(lines, k + 1, onlyCrLf);
    }
  }

  lemma ExoticEndingStaysInValue(line: Line, rest: string)
    requires Proper(line, rest) && SettingOf(Said(line, true)).Some? && Exotic(line.ending)
    ensures !Unbroken(SettingOf(Said(line, true)).value.value)
  {
    var said, value := Said(line, true), SettingOf(Said(line, true)).value.value;
    assert said[|said| - 1] == line.ending[0] && IsBreak(line.ending[0]);
    assert KeyLength(said) != |said| - 1;
    assert value[|value| - 1] == said[|said| - 1];
  }

  // A value that is a version has no exotic ending stuck to it.
  lemma VersionLineIsOrdinary(line: Line, rest: string)
    requires Proper(line, rest) && SettingOf(Said(line, true)).Some? && IsVersion(SettingOf(Said(line, true)).value.value)
    ensures !Exotic(line.ending)
  {
    hide SettingOf, Said, Proper, IsVersion;
    VersionsAreUnbroken(SettingOf(Said(line, true)).value.value);
    if Exotic(line.ending) {
      ExoticEndingStaysInValue(line, rest);
    }
  }

  // The scan of capture_environment: where the tag stands and what it says.
  method FindTag(lines: seq<Line>, key: string) returns (found: Option<(nat, string)>, refused: bool)
    ensures refused <==> Parsed(lines, true).None?
    ensures !refused ==> (found.Some? <==> key in Parsed(lines, true).value)
    ensures !refused && found.Some? ==>
              found.value.0 < |lines| && Sets(lines[found.value.0], key, true)
              && found.value.1 == Parsed(lines, true).value[key]
  {
    found, refused := None, false;
    var seen: set<string> := {};
    ghost var known: Settings := map[];
    assert lines[..0] == [] && Parsed(lines[..0], true) == Some(map[]);
    hide Parsed, SettingOf, Said, Skipped, Read;
    for k := 0 to |lines|
      invariant ScannedUpTo(lines, k, key, known, seen, found)
    {
      var said := Said(lines[k], true);
      ScannedOneMore(lines, k, key, known, seen, found);
      if !Skipped(said) {
        var setting := SettingOf(said);
        if setting.None? || setting.value.key in seen {
          return None, true;
        }
        seen := seen + {setting.value.key};
        known := known[setting.value.key := setting.value.value];
        if setting.value.key == key {
          found := Some((k, setting.value.value));
        }
      }
    }
    assert lines[..|lines|] == lines;
  }

  ghost predicate ScannedUpTo(
    lines: seq<Line>, k: nat, key: string, known: Settings, seen: set<string>, found: Option<(nat, string)>)
  {
    && k <= |lines| && Parsed(lines[..k], true) == Some(known) && seen == known.Keys
    && (found.Some? <==> key in known)
    && (found.Some? ==> found.value.0 < k && Sets(lines[found.value.0], key, true) && found.value.1 == known[key])
  }

  lemma ScannedOneMore(
    lines: seq<Line>, k: nat, key: string, known: Settings, seen: set<string>, found: Option<(nat, string)>)
    requires k < |lines| && ScannedUpTo(lines, k, key, known, seen, found)
    ensures var said := Said(lines[k], true);
            var setting := SettingOf(said);
            if Skipped(said) then ScannedUpTo(lines, k + 1, key, known, seen, found)
            else if setting.None? || setting.value.key in seen then Parsed(lines, true).None?
            else ScannedUpTo(lines, k + 1, key, known[setting.value.key := setting.value.value], seen + {setting.value.key},
                             if setting.value.key == key then Some((k, setting.value.value)) else found)
  {
    hide Parsed, SettingOf, Said, Skipped;
    assert lines[..k + 1] == lines[..k] + [lines[k]];
    ParsedOneMore(lines[..k], lines[k], true);
    if Parsed(lines[..k + 1], true).None? {
      RefusedForGood(lines, k + 1, true);
    }
  }

  // The target text is the captured text with one tag moved: every other line as it was, the line ending kept,
  // and, for a target of one line, reading it gives the old settings with that tag changed.
  method CaptureEnvironment(text: string, target: string) returns (result: Result<(string, string), EnvError>)
    ensures var parsed := Parsed(Lines(text), true);
            result.Ok? <==>
              parsed.Some? && UPDATER_TAG in parsed.value && IsVersion(parsed.value[UPDATER_TAG])
              && parsed.value[UPDATER_TAG] != target
    ensures result.Ok? ==>
              var parsed := Parsed(Lines(text), true);
              && result.value.0 == parsed.value[UPDATER_TAG]
              && (Unbroken(target) ==> Parsed(Lines(result.value.1), true) == Some(parsed.value[UPDATER_TAG := target]))
              && result.value.1 != text
              && exists t: nat ::
                   t < |Lines(text)| && Sets(Lines(text)[t], UPDATER_TAG, true)
                   && result.value.1 == Joined(Lines(text)[t := Line(UPDATER_TAG + "=" + target, Lines(text)[t].ending)])
  {
    var lines := Lines(text);
    var found, refused := FindTag(lines, UPDATER_TAG);
    if refused {
      return Err(BadEnvironment);
    }
    if found.None? {
      return Err(MissingTag);
    }
    var (t, oldTag) := found.value;
    if !IsVersion(oldTag) {
      return Err(BadOldVersion);
    }
    if oldTag == target {
      return Err(SameVersion);
    }
    hide Lines, Parsed, SettingOf, Joined, IsVersion, Sets;
    TextMoves(text, t, UPDATER_TAG, target);
    if Unbroken(target) {
      MovedTag(text, t, UPDATER_TAG, target);
    }
    var updated := Joined(lines[t := Line(UPDATER_TAG + "=" + target, lines[t].ending)]);
    result := Ok((oldTag, updated));
  }

  // Another value on the tag's line is another text, whatever the value.
  lemma TextMoves(text: string, t: nat, key: string, target: string)
    requires IsKey(key) && t < |Lines(text)| && Sets(Lines(text)[t], key, true)
    requires Parsed(Lines(text), true).Some? && key in Parsed(Lines(text), true).value
    requires IsVersion(Parsed(Lines(text), true).value[key]) && Parsed(Lines(text), true).value[key] != target
    ensures Joined(Lines(text)[t := Line(key + "=" + target, Lines(text)[t].ending)]) != text
  {
    hide Lines, Parsed, Joined, IsVersion, Proper, SettingOf, Sets;
    var lines := Lines(text);
    LinesAreProper(text);
    LineDecides(lines, t, key, true);
    JoinedLines(text);
    OrdinaryTagText(lines, t, key);
    LineMoves(lines, t, key, Parsed(lines, true).value[key], target);
  }

  lemma LineMoves(lines: seq<Line>, t: nat, key: string, was: string, target: string)
    requires t < |lines| && lines[t].body == key + "=" + was && was != target
    ensures Joined(lines[t := Line(key + "=" + target, lines[t].ending)]) != Joined(lines)
  {
    hide Joined, Whole;
    var next := Line(key + "=" + target, lines[t].ending);
    JoinedAround(lines, t, lines[t]);
    JoinedAround(lines, t, next);
    assert lines[t := lines[t]] == lines;
    WholeMoves(key, was, target, lines[t].ending);
    if Joined(lines[t := next]) == Joined(lines) {
      SameAround(Joined(lines[..t]), Whole(lines[t]), Whole(next), Joined(lines[t + 1..]));
    }
  }

  lemma WholeMoves(key: string, was: string, target: string, ending: string)
    requires was != target
    ensures Whole(Line(key + "=" + was, ending)) != Whole(Line(key + "=" + target, ending))
  {
    if Whole(Line(key + "=" + was, ending)) == Whole(Line(key + "=" + target, ending)) {
      SameAround(key + "=", was, target, ending);
    }
  }

  lemma OrdinaryTagText(lines: seq<Line>, t: nat, key: string)
    requires AllProper(lines) && t < |lines| && Sets(lines[t], key, true)
    requires IsVersion(SettingOf(Said(lines[t], true)).value.value)
    ensures lines[t].body == key + "=" + SettingOf(Said(lines[t], true)).value.value
  {
    hide IsVersion, Proper, Exotic;
    VersionLineIsOrdinary(lines[t], Joined(lines[t + 1..]));
  }

  lemma JoinedAround(lines: seq<Line>, t: nat, line: Line)
    requires t < |lines|
    ensures Joined(lines[t := line]) == Joined(lines[..t]) + Whole(line) + Joined(lines[t + 1..])
  {
    hide Joined;
    assert lines[t := line] == lines[..t] + ([line] + lines[t + 1..]);
    JoinedParts(lines[..t], [line] + lines[t + 1..]);
    JoinedFrontLine(line, lines[t + 1..]);
  }

  lemma SameAround(before: string, a: string, b: string, after: string)
    requires before + a + after == before + b + after
    ensures a == b
  {
    assert |a| == |b|;
    assert a == (before + a + after)[|before|..|before| + |a|];
    assert b == (before + b + after)[|before|..|before| + |b|];
  }

  lemma MovedTag(text: string, t: nat, key: string, target: string)
    requires Unbroken(target) && IsKey(key)
    requires Parsed(Lines(text), true).Some? && t < |Lines(text)| && Sets(Lines(text)[t], key, true)
    requires key in Parsed(Lines(text), true).value
    requires IsVersion(Parsed(Lines(text), true).value[key]) && Parsed(Lines(text), true).value[key] != target
    ensures var updated := Joined(Lines(text)[t := Line(key + "=" + target, Lines(text)[t].ending)]);
            Parsed(Lines(updated), true) == Some(Parsed(Lines(text), true).value[key := target])
  {
    hide *;
    LinesAreProper(text);
    MovedLine(Lines(text), t, key, target);
  }

  lemma MovedLine(lines: seq<Line>, t: nat, key: string, target: string)
    requires Unbroken(target) && IsKey(key) && AllProper(lines)
    requires Parsed(lines, true).Some? && t < |lines| && Sets(lines[t], key, true)
    requires key in Parsed(lines, true).value
    requires IsVersion(Parsed(lines, true).value[key]) && Parsed(lines, true).value[key] != target
    ensures var next := lines[t := Line(key + "=" + target, lines[t].ending)];
            && Lines(Joined(next)) == next
            && Parsed(next, true) == Some(Parsed(lines, true).value[key := target]) != Parsed(lines, true)
  {
    var line := Line(key + "=" + target, lines[t].ending);
    LineDecides(lines, t, key, true);
    hide Lines, Parsed, SettingOf, Joined, IsVersion, Proper, Said, Exotic;
    OrdinaryTagLine(lines[t], Joined(lines[t + 1..]), key, target);
    KeysAreUnbroken(key, target);
    OrdinaryReplacement(lines, t, key, target);
    ReplacedLine(lines, t, line, key, true);
    assert Parsed(lines, true).value[key := target][key] == target;
  }

  lemma OrdinaryTagLine(line: Line, rest: string, key: string, target: string)
    requires Proper(line, rest) && Sets(line, key, true) && IsVersion(SettingOf(Said(line, true)).value.value)
    requires IsKey(key)
    ensures !Exotic(line.ending)
    ensures var next := Line(key + "=" + target, line.ending);
            Sets(next, key, true) && SettingOf(Said(next, true)).value.value == target
  {
    hide SettingOf, Proper, IsVersion;
    VersionLineIsOrdinary(line, rest);
    SettingOfText(key, target);
    assert Said(Line(key + "=" + target, line.ending), true) == key + "=" + target;
  }

  lemma RewrittenIsJoined(lines: seq<Line>, t: nat, key: string, target: string)
    requires t < |lines| && !Exotic(lines[t].ending)
    ensures Rewritten(lines, t, key, target) == Joined(lines[t := Line(key + "=" + target, lines[t].ending)])
  {
    var line := Line(key + "=" + target, lines[t].ending);
    JoinedParts(lines[..t], [line] + lines[t + 1..]);
    JoinedFrontLine(line, lines[t + 1..]);
    hide Joined;
    assert lines[t := line] == lines[..t] + ([line] + lines[t + 1..]);
    assert Rewritten(lines, t, key, target) == Joined(lines[..t]) + (Whole(line) + Joined(lines[t + 1..]));
  }

  // With an ordinary ending the rewritten text is the joined lines, and splits into them.
  lemma OrdinaryReplacement(lines: seq<Line>, t: nat, key: string, target: string)
    requires AllProper(lines) && t < |lines| && IsKey(key) && Unbroken(key + "=" + target) && !Exotic(lines[t].ending)
    ensures var next := lines[t := Line(key + "=" + target, lines[t].ending)]; Lines(Joined(next)) == next
  {
    hide Lines, Joined, Proper, Rewritten;
    RewrittenSplits(lines, t, key, target);
    RewrittenIsJoined(lines, t, key, target);
    var line := Line(key + "=" + target, lines[t].ending);
    assert lines[t := line] == lines[..t] + [line] + lines[t + 1..];
  }
}
