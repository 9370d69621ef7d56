/** The lyrics overlay of js/karaoke.js: the parser of timed lyric lines
    `[m:ss.ff]text`, the per-tick choice of the active line with its
    four-line sliding window, and the drag and show/hide state of the
    panel. Times are exact reals: `parseFloat` rounding is abstracted. */
module Karaoke {
  import opened JsText

  datatype LyricEntry = LyricEntry(time: real, text: string)

  // ---------------------------------------------------------------------
  // Parsing: line.match(/\[(\d+):(\d+\.\d+)\](.*)/)
  // ---------------------------------------------------------------------

  /** The length of the run of digits at the start of `s`. */
  function DigitRun(s: string): (k: nat)
    ensures k <= |s|
    ensures forall j :: 0 <= j < k ==> IsDigit(s[j])
    ensures k == |s| || !IsDigit(s[k])
  {
    if s != [] && IsDigit(s[0]) then 1 + DigitRun(s[1..]) else 0
  }

  /** What `.*` matches: everything up to the first line terminator. */
  function TakeLine(s: string): (r: string)
    ensures |r| <= |s| && r == s[..|r|]
    ensures forall i :: 0 <= i < |r| ==> !IsLineTerminator(r[i])
    ensures |r| == |s| || IsLineTerminator(s[|r|])
  {
    if s == [] || IsLineTerminator(s[0]) then [] else [s[0]] + TakeLine(s[1..])
  }

  /** `\d+` followed by the character `c` at the start of `s`: the digits
      and what follows `c`. A `\d+` can only take the whole run of digits,
      since a shorter run is followed by a digit, never by `c`. */
  function DigitsThen(s: string, c: char): (r: Option<(string, string)>)
    requires !IsDigit(c)
    ensures r.Some? ==> r.value.0 != [] && AllDigits(r.value.0)
    ensures r.Some? ==> s == r.value.0 + [c] + r.value.1
  {
    var k := DigitRun(s);
    if k == 0 || k == |s| || s[k] != c then None
    else Some((s[..k], s[k + 1..]))
  }

  /** Helper: a run of digits followed by `c` is read as exactly that run. */
  lemma DigitsThenOf(ds: string, c: char, rest: string)
    requires ds != [] && AllDigits(ds) && !IsDigit(c)
    ensures DigitsThen(ds + [c] + rest, c) == Some((ds, rest))
  {
    var s := ds + [c] + rest;
    assert s[|ds|] == c;
    assert forall j :: 0 <= j < |ds| ==> s[j] == ds[j];
    assert DigitRun(s) == |ds|;
    assert s[..|ds|] == ds && s[|ds| + 1..] == rest;
  }

  /** The three capture groups of a match, the seconds group split at its
      point. */
  datatype Groups = Groups(minutes: string, whole: string, frac: string, rest: string)

  /** The match of the pattern at the very start of `s`, if any. */
  function MatchPrefix(s: string): Option<Groups>
  {
    if s == [] || s[0] != '[' then None
    else match DigitsThen(s[1..], ':')
      case None => None
      case Some((minutes, s1)) =>
        match DigitsThen(s1, '.')
        case None => None
        case Some((whole, s2)) =>
          match DigitsThen(s2, ']')
          case None => None
          case Some((frac, s3)) => Some(Groups(minutes, whole, frac, TakeLine(s3)))
  }

  /** The leftmost match: the pattern is not anchored, so it is tried at
      every position in turn. */
  function FindMatch(s: string): Option<Groups>
  {
    if MatchPrefix(s).Some? then MatchPrefix(s)
    else if s == [] then None
    else FindMatch(s[1..])
  }

  /** There is no match exactly when the pattern matches at no position. */
  lemma {:induction false} FindMatchNone(s: string)
    ensures FindMatch(s).None? <==> forall q :: 0 <= q <= |s| ==> MatchPrefix(s[q..]).None?
  {
    assert s[0..] == s;
    if MatchPrefix(s).None? && s != [] {
      FindMatchNone(s[1..]);
      assert forall q :: 1 <= q <= |s| ==> s[1..][q - 1..] == s[q..];
    }
  }

  /** The match found is the one at the leftmost position where the
      pattern matches. */
  lemma {:induction false} FindMatchLeftmost(s: string, p: nat)
    requires p <= |s| && MatchPrefix(s[p..]).Some?
    requires forall q :: 0 <= q < p ==> MatchPrefix(s[q..]).None?
    ensures FindMatch(s) == MatchPrefix(s[p..])
  {
    assert s[0..] == s;
    if p > 0 {
      assert MatchPrefix(s[0..]).None?;
      assert FindMatch(s) == FindMatch(s[1..]);
      assert s[1..][p - 1..] == s[p..];
      forall q | 0 <= q < p - 1
        ensures MatchPrefix(s[1..][q..]).None?
      {
        assert s[1..][q..] == s[q + 1..];
      }
      FindMatchLeftmost(s[1..], p - 1);
    }
  }

  lemma GroupsAreDigits(s: string)
    requires MatchPrefix(s).Some?
    ensures var g := MatchPrefix(s).value;
      g.minutes != [] && g.whole != [] && g.frac != []
      && AllDigits(g.minutes) && AllDigits(g.whole) && AllDigits(g.frac)
  {
  }

  function Pow10(k: nat): (r: nat)
    ensures r > 0
  {
    if k == 0 then 1 else 10 * Pow10(k - 1)
  }

  /** `parseFloat("whole.frac")`, exactly. */
  function DecimalValue(whole: string, frac: string): real
    requires AllDigits(whole) && AllDigits(frac)
  {
    DigitsValue(whole) as real + DigitsValue(frac) as real / Pow10(|frac|) as real
  }

  /** The time of a line: `minutes * 60 + seconds`. */
  function LineTime(minutes: string, whole: string, frac: string): real
    requires AllDigits(minutes) && AllDigits(whole) && AllDigits(frac)
  {
    DigitsValue(minutes) as real * 60.0 + DecimalValue(whole, frac)
  }

  /** The entry a match gives: its time and the rest of the line,
      trimmed. */
  function EntryOf(g: Groups): Option<LyricEntry>
  {
    if AllDigits(g.minutes) && AllDigits(g.whole) && AllDigits(g.frac)
    then Some(LyricEntry(LineTime(g.minutes, g.whole, g.frac), Trim(g.rest)))
    else None
  }

  /** The entry for one line of lyric text, from its first match. */
  function ParseLine(line: string): Option<LyricEntry>
  {
    match FindMatch(line)
    case None => None
    case Some(g) => EntryOf(g)
  }

  /** A line yields an entry exactly when a well-formed bracket
      `[digits:digits.digits]` occurs somewhere in it, and the entry is
      taken from the leftmost one. */
  lemma ParseLineMatches(line: string)
    ensures ParseLine(line).Some? <==> exists p :: 0 <= p <= |line| && MatchPrefix(line[p..]).Some?
    ensures forall p ::
      0 <= p <= |line| && MatchPrefix(line[p..]).Some? && (forall q :: 0 <= q < p ==> MatchPrefix(line[q..]).None?)
      ==> ParseLine(line) == EntryOf(MatchPrefix(line[p..]).value) && ParseLine(line).Some?
  {
    forall p | 0 <= p <= |line| && MatchPrefix(line[p..]).Some? && (forall q :: 0 <= q < p ==> MatchPrefix(line[q..]).None?)
      ensures ParseLine(line) == EntryOf(MatchPrefix(line[p..]).value) && ParseLine(line).Some?
    {
      FindMatchLeftmost(line, p);
      GroupsAreDigits(line[p..]);
    }
    FindMatchNone(line);
    if FindMatch(line).Some? {
      LeftmostExists(line);
    }
  }

  /** Helper: some match gives a leftmost one. */
  lemma LeftmostExists(line: string)
    requires FindMatch(line).Some?
    ensures exists p ::
      0 <= p <= |line| && MatchPrefix(line[p..]).Some? && forall q :: 0 <= q < p ==> MatchPrefix(line[q..]).None?
  {
    FindMatchNone(line);
    var p :| 0 <= p <= |line| && MatchPrefix(line[p..]).Some?;
    var m := p;
    while m > 0 && exists q :: 0 <= q < m && MatchPrefix(line[q..]).Some?
      invariant 0 <= m <= |line| && MatchPrefix(line[m..]).Some?
      decreases m
    {
      var q :| 0 <= q < m && MatchPrefix(line[q..]).Some?;
      m := q;
    }
  }

  /** A line without '[' is ignored. */
  lemma NoBracketIgnored(line: string)
    requires '[' !in line
    ensures ParseLine(line) == None
  {
    FindMatchNone(line);
    forall p | 0 <= p <= |line|
      ensures MatchPrefix(line[p..]).None?
    {
      if p < |line| {
        assert line[p..][0] == line[p];
      }
    }
  }

  /** The text of a lyric line written in the format. */
  function Render(minutes: string, whole: string, frac: string, text: string): string
  {
    ['['] + (minutes + [':'] + (whole + ['.'] + (frac + [']'] + text)))
  }

  /** Helper: the pattern matches a rendered line at its start, with the
      groups it was written from. */
  lemma MatchRender(minutes: string, whole: string, frac: string, text: string)
    requires minutes != [] && whole != [] && frac != []
    requires AllDigits(minutes) && AllDigits(whole) && AllDigits(frac)
    requires forall i :: 0 <= i < |text| ==> !IsLineTerminator(text[i])
    ensures MatchPrefix(Render(minutes, whole, frac, text)) == Some(Groups(minutes, whole, frac, text))
  {
    var s2 := frac + [']'] + text;
    var s1 := whole + ['.'] + s2;
    var line := Render(minutes, whole, frac, text);
    assert line[1..] == minutes + [':'] + s1;
    DigitsThenOf(minutes, ':', s1);
    DigitsThenOf(whole, '.', s2);
    DigitsThenOf(frac, ']', text);
    TakeWholeLine(text);
  }

  /** Writing a line in the format and parsing it gives back its time and
      its text, for digit groups that are not empty and a text with no
      surrounding space and no line break. */
  lemma ParseRender(minutes: string, whole: string, frac: string, text: string)
    requires minutes != [] && whole != [] && frac != []
    requires AllDigits(minutes) && AllDigits(whole) && AllDigits(frac)
    requires Trimmed(text) && forall i :: 0 <= i < |text| ==> !IsLineTerminator(text[i])
    ensures ParseLine(Render(minutes, whole, frac, text))
      == Some(LyricEntry(LineTime(minutes, whole, frac), text))
  {
    var line := Render(minutes, whole, frac, text);
    MatchRender(minutes, whole, frac, text);
    FindAtStart(line);
    TrimSpec(text);
    ParseFound(line, Groups(minutes, whole, frac, text));
  }

  /** Helper: the entry of a line whose leftmost match is `g`. */
  lemma ParseFound(line: string, g: Groups)
    requires FindMatch(line) == Some(g) && Trim(g.rest) == g.rest
    requires AllDigits(g.minutes) && AllDigits(g.whole) && AllDigits(g.frac)
    ensures ParseLine(line) == Some(LyricEntry(LineTime(g.minutes, g.whole, g.frac), g.rest))
  {
  }

  /** A match at the start of `s` is a literal bracket
      `[minutes:whole.frac]` with the groups it reports, and the text it
      reports is the rest of that line. */
  lemma MatchPrefixShape(s: string)
    requires MatchPrefix(s).Some?
    ensures var g := MatchPrefix(s).value;
      exists tail :: s == Render(g.minutes, g.whole, g.frac, tail) && g.rest == TakeLine(tail)
  {
    var (minutes, s1) := DigitsThen(s[1..], ':').value;
    var (whole, s2) := DigitsThen(s1, '.').value;
    var (frac, s3) := DigitsThen(s2, ']').value;
    assert s == Render(minutes, whole, frac, s3);
  }

  /** A line yields an entry only if it holds a bracket
      `[digits:digits.digits]` at some position, and the entry is that
      bracket's time with the rest of the line, trimmed. */
  lemma ParseLineSound(line: string)
    requires ParseLine(line).Some?
    ensures exists p, minutes, whole, frac, tail ::
      0 <= p <= |line| && line[p..] == Render(minutes, whole, frac, tail)
      && minutes != [] && whole != [] && frac != []
      && AllDigits(minutes) && AllDigits(whole) && AllDigits(frac)
      && ParseLine(line) == Some(LyricEntry(LineTime(minutes, whole, frac), Trim(TakeLine(tail))))
  {
    LeftmostExists(line);
    var p :| 0 <= p <= |line| && MatchPrefix(line[p..]).Some?
      && forall q :: 0 <= q < p ==> MatchPrefix(line[q..]).None?;
    FindMatchLeftmost(line, p);
    GroupsAreDigits(line[p..]);
    MatchPrefixShape(line[p..]);
    var g := MatchPrefix(line[p..]).value;
    var tail :| line[p..] == Render(g.minutes, g.whole, g.frac, tail) && g.rest == TakeLine(tail);
    assert ParseLine(line) == Some(LyricEntry(LineTime(g.minutes, g.whole, g.frac), Trim(TakeLine(tail))));
  }

  /** Helper: a match at the start is the leftmost one. */
  lemma FindAtStart(s: string)
    requires MatchPrefix(s).Some?
    ensures FindMatch(s) == MatchPrefix(s)
  {
  }

  lemma {:induction false} TakeWholeLine(s: string)
    requires forall i :: 0 <= i < |s| ==> !IsLineTerminator(s[i])
    ensures TakeLine(s) == s
  {
    if s != [] {
      TakeWholeLine(s[1..]);
    }
  }

  /** The entries a parse result contributes: none or one. */
  function Entries(e: Option<LyricEntry>): seq<LyricEntry>
  {
    match e
    case None => []
    case Some(x) => [x]
  }

  /** The entries of a sequence of lines, in line order. */
  function ParseLines(lines: seq<string>): seq<LyricEntry>
  {
    if lines == [] then []
    else ParseLines(lines[..|lines| - 1]) + Entries(ParseLine(lines[|lines| - 1]))
  }

  /** `loadLyrics`' parse: the text split at '\n', line by line. */
  function ParseLyrics(text: string): seq<LyricEntry>
  {
    ParseLines(Split(text, '\n'))
  }

  lemma ParseLinesSnoc(lines: seq<string>, line: string)
    ensures ParseLines(lines + [line]) == ParseLines(lines) + Entries(ParseLine(line))
  {
    assert (lines + [line])[..|lines|] == lines;
  }

  /** The parse keeps the order of the lines and never sorts: the entries
      of two stretches of lines are those of the first, then those of the
      second. */
  lemma {:induction false} ParseLinesAppend(a: seq<string>, b: seq<string>)
    ensures ParseLines(a + b) == ParseLines(a) + ParseLines(b)
    decreases |b|
  {
    if b == [] {
      assert a + b == a;
    } else {
      var b' := b[..|b| - 1];
      var x := b[|b| - 1];
      assert a + b == (a + b') + [x];
      assert b == b' + [x];
      ParseLinesAppend(a, b');
      ParseLinesSnoc(a + b', x);
      ParseLinesSnoc(b', x);
    }
  }

  /** At most one entry per line. */
  lemma {:induction false} ParseLinesLength(lines: seq<string>)
    ensures |ParseLines(lines)| <= |lines|
  {
    if lines != [] {
      ParseLinesLength(lines[..|lines| - 1]);
    }
  }

  /** The times written `[0:01.50]`, `[0:05.00]` and `[0:10.00]`. */
  lemma ExampleTimes()
    ensures LineTime("0", "01", "50") == 1.5
    ensures LineTime("0", "05", "00") == 5.0
    ensures LineTime("0", "10", "00") == 10.0
  {
    assert "01"[..1] == "0" && "05"[..1] == "0" && "10"[..1] == "1" && "50"[..1] == "5" && "00"[..1] == "0";
    assert DigitsValue("01") == 1 && DigitsValue("05") == 5 && DigitsValue("10") == 10;
    assert DigitsValue("50") == 50 && DigitsValue("00") == 0;
    assert Pow10(1) == 10;
  }

  /** Helper: the entries of two lines. */
  lemma ParsePair(l1: string, l2: string)
    ensures ParseLines([l1, l2]) == Entries(ParseLine(l1)) + Entries(ParseLine(l2))
  {
    var a1 := [] + [l1];
    ParseLinesSnoc([], l1);
    ParseLinesSnoc(a1, l2);
    assert a1 + [l2] == [l1, l2];
  }

  /** Helper: the entries of four lines. */
  lemma ParseFour(l1: string, l2: string, l3: string, l4: string)
    ensures ParseLines([l1, l2, l3, l4])
      == Entries(ParseLine(l1)) + Entries(ParseLine(l2)) + (Entries(ParseLine(l3)) + Entries(ParseLine(l4)))
  {
    ParsePair(l1, l2);
    ParsePair(l3, l4);
    ParseLinesAppend([l1, l2], [l3, l4]);
    assert [l1, l2] + [l3, l4] == [l1, l2, l3, l4];
  }

  lemma ExampleFirst(line: string)
    requires line == "[0:01.50]Hello"
    ensures ParseLine(line) == Some(LyricEntry(1.5, "Hello"))
  {
    ExampleTimes();
    assert line == Render("0", "01", "50", "Hello");
    ParseRender("0", "01", "50", "Hello");
  }

  lemma ExampleSecond(line: string)
    requires line == "[0:05.00]World"
    ensures ParseLine(line) == Some(LyricEntry(5.0, "World"))
  {
    ExampleTimes();
    assert line == Render("0", "05", "00", "World");
    ParseRender("0", "05", "00", "World");
  }

  lemma ExampleLast(line: string)
    requires line == "[0:10.00]End"
    ensures ParseLine(line) == Some(LyricEntry(10.0, "End"))
  {
    ExampleTimes();
    assert line == Render("0", "10", "00", "End");
    ParseRender("0", "10", "00", "End");
  }

  /** The first two lines of the format's example. */
  lemma ExampleHead(l1: string, l2: string)
    requires l1 == "[0:01.50]Hello" && l2 == "[0:05.00]World"
    ensures ParseLines([l1, l2]) == [LyricEntry(1.5, "Hello"), LyricEntry(5.0, "World")]
  {
    ExampleFirst(l1);
    ExampleSecond(l2);
    ParsePair(l1, l2);
  }

  /** The last two lines of the format's example, the first without a
      time. */
  lemma ExampleTail(l3: string, l4: string)
    requires l3 == "not a lyric line" && l4 == "[0:10.00]End"
    ensures ParseLines([l3, l4]) == [LyricEntry(10.0, "End")]
  {
    NoBracketIgnored(l3);
    ExampleLast(l4);
    ParsePair(l3, l4);
  }

  /** The four lines of the format's example, one without a time. */
  lemma ParseExampleLines(l1: string, l2: string, l3: string, l4: string)
    requires l1 == "[0:01.50]Hello" && l2 == "[0:05.00]World" && l3 == "not a lyric line" && l4 == "[0:10.00]End"
    ensures ParseLines([l1, l2, l3, l4]) == [LyricEntry(1.5, "Hello"), LyricEntry(5.0, "World"), LyricEntry(10.0, "End")]
  {
    ExampleHead(l1, l2);
    ExampleTail(l3, l4);
    ParseLinesAppend([l1, l2], [l3, l4]);
    assert [l1, l2] + [l3, l4] == [l1, l2, l3, l4];
  }

  /** The example of the format's description, the four lines joined by
      line breaks: three timed lines around one that is not, which is
      dropped. */
  lemma ParseExample(l1: string, l2: string, l3: string, l4: string)
    requires l1 == "[0:01.50]Hello" && l2 == "[0:05.00]World" && l3 == "not a lyric line" && l4 == "[0:10.00]End"
    ensures ParseLyrics(Join([l1, l2, l3, l4], '\n'))
      == [LyricEntry(1.5, "Hello"), LyricEntry(5.0, "World"), LyricEntry(10.0, "End")]
  {
    JoinThenSplit([l1, l2, l3, l4], '\n');
    ParseExampleLines(l1, l2, l3, l4);
  }

  // ---------------------------------------------------------------------
  // Synchronisation with the playback time
  // ---------------------------------------------------------------------

  /** Line `i` is current at time `t`: its time has come and the next
      line's has not (or it is the last line). */
  predicate IsCurrent(data: seq<LyricEntry>, t: real, i: nat)
    requires i < |data|
  {
    t >= data[i].time && (i == |data| - 1 || t < data[i + 1].time)
  }

  /** The largest current index below `upTo`, or -1. */
  function LastCurrentBelow(data: seq<LyricEntry>, t: real, upTo: nat): (k: int)
    requires upTo <= |data|
    ensures -1 <= k < upTo
    ensures k >= 0 ==> IsCurrent(data, t, k)
    ensures forall j :: k < j < upTo ==> !IsCurrent(data, t, j)
  {
    if upTo == 0 then -1
    else if IsCurrent(data, t, upTo - 1) then upTo - 1
    else LastCurrentBelow(data, t, upTo - 1)
  }

  /** The line a tick ends on when it changes the display. */
  function ActiveLine(data: seq<LyricEntry>, t: real): int
  {
    LastCurrentBelow(data, t, |data|)
  }

  predicate NonDecreasing(data: seq<LyricEntry>)
  {
    forall i, j :: 0 <= i < j < |data| ==> data[i].time <= data[j].time
  }

  /** With times in order, the current line is unique, there is none
      before the first time stamp, and from the first time stamp on there
      is one: `ActiveLine` is -1 exactly for an empty list or an early
      time, and otherwise the one current line. */
  lemma ActiveLineUnique(data: seq<LyricEntry>, t: real)
    requires NonDecreasing(data)
    ensures forall i, j :: 0 <= i < |data| && 0 <= j < |data| && IsCurrent(data, t, i) && IsCurrent(data, t, j) ==> i == j
    ensures ActiveLine(data, t) == -1 <==> (data == [] || t < data[0].time)
    ensures forall i :: 0 <= i < |data| && IsCurrent(data, t, i) ==> i == ActiveLine(data, t)
  {
    if data != [] && t >= data[0].time {
      SomeCurrentFrom(data, t, 0);
    }
  }

  /** Once the time has reached line `m`, line `m` or a later one is
      current (whatever the order of the times). */
  lemma {:induction false} SomeCurrentFrom(data: seq<LyricEntry>, t: real, m: nat)
    requires m < |data| && t >= data[m].time
    ensures exists i :: m <= i < |data| && IsCurrent(data, t, i)
    decreases |data| - m
  {
    if !IsCurrent(data, t, m) {
      SomeCurrentFrom(data, t, m + 1);
    }
  }

  /** The tick times of the format's example: 7.0 s is within "World",
      0.0 s is before any line and 20.0 s is after "End". */
  lemma ActiveLineExample()
    ensures var data := [LyricEntry(1.5, "Hello"), LyricEntry(5.0, "World"), LyricEntry(10.0, "End")];
      ActiveLine(data, 7.0) == 1 && ActiveLine(data, 0.0) == -1 && ActiveLine(data, 20.0) == 2
  {
  }

  /** One display line: its text, the 'active' and 'fade-out' classes,
      and whether `style.display` is 'block' rather than 'none'. */
  datatype LineView = LineView(text: string, active: bool, fadeOut: bool, shown: bool)

  function Max(a: int, b: int): int { if a >= b then a else b }
  function Min(a: int, b: int): int { if a <= b then a else b }

  /** The display after a change to line `k`. */
  function WindowView(lines: seq<LineView>, k: int): (r: seq<LineView>)
    ensures |r| == |lines|
    ensures forall i :: 0 <= i < |r| ==> r[i].text == lines[i].text
  {
    seq(|lines|, i requires 0 <= i < |lines| => LineView(lines[i].text, i == k, i < k, Max(0, k - 3) <= i <= k))
  }

  /** The number of lines on display. */
  function ShownCount(lines: seq<LineView>): nat
  {
    if lines == [] then 0 else ShownCount(lines[..|lines| - 1]) + (if lines[|lines| - 1].shown then 1 else 0)
  }

  /** The display after a change to line `k` depends only on the texts:
      line `k` is active, every earlier line fades out, and exactly the
      window `max(0, k - 3) .. k` is shown: the active line and at most
      three before it, never an accumulated history. */
  lemma {:induction false} WindowFacts(lines: seq<LineView>, k: nat)
    requires k < |lines|
    ensures WindowView(lines, k)[k].active && WindowView(lines, k)[k].shown
    ensures forall j :: 0 <= j < |lines| ==> (WindowView(lines, k)[j].fadeOut <==> j < k)
    ensures forall j :: 0 <= j < |lines| ==> (WindowView(lines, k)[j].active <==> j == k)
    ensures ShownCount(WindowView(lines, k)) == Min(k, 3) + 1
  {
    var w := WindowView(lines, k);
    ShownPrefix(w, k, |w|);
    assert w[..|w|] == w;
  }

  lemma {:induction false} ShownPrefix(w: seq<LineView>, k: nat, m: nat)
    requires m <= |w|
    requires forall i :: 0 <= i < |w| ==> (w[i].shown <==> Max(0, k - 3) <= i <= k)
    ensures ShownCount(w[..m]) == Max(0, Min(m, k + 1) - Max(0, k - 3))
  {
    if m > 0 {
      ShownPrefix(w, k, m - 1);
      assert w[..m][..m - 1] == w[..m - 1];
    }
  }

  /** A second change overrides the first completely. */
  lemma WindowOverrides(lines: seq<LineView>, j: int, k: int)
    ensures WindowView(WindowView(lines, j), k) == WindowView(lines, k)
  {
  }

  /** The lines `loadLyrics` creates: one per entry, hidden, no class. */
  function HiddenLines(data: seq<LyricEntry>): (r: seq<LineView>)
    ensures |r| == |data|
  {
    seq(|data|, i requires 0 <= i < |data| => LineView(data[i].text, false, false, false))
  }

  lemma HiddenLinesSnoc(data: seq<LyricEntry>, e: LyricEntry)
    ensures HiddenLines(data + [e]) == HiddenLines(data) + [LineView(e.text, false, false, false)]
  {
  }

  /** Some line below `upTo` is current and is not `cur`: the condition
      under which a tick redraws. */
  predicate Qualifies(data: seq<LyricEntry>, t: real, cur: int, upTo: nat)
    requires upTo <= |data|
  {
    exists j :: 0 <= j < upTo && IsCurrent(data, t, j) && j != cur
  }

  lemma QualifiesStep(data: seq<LyricEntry>, t: real, cur: int, k: nat)
    requires k < |data|
    ensures Qualifies(data, t, cur, k + 1) <==> Qualifies(data, t, cur, k) || (IsCurrent(data, t, k) && k != cur)
  {
    if Qualifies(data, t, cur, k + 1) && !(IsCurrent(data, t, k) && k != cur) {
      var j :| 0 <= j < k + 1 && IsCurrent(data, t, j) && j != cur;
      assert j < k;
    }
  }

  /** The current line after a tick has looked at the first `k` lines,
      starting from `cur`. */
  function CurrentAfter(data: seq<LyricEntry>, t: real, cur: int, k: nat): int
    requires k <= |data|
  {
    if Qualifies(data, t, cur, k) then LastCurrentBelow(data, t, k) else cur
  }

  /** Looking at line `k`: a current line other than the current one
      redraws and becomes current; anything else leaves the tick's state
      as it was. */
  lemma TickStep(data: seq<LyricEntry>, t: real, cur: int, k: nat)
    requires k < |data|
    ensures IsCurrent(data, t, k) && CurrentAfter(data, t, cur, k) != k ==>
      Qualifies(data, t, cur, k + 1) && CurrentAfter(data, t, cur, k + 1) == k
    ensures !(IsCurrent(data, t, k) && CurrentAfter(data, t, cur, k) != k) ==>
      (Qualifies(data, t, cur, k + 1) <==> Qualifies(data, t, cur, k))
      && CurrentAfter(data, t, cur, k + 1) == CurrentAfter(data, t, cur, k)
  {
    QualifiesStep(data, t, cur, k);
  }

  /** With times in order, a tick changes the display exactly when there
      is a current line and it is not the one already marked. */
  lemma SyncSorted(data: seq<LyricEntry>, t: real, currentLine: int)
    requires NonDecreasing(data)
    ensures Qualifies(data, t, currentLine, |data|)
        <==> (ActiveLine(data, t) != -1 && ActiveLine(data, t) != currentLine)
  {
    ActiveLineUnique(data, t);
  }

  // ---------------------------------------------------------------------
  // Drag and show/hide of the panel
  // ---------------------------------------------------------------------

  function RealMax(a: real, b: real): real { if a >= b then a else b }
  function RealMin(a: real, b: real): real { if a <= b then a else b }

  /** `Math.max(0, Math.min(v, limit))`: keeps the panel inside the
      window; a panel larger than the window is pinned at 0. */
  function Clamp(v: real, limit: real): (r: real)
    ensures r >= 0.0
    ensures limit >= 0.0 ==> r <= limit
    ensures 0.0 <= v <= limit ==> r == v
    ensures limit < 0.0 ==> r == 0.0
    ensures v < 0.0 ==> r == 0.0
    ensures limit >= 0.0 && v > limit ==> r == limit
  {
    RealMax(0.0, RealMin(v, limit))
  }

  /** Hidden according to the toggle button: 'none', or no inline style. */
  predicate DisplayHidden(d: string) { d == "none" || d == "" }

  /** The toggle button's new `style.display`. */
  function ToggledDisplay(d: string): string
  {
    if d == "none" || d == "" then "flex" else "none"
  }

  /** Every click flips the panel between hidden and shown, and two clicks
      from 'flex' or 'none' come back to it ('' becomes 'none'). */
  lemma ToggleFlips(d: string)
    ensures DisplayHidden(ToggledDisplay(d)) == !DisplayHidden(d)
    ensures d == "flex" || d == "none" ==> ToggledDisplay(ToggledDisplay(d)) == d
    ensures ToggledDisplay(ToggledDisplay("")) == "none"
  {
  }

  class KaraokeOverlay {
    var lyricsData: seq<LyricEntry>
    /** The '.lyrics-line' elements of the overlay, in document order. */
    var lines: seq<LineView>
    var currentLine: int
    var isDragging: bool
    var offsetX: real
    var offsetY: real
    /** `style.left` and `style.top` of the panel; unset until a drag. */
    var left: Option<real>
    var top: Option<real>
    /** `style.display` of the panel. */
    var display: string
    /** A toggle button was given and found. */
    const hasToggle: bool

    /** One display line per entry, carrying its text. */
    ghost predicate Valid()
      reads this
    {
      |lines| == |lyricsData| && forall i :: 0 <= i < |lines| ==> lines[i].text == lyricsData[i].text
    }

    constructor (display: string, hasToggle: bool)
      ensures Valid() && lyricsData == [] && lines == [] && currentLine == -1
      ensures !isDragging && offsetX == 0.0 && offsetY == 0.0 && left == None && top == None
      ensures this.display == display && this.hasToggle == hasToggle
    {
      lyricsData, lines, currentLine := [], [], -1;
      isDragging, offsetX, offsetY := false, 0.0, 0.0;
      left, top := None, None;
      this.display := display;
      this.hasToggle := hasToggle;
    }

    /** `loadLyrics`: the previous entries and lines are dropped and one
        hidden line is added per parsed entry; `currentLine` is not reset. */
    method LoadLyrics(text: string)
      modifies this`lyricsData, this`lines
      ensures lyricsData == ParseLyrics(text)
      ensures lines == HiddenLines(lyricsData)
      ensures currentLine == old(currentLine)
      ensures Valid()
    {
      lyricsData := [];
      lines := [];
      var all := Split(text, '\n');
      var i := 0;
      while i < |all|
        invariant 0 <= i <= |all|
        invariant lyricsData == ParseLines(all[..i])
        invariant lines == HiddenLines(lyricsData)
      {
        assert all[..i + 1] == all[..i] + [all[i]];
        ParseLinesSnoc(all[..i], all[i]);
        var entry := ParseLine(all[i]);
        if entry.Some? {
          HiddenLinesSnoc(lyricsData, entry.value);
          lyricsData := lyricsData + [entry.value];
          lines := lines + [LineView(entry.value.text, false, false, false)];
        }
        i := i + 1;
      }
      assert all[..i] == all;
    }

    /** The display update after a change to line `index`: clear the two
        classes everywhere, mark the line active, fade out the lines before
        it, and show the window of four. */
    method ShowWindow(index: nat)
      requires index < |lines|
      modifies this`lines
      ensures lines == WindowView(old(lines), index)
    {
      var n := |lines|;
      var i := 0;
      while i < n
        invariant 0 <= i <= n == |lines|
        invariant forall j :: 0 <= j < i ==> lines[j] == old(lines)[j].(active := false, fadeOut := false)
        invariant forall j :: i <= j < n ==> lines[j] == old(lines)[j]
      {
        lines := lines[i := lines[i].(active := false, fadeOut := false)];
        i := i + 1;
      }
      lines := lines[index := lines[index].(active := true)];
      i := 0;
      while i < index
        invariant 0 <= i <= index && |lines| == n
        invariant forall j :: 0 <= j < n ==> lines[j].text == old(lines)[j].text && lines[j].shown == old(lines)[j].shown
        invariant forall j :: 0 <= j < n ==> (lines[j].active <==> j == index)
        invariant forall j :: 0 <= j < n ==> (lines[j].fadeOut <==> j < i)
      {
        lines := lines[i := lines[i].(fadeOut := true)];
        i := i + 1;
      }
      var start := Max(0, index - 3);
      i := 0;
      while i < n
        invariant 0 <= i <= n == |lines|
        invariant forall j :: 0 <= j < n ==> lines[j].text == old(lines)[j].text
        invariant forall j :: 0 <= j < n ==> (lines[j].active <==> j == index) && (lines[j].fadeOut <==> j < index)
        invariant forall j :: 0 <= j < i ==> (lines[j].shown <==> start <= j <= index)
      {
        lines := lines[i := lines[i].(shown := start <= i && i <= index)];
        i := i + 1;
      }
    }

    /** The 'timeupdate' handler at playback time `t`: every line that is
        current and differs from `currentLine` redraws the window and
        becomes `currentLine`. With times out of order several lines can be
        current; the last one wins. */
    method Tick(t: real)
      requires Valid()
      modifies this`lines, this`currentLine
      ensures Valid()
      ensures Qualifies(lyricsData, t, old(currentLine), |lyricsData|) ==>
        currentLine == ActiveLine(lyricsData, t) && lines == WindowView(old(lines), currentLine)
      ensures !Qualifies(lyricsData, t, old(currentLine), |lyricsData|) ==>
        currentLine == old(currentLine) && lines == old(lines)
    {
      var n := |lyricsData|;
      var index := 0;
      while index < n
        invariant 0 <= index <= n
        invariant currentLine == CurrentAfter(lyricsData, t, old(currentLine), index)
        invariant lines == if Qualifies(lyricsData, t, old(currentLine), index) then WindowView(old(lines), currentLine) else old(lines)
      {
        var isCurrentLine := t >= lyricsData[index].time && (index == n - 1 || t < lyricsData[index + 1].time);
        TickStep(lyricsData, t, old(currentLine), index);
        if isCurrentLine && currentLine != index {
          ShowWindow(index);
          WindowOverrides(old(lines), currentLine, index);
          currentLine := index;
        }
        index := index + 1;
      }
    }

    /** 'mousedown' on the panel: start dragging, remembering where in the
        panel it was grabbed. */
    method MouseDown(clientX: real, clientY: real, offsetLeft: real, offsetTop: real)
      modifies this`isDragging, this`offsetX, this`offsetY
      ensures isDragging && offsetX == clientX - offsetLeft && offsetY == clientY - offsetTop
    {
      isDragging := true;
      offsetX := clientX - offsetLeft;
      offsetY := clientY - offsetTop;
    }

    /** 'mousemove': while dragging, move the panel, clamped so that it
        stays within the window. */
    method MouseMove(clientX: real, clientY: real, innerWidth: real, innerHeight: real, width: real, height: real)
      modifies this`left, this`top
      ensures !isDragging ==> left == old(left) && top == old(top)
      ensures isDragging ==>
        left == Some(Clamp(clientX - offsetX, innerWidth - width))
        && top == Some(Clamp(clientY - offsetY, innerHeight - height))
      ensures isDragging && width <= innerWidth && height <= innerHeight ==>
        0.0 <= left.value <= innerWidth - width && 0.0 <= top.value <= innerHeight - height
    {
      if !isDragging {
        return;
      }
      var x := clientX - offsetX;
      var y := clientY - offsetY;
      x := RealMax(0.0, RealMin(x, innerWidth - width));
      y := RealMax(0.0, RealMin(y, innerHeight - height));
      left := Some(x);
      top := Some(y);
    }

    /** 'mouseup': the drag ends. */
    method MouseUp()
      modifies this`isDragging
      ensures !isDragging
    {
      isDragging := false;
    }

    /** A click on the toggle button (no listener without the button). */
    method ToggleClick()
      modifies this`display
      ensures hasToggle ==> display == ToggledDisplay(old(display))
      ensures !hasToggle ==> display == old(display)
    {
      if !hasToggle {
        return;
      }
      if display == "none" || display == "" {
        display := "flex";
      } else {
        display := "none";
      }
    }
  }
}
