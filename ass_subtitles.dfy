/** ASS subtitle events of add_subtitles_to_video (backend/modules/content.py):
    format_time's h:mm:ss.cc timestamps and the Dialogue line per subtitle.
    Times are exact reals; IEEE rounding of the float arithmetic is not modelled. */
module AssSubtitles {
  import opened Wrappers
  import opened Text
  import Subtitles

  /** Python's int() of a float: truncation toward zero. */
  function Trunc(x: real): (n: int)
    ensures x >= 0.0 ==> n == x.Floor
    ensures x < 0.0 ==> n == -((-x).Floor)
  {
    if x >= 0.0 then x.Floor else -((-x).Floor)
  }

  /** Python's float x % m for m > 0: x - m * floor(x / m), which takes the sign of m. */
  function PyMod(x: real, m: real): real
    requires m > 0.0
  {
    x - m * (x / m).Floor as real
  }

  /** The four fields of a formatted time. */
  datatype Clock = Clock(h: int, m: int, s: int, cs: int)

  /** h = int(t / 3600), m = int((t % 3600) / 60), s = int(t % 60),
      cs = int((t - int(t)) * 100). */
  function TimeParts(t: real): Clock {
    Clock(Trunc(t / 3600.0), Trunc(PyMod(t, 3600.0) / 60.0), Trunc(PyMod(t, 60.0)), Trunc((t - Trunc(t) as real) * 100.0))
  }

  /** format_time: f"{h}:{m:02d}:{s:02d}.{cs:02d}". */
  function FormatTime(t: real): string {
    var p := TimeParts(t);
    IntToString(p.h) + ":" + Pad2(p.m) + ":" + Pad2(p.s) + "." + Pad2(p.cs)
  }

  lemma FloorUnique(x: real, k: int)
    requires k as real <= x < k as real + 1.0
    ensures x.Floor == k
  {
  }

  /** The hours field and the remainder below a whole hour. */
  lemma HoursPart(t: real)
    requires t >= 0.0
    ensures Trunc(t / 3600.0) == t.Floor / 3600
    ensures PyMod(t, 3600.0) == t - 3600.0 * ((t.Floor / 3600) as real)
  {
    var h := t.Floor / 3600;
    FloorUnique(t / 3600.0, h);
  }

  /** The minutes field: the whole minutes of what is left below the hour. */
  lemma MinutesPart(t: real)
    requires t >= 0.0
    ensures Trunc(PyMod(t, 3600.0) / 60.0) == (t.Floor % 3600) / 60
  {
    HoursPart(t);
    var f := t.Floor;
    var r1 := t - 3600.0 * ((f / 3600) as real);
    assert r1.Floor == f % 3600;
    FloorUnique(r1 / 60.0, (f % 3600) / 60);
  }

  /** The seconds field: the whole seconds below the minute. */
  lemma SecondsPart(t: real)
    requires t >= 0.0
    ensures Trunc(PyMod(t, 60.0)) == t.Floor % 60
  {
    var f := t.Floor;
    var k := f / 60;
    FloorUnique(t / 60.0, k);
    var r2 := t - 60.0 * (k as real);
    FloorUnique(r2, f - 60 * k);
  }

  /** The hundredths field: the hundredths below the whole second. */
  lemma CentiPart(t: real)
    requires t >= 0.0
    ensures Trunc((t - Trunc(t) as real) * 100.0) == (100.0 * t).Floor - 100 * t.Floor
    ensures 0 <= (100.0 * t).Floor - 100 * t.Floor < 100
  {
    var f := t.Floor;
    var frac := (t - f as real) * 100.0;
    assert frac == 100.0 * t - (100 * f) as real;
    FloorUnique(100.0 * t, (100.0 * t).Floor);
    FloorUnique(frac, (100.0 * t).Floor - 100 * f);
  }

  /** Division of 60 * k + b by 60, for a remainder b below 60. */
  lemma DivMod60(k: int, b: int)
    requires 0 <= b < 60
    ensures (60 * k + b) / 60 == k && (60 * k + b) % 60 == b
  {
  }

  /** Hours, minutes and seconds of a whole number of seconds add back up to it. */
  lemma ClockSum(f: int)
    requires f >= 0
    ensures 3600 * (f / 3600) + 60 * ((f % 3600) / 60) + f % 60 == f
  {
    var q, r := f / 3600, f % 3600;
    var a, b := r / 60, r % 60;
    assert r == 60 * a + b;
    assert f == 60 * (60 * q + a) + b;
    DivMod60(60 * q + a, b);
  }

  /** For a non-negative time the fields are the whole hours, the minutes and
      seconds within them (each below 60), and the hundredths (below 100): the
      time truncated to hundredths of a second. */
  lemma TimePartsMeaning(t: real)
    requires t >= 0.0
    ensures var p := TimeParts(t);
      p.h >= 0 && 0 <= p.m < 60 && 0 <= p.s < 60 && 0 <= p.cs < 100
      && 3600 * p.h + 60 * p.m + p.s == t.Floor
      && 100 * t.Floor + p.cs == (100.0 * t).Floor
  {
    HoursPart(t);
    MinutesPart(t);
    SecondsPart(t);
    CentiPart(t);
    ClockSum(t.Floor);
  }

  lemma NatToStringNoSeparator(n: nat, c: char)
    requires !IsDigit(c)
    ensures c !in NatToString(n)
  {
    var s := NatToString(n);
    assert forall i :: 0 <= i < |s| ==> s[i] != c;
  }

  /** The formatted time contains no comma. */
  lemma FormatTimeNoComma(t: real)
    ensures ',' !in FormatTime(t)
  {
    var p := TimeParts(t);
    forall n: int ensures ',' !in IntToString(n) && ',' !in Pad2(n) {
      NatToStringNoSeparator(if n >= 0 then n else -n, ',');
      assert IntToString(n) == (if n >= 0 then NatToString(n) else "-" + NatToString(-n));
      if 0 <= n < 10 {
        assert Pad2(n) == "0" + NatToString(n);
      }
    }
  }

  /** Reads "h:mm:ss.cc" back into its four fields. */
  function ParseTime(r: string): Option<Clock> {
    var parts := SplitOn(r, ':');
    if |parts| != 3 then None
    else
      var sec := SplitOn(parts[2], '.');
      if |sec| == 2 && AllDigits(parts[0]) && AllDigits(parts[1]) && AllDigits(sec[0]) && AllDigits(sec[1]) then
        Some(Clock(ParseNat(parts[0]), ParseNat(parts[1]), ParseNat(sec[0]), ParseNat(sec[1])))
      else None
  }

  /** Digit fields joined as "h:mm:ss.cc" split back into the four numbers. */
  lemma ParseDigitFields(H: string, M: string, S: string, C: string)
    requires AllDigits(H) && AllDigits(M) && AllDigits(S) && AllDigits(C)
    ensures ParseTime(H + [':'] + (M + [':'] + (S + ['.'] + C))) == Some(Clock(ParseNat(H), ParseNat(M), ParseNat(S), ParseNat(C)))
  {
    DigitsNoSeparator(H, ':');
    DigitsNoSeparator(M, ':');
    DigitsNoSeparator(S, '.');
    DigitsNoSeparator(C, '.');
    DigitsNoSeparator(S, ':');
    DigitsNoSeparator(C, ':');
    var tail := S + ['.'] + C;
    assert ':' !in tail;
    var r2 := M + [':'] + tail;
    SplitOnNoSeparator(tail, ':');
    SplitOnConcat(M, ':', tail);
    assert SplitOn(r2, ':') == [M, tail];
    SplitOnConcat(H, ':', r2);
    assert SplitOn(H + [':'] + r2, ':') == [H, M, tail];
    SplitOnNoSeparator(C, '.');
    SplitOnConcat(S, '.', C);
    assert SplitOn(tail, '.') == [S, C];
  }

  lemma DigitsNoSeparator(s: string, c: char)
    requires AllDigits(s) && !IsDigit(c)
    ensures c !in s
  {
    assert forall i :: 0 <= i < |s| ==> s[i] != c;
  }

  /** A formatted non-negative time reads back as its fields: hours unpadded,
      minutes, seconds and hundredths as two digits each. */
  lemma ParseFormatTime(t: real)
    requires t >= 0.0
    ensures ParseTime(FormatTime(t)) == Some(TimeParts(t))
  {
    var p := TimeParts(t);
    TimePartsMeaning(t);
    assert p.h >= 0;
    ParseNatToString(p.h);
    var H, M, S, C := NatToString(p.h), Pad2(p.m), Pad2(p.s), Pad2(p.cs);
    assert FormatTime(t) == H + [':'] + (M + [':'] + (S + ['.'] + C));
    ParseDigitFields(H, M, S, C);
  }

  /** Commas in the text become \, (the field separator of an ASS event). */
  function EscapeCommas(text: string): string {
    ReplaceCharWith(text, ',', "\\,")
  }

  function UnescapeCommas(e: string): string
    decreases |e|
  {
    if |e| >= 2 && e[0] == '\\' && e[1] == ',' then "," + UnescapeCommas(e[2..])
    else if |e| == 0 then ""
    else [e[0]] + UnescapeCommas(e[1..])
  }

  lemma {:induction false} UnescapeEscapeCommas(text: string)
    ensures UnescapeCommas(EscapeCommas(text)) == text
    ensures |EscapeCommas(text)| > 0 ==> EscapeCommas(text)[0] != ','
    decreases |text|
  {
    if |text| > 0 {
      var c := text[0];
      UnescapeEscapeCommas(text[1..]);
      var t := EscapeCommas(text[1..]);
      assert text == [c] + text[1..];
      if c == ',' {
        var e := "\\," + t;
        assert e[..2] == "\\," && e[2..] == t;
      } else {
        var e := [c] + t;
        assert e[0] == c && e[1..] == t;
        if |e| >= 2 { assert e[1] == t[0]; }
      }
    }
  }

  /** The fields of the Dialogue event written for one subtitle:
      Layer, Start, End, Style, Name, MarginL, MarginR, MarginV, Effect, Text. */
  function DialogueFields(sub: Subtitles.Segment): seq<string> {
    ["Dialogue: 0", FormatTime(sub.start), FormatTime(sub.end), "Default", "", "0", "0", "0", "", EscapeCommas(sub.text)]
  }

  /** "Dialogue: 0,{start},{end},Default,,0,0,0,,{text}". */
  function DialogueLine(sub: Subtitles.Segment): string {
    JoinWith(DialogueFields(sub), ",")
  }

  /** The model's own decoding of a written Dialogue line, used for the round
      trip: nine comma-separated fields, then the text, whose commas were
      escaped and are unescaped here. Returns start, end and text. */
  function ParseDialogue(line: string): Option<(string, string, string)> {
    var parts := SplitOn(line, ',');
    if |parts| >= 10 && parts[0] == "Dialogue: 0" && parts[3] == "Default" then
      Some((parts[1], parts[2], UnescapeCommas(JoinWith(parts[9..], ","))))
    else None
  }

  /** A comma-free first field splits off a comma join. */
  lemma SplitJoinHead(fields: seq<string>)
    requires |fields| >= 2 && ',' !in fields[0]
    ensures SplitOn(JoinWith(fields, ","), ',') == [fields[0]] + SplitOn(JoinWith(fields[1..], ","), ',')
  {
    var j := JoinWith(fields[1..], ",");
    assert JoinWith(fields, ",") == fields[0] + [','] + j;
    SplitOnConcat(fields[0], ',', j);
  }

  lemma FieldsTail(fields: seq<string>, x: seq<string>)
    requires |fields| >= 2
    ensures fields[1..][|fields| - 2] == fields[|fields| - 1]
    ensures fields[..|fields| - 1] + x == [fields[0]] + (fields[1..][..|fields| - 2] + x)
    ensures forall i :: 0 <= i < |fields| - 2 ==> fields[1..][i] == fields[i + 1]
  {
    assert fields[..|fields| - 1] == [fields[0]] + fields[1..][..|fields| - 2];
  }

  /** Splitting a comma-joined list whose fields but the last are comma-free
      gives those fields back, followed by the split of the last one. */
  lemma {:induction false} SplitOnJoinFields(fields: seq<string>)
    requires |fields| >= 1
    requires forall i :: 0 <= i < |fields| - 1 ==> ',' !in fields[i]
    ensures SplitOn(JoinWith(fields, ","), ',') == fields[..|fields| - 1] + SplitOn(fields[|fields| - 1], ',')
    decreases |fields|
  {
    if |fields| >= 2 {
      FieldsTail(fields, SplitOn(fields[|fields| - 1], ','));
      SplitOnJoinFields(fields[1..]);
      SplitJoinHead(fields);
    }
  }

  lemma ParseDialogueFields(start: string, end: string, text: string)
    requires ',' !in start && ',' !in end
    ensures ParseDialogue(JoinWith(["Dialogue: 0", start, end, "Default", "", "0", "0", "0", "", EscapeCommas(text)], ","))
      == Some((start, end, text))
  {
    var T := EscapeCommas(text);
    var fields := ["Dialogue: 0", start, end, "Default", "", "0", "0", "0", "", T];
    assert forall i :: 0 <= i < |fields| - 1 ==> ',' !in fields[i];
    SplitOnJoinFields(fields);
    var parts := SplitOn(JoinWith(fields, ","), ',');
    assert parts == fields[..9] + SplitOn(T, ',');
    assert parts[9..] == SplitOn(T, ',');
    SplitOnJoin(T, ',');
    UnescapeEscapeCommas(text);
  }

  /** A Dialogue line reads back as the formatted start and end and the original text. */
  lemma ParseDialogueLine(sub: Subtitles.Segment)
    ensures ParseDialogue(DialogueLine(sub)) == Some((FormatTime(sub.start), FormatTime(sub.end), sub.text))
  {
    FormatTimeNoComma(sub.start);
    FormatTimeNoComma(sub.end);
    ParseDialogueFields(FormatTime(sub.start), FormatTime(sub.end), sub.text);
  }

  /** The [Events] lines of the ASS file, one Dialogue line per subtitle in order. */
  function Events(subs: seq<Subtitles.Segment>): string
    decreases |subs|
  {
    if |subs| == 0 then "" else Events(subs[..|subs| - 1]) + DialogueLine(subs[|subs| - 1]) + "\n"
  }

  /** The event-writing loop of add_subtitles_to_video. */
  method WriteEvents(subs: seq<Subtitles.Segment>) returns (written: string)
    ensures written == Events(subs)
  {
    written := "";
    var i := 0;
    while i < |subs|
      invariant 0 <= i <= |subs|
      invariant written == Events(subs[..i])
    {
      assert subs[..i + 1][..i] == subs[..i];
      written := written + DialogueLine(subs[i]) + "\n";
      i := i + 1;
    }
    assert subs[..i] == subs;
  }
}
