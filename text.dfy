/** String helpers shared by the Python and the TypeScript parts of the model:
    decimal rendering, prefix/suffix tests, splitting and joining on one
    character, POSIX path joining and ASCII case mapping. */
module Text {

  predicate IsDigit(c: char) { '0' <= c <= '9' }

  predicate AllDigits(s: string) { forall i :: 0 <= i < |s| ==> IsDigit(s[i]) }

  function DigitChar(d: nat): (c: char)
    requires d < 10
    ensures IsDigit(c) && c as int - '0' as int == d
  {
    ('0' as int + d) as char
  }

  /** Decimal rendering of a natural number, without leading zeros (Python str(), JS template). */
  function NatToString(n: nat): (s: string)
    ensures 1 <= |s| && AllDigits(s)
    ensures n < 10 <==> |s| == 1
  {
    if n < 10 then [DigitChar(n)] else NatToString(n / 10) + [DigitChar(n % 10)]
  }

  /** Reads a string of decimal digits back as a number; the inverse of NatToString. */
  function ParseNat(s: string): nat
    requires AllDigits(s)
  {
    if |s| == 0 then 0 else ParseNat(s[..|s| - 1]) * 10 + (s[|s| - 1] as int - '0' as int)
  }

  lemma {:induction false} ParseNatToString(n: nat)
    ensures ParseNat(NatToString(n)) == n
  {
    if n >= 10 {
      var s := NatToString(n);
      assert s[..|s| - 1] == NatToString(n / 10);
      ParseNatToString(n / 10);
    }
  }

  /** Python's str() (and JavaScript's rendering) of an integer. */
  function IntToString(n: int): (s: string)
    ensures 1 <= |s|
    ensures n >= 0 ==> s == NatToString(n)
    ensures n < 0 ==> s[0] == '-' && s[1..] == NatToString(-n)
  {
    if n >= 0 then NatToString(n) else "-" + NatToString(-n)
  }

  /** Python's format(n, '02d'): zero-padded to width two; a sign counts toward the width. */
  function Pad2(n: int): (s: string)
    ensures 0 <= n < 100 ==> |s| == 2 && AllDigits(s) && ParseNat(s) == n
  {
    if 0 <= n < 10 then
      ParseNatToString(n);
      "0" + NatToString(n)
    else
      if 0 <= n < 100 then ParseNatToString(n); IntToString(n) else IntToString(n)
  }

  predicate StartsWith(s: string, prefix: string) {
    |prefix| <= |s| && s[..|prefix|] == prefix
  }

  predicate EndsWith(s: string, suffix: string) {
    |suffix| <= |s| && s[|s| - |suffix|..] == suffix
  }

  /** Concatenation of parts with `sep` between neighbours (Python's sep.join, JS's Array.join). */
  function JoinWith(parts: seq<string>, sep: string): string {
    if |parts| == 0 then ""
    else if |parts| == 1 then parts[0]
    else parts[0] + sep + JoinWith(parts[1..], sep)
  }

  /** Python's str.split(c) and JavaScript's String.split(c) for a one-character
      separator: every occurrence separates, so empty parts are kept and the
      empty string gives one empty part. */
  function SplitOn(s: string, c: char): (parts: seq<string>)
    ensures |parts| >= 1
    ensures c in s <==> |parts| >= 2
  {
    if |s| == 0 then [""]
    else
      var rest := SplitOn(s[1..], c);
      if s[0] == c then [""] + rest else [[s[0]] + rest[0]] + rest[1..]
  }

  lemma JoinWithCons(x: string, ys: seq<string>, sep: string)
    requires |ys| >= 1
    ensures JoinWith([x] + ys, sep) == x + sep + JoinWith(ys, sep)
  {
    assert ([x] + ys)[1..] == ys;
  }

  /** Text put in front of the first part comes out in front of the join. */
  lemma JoinWithExtendHead(a: string, ys: seq<string>, sep: string)
    requires |ys| >= 1
    ensures JoinWith([a + ys[0]] + ys[1..], sep) == a + JoinWith(ys, sep)
  {
    if |ys| >= 2 {
      JoinWithCons(a + ys[0], ys[1..], sep);
      JoinWithCons(ys[0], ys[1..], sep);
      assert [ys[0]] + ys[1..] == ys;
    } else {
      assert [a + ys[0]] + ys[1..] == [a + ys[0]];
    }
  }

  lemma {:induction false} SplitOnJoinBack(s: string, c: char)
    ensures JoinWith(SplitOn(s, c), [c]) == s
  {
    if |s| > 0 {
      var rest := SplitOn(s[1..], c);
      SplitOnJoinBack(s[1..], c);
      if s[0] == c {
        JoinWithCons("", rest, [c]);
      } else {
        JoinWithExtendHead([s[0]], rest, [c]);
      }
      assert s == [s[0]] + s[1..];
    }
  }

  lemma {:induction false} SplitOnPartsFree(s: string, c: char)
    ensures forall i :: 0 <= i < |SplitOn(s, c)| ==> c !in SplitOn(s, c)[i]
  {
    if |s| > 0 {
      var rest := SplitOn(s[1..], c);
      SplitOnPartsFree(s[1..], c);
      var parts := SplitOn(s, c);
      forall i | 0 <= i < |parts| ensures c !in parts[i] {
        if s[0] == c {
          assert parts == [""] + rest;
          if i > 0 { assert parts[i] == rest[i - 1]; }
        } else {
          assert parts == [[s[0]] + rest[0]] + rest[1..];
          if i > 0 { assert parts[i] == rest[i]; }
        }
      }
    }
  }

  /** Splitting and re-joining on the same character gives the string back,
      and no part contains the separator. */
  lemma SplitOnJoin(s: string, c: char)
    ensures JoinWith(SplitOn(s, c), [c]) == s
    ensures forall i :: 0 <= i < |SplitOn(s, c)| ==> c !in SplitOn(s, c)[i]
  {
    SplitOnJoinBack(s, c);
    SplitOnPartsFree(s, c);
  }

  /** A part free of the separator, followed by the separator, splits off as the first part. */
  lemma {:induction false} SplitOnConcat(a: string, c: char, b: string)
    requires c !in a
    ensures SplitOn(a + [c] + b, c) == [a] + SplitOn(b, c)
    decreases |a|
  {
    var s := a + [c] + b;
    if |a| == 0 {
      assert s == [c] + b && s[1..] == b;
    } else {
      assert s[0] == a[0] && s[1..] == a[1..] + [c] + b;
      SplitOnConcat(a[1..], c, b);
      assert [a[0]] + a[1..] == a;
    }
  }

  lemma AppendAssoc<T>(a: seq<T>, b: seq<T>, c: seq<T>)
    ensures a + b + c == a + (b + c)
  {
  }

  /** Joining two non-empty lists is joining each and putting one separator between. */
  lemma {:induction false} JoinWithAppend(x: seq<string>, y: seq<string>, sep: string)
    requires |x| >= 1 && |y| >= 1
    ensures JoinWith(x + y, sep) == JoinWith(x, sep) + sep + JoinWith(y, sep)
  {
    if |x| > 1 {
      assert (x + y)[1..] == x[1..] + y;
      JoinWithAppend(x[1..], y, sep);
    } else {
      assert (x + y)[1..] == y;
    }
  }

  /** Splitting a join of parts free of the separator gives the parts back. */
  lemma {:induction false} SplitOnJoinWith(parts: seq<string>, c: char)
    requires |parts| >= 1
    requires forall i :: 0 <= i < |parts| ==> c !in parts[i]
    ensures SplitOn(JoinWith(parts, [c]), c) == parts
  {
    if |parts| == 1 {
      SplitOnNoSeparator(parts[0], c);
    } else {
      SplitOnJoinWith(parts[1..], c);
      SplitOnConcat(parts[0], c, JoinWith(parts[1..], [c]));
      assert [parts[0]] + parts[1..] == parts;
    }
  }

  /** The number of occurrences of c in s. */
  function Count(s: string, c: char): nat {
    if |s| == 0 then 0 else (if s[0] == c then 1 else 0) + Count(s[1..], c)
  }

  /** Python's s.replace(c, t) for a one-character pattern c: every occurrence of c becomes t. */
  function ReplaceCharWith(s: string, c: char, t: string): (r: string)
    ensures c !in s ==> r == s
  {
    if |s| == 0 then ""
    else
      var rest := ReplaceCharWith(s[1..], c, t);
      assert c !in s ==> c !in s[1..] && s == [s[0]] + s[1..];
      if s[0] == c then t + rest else [s[0]] + rest
  }

  lemma {:induction false} ReplaceCharWithAppend(a: string, b: string, c: char, t: string)
    ensures ReplaceCharWith(a + b, c, t) == ReplaceCharWith(a, c, t) + ReplaceCharWith(b, c, t)
    decreases |a|
  {
    if |a| == 0 {
      assert a + b == b;
    } else {
      assert (a + b)[0] == a[0] && (a + b)[1..] == a[1..] + b;
      ReplaceCharWithAppend(a[1..], b, c, t);
      var h := if a[0] == c then t else [a[0]];
      assert ReplaceCharWith(a + b, c, t) == h + ReplaceCharWith(a[1..] + b, c, t);
      assert ReplaceCharWith(a, c, t) == h + ReplaceCharWith(a[1..], c, t);
    }
  }

  /** The part after the last occurrence of `c` (JS `s.split(c).pop()`, Python's
      os.path.basename for c == '/'). */
  function LastSegment(s: string, c: char): (r: string)
    ensures c !in r
    ensures c !in s ==> r == s
  {
    SplitOnJoin(s, c);
    var parts := SplitOn(s, c);
    SplitOnNoSeparator(s, c);
    parts[|parts| - 1]
  }

  lemma {:induction false} SplitOnNoSeparator(s: string, c: char)
    ensures c !in s ==> SplitOn(s, c) == [s]
  {
    if |s| > 0 && c !in s {
      SplitOnNoSeparator(s[1..], c);
      assert s == [s[0]] + s[1..];
    }
  }

  /** What follows the last separator is exactly the part appended after it. */
  lemma {:induction false} LastSegmentAfterSeparator(a: string, c: char, b: string)
    requires c !in b
    ensures LastSegment(a + [c] + b, c) == b
  {
    if |a| == 0 {
      SplitOnNoSeparator(b, c);
      assert ([c] + b)[1..] == b;
      assert a + [c] + b == [c] + b;
    } else {
      LastSegmentAfterSeparator(a[1..], c, b);
      var s := a + [c] + b;
      assert s[1..] == a[1..] + [c] + b;
      var rest := SplitOn(s[1..], c);
      var parts := SplitOn(s, c);
      assert parts[|parts| - 1] == rest[|rest| - 1];
    }
  }

  /** Python's os.path.basename on POSIX. */
  function Basename(p: string): string {
    LastSegment(p, '/')
  }

  /** Python's os.path.join(a, b) on POSIX: an absolute second part replaces the
      first, an empty first part contributes nothing, and a separator is added
      unless the first part already ends with one. */
  function PathJoin(a: string, b: string): (r: string)
    ensures EndsWith(r, b)
  {
    if StartsWith(b, "/") then b
    else if a == "" || EndsWith(a, "/") then a + b
    else a + "/" + b
  }

  /** The base name of a joined path is the file name that was joined on. */
  lemma BasenameOfPathJoin(dir: string, name: string)
    requires '/' !in name
    ensures Basename(PathJoin(dir, name)) == name
  {
    if dir == "" {
      assert PathJoin(dir, name) == name;
    } else if EndsWith(dir, "/") {
      var d := dir[..|dir| - 1];
      assert dir == d + ['/'];
      assert |name| == 0 || name[..1] != "/" by {
        assert |name| == 0 || name[0] in name;
      }
      assert PathJoin(dir, name) == dir + name;
      assert PathJoin(dir, name) == d + ['/'] + name;
      LastSegmentAfterSeparator(d, '/', name);
    } else {
      assert PathJoin(dir, name) == dir + ['/'] + name;
      LastSegmentAfterSeparator(dir, '/', name);
    }
  }

  predicate IsLower(c: char) { 'a' <= c <= 'z' }
  predicate IsUpper(c: char) { 'A' <= c <= 'Z' }
  predicate IsLetter(c: char) { IsLower(c) || IsUpper(c) }

  function UpperChar(c: char): (r: char)
    ensures IsLower(c) ==> IsUpper(r) && r as int == c as int - 32
    ensures !IsLower(c) ==> r == c
  {
    if IsLower(c) then (c as int - 32) as char else c
  }

  function LowerChar(c: char): (r: char)
    ensures IsUpper(c) ==> IsLower(r) && r as int == c as int + 32
    ensures !IsUpper(c) ==> r == c
  {
    if IsUpper(c) then (c as int + 32) as char else c
  }

  /** JavaScript's toLowerCase on the ASCII range. */
  function Lower(s: string): (r: string)
    ensures |r| == |s| && forall i :: 0 <= i < |s| ==> r[i] == LowerChar(s[i])
  {
    if |s| == 0 then "" else [LowerChar(s[0])] + Lower(s[1..])
  }

  /** Python's str.upper on the ASCII range. */
  function Upper(s: string): (r: string)
    ensures |r| == |s| && forall i :: 0 <= i < |s| ==> r[i] == UpperChar(s[i])
  {
    if |s| == 0 then "" else [UpperChar(s[0])] + Upper(s[1..])
  }

  /** Every occurrence of `x` replaced by `y` (Python's str.replace, JS's replace with /x/g). */
  function ReplaceAll(s: string, x: char, y: char): (r: string)
    ensures |r| == |s|
    ensures forall i :: 0 <= i < |s| ==> r[i] == (if s[i] == x then y else s[i])
  {
    if |s| == 0 then "" else [if s[0] == x then y else s[0]] + ReplaceAll(s[1..], x, y)
  }
}
