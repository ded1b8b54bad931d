/** FFmpeg drawtext filters built by backend/modules/content.py: truncation of
    overlay text, FFmpeg escaping, the headline/CTA overlay filter, the single
    subtitle overlay and the timed drawtext subtitle chain. Running FFmpeg and
    the temporary files around it are outside the model; a filter of `None`
    means the function returns False (or the input path) without running it. */
module Drawtext {
  import opened Wrappers
  import opened Text
  import Subtitles

  // ---------------------------------------------------------------- truncation

  /** Text longer than `limit` keeps its first `keep` characters followed by "...". */
  function Truncate(s: string, limit: nat, keep: nat): (r: string)
    requires keep <= limit
    ensures |s| <= limit ==> r == s
    ensures |s| > limit ==> |r| == keep + 3 && r == s[..keep] + "..."
  {
    if |s| > limit then s[..keep] + "..." else s
  }

  /** With keep = limit - 3 a truncated text is exactly `limit` long, any text is
      at most `limit` long, and truncating again changes nothing. */
  lemma TruncateBound(s: string, limit: nat)
    requires limit >= 3
    ensures |Truncate(s, limit, limit - 3)| <= limit
    ensures |s| > limit ==> |Truncate(s, limit, limit - 3)| == limit
    ensures Truncate(Truncate(s, limit, limit - 3), limit, limit - 3) == Truncate(s, limit, limit - 3)
  {
  }

  // ---------------------------------------------------------------- escaping

  /** The three replacements, in the order applied: ' to '\'', then : to \:, then , to \,. */
  function Escape(s: string): string {
    ReplaceCharWith(ReplaceCharWith(ReplaceCharWith(s, '\'', "'\\''"), ':', "\\:"), ',', "\\,")
  }

  /** The escape of one character. */
  function EscapeOne(c: char): string {
    if c == '\'' then "'\\''" else if c == ':' then "\\:" else if c == ',' then "\\," else [c]
  }

  /** Character-by-character reference definition of the escape. */
  function EscapeEach(s: string): string {
    if |s| == 0 then "" else EscapeOne(s[0]) + EscapeEach(s[1..])
  }

  /** The chained replacements escape each character independently: no
      replacement text contains a character that a later replacement rewrites. */
  lemma {:induction false} EscapeIsCharwise(s: string)
    ensures Escape(s) == EscapeEach(s)
    decreases |s|
  {
    if |s| > 0 {
      var c := s[0];
      var rest := s[1..];
      assert s == [c] + rest;
      ReplaceCharWithAppend([c], rest, '\'', "'\\''");
      var r1 := ReplaceCharWith([c], '\'', "'\\''");
      var q1 := ReplaceCharWith(rest, '\'', "'\\''");
      ReplaceCharWithAppend(r1, q1, ':', "\\:");
      var r2 := ReplaceCharWith(r1, ':', "\\:");
      var q2 := ReplaceCharWith(q1, ':', "\\:");
      ReplaceCharWithAppend(r2, q2, ',', "\\,");
      EscapeIsCharwise(rest);
      assert ReplaceCharWith([c], '\'', "'\\''") == (if c == '\'' then "'\\''" else [c]) by {
        assert [c][1..] == [];
      }
      if c == '\'' {
        assert ':' !in "'\\''" && ',' !in "'\\''";
      } else if c == ':' {
        assert [c][1..] == [];
        assert ReplaceCharWith([c], ':', "\\:") == "\\:";
        assert ',' !in "\\:";
      } else if c == ',' {
        assert [c][1..] == [];
        assert ReplaceCharWith([c], ',', "\\,") == "\\,";
      }
    }
  }

  /** The escaped length: three more per quote, one more per colon and comma. */
  lemma {:induction false} EscapeLength(s: string)
    ensures |Escape(s)| == |s| + 3 * Count(s, '\'') + Count(s, ':') + Count(s, ',')
    decreases |s|
  {
    EscapeIsCharwise(s);
    EscapeEachLength(s);
  }

  lemma {:induction false} EscapeEachLength(s: string)
    ensures |EscapeEach(s)| == |s| + 3 * Count(s, '\'') + Count(s, ':') + Count(s, ',')
    decreases |s|
  {
    if |s| > 0 {
      EscapeEachLength(s[1..]);
    }
  }

  /** In escaped text every colon and comma is protected by a preceding backslash. */
  predicate Protected(e: string) {
    forall i :: 0 <= i < |e| && (e[i] == ':' || e[i] == ',') ==> i > 0 && e[i - 1] == '\\'
  }

  lemma {:induction false} EscapeEachProtected(s: string)
    ensures Protected(EscapeEach(s))
    ensures |EscapeEach(s)| > 0 ==> EscapeEach(s)[0] != ':' && EscapeEach(s)[0] != ','
    decreases |s|
  {
    if |s| > 0 {
      EscapeEachProtected(s[1..]);
      var h := EscapeOne(s[0]);
      var t := EscapeEach(s[1..]);
      var e := h + t;
      assert Protected(h);
      forall i | 0 <= i < |e| && (e[i] == ':' || e[i] == ',') ensures i > 0 && e[i - 1] == '\\' {
        if i >= |h| {
          assert e[i] == t[i - |h|];
          if i - |h| == 0 {
            assert false;
          } else {
            assert e[i - 1] == t[i - |h| - 1];
          }
        } else {
          assert e[i] == h[i];
          if i > 0 { assert e[i - 1] == h[i - 1]; }
        }
      }
    }
  }

  lemma EscapeProtected(s: string)
    ensures Protected(Escape(s))
  {
    EscapeIsCharwise(s);
    EscapeEachProtected(s);
  }

  /** The decoding the escape is built for: '\'' gives ', \: gives :, \, gives , . */
  function Unescape(e: string): string
    decreases |e|
  {
    if |e| >= 4 && e[..4] == "'\\''" then "'" + Unescape(e[4..])
    else if |e| >= 2 && e[0] == '\\' && (e[1] == ':' || e[1] == ',') then [e[1]] + Unescape(e[2..])
    else if |e| == 0 then ""
    else [e[0]] + Unescape(e[1..])
  }

  /** Escaping loses nothing: distinct texts give distinct filter arguments. */
  lemma {:induction false} UnescapeEscape(s: string)
    ensures Unescape(Escape(s)) == s
  {
    EscapeIsCharwise(s);
    UnescapeEscapeEach(s);
  }

  lemma {:induction false} UnescapeEscapeEach(s: string)
    ensures Unescape(EscapeEach(s)) == s
    decreases |s|
  {
    if |s| > 0 {
      var c := s[0];
      var t := EscapeEach(s[1..]);
      var e := EscapeOne(c) + t;
      UnescapeEscapeEach(s[1..]);
      EscapeEachProtected(s[1..]);
      assert s == [c] + s[1..];
      if c == '\'' {
        assert e[..4] == "'\\''" && e[4..] == t;
      } else if c == ':' || c == ',' {
        assert e[..2] == "\\" + [c] && e[2..] == t;
        assert !(|e| >= 4 && e[..4] == "'\\''") by { assert e[0] == '\\'; }
      } else {
        assert e[0] == c && e[1..] == t;
        assert !(|e| >= 4 && e[..4] == "'\\''") by {
          if c == '\'' { assert false; }
        }
        assert !(|e| >= 2 && e[0] == '\\' && (e[1] == ':' || e[1] == ',')) by {
          if |e| >= 2 { assert e[1] == t[0]; }
        }
      }
    }
  }

  // ---------------------------------------------------------------- headline / CTA

  /** The text_data argument of add_text_overlay_with_images: a string, a dict
      with optional 'headline' and 'cta' entries, or any other value
      (including None). */
  datatype TextData = Str(s: string) | Dict(headline: Option<string>, cta: Option<string>) | Other

  /** A Python value used as a condition: a string is true when non-empty. */
  predicate Present(v: Option<string>) { v.Some? && |v.value| > 0 }

  function HeadlineFilter(headline: string): string {
    "drawtext=text='" + Escape(Truncate(headline, 60, 57)) + "':fontcolor=white:fontsize=24:box=1:boxcolor=black@0.8:x=20:y=30"
  }

  function CtaFilter(cta: string): string {
    "drawtext=text='" + Escape(Truncate(cta, 80, 77)) + "':fontcolor=white:fontsize=20:box=1:boxcolor=black@0.8:x=20:y=h-60"
  }

  /** A bare string stands for {'headline': s}. */
  function AsDict(td: TextData): TextData {
    match td
    case Str(s) => Dict(Some(s), None)
    case _ => td
  }

  /** The -vf argument of add_text_overlay_with_images; None where it returns
      False before running FFmpeg (no text data, a value of another type, or
      neither a headline nor a CTA). */
  function OverlayFilter(td: TextData): (r: Option<string>)
    ensures td.Other? ==> r == None
    ensures td.Str? ==> (r.Some? <==> |td.s| > 0) && (r.Some? ==> r.value == HeadlineFilter(td.s))
    ensures td.Dict? ==>
      (r.Some? <==> Present(td.headline) || Present(td.cta))
      && (Present(td.headline) && Present(td.cta) ==> r == Some(HeadlineFilter(td.headline.value) + "," + CtaFilter(td.cta.value)))
      && (Present(td.headline) && !Present(td.cta) ==> r == Some(HeadlineFilter(td.headline.value)))
      && (!Present(td.headline) && Present(td.cta) ==> r == Some(CtaFilter(td.cta.value)))
  {
    match AsDict(td)
    case Dict(h, c) =>
      if Present(h) && Present(c) then Some(HeadlineFilter(h.value) + "," + CtaFilter(c.value))
      else if Present(h) then Some(HeadlineFilter(h.value))
      else if Present(c) then Some(CtaFilter(c.value))
      else None
    case _ => None
  }

  /** A bare string is handled exactly like a dict holding it as the headline. */
  lemma OverlayFilterStr(s: string)
    ensures OverlayFilter(Str(s)) == OverlayFilter(Dict(Some(s), None))
  {
  }

  /** The overlaid text can be read back from the filter: the headline filter
      carries the (truncated) headline, escaped, between its quotes. */
  lemma HeadlineFilterText(headline: string)
    ensures var e := Escape(Truncate(headline, 60, 57));
      HeadlineFilter(headline)[..15] == "drawtext=text='"
      && HeadlineFilter(headline)[15..15 + |e|] == e
      && Unescape(e) == Truncate(headline, 60, 57)
  {
    UnescapeEscape(Truncate(headline, 60, 57));
  }

  // ---------------------------------------------------------------- single subtitle

  /** The y expression for a subtitle position; anything unrecognised is the bottom. */
  function YPosition(position: string): (y: string)
    ensures position == "top" ==> y == "30"
    ensures position == "center" ==> y == "(h-text_h)/2"
    ensures position != "top" && position != "center" ==> y == "h-70"
  {
    if position == "top" then "30" else if position == "center" then "(h-text_h)/2" else "h-70"
  }

  /** The -vf argument of add_subtitle_overlay; None for empty text. */
  function SubtitleOverlayFilter(text: string, position: string := "bottom"): (r: Option<string>)
    ensures r.None? <==> |text| == 0
    ensures r.Some? ==>
      StartsWith(r.value, "drawtext=text='" + Escape(Truncate(text, 80, 77)) + "'") && EndsWith(r.value, ":x=20:y=" + YPosition(position))
  {
    if |text| == 0 then None
    else
      var body := "drawtext=text='" + Escape(Truncate(text, 80, 77)) + "'";
      var tail := ":x=20:y=" + YPosition(position);
      var f := body + ":fontcolor=white:fontsize=24:box=1:boxcolor=black@0.8" + tail;
      assert f[..|body|] == body;
      assert f[|f| - |tail|..] == tail;
      Some(f)
  }

  // ---------------------------------------------------------------- timed subtitles

  /** One timed drawtext expression of add_subtitles_with_drawtext; `render`
      stands for Python's str() of a float, which the model does not fix. */
  function DrawtextExpr(sub: Subtitles.Segment, render: real -> string): string {
    "drawtext=text='" + Escape(Truncate(sub.text, 35, 32)) + "':fontcolor=white:fontsize=18:"
      + "box=1:boxcolor=black@0.7:boxborderw=3:x=(w-text_w)/2:y=h-60:"
      + "enable='between(t," + render(sub.start) + "," + render(sub.end) + ")'"
  }

  /** The expressions of a list of subtitles, one per subtitle, in order. */
  function DrawtextExprs(subs: seq<Subtitles.Segment>, render: real -> string): (exprs: seq<string>)
    ensures |exprs| == |subs| && forall i :: 0 <= i < |subs| ==> exprs[i] == DrawtextExpr(subs[i], render)
  {
    if |subs| == 0 then [] else DrawtextExprs(subs[..|subs| - 1], render) + [DrawtextExpr(subs[|subs| - 1], render)]
  }

  /** The -vf argument of add_subtitles_with_drawtext: the expressions of all
      subtitles, in order, joined by commas; None (the input path is returned
      unchanged) when there are no subtitles. */
  method DrawtextFilter(subs: seq<Subtitles.Segment>, render: real -> string) returns (filter: Option<string>)
    ensures filter.None? <==> |subs| == 0
    ensures filter.Some? ==> filter.value == JoinWith(DrawtextExprs(subs, render), ",")
  {
    if |subs| == 0 {
      return None;
    }
    var exprs: seq<string> := [];
    var i := 0;
    while i < |subs|
      invariant 0 <= i <= |subs|
      invariant exprs == DrawtextExprs(subs[..i], render)
    {
      assert subs[..i + 1][..i] == subs[..i];
      exprs := exprs + [DrawtextExpr(subs[i], render)];
      i := i + 1;
    }
    assert subs[..i] == subs;
    filter := Some(JoinWith(exprs, ","));
  }
}
