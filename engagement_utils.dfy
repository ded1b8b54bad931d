/** The rule-based engagement predictor and the output-file naming helper of the
    processing backend (backend/modules/utils.py). */
module EngagementUtils {
  import opened Wrappers
  import opened Text

  /** The keys of the content dictionary that the predictor reads. For the
      headline and the call to action, a key that is absent, None or an empty
      string is `None` or `Some("")` alike: the source only tests their
      truthiness. An absent duration reads as 0; a duration that is present but
      not a number would raise TypeError at the first comparison, which the
      callers never provoke, so the duration is always a number here. */
  datatype ContentData = ContentData(
    duration: Option<real>,
    headline: Option<string>,
    callToAction: Option<string>)

  datatype Prediction = Prediction(
    predictedEngagement: int,
    engagementLevel: string,
    suggestions: seq<string>)

  const BaseScore := 60

  const ShortsTooShort := "YouTube Shorts perform better when they're at least 15 seconds long"
  const AdsTooLong := "Consider shorter ad durations (15-30s) for better completion rates"
  const DisplayTooLong := "Display ads should be very short (under 10 seconds)"
  const PerformanceMaxTooLong := "Performance Max ads work best when under 30 seconds"
  const HeadlineTooLong := "Consider shortening your headline for better impact"
  const CtaTooLong := "Shorter CTAs typically drive better conversion rates"

  /** Python truthiness of an optional string value. */
  predicate Truthy(s: Option<string>) { s.Some? && s.value != "" }

  /** The duration rule table: the amount added to the base score. */
  function DurationAdjustment(platform: string, d: real): int {
    if platform == "youtube_shorts" then
      (if 15.0 <= d <= 60.0 then 15 else if d < 15.0 then -10 else 0)
    else if platform == "youtube_ads" then
      (if 15.0 <= d <= 30.0 then 10 else if d > 30.0 then -10 else 0)
    else if platform == "display_ads" then
      (if d <= 10.0 then 15 else -15)
    else if platform == "performance_max" then
      (if 10.0 <= d <= 30.0 then 10 else if d > 30.0 then -5 else 0)
    else 0
  }

  /** The suggestion the duration rules add, if any. */
  function DurationSuggestions(platform: string, d: real): seq<string> {
    if platform == "youtube_shorts" && d < 15.0 then [ShortsTooShort]
    else if platform == "youtube_ads" && d > 30.0 then [AdsTooLong]
    else if platform == "display_ads" && d > 10.0 then [DisplayTooLong]
    else if platform == "performance_max" && d > 30.0 then [PerformanceMaxTooLong]
    else []
  }

  /** The bucket of a score. */
  function EngagementLevel(score: int): (level: string)
    ensures level == "High" <==> score >= 75
    ensures level == "Medium" <==> 50 <= score < 75
    ensures level == "Low" <==> score < 50
  {
    if score >= 75 then "High" else if score >= 50 then "Medium" else "Low"
  }

  /** The duration part of predict_engagement: the score after the platform's
      duration rule and the suggestion list so far. */
  method ScoreDuration(platform: string, duration: real) returns (score: int, suggestions: seq<string>)
    ensures score == BaseScore + DurationAdjustment(platform, duration)
    ensures suggestions == DurationSuggestions(platform, duration)
  {
    score := BaseScore;
    suggestions := [];

    if platform == "youtube_shorts" {
      if 15.0 <= duration <= 60.0 {
        score := score + 15;
      } else if duration < 15.0 {
        score := score - 10;
        suggestions := suggestions + [ShortsTooShort];
      }
    } else if platform == "youtube_ads" {
      if 15.0 <= duration <= 30.0 {
        score := score + 10;
      } else if duration > 30.0 {
        score := score - 10;
        suggestions := suggestions + [AdsTooLong];
      }
    } else if platform == "display_ads" {
      if duration <= 10.0 {
        score := score + 15;
      } else {
        score := score - 15;
        suggestions := suggestions + [DisplayTooLong];
      }
    } else if platform == "performance_max" {
      if 10.0 <= duration <= 30.0 {
        score := score + 10;
      } else if duration > 30.0 {
        score := score - 5;
        suggestions := suggestions + [PerformanceMaxTooLong];
      }
    }
  }

  /** The prediction predict_engagement returns, as one value: the score is the base
      plus the duration adjustment, the level its bucket, and the suggestions the
      duration one followed by the headline and call-to-action ones. */
  function EngagementFor(content: ContentData, platform: string): (p: Prediction)
    ensures p.predictedEngagement in {45, 50, 55, 60, 70, 75}
    ensures p.engagementLevel == EngagementLevel(p.predictedEngagement)
  {
    var d := content.duration.GetOr(0.0);
    Prediction(
      BaseScore + DurationAdjustment(platform, d),
      EngagementLevel(BaseScore + DurationAdjustment(platform, d)),
      DurationSuggestions(platform, d)
      + (if Truthy(content.headline) && |content.headline.value| > 50 then [HeadlineTooLong] else [])
      + (if Truthy(content.callToAction) && |content.callToAction.value| > 20 then [CtaTooLong] else []))
  }

  /** predict_engagement: builds the score and the suggestion list step by step,
      clamps the score to [0, 100] and buckets it. */
  method PredictEngagement(content: ContentData, platform: string) returns (p: Prediction)
    // the rule table, branch by branch; a missing duration counts as 0
    ensures var d := content.duration.GetOr(0.0);
      && (platform == "youtube_shorts" ==>
            p.predictedEngagement == (if 15.0 <= d <= 60.0 then 75 else if d < 15.0 then 50 else 60))
      && (platform == "youtube_ads" ==>
            p.predictedEngagement == (if 15.0 <= d <= 30.0 then 70 else if d > 30.0 then 50 else 60))
      && (platform == "display_ads" ==>
            p.predictedEngagement == (if d <= 10.0 then 75 else 45))
      && (platform == "performance_max" ==>
            p.predictedEngagement == (if 10.0 <= d <= 30.0 then 70 else if d > 30.0 then 55 else 60))
      && (platform !in {"youtube_shorts", "youtube_ads", "display_ads", "performance_max"} ==>
            p.predictedEngagement == 60)
    // the clamp never binds, and only the duration moves the score
    ensures p.predictedEngagement == BaseScore + DurationAdjustment(platform, content.duration.GetOr(0.0))
    ensures p.predictedEngagement in {45, 50, 55, 60, 70, 75}
    ensures 0 <= p.predictedEngagement <= 100
    ensures p.engagementLevel == EngagementLevel(p.predictedEngagement)
    ensures p == EngagementFor(content, platform)
    // suggestions: the duration one first, then the headline and the call-to-action ones
    ensures p.suggestions ==
      DurationSuggestions(platform, content.duration.GetOr(0.0))
      + (if Truthy(content.headline) && |content.headline.value| > 50 then [HeadlineTooLong] else [])
      + (if Truthy(content.callToAction) && |content.callToAction.value| > 20 then [CtaTooLong] else [])
  {
    var duration := content.duration.GetOr(0.0);
    var score, suggestions := ScoreDuration(platform, duration);
    if content.headline.Some? && content.headline.value != "" {
      if |content.headline.value| > 50 {
        suggestions := suggestions + [HeadlineTooLong];
      }
    }
    if content.callToAction.Some? && content.callToAction.value != "" {
      if |content.callToAction.value| > 20 {
        suggestions := suggestions + [CtaTooLong];
      }
    }

    score := if 100 < score then 100 else score;
    score := if score < 0 then 0 else score;
    p := Prediction(score, EngagementLevel(score), suggestions);
  }

  /** A wall-clock reading, as datetime.now() would give it. */
  datatype DateTime = DateTime(year: nat, month: nat, day: nat, hour: nat, minute: nat, second: nat)

  /** Readings whose strftime("%Y%m%d_%H%M%S") rendering has its fixed 15-character shape. */
  predicate FixedWidth(dt: DateTime) {
    1000 <= dt.year <= 9999 && dt.month < 100 && dt.day < 100
    && dt.hour < 100 && dt.minute < 100 && dt.second < 100
  }

  /** strftime("%Y%m%d_%H%M%S"). */
  function Stamp(dt: DateTime): string {
    NatToString(dt.year) + Pad2(dt.month) + Pad2(dt.day) + "_"
    + Pad2(dt.hour) + Pad2(dt.minute) + Pad2(dt.second)
  }

  /** The inverse of Stamp on 15-character stamps: fields read back from their positions. */
  function ParseStamp(s: string): Option<DateTime> {
    if |s| == 15 && s[8] == '_' && AllDigits(s[..8]) && AllDigits(s[9..]) then
      Some(DateTime(ParseNat(s[0..4]), ParseNat(s[4..6]), ParseNat(s[6..8]),
                    ParseNat(s[9..11]), ParseNat(s[11..13]), ParseNat(s[13..15])))
    else None
  }

  lemma {:induction false} FourDigitYear(y: nat)
    requires 1000 <= y <= 9999
    ensures |NatToString(y)| == 4
  {
    assert NatToString(y) == NatToString(y / 10) + [DigitChar(y % 10)];
    assert NatToString(y / 10) == NatToString(y / 100) + [DigitChar(y / 10 % 10)];
    assert NatToString(y / 100) == NatToString(y / 1000) + [DigitChar(y / 100 % 10)];
  }

  /** generate_output_filename, with the clock reading passed in; the extension
      defaults to "mp4" as in the source. */
  function OutputFilename(platform: string, now: DateTime, extension: string := "mp4"): string {
    platform + "_" + Stamp(now) + "." + extension
  }

  /** The file name decomposes back into the platform, the clock reading and the
      extension it was built from. */
  lemma OutputFilenameParts(platform: string, now: DateTime, extension: string)
    requires FixedWidth(now)
    ensures var r := OutputFilename(platform, now, extension);
      && StartsWith(r, platform + "_")
      && EndsWith(r, "." + extension)
      && |r| == |platform| + 17 + |extension|
      && ParseStamp(r[|platform| + 1..|platform| + 16]) == Some(now)
  {
    var st := Stamp(now);
    FourDigitYear(now.year);
    ParseNatToString(now.year);
    var y, mo, d := NatToString(now.year), Pad2(now.month), Pad2(now.day);
    var h, mi, se := Pad2(now.hour), Pad2(now.minute), Pad2(now.second);
    assert st == y + mo + d + "_" + h + mi + se;
    assert |st| == 15;
    assert st[0..4] == y && st[4..6] == mo && st[6..8] == d;
    assert st[9..11] == h && st[11..13] == mi && st[13..15] == se;
    assert st[..8] == y + mo + d;
    assert st[9..] == h + mi + se;
    var r := OutputFilename(platform, now, extension);
    assert r == (platform + "_") + st + ("." + extension);
    assert r[|platform| + 1..|platform| + 16] == st;
  }

  /** A generated name contains no directory separator, so the base name of any
      path it is joined onto gives it back. */
  lemma OutputFilenameIsBasename(dir: string, platform: string, now: DateTime, extension: string)
    requires '/' !in platform && '/' !in extension
    ensures Basename(PathJoin(dir, OutputFilename(platform, now, extension))) == OutputFilename(platform, now, extension)
  {
    var st := Stamp(now);
    assert forall i :: 0 <= i < |st| ==> st[i] == '_' || IsDigit(st[i]);
    var r := OutputFilename(platform, now, extension);
    assert r == platform + "_" + st + "." + extension;
    assert '/' !in r by {
      forall i | 0 <= i < |r| ensures r[i] != '/' {
        if i < |platform| { assert r[i] == platform[i]; }
        else if i < |platform| + 1 + |st| + 1 { }
        else { assert r[i] == extension[i - |platform| - 2 - |st|]; }
      }
    }
    BasenameOfPathJoin(dir, r);
  }
}
