/** One generated item on the results page
    (frontend/src/components/video/ContentCard.tsx): its title, the
    engagement colour, the file and download links, and which parts are
    drawn. */
module ContentCard {
  import opened Wrappers
  import opened Text
  import Pipeline
  import EngagementUtils

  /** A character `\w` matches. */
  predicate IsWordChar(c: char) {
    IsLetter(c) || '0' <= c <= '9' || c == '_'
  }

  /** `platform.replace(/_/g, ' ').replace(/\b\w/g, l => l.toUpperCase())`:
      after the underscores become spaces, every word character that starts a
      run of word characters is upper-cased; no other character changes. */
  function FormatPlatformName(platform: string): (r: string)
    ensures |r| == |platform|
  {
    var s := ReplaceAll(platform, '_', ' ');
    seq(|s|, i requires 0 <= i < |s| =>
      if IsWordChar(s[i]) && (i == 0 || !IsWordChar(s[i - 1])) then UpperChar(s[i]) else s[i])
  }

  /** For names made of lower-case letters and underscores, such as the four
      platform keys, the card's title is the ad format the backend derives
      from the same key. */
  lemma FormatMatchesAdFormat(platform: string)
    requires forall i :: 0 <= i < |platform| ==> IsLower(platform[i]) || platform[i] == '_'
    ensures FormatPlatformName(platform) == Pipeline.AdFormat(platform)
  {
    var s := ReplaceAll(platform, '_', ' ');
    var a := FormatPlatformName(platform);
    var b := Pipeline.AdFormat(platform);
    assert forall i :: 0 <= i < |s| ==> IsLower(s[i]) || s[i] == ' ';
    forall i | 0 <= i < |s| ensures a[i] == b[i] {
      assert b[i] == Pipeline.Cased(s[i], i > 0 && IsLetter(s[i - 1]));
      if i > 0 {
        assert IsWordChar(s[i - 1]) == IsLetter(s[i - 1]);
      }
    }
  }

  /** Unlike str.title, the card leaves the rest of a word alone. */
  lemma FormatKeepsCapitals()
    ensures FormatPlatformName("AB") == "AB"
    ensures Pipeline.TitleCase("AB") == "Ab"
  {
  }

  /** `getEngagementColor(level)`: the lower-cased level picks the colour. */
  function EngagementColor(level: Option<string>): string {
    if level.None? then "bg-gray-500"
    else
      var l := Lower(level.value);
      if l == "high" then "bg-green-500"
      else if l == "medium" then "bg-yellow-500"
      else if l == "low" then "bg-red-500"
      else "bg-gray-500"
  }

  lemma LowerUpperChar(c: char)
    ensures LowerChar(UpperChar(c)) == LowerChar(c)
    ensures LowerChar(LowerChar(c)) == LowerChar(c)
  {
  }

  lemma LowerUpper(s: string)
    ensures Lower(Upper(s)) == Lower(s)
    ensures Lower(Lower(s)) == Lower(s)
  {
    var u, l := Upper(s), Lower(s);
    forall i | 0 <= i < |s| ensures Lower(u)[i] == l[i] && Lower(l)[i] == l[i] {
      LowerUpperChar(s[i]);
    }
  }

  /** The colour does not depend on letter case. */
  lemma ColorIgnoresCase(level: string)
    ensures EngagementColor(Some(Upper(level))) == EngagementColor(Some(level))
    ensures EngagementColor(Some(Lower(level))) == EngagementColor(Some(level))
  {
    LowerUpper(level);
    ColorOfLower(Upper(level), level);
    ColorOfLower(Lower(level), level);
  }

  lemma ColorOfLower(a: string, b: string)
    requires Lower(a) == Lower(b)
    ensures EngagementColor(Some(a)) == EngagementColor(Some(b))
  {
  }

  lemma LevelNames()
    ensures Lower("High") == "high" && Lower("Medium") == "medium" && Lower("Low") == "low"
  {
    LowerHigh();
    LowerMedium();
    LowerLow();
  }

  lemma LowerHigh()
    ensures Lower("High") == "high"
  {
    var r := Lower("High");
    assert r[0] == 'h' && r[1] == 'i' && r[2] == 'g' && r[3] == 'h';
  }

  lemma LowerMedium()
    ensures Lower("Medium") == "medium"
  {
    var r := Lower("Medium");
    assert r[0] == 'm' && r[1] == 'e' && r[2] == 'd' && r[3] == 'i' && r[4] == 'u' && r[5] == 'm';
  }

  lemma LowerLow()
    ensures Lower("Low") == "low"
  {
    var r := Lower("Low");
    assert r[0] == 'l' && r[1] == 'o' && r[2] == 'w';
  }

  /** The three buckets the backend assigns show as green, yellow and red. */
  lemma BackendLevelColors(score: int)
    ensures score >= 75 ==> EngagementColor(Some(EngagementUtils.EngagementLevel(score))) == "bg-green-500"
    ensures 50 <= score < 75 ==> EngagementColor(Some(EngagementUtils.EngagementLevel(score))) == "bg-yellow-500"
    ensures score < 50 ==> EngagementColor(Some(EngagementUtils.EngagementLevel(score))) == "bg-red-500"
  {
    LevelNames();
  }

  function FileUrl(jobId: string, path: string): string {
    "/api/file/" + jobId + "/" + path
  }

  function DownloadUrl(jobId: string, path: string): string {
    "/api/download/" + jobId + "/" + path
  }

  lemma SplitAfter(a: string, b: string)
    requires '/' !in a
    ensures SplitOn(a + ['/'] + b, '/') == [a] + SplitOn(b, '/')
  {
    SplitOnConcat(a, '/', b);
  }

  /** Four separator-free segments, each followed by a slash, then the rest. */
  lemma SplitFour(a: string, b: string, c: string, d: string, rest: string)
    requires '/' !in a && '/' !in b && '/' !in c && '/' !in d
    ensures SplitOn(a + ['/'] + (b + ['/'] + (c + ['/'] + (d + ['/'] + rest))), '/') == [a, b, c, d] + SplitOn(rest, '/')
  {
    var s3 := d + ['/'] + rest;
    var s2 := c + ['/'] + s3;
    var s1 := b + ['/'] + s2;
    SplitAfter(d, rest);
    SplitAfter(c, s3);
    SplitAfter(b, s2);
    SplitAfter(a, s1);
    ConsFour(a, b, c, d, SplitOn(rest, '/'));
  }

  lemma ConsFour<T>(a: T, b: T, c: T, d: T, x: seq<T>)
    ensures [a] + ([b] + ([c] + ([d] + x))) == [a, b, c, d] + x
  {
  }

  /** `p + x + "/" + y` regrouped to the right. */
  lemma Regroup(p: string, x: string, y: string)
    ensures p + x + ['/'] + y == p + (x + ['/'] + y)
  {
    AppendAssoc(p + x, ['/'], y);
    AppendAssoc(p, x, ['/'] + y);
    AppendAssoc(x, ['/'], y);
  }

  /** A route link `/api/<route>/<job id>/<path>` splits into its route, its job id
      and the path's own segments. */
  lemma SplitRoute(prefix: string, route: string, jobId: string, path: string)
    requires '/' !in route && '/' !in jobId
    requires prefix == "" + ['/'] + ("api" + ['/'] + (route + ['/']))
    ensures SplitOn(prefix + jobId + ['/'] + path, '/') == ["", "api", route, jobId] + SplitOn(path, '/')
  {
    var t := jobId + ['/'] + path;
    Regroup(prefix, jobId, path);
    AppendAssoc("" + ['/'], "api" + ['/'] + (route + ['/']), t);
    AppendAssoc("api" + ['/'], route + ['/'], t);
    AppendAssoc("api", ['/'], (route + ['/']) + t);
    AppendAssoc("", ['/'], ("api" + ['/'] + (route + ['/'])) + t);
    AppendAssoc(route, ['/'], t);
    assert prefix + t == "" + ['/'] + ("api" + ['/'] + (route + ['/'] + t));
    SplitFour("", "api", route, jobId, path);
  }

  /** The player and poster links name the job and then the stored path: a job
      id without a slash is the third segment and the path's own segments
      follow. */
  lemma FileUrlSegments(jobId: string, path: string)
    requires '/' !in jobId
    ensures SplitOn(FileUrl(jobId, path), '/') == ["", "api", "file", jobId] + SplitOn(path, '/')
  {
    assert "/api/file/" == "" + ['/'] + ("api" + ['/'] + ("file" + ['/']));
    SplitRoute("/api/file/", "file", jobId, path);
  }

  /** The download links have the same shape under the download route. */
  lemma DownloadUrlSegments(jobId: string, path: string)
    requires '/' !in jobId
    ensures SplitOn(DownloadUrl(jobId, path), '/') == ["", "api", "download", jobId] + SplitOn(path, '/')
  {
    assert "/api/download/" == "" + ['/'] + ("api" + ['/'] + ("download" + ['/']));
    SplitRoute("/api/download/", "download", jobId, path);
  }

  datatype CardCreatives = CardCreatives(headline: Option<string>, description: Option<string>, callToAction: Option<string>)
  datatype CardPrediction = CardPrediction(predictedEngagement: int, engagementLevel: Option<string>)

  /** The `content` prop; `creatives` and `engagementPrediction` come from its
      metadata and may be missing. */
  datatype CardContent = CardContent(id: string, platform: string, videoPath: string, thumbnailPath: string,
                                     creatives: Option<CardCreatives>, engagementPrediction: Option<CardPrediction>)

  datatype Media = Player(src: string) | Poster(src: string, alt: string)
  datatype Badge = Badge(color: string, text: string)
  datatype Bar = Bar(color: string, width: int, caption: string)

  datatype Card = Card(media: Media, title: string, badge: Option<Badge>, headline: Option<string>,
                       description: Option<string>, bar: Option<Bar>, videoDownload: string, thumbnailDownload: string)

  /** A creative field is drawn only when present and non-empty. */
  function Shown(field: Option<string>): Option<string> {
    if field.Some? && field.value != "" then field else None
  }

  function Render(c: CardContent, jobId: string, playing: bool): Card {
    var title := FormatPlatformName(c.platform);
    var media := if playing then Player(FileUrl(jobId, c.videoPath))
                 else Poster(FileUrl(jobId, c.thumbnailPath), "Thumbnail for " + title);
    var p := c.engagementPrediction;
    var badge := if p.Some? then Some(Badge(EngagementColor(p.value.engagementLevel),
                                            p.value.engagementLevel.GetOr("") + " Engagement")) else None;
    var bar := if p.Some? then Some(Bar(EngagementColor(p.value.engagementLevel), p.value.predictedEngagement,
                                        IntToString(p.value.predictedEngagement) + "% predicted engagement")) else None;
    Card(media, title,
         badge,
         if c.creatives.Some? then Shown(c.creatives.value.headline) else None,
         if c.creatives.Some? then Shown(c.creatives.value.description) else None,
         bar,
         DownloadUrl(jobId, c.videoPath), DownloadUrl(jobId, c.thumbnailPath))
  }

  /** The drawn card: the player shows the video and the poster the thumbnail,
      both through the file route; the badge and the bar appear together,
      exactly when a prediction is present, in the same colour; the headline
      and description appear exactly when present and non-empty; the download
      links name the same files through the download route. */
  lemma RenderMeaning(c: CardContent, jobId: string, playing: bool)
    ensures var card := Render(c, jobId, playing);
      && card.title == FormatPlatformName(c.platform)
      && (playing <==> card.media.Player?)
      && card.media.src == FileUrl(jobId, if playing then c.videoPath else c.thumbnailPath)
      && (card.badge.Some? <==> c.engagementPrediction.Some?)
      && (card.bar.Some? <==> c.engagementPrediction.Some?)
      && (card.badge.Some? ==>
            card.badge.value.color == card.bar.value.color && card.bar.value.width == c.engagementPrediction.value.predictedEngagement)
      && (card.headline.Some? <==> c.creatives.Some? && c.creatives.value.headline.Some? && c.creatives.value.headline.value != "")
      && (card.description.Some? <==> c.creatives.Some? && c.creatives.value.description.Some? && c.creatives.value.description.value != "")
      && (card.headline.Some? ==> card.headline == c.creatives.value.headline)
      && card.videoDownload == DownloadUrl(jobId, c.videoPath)
      && card.thumbnailDownload == DownloadUrl(jobId, c.thumbnailPath)
  {
  }

  /** Whether the player replaces the thumbnail. */
  class Playback {
    var playing: bool

    constructor()
      ensures !playing
    {
      playing := false;
    }

    /** The play button over the thumbnail. */
    method Play()
      modifies this
      ensures playing
    {
      playing := true;
    }

    /** The player's onEnded. */
    method Ended()
      modifies this
      ensures !playing
    {
      playing := false;
    }
  }
}
