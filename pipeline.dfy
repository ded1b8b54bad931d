/** The per-platform bookkeeping of the batch pipeline (process_video in
    backend/enhanced_app.py): the platform directory table and its re-rooting,
    the settings table, the dispatch to the renderers, the metadata record, the
    results dictionary and the summary report. Transcription, moment finding and
    creative generation are inputs; rendering and file writes are recorded, not
    performed. */
module Pipeline {
  import opened Wrappers
  import opened Text
  import opened Assoc
  import opened EngagementUtils

  const DefaultOutputDir := "outputs"
  const PlatformKeys: seq<string> := ["youtube_shorts", "youtube_ads", "display_ads", "performance_max"]
  const SummaryName := "summary_report.json"

  /** Each key paired with its directory under `root`. */
  function RootedDirs(keys: seq<string>, root: string): (dirs: seq<(string, string)>)
    ensures Keys(dirs) == keys
  {
    if |keys| == 0 then []
    else
      var dirs := [(keys[0], PathJoin(root, keys[0]))] + RootedDirs(keys[1..], root);
      assert Keys(dirs) == [keys[0]] + Keys(dirs[1..]);
      dirs
  }

  /** PLATFORM_DIRS as the module first defines it. */
  function DefaultDirs(): seq<(string, string)> {
    RootedDirs(PlatformKeys, DefaultOutputDir)
  }

  /** The rebinding of PLATFORM_DIRS when an output directory is given. */
  function RemapDirs(dirs: seq<(string, string)>, root: string): (r: seq<(string, string)>)
    ensures Keys(r) == Keys(dirs)
  {
    RootedDirs(Keys(dirs), root)
  }

  /** Every rooted key's directory is the key joined onto the root. */
  lemma {:induction false} LookupRootedDirs(keys: seq<string>, root: string, k: string)
    ensures Lookup(RootedDirs(keys, root), k) == if k in keys then Some(PathJoin(root, k)) else None
  {
    if |keys| > 0 && keys[0] != k {
      LookupRootedDirs(keys[1..], root, k);
      assert k in keys <==> k in keys[1..];
    }
  }

  /** Re-rooting keeps the platform set and order and puts each platform's
      directory directly under the new root; doing it twice is doing it once. */
  lemma RemapDirsMeaning(dirs: seq<(string, string)>, root: string, k: string)
    ensures Keys(RemapDirs(dirs, root)) == Keys(dirs)
    ensures Lookup(RemapDirs(dirs, root), k) == if k in Keys(dirs) then Some(PathJoin(root, k)) else None
    ensures RemapDirs(RemapDirs(dirs, root), root) == RemapDirs(dirs, root)
  {
    LookupRootedDirs(Keys(dirs), root, k);
  }

  /** The four platform directories start out under "outputs". */
  lemma DefaultDirsMeaning(k: string)
    ensures Keys(DefaultDirs()) == PlatformKeys
    ensures Lookup(DefaultDirs(), k) == if k in PlatformKeys then Some(DefaultOutputDir + "/" + k) else None
  {
    LookupRootedDirs(PlatformKeys, DefaultOutputDir, k);
    if k in PlatformKeys {
      assert k[0] != '/';
      assert !EndsWith(DefaultOutputDir, "/");
    }
  }

  datatype Setting = Setting(duration: nat, aspectRatio: string)

  /** PLATFORM_SETTINGS; an unknown platform is a KeyError at the lookup. */
  function Settings(platform: string): Option<Setting> {
    if platform == "youtube_shorts" then Some(Setting(60, "9:16"))
    else if platform == "youtube_ads" then Some(Setting(15, "16:9"))
    else if platform == "display_ads" then Some(Setting(6, "1:1"))
    else if platform == "performance_max" then Some(Setting(20, "16:9"))
    else None
  }

  /** A letter's case under str.title: lower after another letter, upper otherwise. */
  function Cased(c: char, afterLetter: bool): char {
    if afterLetter then LowerChar(c) else UpperChar(c)
  }

  /** The settings table has a row for exactly the platforms of the directory table. */
  lemma SettingsTable(platform: string)
    ensures Settings(platform).Some? <==> platform in PlatformKeys
    ensures platform == "youtube_shorts" ==> Settings(platform) == Some(Setting(60, "9:16"))
    ensures platform == "youtube_ads" ==> Settings(platform) == Some(Setting(15, "16:9"))
    ensures platform == "display_ads" ==> Settings(platform) == Some(Setting(6, "1:1"))
    ensures platform == "performance_max" ==> Settings(platform) == Some(Setting(20, "16:9"))
  {
  }

  /** Python's str.title on ASCII text: a letter is upper-cased when it starts a
      run of letters and lower-cased otherwise. */
  function TitleCase(s: string): (r: string)
    ensures |r| == |s|
    ensures forall i :: 0 <= i < |s| ==> r[i] == Cased(s[i], i > 0 && IsLetter(s[i - 1]))
  {
    seq(|s|, i requires 0 <= i < |s| => Cased(s[i], i > 0 && IsLetter(s[i - 1])))
  }

  /** Title-casing an already title-cased string changes nothing. */
  lemma TitleCaseIdempotent(s: string)
    ensures TitleCase(TitleCase(s)) == TitleCase(s)
  {
    var t := TitleCase(s);
    var u := TitleCase(t);
    forall i | 0 <= i < |s| ensures u[i] == t[i] {
      if i > 0 {
        assert IsLetter(t[i - 1]) == IsLetter(s[i - 1]);
      }
    }
  }

  /** The ad_format passed to creative generation: underscores become spaces and
      the result is title-cased. */
  function AdFormat(platform: string): string {
    TitleCase(ReplaceAll(platform, '_', ' '))
  }

  /** "youtube_ads" becomes "Youtube Ads", which is not the "YouTube Ads" spelling
      a caller comparing against the brand name would expect. */
  lemma AdFormatOfYoutubeAds()
    ensures AdFormat("youtube_ads") == "Youtube Ads"
    ensures AdFormat("youtube_ads") != "YouTube Ads"
  {
    SpacedYoutubeAds();
    TitledYoutubeAds();
    assert "Youtube Ads"[3] != "YouTube Ads"[3];
  }

  lemma SpacedYoutubeAds()
    ensures ReplaceAll("youtube_ads", '_', ' ') == "youtube ads"
  {
  }

  lemma TitledYoutubeAds()
    ensures TitleCase("youtube ads") == "Youtube Ads"
  {
  }

  /** Creatives are whatever dictionary creative generation returns. */
  type Creatives = map<string, string>

  function Get(c: Creatives, key: string, default: string): string {
    if key in c then c[key] else default
  }

  /** A call to one of the renderers. */
  datatype RenderCall =
    | ShortCall(video: string, start: real, end: real, output: string, headline: string, cta: string)
    | AdCall(video: string, start: real, duration: nat, output: string, platform: string, adText: Creatives)

  /** YouTube Shorts go to create_youtube_short with at most 60 seconds; every
      other platform goes to create_ad_video with its table duration. */
  function Dispatch(platform: string, setting: Setting, video: string, timestamp: real,
                    output: string, creatives: Creatives): RenderCall
  {
    if platform == "youtube_shorts" then
      var duration := if setting.duration < 60 then setting.duration else 60;
      ShortCall(video, timestamp, timestamp + duration as real, output,
                Get(creatives, "headline", ""), Get(creatives, "call_to_action", ""))
    else AdCall(video, timestamp, setting.duration, output, platform, creatives)
  }

  /** With the settings table: a 60-second short, or an ad of 15, 6 or 20 seconds. */
  lemma DispatchTable(platform: string, video: string, timestamp: real, output: string, creatives: Creatives)
    requires Settings(platform).Some?
    ensures var call := Dispatch(platform, Settings(platform).value, video, timestamp, output, creatives);
      && (platform == "youtube_shorts" <==> call.ShortCall?)
      && call.video == video && call.start == timestamp && call.output == output
      && (call.ShortCall? ==>
            call.end == timestamp + 60.0
            && call.headline == Get(creatives, "headline", "")
            && call.cta == Get(creatives, "call_to_action", ""))
      && (call.AdCall? ==>
            call.platform == platform && call.adText == creatives
            && call.duration == (if platform == "youtube_ads" then 15 else if platform == "display_ads" then 6 else 20))
  {
  }

  datatype Metadata = Metadata(
    platform: string,
    timestamp: real,
    duration: nat,
    aspectRatio: string,
    videoFile: string,
    thumbnailFile: string,
    creatives: Creatives,
    jobId: Option<string>,
    engagementPrediction: Prediction)

  datatype PlatformResult = PlatformResult(
    videoPath: string,
    thumbnailPath: string,
    metadataPath: string,
    metadata: Metadata,
    engagementPrediction: Prediction)

  datatype PipelineError = KeyError(key: string) | IndexError | TypeError

  /** What process_video is given or obtains from the opaque stages: the video
      path and job id, the engaging-moment timestamps, creative generation as a
      function of the ad format, and the clock as a function of the call number
      of generate_output_filename. `thumbnailAcceptsHeadline` says whether
      generate_thumbnail takes the `headline` keyword it is called with; in the
      shown source it does not. */
  datatype Inputs = Inputs(
    videoPath: string,
    jobId: Option<string>,
    timestamps: seq<real>,
    creatives: string -> Creatives,
    clock: nat -> DateTime,
    thumbnailAcceptsHeadline: bool)

  /** The dictionary handed to predict_engagement, {**metadata, **ad_creatives}:
      the table duration, and the headline and call to action of the creatives.
      A creative named "duration" would shadow the number with a string. */
  function EngagementInput(setting: Setting, creatives: Creatives): ContentData {
    ContentData(
      Some(setting.duration as real),
      if "headline" in creatives then Some(creatives["headline"]) else None,
      if "call_to_action" in creatives then Some(creatives["call_to_action"]) else None)
  }

  /** One iteration of the platform loop: the render call it made, if it got that
      far, and the result or the error it stopped with. */
  datatype StepOutcome = StepOutcome(call: Option<RenderCall>, result: Result<PlatformResult, PipelineError>)

  /** The names generate_output_filename gives the i-th iteration's video,
      thumbnail and metadata files: its three calls read the clock in turn. */
  function VideoFile(platform: string, i: nat, run: Inputs): string {
    OutputFilename(platform, run.clock(3 * i))
  }

  function ThumbnailFile(platform: string, i: nat, run: Inputs): string {
    OutputFilename(platform, run.clock(3 * i + 1), "jpg")
  }

  function MetadataFile(platform: string, i: nat, run: Inputs): string {
    OutputFilename(platform, run.clock(3 * i + 2), "json")
  }

  /** The render call of the i-th iteration. */
  function CallFor(platform: string, i: nat, setting: Setting, dir: string, run: Inputs): RenderCall
    requires |run.timestamps| > 0
  {
    Dispatch(platform, setting, run.videoPath, run.timestamps[0], PathJoin(dir, VideoFile(platform, i, run)),
             run.creatives(AdFormat(platform)))
  }

  /** The results entry of an iteration that gets through. */
  function ResultFor(platform: string, i: nat, setting: Setting, dir: string, run: Inputs): PlatformResult
    requires |run.timestamps| > 0
  {
    var creatives := run.creatives(AdFormat(platform));
    var prediction := EngagementFor(EngagementInput(setting, creatives), platform);
    var metadata := Metadata(platform, run.timestamps[0], setting.duration, setting.aspectRatio,
                             VideoFile(platform, i, run), ThumbnailFile(platform, i, run), creatives,
                             run.jobId, prediction);
    PlatformResult(PathJoin(dir, VideoFile(platform, i, run)), PathJoin(dir, ThumbnailFile(platform, i, run)),
                   PathJoin(dir, MetadataFile(platform, i, run)), metadata, prediction)
  }

  /** The i-th iteration (counting from 0) for `platform`: the table lookups, the
      first timestamp, the render call, the thumbnail call and the prediction. */
  function Step(platform: string, i: nat, dirs: seq<(string, string)>, run: Inputs): StepOutcome {
    match Settings(platform)
    case None => StepOutcome(None, Failure(KeyError(platform)))
    case Some(setting) =>
      match Lookup(dirs, platform)
      case None => StepOutcome(None, Failure(KeyError(platform)))
      case Some(dir) =>
        if |run.timestamps| == 0 then StepOutcome(None, Failure(IndexError))
        else
          var call := CallFor(platform, i, setting, dir, run);
          if !run.thumbnailAcceptsHeadline then StepOutcome(Some(call), Failure(TypeError))
          else if "duration" in run.creatives(AdFormat(platform)) then StepOutcome(Some(call), Failure(TypeError))
          else StepOutcome(Some(call), Success(ResultFor(platform, i, setting, dir, run)))
  }

  /** The state of the platform loop: the results dictionary, the render calls
      made, and the error that ended it, if any. */
  datatype Progress = Progress(results: seq<(string, PlatformResult)>, calls: seq<RenderCall>,
                               error: Option<PipelineError>)

  /** The platform loop over `platforms`, stopping at the first error. */
  function Loop(platforms: seq<string>, dirs: seq<(string, string)>, run: Inputs): Progress
    decreases |platforms|
  {
    if |platforms| == 0 then Progress([], [], None)
    else
      var n := |platforms| - 1;
      var prev := Loop(platforms[..n], dirs, run);
      if prev.error.Some? then prev
      else
        var o := Step(platforms[n], n, dirs, run);
        Progress(
          if o.result.Success? then Put(prev.results, platforms[n], o.result.value) else prev.results,
          prev.calls + (if o.call.Some? then [o.call.value] else []),
          if o.result.Failure? then Some(o.result.error) else None)
  }

  /** Once an iteration fails, later platforms are never reached. */
  lemma {:induction false} LoopAfterError(platforms: seq<string>, k: nat, dirs: seq<(string, string)>, run: Inputs)
    requires k <= |platforms|
    requires Loop(platforms[..k], dirs, run).error.Some?
    ensures Loop(platforms, dirs, run) == Loop(platforms[..k], dirs, run)
    decreases |platforms| - k
  {
    if k < |platforms| {
      var q := platforms[..k + 1];
      assert q[..k] == platforms[..k];
      assert Loop(q, dirs, run) == Loop(platforms[..k], dirs, run);
      LoopAfterError(platforms, k + 1, dirs, run);
    } else {
      assert platforms[..k] == platforms;
    }
  }

  /** A platform that the tables know about. */
  predicate Known(platform: string, dirs: seq<(string, string)>) {
    Settings(platform).Some? && platform in Keys(dirs)
  }

  /** As written, the first known platform renders its video and then stops the
      whole run with a TypeError at the thumbnail call: nothing is returned and
      no summary is written. */
  lemma {:induction false} AsWrittenThumbnailFails(platforms: seq<string>, dirs: seq<(string, string)>, run: Inputs)
    requires !run.thumbnailAcceptsHeadline
    requires |platforms| > 0 && Known(platforms[0], dirs) && |run.timestamps| > 0
    ensures Loop(platforms, dirs, run).error == Some(TypeError)
    ensures Loop(platforms, dirs, run).results == []
    ensures |Loop(platforms, dirs, run).calls| == 1
  {
    var first := platforms[..1];
    assert first[..0] == [];
    assert Loop(first, dirs, run).error == Some(TypeError);
    LoopAfterError(platforms, 1, dirs, run);
  }

  /** The facts every stored result carries about the platform it is stored under. */
  predicate WellFormed(platform: string, r: PlatformResult, dirs: seq<(string, string)>, run: Inputs)
    requires Known(platform, dirs) && |run.timestamps| > 0
  {
    var m := r.metadata;
    var dir := Lookup(dirs, platform).value;
    var creatives := run.creatives(AdFormat(platform));
    && m.platform == platform
    && Settings(platform) == Some(Setting(m.duration, m.aspectRatio))
    && m.timestamp == run.timestamps[0]
    && m.creatives == creatives
    && m.jobId == run.jobId
    && r.videoPath == PathJoin(dir, m.videoFile)
    && r.thumbnailPath == PathJoin(dir, m.thumbnailFile)
    && Basename(r.videoPath) == m.videoFile
    && Basename(r.thumbnailPath) == m.thumbnailFile
    && r.engagementPrediction == m.engagementPrediction
    && r.engagementPrediction == EngagementFor(EngagementInput(Settings(platform).value, creatives), platform)
  }

  /** The preconditions of a run that completes once the thumbnail call is repaired. */
  predicate Completes(platforms: seq<string>, dirs: seq<(string, string)>, run: Inputs) {
    && run.thumbnailAcceptsHeadline
    && (|platforms| == 0 || |run.timestamps| > 0)
    && (forall i :: 0 <= i < |platforms| ==> Known(platforms[i], dirs))
    && (forall i :: 0 <= i < |platforms| ==> "duration" !in run.creatives(AdFormat(platforms[i])))
  }

  lemma NoSlashInPlatform(platform: string)
    requires Settings(platform).Some?
    ensures '/' !in platform
  {
  }

  /** An entry built by an iteration carries the facts WellFormed lists. */
  lemma ResultForWellFormed(platform: string, i: nat, dirs: seq<(string, string)>, run: Inputs)
    requires Known(platform, dirs) && |run.timestamps| > 0
    ensures WellFormed(platform, ResultFor(platform, i, Settings(platform).value, Lookup(dirs, platform).value, run), dirs, run)
  {
    var dir := Lookup(dirs, platform).value;
    NoSlashInPlatform(platform);
    OutputFilenameIsBasename(dir, platform, run.clock(3 * i), "mp4");
    OutputFilenameIsBasename(dir, platform, run.clock(3 * i + 1), "jpg");
  }

  lemma StepSucceeds(platform: string, i: nat, dirs: seq<(string, string)>, run: Inputs)
    requires run.thumbnailAcceptsHeadline && Known(platform, dirs) && |run.timestamps| > 0
    requires "duration" !in run.creatives(AdFormat(platform))
    ensures var o := Step(platform, i, dirs, run);
      o.call.Some? && o.result.Success? && WellFormed(platform, o.result.value, dirs, run)
  {
    ResultForWellFormed(platform, i, dirs, run);
  }

  /** Every entry is stored under a known platform and is well formed for it. */
  predicate AllWellFormed(results: seq<(string, PlatformResult)>, dirs: seq<(string, string)>, run: Inputs)
    requires |run.timestamps| > 0
  {
    forall e :: e in results ==> Known(e.0, dirs) && WellFormed(e.0, e.1, dirs, run)
  }

  /** A completing iteration adds its call and stores its entry. */
  lemma LoopSnoc(platforms: seq<string>, dirs: seq<(string, string)>, run: Inputs)
    requires Completes(platforms, dirs, run) && |platforms| > 0
    requires Loop(platforms[..|platforms| - 1], dirs, run).error.None?
    ensures var n := |platforms| - 1;
      var prev := Loop(platforms[..n], dirs, run);
      var o := Step(platforms[n], n, dirs, run);
      && o.call.Some? && o.result.Success?
      && Loop(platforms, dirs, run) == Progress(Put(prev.results, platforms[n], o.result.value), prev.calls + [o.call.value], None)
  {
    var n := |platforms| - 1;
    StepSucceeds(platforms[n], n, dirs, run);
  }

  /** With the thumbnail call repaired, a run over known platforms with at least
      one timestamp completes: one render call per iteration and one well-formed
      result per distinct platform. */
  lemma {:induction false} CorrectedLoopCompletes(platforms: seq<string>, dirs: seq<(string, string)>, run: Inputs)
    requires Completes(platforms, dirs, run)
    ensures var p := Loop(platforms, dirs, run);
      && p.error.None?
      && |p.calls| == |platforms|
      && (|platforms| > 0 ==> AllWellFormed(p.results, dirs, run))
    decreases |platforms|
  {
    if |platforms| > 0 {
      var n := |platforms| - 1;
      var front := platforms[..n];
      CompletesFront(platforms, dirs, run);
      CorrectedLoopCompletes(front, dirs, run);
      LoopSnoc(platforms, dirs, run);
      StepSucceeds(platforms[n], n, dirs, run);
      var prev := Loop(front, dirs, run);
      var key := platforms[n];
      var v := Step(key, n, dirs, run).result.value;
      if n == 0 {
        assert prev.results == [];
      }
      PutAllWellFormed(prev.results, key, v, dirs, run);
    }
  }

  /** Storing a well-formed entry keeps every entry well formed. */
  lemma PutAllWellFormed(results: seq<(string, PlatformResult)>, key: string, v: PlatformResult,
                         dirs: seq<(string, string)>, run: Inputs)
    requires |run.timestamps| > 0 && Known(key, dirs) && WellFormed(key, v, dirs, run)
    requires AllWellFormed(results, dirs, run)
    ensures AllWellFormed(Put(results, key, v), dirs, run)
  {
    PutElements(results, key, v);
  }

  lemma CompletesFront(platforms: seq<string>, dirs: seq<(string, string)>, run: Inputs)
    requires Completes(platforms, dirs, run) && |platforms| > 0
    ensures Completes(platforms[..|platforms| - 1], dirs, run)
  {
    var front := platforms[..|platforms| - 1];
    assert forall i :: 0 <= i < |front| ==> front[i] == platforms[i];
  }

  lemma SnocMembers(s: seq<string>)
    requires |s| > 0
    ensures forall k :: k in s <==> k in s[..|s| - 1] || k == s[|s| - 1]
  {
    assert s == s[..|s| - 1] + [s[|s| - 1]];
  }

  /** The results dictionary holds each platform of a completed run once. */
  lemma {:induction false} CorrectedLoopKeys(platforms: seq<string>, dirs: seq<(string, string)>, run: Inputs)
    requires Completes(platforms, dirs, run)
    ensures var p := Loop(platforms, dirs, run);
      && p.error.None?
      && DistinctKeys(p.results)
      && (forall k :: k in Keys(p.results) <==> k in platforms)
    decreases |platforms|
  {
    if |platforms| > 0 {
      var n := |platforms| - 1;
      var front := platforms[..n];
      CompletesFront(platforms, dirs, run);
      CorrectedLoopKeys(front, dirs, run);
      LoopSnoc(platforms, dirs, run);
      var prev := Loop(front, dirs, run);
      var key := platforms[n];
      var v := Step(key, n, dirs, run).result.value;
      PutDistinct(prev.results, key, v);
      assert Loop(platforms, dirs, run).results == Put(prev.results, key, v);
      SnocMembers(platforms);
    }
  }

  datatype SummaryEntry = SummaryEntry(videoFile: string, thumbnailFile: string,
                                       predictedEngagement: int, engagementLevel: string)

  datatype Summary = Summary(inputVideo: string, platformsProcessed: seq<string>, jobId: Option<string>,
                             createdContent: seq<(string, SummaryEntry)>)

  function EntryFor(r: PlatformResult): SummaryEntry {
    SummaryEntry(Basename(r.videoPath), Basename(r.thumbnailPath),
                 r.engagementPrediction.predictedEngagement, r.engagementPrediction.engagementLevel)
  }

  /** created_content: one entry per result, in the results' order. */
  function CreatedContent(results: seq<(string, PlatformResult)>): (c: seq<(string, SummaryEntry)>)
    ensures Keys(c) == Keys(results)
  {
    if |results| == 0 then []
    else
      var n := |results| - 1;
      var front := CreatedContent(results[..n]);
      KeysSnoc(front, (results[n].0, EntryFor(results[n].1)));
      KeysSnoc(results[..n], results[n]);
      assert results == results[..n] + [results[n]];
      front + [(results[n].0, EntryFor(results[n].1))]
  }

  lemma {:induction false} CreatedContentEntries(results: seq<(string, PlatformResult)>)
    ensures |CreatedContent(results)| == |results|
    ensures forall j :: 0 <= j < |results| ==> CreatedContent(results)[j] == (results[j].0, EntryFor(results[j].1))
  {
    if |results| > 0 {
      var n := |results| - 1;
      CreatedContentEntries(results[..n]);
    }
  }

  function SummaryOf(videoPath: string, platforms: seq<string>, jobId: Option<string>,
                     results: seq<(string, PlatformResult)>): Summary
  {
    Summary(Basename(videoPath), platforms, jobId, CreatedContent(results))
  }

  /** The summary lists exactly the platforms of the results, each with the file
      names its metadata records and the engagement it predicted. */
  lemma CorrectedRunSummary(platforms: seq<string>, dirs: seq<(string, string)>, run: Inputs)
    requires Completes(platforms, dirs, run)
    ensures var rs := Loop(platforms, dirs, run).results;
      var s := SummaryOf(run.videoPath, platforms, run.jobId, rs);
      && Loop(platforms, dirs, run).error.None?
      && s.inputVideo == Basename(run.videoPath)
      && s.platformsProcessed == platforms
      && (forall k :: k in Keys(s.createdContent) <==> k in platforms)
      && |s.createdContent| == |rs|
      && forall j :: 0 <= j < |rs| ==>
           && s.createdContent[j].0 == rs[j].0
           && s.createdContent[j].1.videoFile == rs[j].1.metadata.videoFile
           && s.createdContent[j].1.thumbnailFile == rs[j].1.metadata.thumbnailFile
           && s.createdContent[j].1.predictedEngagement == rs[j].1.metadata.engagementPrediction.predictedEngagement
           && s.createdContent[j].1.predictedEngagement in {45, 50, 55, 60, 70, 75}
           && s.createdContent[j].1.engagementLevel == EngagementLevel(s.createdContent[j].1.predictedEngagement)
  {
    CorrectedLoopCompletes(platforms, dirs, run);
    CorrectedLoopKeys(platforms, dirs, run);
    CreatedContentEntries(Loop(platforms, dirs, run).results);
  }

  /** One iteration of the platform loop, calling the engagement predictor. */
  method ProcessPlatform(platform: string, i: nat, dirs: seq<(string, string)>, run: Inputs)
    returns (o: StepOutcome)
    ensures o == Step(platform, i, dirs, run)
  {
    var setting := Settings(platform);
    var dir := Lookup(dirs, platform);
    if setting.None? || dir.None? {
      return StepOutcome(None, Failure(KeyError(platform)));
    }
    var creatives := run.creatives(AdFormat(platform));
    if |run.timestamps| == 0 {
      return StepOutcome(None, Failure(IndexError));
    }
    var timestamp := run.timestamps[0];
    var videoFile := OutputFilename(platform, run.clock(3 * i));
    var videoPath := PathJoin(dir.value, videoFile);
    var call := Dispatch(platform, setting.value, run.videoPath, timestamp, videoPath, creatives);
    var thumbnailFile := OutputFilename(platform, run.clock(3 * i + 1), "jpg");
    var thumbnailPath := PathJoin(dir.value, thumbnailFile);
    if !run.thumbnailAcceptsHeadline || "duration" in creatives {
      return StepOutcome(Some(call), Failure(TypeError));
    }
    var prediction := PredictEngagement(EngagementInput(setting.value, creatives), platform);
    var metadata := Metadata(platform, timestamp, setting.value.duration, setting.value.aspectRatio,
                             videoFile, thumbnailFile, creatives, run.jobId, prediction);
    var metadataFile := OutputFilename(platform, run.clock(3 * i + 2), "json");
    var metadataPath := PathJoin(dir.value, metadataFile);
    o := StepOutcome(Some(call), Success(PlatformResult(videoPath, thumbnailPath, metadataPath, metadata, prediction)));
  }

  /** The summary loop over the results dictionary. */
  method BuildSummary(videoPath: string, platforms: seq<string>, jobId: Option<string>,
                      results: seq<(string, PlatformResult)>) returns (s: Summary)
    ensures s == SummaryOf(videoPath, platforms, jobId, results)
  {
    var created: seq<(string, SummaryEntry)> := [];
    var i := 0;
    while i < |results|
      invariant 0 <= i <= |results|
      invariant created == CreatedContent(results[..i])
    {
      var (platform, r) := results[i];
      created := created + [(platform, SummaryEntry(Basename(r.videoPath), Basename(r.thumbnailPath),
                                                    r.engagementPrediction.predictedEngagement,
                                                    r.engagementPrediction.engagementLevel))];
      assert results[..i + 1][..i] == results[..i];
      i := i + 1;
    }
    assert results[..i] == results;
    s := Summary(Basename(videoPath), platforms, jobId, created);
  }

  /** The platform loop: one iteration per platform until one fails. */
  method RunPlatforms(platforms: seq<string>, dirs: seq<(string, string)>, run: Inputs) returns (p: Progress)
    ensures p == Loop(platforms, dirs, run)
  {
    var results: seq<(string, PlatformResult)> := [];
    var calls: seq<RenderCall> := [];
    var error: Option<PipelineError> := None;
    var i := 0;
    while i < |platforms| && error.None?
      invariant 0 <= i <= |platforms|
      invariant Loop(platforms[..i], dirs, run) == Progress(results, calls, error)
    {
      var o := ProcessPlatform(platforms[i], i, dirs, run);
      assert platforms[..i + 1][..i] == platforms[..i];
      if o.call.Some? {
        calls := calls + [o.call.value];
      }
      match o.result {
        case Success(r) => results := Put(results, platforms[i], r);
        case Failure(e) => error := Some(e);
      }
      i := i + 1;
    }
    if error.Some? {
      LoopAfterError(platforms, i, dirs, run);
    } else {
      assert platforms[..i] == platforms;
    }
    p := Progress(results, calls, error);
  }

  /** The module globals OUTPUT_DIR and PLATFORM_DIRS, which process_video rebinds. */
  class PipelineState {
    var outputDir: string
    var platformDirs: seq<(string, string)>

    constructor()
      ensures outputDir == DefaultOutputDir && platformDirs == DefaultDirs()
    {
      outputDir := DefaultOutputDir;
      platformDirs := DefaultDirs();
    }

    /** Re-roots every platform directory under `root`. */
    method Rebase(root: string)
      modifies this
      ensures outputDir == root
      ensures platformDirs == RemapDirs(old(platformDirs), root)
    {
      outputDir := root;
      platformDirs := RemapDirs(platformDirs, root);
    }

    /** process_video: re-roots the directories when an output directory is given,
        defaults the platforms to the directory table's keys, runs the platform
        loop, and on success builds the summary written to
        OUTPUT_DIR/summary_report.json. */
    method ProcessVideo(platforms: Option<seq<string>>, outputDirArg: Option<string>, run: Inputs)
      returns (results: Result<seq<(string, PlatformResult)>, PipelineError>, calls: seq<RenderCall>,
               summary: Option<(string, Summary)>)
      modifies this
      ensures var given := outputDirArg.Some? && outputDirArg.value != "";
        && outputDir == (if given then outputDirArg.value else old(outputDir))
        && platformDirs == (if given then RemapDirs(old(platformDirs), outputDirArg.value) else old(platformDirs))
      ensures var ps := if platforms.Some? then platforms.value else Keys(platformDirs);
        var p := Loop(ps, platformDirs, run);
        && calls == p.calls
        && (p.error.Some? ==> results == Failure(p.error.value) && summary.None?)
        && (p.error.None? ==>
              results == Success(p.results)
              && summary == Some((PathJoin(outputDir, SummaryName), SummaryOf(run.videoPath, ps, run.jobId, p.results))))
    {
      if outputDirArg.Some? && outputDirArg.value != "" {
        Rebase(outputDirArg.value);
      }
      var ps := if platforms.Some? then platforms.value else Keys(platformDirs);
      var p := RunPlatforms(ps, platformDirs, run);
      calls := p.calls;
      if p.error.Some? {
        return Failure(p.error.value), calls, None;
      }
      var s := BuildSummary(run.videoPath, ps, run.jobId, p.results);
      results := Success(p.results);
      summary := Some((PathJoin(outputDir, SummaryName), s));
    }
  }
}
