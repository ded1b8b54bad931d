/** The backend job runner (backend/process_video_job.py): the status updates it
    posts while a video is processed, the content list it reports on success,
    and its command line. The HTTP call is recorded, not made; the runner
    ignores its outcome. */
module JobRunner {
  import opened Wrappers
  import opened Text
  import opened Assoc
  import opened JobTypes
  import EngagementUtils
  import Pipeline

  /** An engagement prediction as the runner sees it: a dictionary that may lack
      either key ({} when the metadata has none). */
  datatype PredictionView = PredictionView(predictedEngagement: Option<int>, engagementLevel: Option<string>)

  const NoPrediction := PredictionView(None, None)

  /** The metadata dictionary of a result, with each key possibly absent. */
  datatype MetadataView = MetadataView(
    timestamp: Option<real>,
    duration: Option<real>,
    creatives: Option<Pipeline.Creatives>,
    engagementPrediction: Option<PredictionView>)

  /** One value of the dictionary process_video returns, with each key possibly absent. */
  datatype ResultEntry = ResultEntry(
    videoPath: Option<string>,
    thumbnailPath: Option<string>,
    metadataPath: Option<string>,
    metadata: Option<MetadataView>)

  /** One element of the contents list posted with the final update. */
  datatype ContentItem = ContentItem(
    platform: string,
    videoPath: string,
    thumbnailPath: string,
    metadataPath: string,
    startTimestamp: real,
    duration: real,
    creatives: Pipeline.Creatives,
    engagementPrediction: PredictionView)

  /** The JSON body of update_job_status. */
  datatype Payload = Payload(jobId: string, status: JobStatus, progress: int, contents: Option<seq<ContentItem>>)

  /** update_job_status: "contents" is sent only when the list is non-empty. */
  function PayloadOf(jobId: string, status: JobStatus, progress: int, contents: seq<ContentItem> := []): (p: Payload)
    ensures p.jobId == jobId && p.status == status && p.progress == progress
    ensures p.contents.Some? <==> |contents| > 0
    ensures p.contents.Some? ==> p.contents.value == contents
  {
    Payload(jobId, status, progress, if |contents| > 0 then Some(contents) else None)
  }

  /** The list element for one result; None when a required key is missing
      (a KeyError in the source). The optional keys take their defaults. */
  function ContentFor(platform: string, r: ResultEntry): (c: Option<ContentItem>)
    ensures c.Some? <==> r.videoPath.Some? && r.thumbnailPath.Some?
  {
    if r.videoPath.None? || r.thumbnailPath.None? then None
    else
      var m := r.metadata.GetOr(MetadataView(None, None, None, None));
      Some(ContentItem(
        Upper(platform),
        r.videoPath.value,
        r.thumbnailPath.value,
        r.metadataPath.GetOr(""),
        m.timestamp.GetOr(0.0),
        m.duration.GetOr(0.0),
        m.creatives.GetOr(map[]),
        m.engagementPrediction.GetOr(NoPrediction)))
  }

  /** The contents list, in the order of the results dictionary; None when some
      result lacks a required key. */
  function Contents(results: seq<(string, ResultEntry)>): Option<seq<ContentItem>>
  {
    if |results| == 0 then Some([])
    else
      var n := |results| - 1;
      match Contents(results[..n])
      case None => None
      case Some(front) =>
        match ContentFor(results[n].0, results[n].1)
        case None => None
        case Some(c) => Some(front + [c])
  }

  /** The list has one element per result, built by ContentFor, and it exists
      exactly when every result has its video and thumbnail paths. */
  lemma {:induction false} ContentsMeaning(results: seq<(string, ResultEntry)>)
    ensures Contents(results).Some? <==>
      forall j :: 0 <= j < |results| ==> results[j].1.videoPath.Some? && results[j].1.thumbnailPath.Some?
    ensures Contents(results).Some? ==>
      |Contents(results).value| == |results|
      && forall j :: 0 <= j < |results| ==> Some(Contents(results).value[j]) == ContentFor(results[j].0, results[j].1)
  {
    if |results| > 0 {
      var n := |results| - 1;
      ContentsMeaning(results[..n]);
      assert forall j :: 0 <= j < n ==> results[..n][j] == results[j];
    }
  }

  /** What process_video did when called: raised, or returned its results. */
  datatype VideoOutcome = Raised | Returned(results: seq<(string, ResultEntry)>)

  /** The updates process_video_job posts and the value it returns, given whether
      the video exists, whether creating the output directory raises, and what
      process_video does. */
  function JobTrace(jobId: string, videoExists: bool, makedirsRaises: bool, outcome: VideoOutcome): (seq<Payload>, bool)
  {
    var failed := PayloadOf(jobId, FAILED, 0);
    var p10, p20, p90 := PayloadOf(jobId, PROCESSING, 10), PayloadOf(jobId, PROCESSING, 20), PayloadOf(jobId, PROCESSING, 90);
    if !videoExists then ([failed], false)
    else if makedirsRaises then ([p10, failed], false)
    else match outcome
      case Raised => ([p10, p20, failed], false)
      case Returned(results) =>
        if |results| == 0 then ([p10, p20, p90, failed], false)
        else match Contents(results)
          case None => ([p10, p20, p90, failed], false)
          case Some(contents) => ([p10, p20, p90, PayloadOf(jobId, COMPLETED, 100, contents)], true)
  }

  /** Every run ends on a terminal update after a prefix of the 10/20/90
      progress updates, and it returns True exactly when that update is
      COMPLETED, which happens only with a non-empty contents list. */
  lemma JobTraceShape(jobId: string, videoExists: bool, makedirsRaises: bool, outcome: VideoOutcome)
    ensures var (trace, ok) := JobTrace(jobId, videoExists, makedirsRaises, outcome);
      && 1 <= |trace| <= 4
      && Terminal(trace[|trace| - 1].status)
      && (ok <==> trace[|trace| - 1].status == COMPLETED)
      && (forall j :: 0 <= j < |trace| ==> trace[j].jobId == jobId)
      && (forall j :: 0 <= j < |trace| - 1 ==> trace[j] == PayloadOf(jobId, PROCESSING, [10, 20, 90][j]))
      && (trace[|trace| - 1].status == FAILED ==> trace[|trace| - 1] == PayloadOf(jobId, FAILED, 0))
      && (ok ==> |trace| == 4 && trace[3].progress == 100 && trace[3].contents.Some?)
  {
    var (trace, ok) := JobTrace(jobId, videoExists, makedirsRaises, outcome);
    if ok {
      assert outcome.Returned? && |outcome.results| > 0;
      ContentsMeaning(outcome.results);
    }
  }

  /** The run succeeds exactly when the video exists, the directory is created,
      and process_video returns a non-empty dictionary whose every entry has its
      video and thumbnail paths; the contents then mirror the results. */
  lemma JobTraceSuccess(jobId: string, videoExists: bool, makedirsRaises: bool, outcome: VideoOutcome)
    ensures JobTrace(jobId, videoExists, makedirsRaises, outcome).1 <==>
      && videoExists && !makedirsRaises && outcome.Returned? && |outcome.results| > 0
      && forall j :: 0 <= j < |outcome.results| ==>
           outcome.results[j].1.videoPath.Some? && outcome.results[j].1.thumbnailPath.Some?
    ensures JobTrace(jobId, videoExists, makedirsRaises, outcome).1 ==>
      var last := JobTrace(jobId, videoExists, makedirsRaises, outcome).0[3];
      && |last.contents.value| == |outcome.results|
      && forall j :: 0 <= j < |outcome.results| ==>
           && last.contents.value[j].platform == Upper(outcome.results[j].0)
           && Some(last.contents.value[j]) == ContentFor(outcome.results[j].0, outcome.results[j].1)
  {
    if outcome.Returned? {
      ContentsMeaning(outcome.results);
    }
  }

  /** A result of the pipeline model as the runner reads it: every key present. */
  function EntryOf(r: Pipeline.PlatformResult): ResultEntry {
    var m := r.metadata;
    var p := m.engagementPrediction;
    ResultEntry(Some(r.videoPath), Some(r.thumbnailPath), Some(r.metadataPath),
                Some(MetadataView(Some(m.timestamp), Some(m.duration as real), Some(m.creatives),
                                  Some(PredictionView(Some(p.predictedEngagement), Some(p.engagementLevel))))))
  }

  function EntriesOf(results: seq<(string, Pipeline.PlatformResult)>): (es: seq<(string, ResultEntry)>)
    ensures |es| == |results|
    ensures forall j :: 0 <= j < |results| ==> es[j] == (results[j].0, EntryOf(results[j].1))
  {
    seq(|results|, j requires 0 <= j < |results| => (results[j].0, EntryOf(results[j].1)))
  }

  /** Fed the pipeline's results, the contents use no defaults: each element
      carries its result's paths and metadata, and the run succeeds iff the
      dictionary is non-empty. */
  lemma PipelineContents(jobId: string, results: seq<(string, Pipeline.PlatformResult)>)
    ensures var es := EntriesOf(results);
      var (trace, ok) := JobTrace(jobId, true, false, Returned(es));
      && (ok <==> |results| > 0)
      && (ok ==>
            var cs := trace[3].contents.value;
            && |cs| == |results|
            && forall j :: 0 <= j < |results| ==>
                 var r := results[j].1;
                 && cs[j].platform == Upper(results[j].0)
                 && cs[j].videoPath == r.videoPath && cs[j].thumbnailPath == r.thumbnailPath
                 && cs[j].metadataPath == r.metadataPath
                 && cs[j].startTimestamp == r.metadata.timestamp
                 && cs[j].duration == r.metadata.duration as real
                 && cs[j].creatives == r.metadata.creatives
                 && cs[j].engagementPrediction.predictedEngagement == Some(r.metadata.engagementPrediction.predictedEngagement))
  {
    var es := EntriesOf(results);
    JobTraceSuccess(jobId, true, false, Returned(es));
  }

  /** The command line: fewer than four arguments after the script name exit
      with status 1; the platforms are the fourth argument split on commas. */
  datatype Args = Args(videoPath: string, jobId: string, outputDir: string, platforms: seq<string>)

  function ParseArgs(argv: seq<string>): (r: Result<Args, int>)
    ensures r.Failure? <==> |argv| < 5
    ensures r.Failure? ==> r.error == 1
  {
    if |argv| < 5 then Failure(1)
    else Success(Args(argv[1], argv[2], argv[3], SplitOn(argv[4], ',')))
  }

  /** The platform list joins back to the argument it came from, and no platform
      name contains a comma. */
  lemma ParseArgsPlatforms(argv: seq<string>)
    requires |argv| >= 5
    ensures var a := ParseArgs(argv).value;
      && a.videoPath == argv[1] && a.jobId == argv[2] && a.outputDir == argv[3]
      && |a.platforms| >= 1
      && JoinWith(a.platforms, ",") == argv[4]
      && forall j :: 0 <= j < |a.platforms| ==> ',' !in a.platforms[j]
  {
    SplitOnJoin(argv[4], ',');
  }

  /** The updates the runner has posted so far. */
  class Runner {
    var sent: seq<Payload>

    constructor()
      ensures sent == []
    {
      sent := [];
    }

    /** update_job_status: posts one payload. Network failures are caught. */
    method UpdateJobStatus(jobId: string, status: JobStatus, progress: int, contents: seq<ContentItem> := [])
      modifies this
      ensures sent == old(sent) + [PayloadOf(jobId, status, progress, contents)]
    {
      sent := sent + [PayloadOf(jobId, status, progress, contents)];
    }

    /** The contents loop over the results dictionary; None where the source
        raises a KeyError. */
    static method BuildContents(results: seq<(string, ResultEntry)>) returns (contents: Option<seq<ContentItem>>)
      ensures contents == Contents(results)
    {
      var acc: seq<ContentItem> := [];
      var i := 0;
      while i < |results|
        invariant 0 <= i <= |results|
        invariant Contents(results[..i]) == Some(acc)
      {
        var (platform, r) := results[i];
        assert results[..i + 1][..i] == results[..i];
        var c := ContentFor(platform, r);
        if c.None? {
          ContentsStops(results, i + 1);
          return None;
        }
        acc := acc + [c.value];
        i := i + 1;
      }
      assert results[..i] == results;
      contents := Some(acc);
    }

    /** process_video_job. */
    method ProcessVideoJob(jobId: string, videoExists: bool, makedirsRaises: bool, outcome: VideoOutcome)
      returns (ok: bool)
      modifies this
      ensures sent == old(sent) + JobTrace(jobId, videoExists, makedirsRaises, outcome).0
      ensures ok == JobTrace(jobId, videoExists, makedirsRaises, outcome).1
    {
      if !videoExists {
        UpdateJobStatus(jobId, FAILED, 0);
        return false;
      }
      UpdateJobStatus(jobId, PROCESSING, 10);
      if makedirsRaises {
        UpdateJobStatus(jobId, FAILED, 0);
        return false;
      }
      UpdateJobStatus(jobId, PROCESSING, 20);
      if outcome.Raised? {
        UpdateJobStatus(jobId, FAILED, 0);
        return false;
      }
      UpdateJobStatus(jobId, PROCESSING, 90);
      if |outcome.results| > 0 {
        var contents := BuildContents(outcome.results);
        if contents.None? {
          UpdateJobStatus(jobId, FAILED, 0);
          return false;
        }
        UpdateJobStatus(jobId, COMPLETED, 100, contents.value);
        return true;
      } else {
        UpdateJobStatus(jobId, FAILED, 0);
        return false;
      }
    }
  }

  /** Once one result lacks a path, the whole list fails. */
  lemma {:induction false} ContentsStops(results: seq<(string, ResultEntry)>, k: nat)
    requires k <= |results| && Contents(results[..k]).None?
    ensures Contents(results).None?
    decreases |results| - k
  {
    if k < |results| {
      var q := results[..k + 1];
      assert q[..k] == results[..k];
      ContentsStops(results, k + 1);
    } else {
      assert results[..k] == results;
    }
  }
}
