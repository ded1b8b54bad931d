/** The job store behind the front end's API routes: job creation and the
    background command (frontend/src/app/api/process-video/route.ts), the
    status and content updates posted by the backend
    (frontend/src/app/api/update-job/route.ts) and the job listing
    (frontend/src/app/api/jobs/route.ts). The database is a map from job id to
    job plus three tables of records; request parsing, the clock, id generation
    and the outcome of the background command are parameters. */
module JobStore {
  import opened Wrappers
  import opened Text
  import opened JobTypes
  import JobRunner

  /** Dates are milliseconds since the epoch. */
  datatype Job = Job(
    id: string,
    userId: Option<string>,
    originalVideoName: string,
    originalVideoPath: string,
    status: JobStatus,
    progress: int,
    error: Option<string>,
    startedAt: Option<int>,
    completedAt: Option<int>,
    createdAt: int)

  /** Content records are numbered by their position in the table. */
  datatype ContentRecord = ContentRecord(
    id: nat,
    jobId: string,
    platform: string,
    videoName: string,
    videoPath: string,
    thumbnailName: string,
    thumbnailPath: string,
    metadataPath: Option<string>,
    startTimestamp: Option<real>,
    duration: Option<real>,
    engagement: int)

  datatype CreativeRecord = CreativeRecord(contentId: nat, headline: Option<string>, description: Option<string>,
                                           callToAction: Option<string>)

  datatype MetricRecord = MetricRecord(contentId: nat, predictedEngagement: int, engagementLevel: string)

  datatype Db = Db(jobs: map<string, Job>, contents: seq<ContentRecord>, creativeTexts: seq<CreativeRecord>,
                   metrics: seq<MetricRecord>)

  /** A job is stored under its own id. */
  predicate WellKeyed(jobs: map<string, Job>) {
    forall k :: k in jobs ==> jobs[k].id == k
  }

  datatype Body =
    | ErrorBody(message: string)
    | Started(jobId: string)
    | Updated
    | JobList(jobs: seq<Job>)

  datatype Response = Response(status: int, body: Body)

  // ----- POST /api/process-video -----

  /** The platforms field after JSON.parse: a parse error, a value that is not an
      array (null when the field is missing), or an array of names. */
  datatype PlatformsField = Malformed | NotArray | Items(names: seq<string>)

  datatype UploadRequest = UploadRequest(videoName: Option<string>, userId: Option<string>, platforms: PlatformsField)

  /** Node's path.join for the relative parts used here (no normalisation). */
  function NodeJoin(a: string, b: string): string {
    a + "/" + b
  }

  /** The words of the background command, as the template lays them out. */
  function CommandWords(videoPath: string, platforms: seq<string>, outputDir: string, jobId: string): seq<string> {
    ["cd", "../backend", "&&", "python", "enhanced_app.py", videoPath, "--platforms", JoinWith(platforms, " "),
     "--output", outputDir, "--job_id", jobId]
  }

  /** The command string: the words separated by single spaces. */
  function Command(videoPath: string, platforms: seq<string>, outputDir: string, jobId: string): string {
    JoinWith(CommandWords(videoPath, platforms, outputDir, jobId), " ")
  }

  /** Joining a middle group first and then the whole gives the same string as
      joining everything flat. */
  lemma JoinSpread(pre: seq<string>, mid: seq<string>, post: seq<string>, sep: string)
    requires |pre| >= 1 && |mid| >= 1 && |post| >= 1
    ensures JoinWith(pre + [JoinWith(mid, sep)] + post, sep) == JoinWith(pre + mid + post, sep)
  {
    var j := JoinWith(mid, sep);
    AppendAssoc(pre, [j], post);
    AppendAssoc(pre, mid, post);
    JoinWithAppend(pre, [j] + post, sep);
    JoinWithAppend(pre, mid + post, sep);
    JoinSpreadTail(mid, post, sep);
  }

  lemma JoinSpreadTail(mid: seq<string>, post: seq<string>, sep: string)
    requires |mid| >= 1 && |post| >= 1
    ensures JoinWith([JoinWith(mid, sep)] + post, sep) == JoinWith(mid + post, sep)
  {
    JoinWithAppend([JoinWith(mid, sep)], post, sep);
    JoinWithAppend(mid, post, sep);
  }

  predicate SpaceFree(words: seq<string>) {
    forall i :: 0 <= i < |words| ==> ' ' !in words[i]
  }

  lemma SpaceFreeConcat(a: seq<string>, b: seq<string>)
    requires SpaceFree(a) && SpaceFree(b)
    ensures SpaceFree(a + b)
  {
    assert forall i :: |a| <= i < |a + b| ==> (a + b)[i] == b[i - |a|];
  }

  /** The words before the platforms and the words after them. */
  function ArgsBefore(videoPath: string): seq<string> {
    ["cd", "../backend", "&&", "python", "enhanced_app.py", videoPath, "--platforms"]
  }

  function ArgsAfter(outputDir: string, jobId: string): seq<string> {
    ["--output", outputDir, "--job_id", jobId]
  }

  lemma ArgsBeforeSpaceFree(videoPath: string)
    requires ' ' !in videoPath
    ensures SpaceFree(ArgsBefore(videoPath))
  {
    var a := ArgsBefore(videoPath);
    assert ' ' !in a[0] && ' ' !in a[1] && ' ' !in a[2] && ' ' !in a[3] && ' ' !in a[4] && ' ' !in a[6];
  }

  lemma ArgsAfterSpaceFree(outputDir: string, jobId: string)
    requires ' ' !in outputDir && ' ' !in jobId
    ensures SpaceFree(ArgsAfter(outputDir, jobId))
  {
    var a := ArgsAfter(outputDir, jobId);
    assert ' ' !in a[0] && ' ' !in a[2];
  }

  lemma CommandWordsSplit(videoPath: string, platforms: seq<string>, outputDir: string, jobId: string)
    ensures CommandWords(videoPath, platforms, outputDir, jobId)
      == ArgsBefore(videoPath) + [JoinWith(platforms, " ")] + ArgsAfter(outputDir, jobId)
  {
  }

  /** When no interpolated value contains a space, splitting the command on
      spaces gives the backend exactly these arguments: the video path, each
      platform, the output directory and the job id. An empty platforms array
      joins to "", which leaves two spaces in a row, so the split has one empty
      word there (a shell would drop it, leaving --platforms with no value). */
  lemma CommandArguments(videoPath: string, platforms: seq<string>, outputDir: string, jobId: string)
    requires ' ' !in videoPath && ' ' !in outputDir && ' ' !in jobId
    requires forall i :: 0 <= i < |platforms| ==> ' ' !in platforms[i]
    ensures SplitOn(Command(videoPath, platforms, outputDir, jobId), ' ') ==
      ["cd", "../backend", "&&", "python", "enhanced_app.py", videoPath, "--platforms"]
      + (if |platforms| == 0 then [""] else platforms)
      + ["--output", outputDir, "--job_id", jobId]
  {
    var pre := ArgsBefore(videoPath);
    var post := ArgsAfter(outputDir, jobId);
    CommandWordsSplit(videoPath, platforms, outputDir, jobId);
    ArgsBeforeSpaceFree(videoPath);
    ArgsAfterSpaceFree(outputDir, jobId);
    if |platforms| == 0 {
      assert JoinWith(platforms, " ") == "";
      SpaceFreeConcat(pre, [""]);
      SpaceFreeConcat(pre + [""], post);
      SplitOnJoinWith(pre + [""] + post, ' ');
      return;
    }
    JoinSpread(pre, platforms, post, " ");
    SpaceFreeConcat(pre, platforms);
    SpaceFreeConcat(pre + platforms, post);
    SplitOnJoinWith(pre + platforms + post, ' ');
  }

  /** The route's effect on the database, its response and the command it starts:
      the platforms are parsed first (a parse error is a 500 before anything is
      written); a missing video is a 400; the job is created QUEUED; joining the
      platforms throws for a non-array, leaving the job QUEUED; otherwise the job
      becomes PROCESSING with its start time and the command is started. */
  function ProcessVideoEffect(db: Db, req: UploadRequest, newId: string, now: int, cwd: string)
    : (Db, Response, Option<string>)
  {
    if req.platforms.Malformed? then (db, Response(500, ErrorBody("Failed to process video")), None)
    else if req.videoName.None? then (db, Response(400, ErrorBody("No video file provided")), None)
    else
      var jobDir := NodeJoin(cwd, "jobs");
      var name := req.videoName.value;
      var videoPath := NodeJoin(jobDir, name);
      var queued := Job(newId, req.userId, name, videoPath, QUEUED, 0, None, None, None, now);
      var created := db.(jobs := db.jobs[newId := queued]);
      match req.platforms
      case Items(names) =>
        var outputDir := NodeJoin(NodeJoin(jobDir, "outputs"), newId);
        var command := Command(videoPath, names, outputDir, newId);
        var started := created.(jobs := db.jobs[newId := queued.(status := PROCESSING, startedAt := Some(now))]);
        (started, Response(200, Started(newId)), Some(command))
      case _ => (created, Response(500, ErrorBody("Failed to process video")), None)
  }

  /** What the route promises: a 400 or a parse error writes nothing; a request
      that gets past them creates exactly one job, the new id, leaving every
      other job as it was; its job is PROCESSING with startedAt set on success
      and QUEUED otherwise; no job ever becomes COMPLETED. */
  lemma ProcessVideoOutcomes(db: Db, req: UploadRequest, newId: string, now: int, cwd: string)
    requires newId !in db.jobs
    ensures var (db', resp, command) := ProcessVideoEffect(db, req, newId, now, cwd);
      && (req.platforms.Malformed? ==> db' == db && resp.status == 500 && command.None?)
      && (!req.platforms.Malformed? && req.videoName.None? ==> db' == db && resp.status == 400 && command.None?)
      && (!req.platforms.Malformed? && req.videoName.Some? ==>
            && db'.jobs.Keys == db.jobs.Keys + {newId}
            && (forall k :: k in db.jobs ==> db'.jobs[k] == db.jobs[k])
            && db'.contents == db.contents && db'.creativeTexts == db.creativeTexts && db'.metrics == db.metrics
            && db'.jobs[newId].originalVideoName == req.videoName.value
            && db'.jobs[newId].createdAt == now
            && (req.platforms.Items? ==>
                  resp == Response(200, Started(newId)) && command.Some?
                  && db'.jobs[newId].status == PROCESSING && db'.jobs[newId].startedAt == Some(now))
            && (req.platforms.NotArray? ==>
                  resp.status == 500 && command.None? && db'.jobs[newId].status == QUEUED))
      && (forall k :: k in db'.jobs && db'.jobs[k].status == COMPLETED ==> k in db.jobs && db.jobs[k].status == COMPLETED)
  {
  }

  /** The exec callback: an error marks the job FAILED with its message; a
      successful run changes nothing. */
  function ExecCallbackEffect(db: Db, jobId: string, error: Option<string>): (d: Db)
  {
    if error.Some? && jobId in db.jobs then
      db.(jobs := db.jobs[jobId := db.jobs[jobId].(status := FAILED, error := Some(error.value))])
    else db
  }

  lemma ExecCallbackOutcomes(db: Db, jobId: string, error: Option<string>)
    ensures var d := ExecCallbackEffect(db, jobId, error);
      && (error.None? ==> d == db)
      && (error.Some? && jobId in db.jobs ==>
            d.jobs[jobId].status == FAILED && d.jobs[jobId].error == error
            && d.jobs[jobId].progress == db.jobs[jobId].progress)
      && d.jobs.Keys == db.jobs.Keys
      && (forall k :: k in db.jobs && k != jobId ==> d.jobs[k] == db.jobs[k])
      && (forall k :: k in d.jobs && d.jobs[k].status == COMPLETED ==> db.jobs[k].status == COMPLETED)
  {
  }

  // ----- POST /api/update-job -----

  /** One element of the request's contents array; keys may be missing. */
  datatype ContentInput = ContentInput(
    platform: string,
    videoPath: Option<string>,
    thumbnailPath: Option<string>,
    metadataPath: Option<string>,
    startTimestamp: Option<real>,
    duration: Option<real>,
    creatives: Option<map<string, string>>,
    engagementPrediction: Option<JobRunner.PredictionView>)

  /** The request body; `contents` is None when absent or not an array, and
      `progress` is None when undefined. */
  datatype UpdateRequest = UpdateRequest(jobId: Option<string>, status: Option<string>, progress: Option<int>,
                                         contents: Option<seq<ContentInput>>)

  /** The partial update the route builds. */
  datatype JobUpdate = JobUpdate(progress: Option<int>, status: Option<JobStatus>, completedAt: Option<int>)

  /** The fields of jobUpdate: progress when given, status when it is one of the
      four names, completedAt (the current time) only for COMPLETED. */
  function JobUpdateFor(status: Option<string>, progress: Option<int>, now: int): (u: JobUpdate)
    ensures u.progress == progress
    ensures u.status.Some? <==> status.Some? && status.value in StatusNames
    ensures u.status.Some? ==> StatusName(u.status.value) == status.value
    ensures u.completedAt.Some? <==> u.status == Some(COMPLETED)
    ensures u.completedAt.Some? ==> u.completedAt.value == now
  {
    var accepted := if status.Some? && status.value != "" then ParseStatus(status.value) else None;
    JobUpdate(progress, accepted, if accepted == Some(COMPLETED) then Some(now) else None)
  }

  /** Prisma's update: every given field overwrites, whatever the current status. */
  function Apply(job: Job, u: JobUpdate): Job {
    job.(progress := u.progress.GetOr(job.progress),
         status := u.status.GetOr(job.status),
         completedAt := if u.completedAt.Some? then u.completedAt else job.completedAt)
  }

  /** `path.split('/').pop() || fallback`. */
  function FileName(path: string, fallback: string): (name: string)
    ensures '/' !in name || name == fallback
    ensures name != ""  || fallback == ""
  {
    var last := LastSegment(path, '/');
    if last == "" then fallback else last
  }

  /** The name is what follows the last slash, or the fallback when the path
      ends with a slash or is empty. */
  lemma FileNameMeaning(dir: string, name: string, fallback: string)
    requires '/' !in name
    ensures FileName(dir + "/" + name, fallback) == if name == "" then fallback else name
    ensures FileName(name, fallback) == if name == "" then fallback else name
  {
    LastSegmentAfterSeparator(dir, '/', name);
    assert dir + "/" + name == dir + ['/'] + name;
  }

  /** `x || default` for a level string. */
  function LevelOr(level: Option<string>, default: string): string {
    if level.Some? && level.value != "" then level.value else default
  }

  /** The records one contents element yields, with the new content record's id;
      None when a path is missing and `.split` throws. */
  function AddContent(db: Db, jobId: string, c: ContentInput): (r: Option<Db>)
    ensures r.Some? <==> c.videoPath.Some? && c.thumbnailPath.Some?
  {
    if c.videoPath.None? || c.thumbnailPath.None? then None
    else
      var id := |db.contents|;
      var prediction := c.engagementPrediction;
      var engagement := if prediction.Some? then prediction.value.predictedEngagement.GetOr(0) else 0;
      var record := ContentRecord(id, jobId, c.platform,
                                  FileName(c.videoPath.value, "video.mp4"), c.videoPath.value,
                                  FileName(c.thumbnailPath.value, "thumbnail.jpg"), c.thumbnailPath.value,
                                  c.metadataPath, c.startTimestamp, c.duration, engagement);
      var creatives := if c.creatives.Some? then
          var cr := c.creatives.value;
          [CreativeRecord(id, if "headline" in cr then Some(cr["headline"]) else None,
                          if "description" in cr then Some(cr["description"]) else None,
                          if "call_to_action" in cr then Some(cr["call_to_action"]) else None)]
        else [];
      var metrics := if prediction.Some? then
          [MetricRecord(id, prediction.value.predictedEngagement.GetOr(0),
                        LevelOr(prediction.value.engagementLevel, "Medium"))]
        else [];
      Some(db.(contents := db.contents + [record], creativeTexts := db.creativeTexts + creatives,
               metrics := db.metrics + metrics))
  }

  /** Per contents element: one content record whose engagement defaults to 0, a
      creative record exactly when creatives are present, and a metric exactly
      when a prediction is present, its level defaulting to "Medium". */
  lemma AddContentRecords(db: Db, jobId: string, c: ContentInput)
    requires c.videoPath.Some? && c.thumbnailPath.Some?
    ensures var d := AddContent(db, jobId, c).value;
      var rec := d.contents[|db.contents|];
      && d.jobs == db.jobs
      && |d.contents| == |db.contents| + 1 && d.contents[..|db.contents|] == db.contents
      && rec.jobId == jobId && rec.videoPath == c.videoPath.value && rec.thumbnailPath == c.thumbnailPath.value
      && rec.videoName == FileName(c.videoPath.value, "video.mp4")
      && rec.thumbnailName == FileName(c.thumbnailPath.value, "thumbnail.jpg")
      && rec.engagement == (if c.engagementPrediction.Some? then c.engagementPrediction.value.predictedEngagement.GetOr(0) else 0)
      && |d.creativeTexts| == |db.creativeTexts| + (if c.creatives.Some? then 1 else 0)
      && |d.metrics| == |db.metrics| + (if c.engagementPrediction.Some? then 1 else 0)
      && (c.engagementPrediction.Some? ==>
            d.metrics[|db.metrics|].contentId == rec.id
            && d.metrics[|db.metrics|].engagementLevel == LevelOr(c.engagementPrediction.value.engagementLevel, "Medium"))
  {
  }

  /** The contents loop: records are written element by element, and the first
      element missing a path ends the loop with what was written so far. */
  function AddContents(db: Db, jobId: string, cs: seq<ContentInput>): (Db, bool)
  {
    if |cs| == 0 then (db, false)
    else
      var n := |cs| - 1;
      var (d, threw) := AddContents(db, jobId, cs[..n]);
      if threw then (d, true)
      else match AddContent(d, jobId, cs[n])
        case None => (d, true)
        case Some(d') => (d', false)
  }

  /** One more element with both paths adds its records to what the earlier ones wrote. */
  lemma AddContentsSnoc(db: Db, jobId: string, cs: seq<ContentInput>, i: int)
    requires 0 <= i < |cs| && !AddContents(db, jobId, cs[..i]).1
    requires cs[i].videoPath.Some? && cs[i].thumbnailPath.Some?
    ensures AddContents(db, jobId, cs[..i + 1]) == (AddContent(AddContents(db, jobId, cs[..i]).0, jobId, cs[i]).value, false)
  {
    assert cs[..i + 1][..i] == cs[..i];
  }

  /** The loop throws exactly when some element lacks a path; it never touches
      the jobs; without a throw it adds one content record per element. */
  lemma {:induction false} AddContentsMeaning(db: Db, jobId: string, cs: seq<ContentInput>)
    ensures var (d, threw) := AddContents(db, jobId, cs);
      && d.jobs == db.jobs
      && (threw <==> exists i :: 0 <= i < |cs| && (cs[i].videoPath.None? || cs[i].thumbnailPath.None?))
      && (!threw ==> |d.contents| == |db.contents| + |cs|)
      && |db.contents| <= |d.contents|
  {
    if |cs| > 0 {
      var n := |cs| - 1;
      AddContentsMeaning(db, jobId, cs[..n]);
      var (d, threw) := AddContents(db, jobId, cs[..n]);
      if threw {
        var i :| 0 <= i < n && (cs[..n][i].videoPath.None? || cs[..n][i].thumbnailPath.None?);
        assert cs[i] == cs[..n][i];
      } else {
        assert forall i :: 0 <= i < n ==> cs[..n][i] == cs[i];
      }
    }
  }

  /** The route's effect and response. A missing or empty jobId is a 400 with
      nothing written; an unknown id makes Prisma throw (500, nothing written);
      otherwise the update is applied and the content records are added. */
  function UpdateJobEffect(db: Db, req: UpdateRequest, now: int): (Db, Response)
  {
    if req.jobId.None? || req.jobId.value == "" then (db, Response(400, ErrorBody("Job ID is required")))
    else
      var id := req.jobId.value;
      if id !in db.jobs then (db, Response(500, ErrorBody("Failed to update job")))
      else
        var updated := db.(jobs := db.jobs[id := Apply(db.jobs[id], JobUpdateFor(req.status, req.progress, now))]);
        if req.contents.None? then (updated, Response(200, Updated))
        else
          var (d, threw) := AddContents(updated, id, req.contents.value);
          if threw then (d, Response(500, ErrorBody("Failed to update job")))
          else (d, Response(200, Updated))
  }

  /** No transition is checked: any accepted status overwrites the current one,
      including moving a COMPLETED or FAILED job back to QUEUED; completedAt is
      set only by COMPLETED; an unknown status name leaves the status alone. */
  lemma UpdateOverwritesStatus(db: Db, id: string, name: string, now: int)
    requires id in db.jobs && id != ""
    ensures var (d, resp) := UpdateJobEffect(db, UpdateRequest(Some(id), Some(name), None, None), now);
      && resp == Response(200, Updated)
      && d.jobs.Keys == db.jobs.Keys
      && (name in StatusNames ==> StatusName(d.jobs[id].status) == name)
      && (name !in StatusNames ==> d.jobs[id] == db.jobs[id])
      && (d.jobs[id].completedAt != db.jobs[id].completedAt ==> name == "COMPLETED" && d.jobs[id].completedAt == Some(now))
      && d.jobs[id].progress == db.jobs[id].progress
  {
  }

  /** Requests the route rejects before writing leave the database as it was. */
  lemma UpdateRejects(db: Db, req: UpdateRequest, now: int)
    ensures var (d, resp) := UpdateJobEffect(db, req, now);
      && (req.jobId.None? || req.jobId.value == "" ==> d == db && resp.status == 400)
      && (req.jobId.Some? && req.jobId.value != "" && req.jobId.value !in db.jobs ==> d == db && resp.status == 500)
      && d.jobs.Keys == db.jobs.Keys
      && (resp.status == 200 ==> req.jobId.Some? && req.jobId.value in db.jobs)
  {
    if req.jobId.Some? && req.jobId.value in db.jobs && req.contents.Some? {
      var id := req.jobId.value;
      var updated := db.(jobs := db.jobs[id := Apply(db.jobs[id], JobUpdateFor(req.status, req.progress, now))]);
      AddContentsMeaning(updated, id, req.contents.value);
    }
  }

  /** The contents element the backend's runner posts: every key is present, so
      (since an empty object is truthy) a creative and a metric record are made
      for every element. */
  function InputOf(c: JobRunner.ContentItem): ContentInput {
    ContentInput(c.platform, Some(c.videoPath), Some(c.thumbnailPath), Some(c.metadataPath),
                 Some(c.startTimestamp), Some(c.duration), Some(c.creatives), Some(c.engagementPrediction))
  }

  function RequestOf(p: JobRunner.Payload): UpdateRequest {
    UpdateRequest(Some(p.jobId), Some(StatusName(p.status)), Some(p.progress),
                  if p.contents.Some? then Some(seq(|p.contents.value|, i requires 0 <= i < |p.contents.value| =>
                                                      InputOf(p.contents.value[i])))
                  else None)
  }

  lemma {:induction false} AddRunnerContents(db: Db, jobId: string, cs: seq<ContentInput>)
    requires forall i :: 0 <= i < |cs| ==> cs[i].videoPath.Some? && cs[i].thumbnailPath.Some?
    requires forall i :: 0 <= i < |cs| ==> cs[i].creatives.Some? && cs[i].engagementPrediction.Some?
    ensures var (d, threw) := AddContents(db, jobId, cs);
      && !threw
      && |d.contents| == |db.contents| + |cs|
      && |d.creativeTexts| == |db.creativeTexts| + |cs|
      && |d.metrics| == |db.metrics| + |cs|
  {
    if |cs| > 0 {
      var n := |cs| - 1;
      AddRunnerContents(db, jobId, cs[..n]);
    }
  }

  /** The runner's final COMPLETED update for a known job completes it at 100%
      with the current time and adds one content, one creative and one metric
      record per element of its contents. */
  lemma RunnerCompletion(db: Db, p: JobRunner.Payload, now: int)
    requires p.jobId in db.jobs && p.jobId != ""
    requires p.status == COMPLETED && p.contents.Some?
    ensures var (d, resp) := UpdateJobEffect(db, RequestOf(p), now);
      && resp == Response(200, Updated)
      && p.jobId in d.jobs
      && d.jobs[p.jobId].status == COMPLETED
      && d.jobs[p.jobId].progress == p.progress
      && d.jobs[p.jobId].completedAt == Some(now)
      && |d.contents| == |db.contents| + |p.contents.value|
      && |d.creativeTexts| == |db.creativeTexts| + |p.contents.value|
      && |d.metrics| == |db.metrics| + |p.contents.value|
  {
    var req := RequestOf(p);
    var cs := req.contents.value;
    var updated := db.(jobs := db.jobs[p.jobId := Apply(db.jobs[p.jobId], JobUpdateFor(req.status, req.progress, now))]);
    AddRunnerContents(updated, p.jobId, cs);
    AddContentsMeaning(updated, p.jobId, cs);
  }

  // ----- GET /api/jobs -----

  predicate NewestFirst(list: seq<Job>) {
    forall i, j :: 0 <= i < j < |list| ==> list[i].createdAt >= list[j].createdAt
  }

  /** Inserts a job before the first one that is not newer. */
  function InsertNewestFirst(list: seq<Job>, job: Job): (r: seq<Job>)
    requires NewestFirst(list)
    ensures NewestFirst(r)
    ensures multiset(r) == multiset(list) + multiset{job}
    ensures |r| == |list| + 1
    ensures r[0] == job || (|list| > 0 && r[0] == list[0])
  {
    if |list| == 0 then [job]
    else if list[0].createdAt <= job.createdAt then [job] + list
    else
      var rest := InsertNewestFirst(list[1..], job);
      assert list == [list[0]] + list[1..];
      [list[0]] + rest
  }

  /** The database as a class whose tables the routes update. */
  class Store {
    var jobs: map<string, Job>
    var contents: seq<ContentRecord>
    var creativeTexts: seq<CreativeRecord>
    var metrics: seq<MetricRecord>

    function State(): Db
      reads this
    {
      Db(jobs, contents, creativeTexts, metrics)
    }

    predicate Valid()
      reads this
    {
      WellKeyed(jobs)
    }

    constructor()
      ensures State() == Db(map[], [], [], []) && Valid()
    {
      jobs := map[];
      contents := [];
      creativeTexts := [];
      metrics := [];
    }

    /** POST /api/process-video, returning the response and the command it
        starts. The database's new id is `newId`. */
    method ProcessVideo(req: UploadRequest, newId: string, now: int, cwd: string)
      returns (resp: Response, command: Option<string>)
      requires Valid() && newId !in jobs
      modifies this
      ensures Valid()
      ensures var (d, r, c) := ProcessVideoEffect(old(State()), req, newId, now, cwd);
        State() == d && resp == r && command == c
    {
      if req.platforms.Malformed? {
        return Response(500, ErrorBody("Failed to process video")), None;
      }
      if req.videoName.None? {
        return Response(400, ErrorBody("No video file provided")), None;
      }
      var jobDir := NodeJoin(cwd, "jobs");
      var name := req.videoName.value;
      var videoPath := NodeJoin(jobDir, name);
      jobs := jobs[newId := Job(newId, req.userId, name, videoPath, QUEUED, 0, None, None, None, now)];
      var outputDir := NodeJoin(NodeJoin(jobDir, "outputs"), newId);
      if !req.platforms.Items? {
        return Response(500, ErrorBody("Failed to process video")), None;
      }
      var cmd := Command(videoPath, req.platforms.names, outputDir, newId);
      jobs := jobs[newId := jobs[newId].(status := PROCESSING, startedAt := Some(now))];
      return Response(200, Started(newId)), Some(cmd);
    }

    /** The exec callback of the started command. */
    method ExecCallback(jobId: string, error: Option<string>)
      requires Valid()
      modifies this
      ensures Valid()
      ensures State() == ExecCallbackEffect(old(State()), jobId, error)
    {
      if error.Some? && jobId in jobs {
        jobs := jobs[jobId := jobs[jobId].(status := FAILED, error := Some(error.value))];
      }
    }

    /** Builds jobUpdate field by field. */
    static method BuildJobUpdate(status: Option<string>, progress: Option<int>, now: int) returns (u: JobUpdate)
      ensures u == JobUpdateFor(status, progress, now)
    {
      u := JobUpdate(None, None, None);
      if progress.Some? {
        u := u.(progress := progress);
      }
      if status.Some? && status.value != "" {
        if status.value in StatusNames {
          u := u.(status := ParseStatus(status.value));
          if status.value == "COMPLETED" {
            u := u.(completedAt := Some(now));
          }
        }
      }
    }

    /** POST /api/update-job. */
    method UpdateJob(req: UpdateRequest, now: int) returns (resp: Response)
      requires Valid()
      modifies this
      ensures Valid()
      ensures State() == UpdateJobEffect(old(State()), req, now).0
      ensures resp == UpdateJobEffect(old(State()), req, now).1
    {
      if req.jobId.None? || req.jobId.value == "" {
        return Response(400, ErrorBody("Job ID is required"));
      }
      var id := req.jobId.value;
      var u := BuildJobUpdate(req.status, req.progress, now);
      if id !in jobs {
        return Response(500, ErrorBody("Failed to update job"));
      }
      jobs := jobs[id := Apply(jobs[id], u)];
      if req.contents.None? {
        return Response(200, Updated);
      }
      var threw := InsertContents(id, req.contents.value);
      if threw {
        return Response(500, ErrorBody("Failed to update job"));
      }
      return Response(200, Updated);
    }

    /** The route's loop over the contents: one content record per element, with
        its creative texts and metrics; an element without a path throws and
        ends the loop. The jobs are not touched. */
    method InsertContents(id: string, cs: seq<ContentInput>) returns (threw: bool)
      modifies this
      ensures jobs == old(jobs)
      ensures (State(), threw) == AddContents(old(State()), id, cs)
    {
      ghost var start := State();
      var i := 0;
      while i < |cs|
        invariant 0 <= i <= |cs|
        invariant AddContents(start, id, cs[..i]) == (State(), false)
        invariant jobs == start.jobs
      {
        var c := cs[i];
        if c.videoPath.None? || c.thumbnailPath.None? {
          assert cs[..i + 1][..i] == cs[..i];
          AddContentsStops(start, id, cs, i + 1);
          return true;
        }
        AddContentsSnoc(start, id, cs, i);
        var next := AddContent(State(), id, c).value;
        contents := next.contents;
        creativeTexts := next.creativeTexts;
        metrics := next.metrics;
        i := i + 1;
      }
      assert cs[..i] == cs;
      return false;
    }

    /** GET /api/jobs: every job once, newest first. */
    method ListJobs() returns (resp: Response)
      requires Valid()
      ensures resp.status == 200 && resp.body.JobList?
      ensures NewestFirst(resp.body.jobs)
      ensures |resp.body.jobs| == |jobs|
      ensures forall k :: k in jobs ==> jobs[k] in resp.body.jobs
      ensures forall j :: j in resp.body.jobs ==> j.id in jobs && jobs[j.id] == j
    {
      var list := SortNewestFirst(jobs);
      resp := Response(200, JobList(list));
    }
  }

  /** The ordering of findMany with `orderBy: { createdAt: 'desc' }`. */
  method SortNewestFirst(jobs: map<string, Job>) returns (list: seq<Job>)
    requires WellKeyed(jobs)
    ensures NewestFirst(list)
    ensures |list| == |jobs|
    ensures forall k :: k in jobs ==> jobs[k] in list
    ensures forall j :: j in list ==> j.id in jobs && jobs[j.id] == j
  {
    list := [];
    var remaining := jobs.Keys;
    while remaining != {}
      invariant remaining <= jobs.Keys
      invariant NewestFirst(list)
      invariant |list| + |remaining| == |jobs.Keys|
      invariant Listed(jobs, remaining, list)
      decreases |remaining|
    {
      var k :| k in remaining;
      var job := jobs[k];
      var next := InsertNewestFirst(list, job);
      ListedStep(jobs, remaining, list, k, next);
      list, remaining := next, remaining - {k};
    }
    assert forall j :: j in list <==> j in multiset(list);
  }

  /** The jobs listed so far are exactly those whose keys are no longer remaining. */
  predicate Listed(jobs: map<string, Job>, remaining: set<string>, list: seq<Job>) {
    && (forall k :: k in jobs && k !in remaining ==> jobs[k] in multiset(list))
    && (forall j :: j in multiset(list) ==> j.id in jobs && j.id !in remaining && jobs[j.id] == j)
  }

  lemma ListedStep(jobs: map<string, Job>, remaining: set<string>, list: seq<Job>, k: string, next: seq<Job>)
    requires WellKeyed(jobs) && k in remaining && remaining <= jobs.Keys && Listed(jobs, remaining, list)
    requires multiset(next) == multiset(list) + multiset{jobs[k]}
    ensures Listed(jobs, remaining - {k}, next)
    ensures |remaining - {k}| == |remaining| - 1
  {
    assert forall j :: j in multiset(next) ==> j == jobs[k] || j in multiset(list);
  }

  lemma {:induction false} AddContentsStops(db: Db, jobId: string, cs: seq<ContentInput>, k: nat)
    requires k <= |cs| && AddContents(db, jobId, cs[..k]).1
    ensures AddContents(db, jobId, cs) == AddContents(db, jobId, cs[..k])
    decreases |cs| - k
  {
    if k < |cs| {
      var q := cs[..k + 1];
      assert q[..k] == cs[..k];
      AddContentsStops(db, jobId, cs, k + 1);
    } else {
      assert cs[..k] == cs;
    }
  }
}
