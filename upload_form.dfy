/** The upload form (frontend/src/components/video/VideoUploadForm.tsx): the
    platform checkboxes, the checks made before anything is sent, the request
    it sends to the process-video route, and what follows the reply. The
    reply of the route is a parameter. */
module UploadForm {
  import opened Wrappers
  import opened Text
  import opened Assoc
  import opened JobTypes
  import JobStore

  /** The checkbox state, in the order the checkboxes are listed. */
  type Selection = seq<(string, bool)>

  const DefaultPlatforms: Selection :=
    [("youtube_shorts", true), ("youtube_ads", false), ("display_ads", false), ("performance_max", false)]

  /** `{...prev, [platform]: !prev[platform]}`: a missing key reads as
      undefined, so it is added as checked. */
  function Toggle(sel: Selection, platform: string): Selection {
    Put(sel, platform, Lookup(sel, platform) != Some(true))
  }

  /** A toggle flips the one box and leaves every other box as it was; toggling
      a listed box twice restores the selection. */
  lemma ToggleMeaning(sel: Selection, platform: string, other: string)
    ensures Lookup(Toggle(sel, platform), platform) == Some(Lookup(sel, platform) != Some(true))
    ensures other != platform ==> Lookup(Toggle(sel, platform), other) == Lookup(sel, other)
    ensures platform in Keys(sel) ==> Keys(Toggle(sel, platform)) == Keys(sel)
    ensures platform in Keys(sel) ==> Toggle(Toggle(sel, platform), platform) == sel
  {
    PutLookup(sel, platform, Lookup(sel, platform) != Some(true), platform);
    PutLookup(sel, platform, Lookup(sel, platform) != Some(true), other);
    if platform in Keys(sel) {
      var v := Lookup(sel, platform).value;
      var once := Toggle(sel, platform);
      assert Lookup(once, platform) == Some(!v);
      PutPut(sel, platform, !v, v);
      PutSame(sel, platform, v);
    }
  }

  /** `Object.entries(platforms).filter(([, s]) => s).map(([p]) => p)`. */
  function Selected(sel: Selection): (names: seq<string>)
    ensures |names| <= |sel|
    ensures forall x :: x in names <==> (x, true) in sel
  {
    if |sel| == 0 then []
    else
      var n := |sel| - 1;
      assert sel == sel[..n] + [sel[n]];
      Selected(sel[..n]) + if sel[n].1 then [sel[n].0] else []
  }

  /** One checkbox contributes its key exactly when it is checked. */
  lemma SelectedSingle(k: string, v: bool)
    ensures Selected([(k, v)]) == if v then [k] else []
  {
    assert [(k, v)][..0] == [];
  }

  /** The selection is taken box by box in listed order: the checked keys of a
      concatenation are those of the first part followed by those of the second. */
  lemma {:induction false} SelectedAppend(a: Selection, b: Selection)
    ensures Selected(a + b) == Selected(a) + Selected(b)
    decreases |b|
  {
    if |b| == 0 {
      assert a + b == a;
    } else {
      var n := |b| - 1;
      assert (a + b)[..|a + b| - 1] == a + b[..n];
      assert (a + b)[|a + b| - 1] == b[n];
      SelectedAppend(a, b[..n]);
    }
  }

  /** Keys are listed once each, so every checked key is sent exactly once. */
  lemma {:induction false} SelectedDistinct(sel: Selection)
    requires DistinctKeys(sel)
    ensures forall i, j :: 0 <= i < j < |Selected(sel)| ==> Selected(sel)[i] != Selected(sel)[j]
    decreases |sel|
  {
    if |sel| > 0 {
      var n := |sel| - 1;
      var init := sel[..n];
      assert DistinctKeys(init);
      SelectedDistinct(init);
      if sel[n].1 {
        forall i | 0 <= i < |Selected(init)|
          ensures Selected(init)[i] != sel[n].0
        {
          var x := Selected(init)[i];
          assert (x, true) in init;
          var m :| 0 <= m < |init| && init[m] == (x, true);
          assert sel[m].0 == x;
        }
      }
    }
  }

  lemma DefaultSelected()
    ensures Selected(DefaultPlatforms) == ["youtube_shorts"]
  {
    var s := DefaultPlatforms;
    assert s[..3][..2][..1][..0] == [];
  }

  /** `platform.replace('_', ' ')`: a string pattern replaces its first match only. */
  function ReplaceFirst(s: string, x: char, y: char): (r: string)
    ensures |r| == |s|
  {
    if |s| == 0 then ""
    else if s[0] == x then [y] + s[1..]
    else [s[0]] + ReplaceFirst(s[1..], x, y)
  }

  function Label(platform: string): string {
    ReplaceFirst(platform, '_', ' ')
  }

  /** The checkbox label turns the first underscore into a space and keeps any
      later one; a name without underscores is shown unchanged. */
  lemma {:induction false} LabelMeaning(head: string, tail: string)
    requires '_' !in head
    ensures Label(head + "_" + tail) == head + " " + tail
    ensures Label(head) == head
  {
    if |head| > 0 {
      LabelMeaning(head[1..], tail);
      assert (head + "_" + tail)[1..] == head[1..] + "_" + tail;
      assert head == [head[0]] + head[1..];
    } else {
      assert head + "_" + tail == "_" + tail;
    }
  }

  datatype FileInfo = FileInfo(name: string, size: int)

  datatype FormState = FormState(file: Option<FileInfo>, uploading: bool, error: Option<string>, platforms: Selection)

  /** The route's reply as the form sees it: the job id of a success, the
      error field of a failure status, or the message of a thrown error. */
  datatype Reply = Accepted(jobId: string) | Rejected(error: Option<string>) | Thrown(message: string)

  /** The FormData fields sent: the video, the selected platforms and the
      placeholder user id. */
  datatype Request = Request(fileName: string, platforms: seq<string>, userId: string)

  /** The job handed to onJobCreated. */
  datatype CreatedJob = CreatedJob(id: string, originalVideoName: string, status: JobStatus, progress: int, createdAt: string)

  datatype Submission = Submission(request: Option<Request>, created: Option<CreatedJob>, redirect: Option<string>)

  const NoSubmission := Submission(None, None, None)

  /** handleSubmit from the first check to the `finally`. */
  function SubmitEffect(st: FormState, reply: Reply, hasCallback: bool, now: string): (FormState, Submission) {
    if st.file.None? then (st.(error := Some("Please select a video file")), NoSubmission)
    else
      var names := Selected(st.platforms);
      if |names| == 0 then (st.(error := Some("Please select at least one platform")), NoSubmission)
      else
        var file := st.file.value;
        var request := Some(Request(file.name, names, "user-123"));
        match reply
        case Accepted(id) =>
          (st.(uploading := false, error := None),
           Submission(request, if hasCallback then Some(CreatedJob(id, file.name, PROCESSING, 0, now)) else None,
                      Some("/processing/" + id)))
        case Rejected(e) =>
          (st.(uploading := false, error := Some(if e.Some? && e.value != "" then e.value else "Failed to upload video")),
           Submission(request, None, None))
        case Thrown(message) =>
          (st.(uploading := false, error := Some(message)), Submission(request, None, None))
  }

  /** A request is sent exactly when a file is chosen and some platform is
      checked, and it carries exactly the checked platforms, in checkbox order
      (SelectedAppend); without one the
      form only shows why. After a request the form is no longer uploading; it
      shows no error and redirects to the job's processing page exactly when the
      route accepted it, and the job it reports is PROCESSING at 0%. The file
      and the checkboxes never change. */
  lemma SubmitMeaning(st: FormState, reply: Reply, hasCallback: bool, now: string)
    ensures var (st', sub) := SubmitEffect(st, reply, hasCallback, now);
      && st'.file == st.file && st'.platforms == st.platforms
      && (sub.request.Some? <==> st.file.Some? && exists p :: (p, true) in st.platforms)
      && (st.file.None? ==> st'.error == Some("Please select a video file"))
      && (st.file.Some? && sub.request.None? ==> st'.error == Some("Please select at least one platform"))
      && (sub.request.None? ==> sub == NoSubmission && st'.uploading == st.uploading)
      && (sub.request.Some? ==>
            && sub.request.value.fileName == st.file.value.name
            && (forall p :: p in sub.request.value.platforms <==> (p, true) in st.platforms)
            && sub.request.value.platforms == Selected(st.platforms)
            && !st'.uploading
            && (st'.error.None? <==> reply.Accepted?)
            && (sub.redirect.Some? <==> reply.Accepted?)
            && (reply.Accepted? ==> sub.redirect == Some("/processing/" + reply.jobId))
            && (sub.created.Some? <==> reply.Accepted? && hasCallback)
            && (sub.created.Some? ==> sub.created.value.status == PROCESSING && sub.created.value.progress == 0))
  {
    if st.file.Some? && |Selected(st.platforms)| == 0 {
      forall p ensures (p, true) !in st.platforms {
        assert p !in Selected(st.platforms);
      }
    }
    if st.file.Some? && |Selected(st.platforms)| > 0 {
      var p := Selected(st.platforms)[0];
      assert (p, true) in st.platforms;
    }
  }

  /** The submit button is disabled while uploading and while no file is chosen. */
  predicate SubmitDisabled(st: FormState) {
    st.uploading || st.file.None?
  }

  /** The form data the route reads: a video named like the file, the user id,
      and the platforms as a JSON array. */
  function RouteRequest(r: Request): JobStore.UploadRequest {
    JobStore.UploadRequest(Some(r.fileName), Some(r.userId), JobStore.Items(r.platforms))
  }

  /** Whatever the form sends, the route starts a job for it: a 200 with the new
      id, a PROCESSING job and a started command. */
  lemma FormRequestsStartJobs(st: FormState, reply: Reply, hasCallback: bool, now: string,
                              db: JobStore.Db, newId: string, time: int, cwd: string)
    requires newId !in db.jobs
    requires SubmitEffect(st, reply, hasCallback, now).1.request.Some?
    ensures var r := SubmitEffect(st, reply, hasCallback, now).1.request.value;
      var (db', resp, command) := JobStore.ProcessVideoEffect(db, RouteRequest(r), newId, time, cwd);
      && resp == JobStore.Response(200, JobStore.Started(newId))
      && command.Some?
      && db'.jobs[newId].status == PROCESSING
  {
    var r := SubmitEffect(st, reply, hasCallback, now).1.request.value;
    JobStore.ProcessVideoOutcomes(db, RouteRequest(r), newId, time, cwd);
  }

  /** The form's state; the handlers below update it. */
  class Form {
    var file: Option<FileInfo>
    var uploading: bool
    var error: Option<string>
    var platforms: Selection

    function State(): FormState
      reads this
    {
      FormState(file, uploading, error, platforms)
    }

    /** Opens with no file, no error and only YouTube Shorts checked. */
    constructor()
      ensures State() == FormState(None, false, None, DefaultPlatforms)
      ensures SubmitDisabled(State())
    {
      file := None;
      uploading := false;
      error := None;
      platforms := DefaultPlatforms;
    }

    /** handleFileChange: the first chosen file, if any, replaces the current one. */
    method ChooseFile(files: seq<FileInfo>)
      modifies this
      ensures State() == old(State()).(file := if |files| > 0 then Some(files[0]) else old(file))
    {
      if |files| > 0 {
        file := Some(files[0]);
      }
    }

    /** handlePlatformChange. */
    method TogglePlatform(platform: string)
      modifies this
      ensures State() == old(State()).(platforms := Toggle(old(platforms), platform))
    {
      var checked := Lookup(platforms, platform);
      platforms := Put(platforms, platform, checked != Some(true));
    }

    /** handleSubmit, with the route's reply given. */
    method Submit(reply: Reply, hasCallback: bool, now: string) returns (sub: Submission)
      modifies this
      ensures (State(), sub) == SubmitEffect(old(State()), reply, hasCallback, now)
    {
      if file.None? {
        error := Some("Please select a video file");
        return NoSubmission;
      }
      var names := Selected(platforms);
      if |names| == 0 {
        error := Some("Please select at least one platform");
        return NoSubmission;
      }
      uploading := true;
      error := None;
      var request := Some(Request(file.value.name, names, "user-123"));
      match reply {
        case Accepted(id) =>
          var created := if hasCallback then Some(CreatedJob(id, file.value.name, PROCESSING, 0, now)) else None;
          sub := Submission(request, created, Some("/processing/" + id));
        case Rejected(e) =>
          error := Some(if e.Some? && e.value != "" then e.value else "Failed to upload video");
          sub := Submission(request, None, None);
        case Thrown(message) =>
          error := Some(message);
          sub := Submission(request, None, None);
      }
      uploading := false;
    }
  }
}
