/** The static file server for job outputs (frontend/video-server.js): the
    headers set for a served file by its suffix, and the `/list/:jobId` route
    that lists each platform directory's videos, thumbnails and metadata. The
    file system is a map from job id to the entries of that job's outputs
    directory. */
module VideoServer {
  import opened Wrappers
  import opened Text
  import opened Assoc

  /** The headers setHeaders adds for a served file, in the order it sets them. */
  function HeadersFor(filePath: string): seq<(string, string)> {
    if EndsWith(filePath, ".mp4") then [("Content-Type", "video/mp4"), ("Accept-Ranges", "bytes")]
    else if EndsWith(filePath, ".jpg") || EndsWith(filePath, ".jpeg") then [("Content-Type", "image/jpeg")]
    else if EndsWith(filePath, ".png") then [("Content-Type", "image/png")]
    else if EndsWith(filePath, ".json") then [("Content-Type", "application/json")]
    else []
  }

  lemma EndsWithConcat(base: string, ext: string)
    ensures EndsWith(base + ext, ext)
  {
    assert (base + ext)[|base + ext| - |ext|..] == ext;
  }

  /** Two suffixes that differ in the k-th character from the end cannot both
      end the same name. */
  lemma NotEndsWith(s: string, ext: string, other: string, k: nat)
    requires EndsWith(s, ext) && k < |ext| && k < |other|
    requires ext[|ext| - 1 - k] != other[|other| - 1 - k]
    ensures !EndsWith(s, other)
  {
    assert s[|s| - |ext|..][|ext| - 1 - k] == s[|s| - 1 - k];
  }

  lemma HeadersMp4(base: string)
    ensures HeadersFor(base + ".mp4") == [("Content-Type", "video/mp4"), ("Accept-Ranges", "bytes")]
  {
    EndsWithConcat(base, ".mp4");
  }

  lemma HeadersJpg(base: string)
    ensures HeadersFor(base + ".jpg") == [("Content-Type", "image/jpeg")]
  {
    EndsWithConcat(base, ".jpg");
    NotEndsWith(base + ".jpg", ".jpg", ".mp4", 0);
  }

  lemma HeadersJpeg(base: string)
    ensures HeadersFor(base + ".jpeg") == [("Content-Type", "image/jpeg")]
  {
    EndsWithConcat(base, ".jpeg");
    NotEndsWith(base + ".jpeg", ".jpeg", ".mp4", 0);
  }

  lemma HeadersPng(base: string)
    ensures HeadersFor(base + ".png") == [("Content-Type", "image/png")]
  {
    var s := base + ".png";
    EndsWithConcat(base, ".png");
    NotEndsWith(s, ".png", ".mp4", 0);
    NotEndsWith(s, ".png", ".jpg", 1);
    NotEndsWith(s, ".png", ".jpeg", 1);
  }

  lemma HeadersJson(base: string)
    ensures HeadersFor(base + ".json") == [("Content-Type", "application/json")]
  {
    var s := base + ".json";
    EndsWithConcat(base, ".json");
    NotEndsWith(s, ".json", ".mp4", 0);
    NotEndsWith(s, ".json", ".jpg", 0);
    NotEndsWith(s, ".json", ".jpeg", 0);
    NotEndsWith(s, ".json", ".png", 0);
  }

  /** Each suffix of the chain gets its own type, videos also accept range
      requests, and a name with none of the suffixes gets no header. */
  lemma HeadersBySuffix(base: string, filePath: string)
    ensures HeadersFor(base + ".mp4") == [("Content-Type", "video/mp4"), ("Accept-Ranges", "bytes")]
    ensures HeadersFor(base + ".jpg") == [("Content-Type", "image/jpeg")]
    ensures HeadersFor(base + ".jpeg") == [("Content-Type", "image/jpeg")]
    ensures HeadersFor(base + ".png") == [("Content-Type", "image/png")]
    ensures HeadersFor(base + ".json") == [("Content-Type", "application/json")]
    ensures HeadersFor(filePath) == [] <==>
      !EndsWith(filePath, ".mp4") && !EndsWith(filePath, ".jpg") && !EndsWith(filePath, ".jpeg")
      && !EndsWith(filePath, ".png") && !EndsWith(filePath, ".json")
  {
    HeadersMp4(base);
    HeadersJpg(base);
    HeadersJpeg(base);
    HeadersPng(base);
    HeadersJson(base);
  }

  /** An entry of a platform directory, with the size statSync reports. */
  datatype FileEntry = FileEntry(name: string, size: int)

  /** An entry of a job's outputs directory: a platform directory with its
      entries, or anything else. */
  datatype OutputEntry = PlatformDir(name: string, files: seq<FileEntry>) | OtherEntry(name: string)

  /** The outputs directory of a job as reading it turns out: its entries, or
      a failure somewhere in the reads. */
  datatype Outputs = Readable(entries: seq<OutputEntry>) | Unreadable

  datatype Item = Item(name: string, url: string, size: Option<int>)

  datatype PlatformFiles = PlatformFiles(videos: seq<Item>, thumbnails: seq<Item>, metadata: seq<Item>)

  datatype ListResponse =
    | NotFound
    | ServerError
    | Listed(jobId: string, platforms: seq<string>, files: seq<(string, PlatformFiles)>)

  function FileUrl(jobId: string, platform: string, name: string): string {
    "/videos/" + jobId + "/outputs/" + platform + "/" + name
  }

  /** `files.filter(f => f.endsWith(suffix))`. */
  function Matching(files: seq<FileEntry>, suffix: string): (r: seq<FileEntry>)
    ensures |r| <= |files|
    ensures forall f :: f in r <==> f in files && EndsWith(f.name, suffix)
  {
    if |files| == 0 then []
    else
      var n := |files| - 1;
      assert files == files[..n] + [files[n]];
      Matching(files[..n], suffix) + if EndsWith(files[n].name, suffix) then [files[n]] else []
  }

  /** The listed items of some files; only videos carry their size. */
  function Items(jobId: string, platform: string, files: seq<FileEntry>, sized: bool): (r: seq<Item>)
    ensures |r| == |files|
    ensures forall i :: 0 <= i < |files| ==>
      r[i] == Item(files[i].name, FileUrl(jobId, platform, files[i].name), if sized then Some(files[i].size) else None)
  {
    seq(|files|, i requires 0 <= i < |files| =>
      Item(files[i].name, FileUrl(jobId, platform, files[i].name), if sized then Some(files[i].size) else None))
  }

  function FilesOf(jobId: string, platform: string, files: seq<FileEntry>): PlatformFiles {
    PlatformFiles(Items(jobId, platform, Matching(files, ".mp4"), true),
                  Items(jobId, platform, Matching(files, ".jpg"), false),
                  Items(jobId, platform, Matching(files, ".json"), false))
  }

  /** The directories among the entries, in directory order. */
  function Platforms(entries: seq<OutputEntry>): (names: seq<string>)
    ensures forall x :: x in names <==> exists e :: e in entries && e.PlatformDir? && e.name == x
  {
    if |entries| == 0 then []
    else
      var n := |entries| - 1;
      assert entries == entries[..n] + [entries[n]];
      Platforms(entries[..n]) + if entries[n].PlatformDir? then [entries[n].name] else []
  }

  /** The result object after the forEach has visited the entries. */
  function Result(jobId: string, entries: seq<OutputEntry>): (r: seq<(string, PlatformFiles)>)
    ensures forall x :: x in Keys(r) <==> x in Platforms(entries)
  {
    if |entries| == 0 then []
    else
      var n := |entries| - 1;
      var front := Result(jobId, entries[..n]);
      var e := entries[n];
      assert entries == entries[..n] + [e];
      if e.PlatformDir? then Put(front, e.name, FilesOf(jobId, e.name, e.files)) else front
  }

  /** The response of `/list/:jobId`. */
  function ListFor(fs: map<string, Outputs>, jobId: string): ListResponse {
    if jobId !in fs then NotFound
    else match fs[jobId]
      case Unreadable => ServerError
      case Readable(entries) => Listed(jobId, Platforms(entries), Result(jobId, entries))
  }

  /** The items listed for a suffix are exactly the files with that suffix,
      each linked under the platform's directory. */
  predicate ListsExactly(items: seq<Item>, jobId: string, platform: string, files: seq<FileEntry>, suffix: string,
                         sized: bool)
  {
    && (forall f :: f in files && EndsWith(f.name, suffix) ==>
          Item(f.name, FileUrl(jobId, platform, f.name), if sized then Some(f.size) else None) in items)
    && (forall it :: it in items ==>
          exists f :: f in files && EndsWith(f.name, suffix) && it == Item(f.name, FileUrl(jobId, platform, f.name), if sized then Some(f.size) else None))
  }

  lemma ItemsOfMatching(jobId: string, platform: string, files: seq<FileEntry>, suffix: string, sized: bool)
    ensures ListsExactly(Items(jobId, platform, Matching(files, suffix), sized), jobId, platform, files, suffix, sized)
  {
    var m := Matching(files, suffix);
    var items := Items(jobId, platform, m, sized);
    forall f | f in files && EndsWith(f.name, suffix)
      ensures Item(f.name, FileUrl(jobId, platform, f.name), if sized then Some(f.size) else None) in items
    {
      var i :| 0 <= i < |m| && m[i] == f;
      assert items[i] == Item(f.name, FileUrl(jobId, platform, f.name), if sized then Some(f.size) else None);
    }
    forall it | it in items
      ensures exists f :: f in files && EndsWith(f.name, suffix) && it == Item(f.name, FileUrl(jobId, platform, f.name), if sized then Some(f.size) else None)
    {
      var i :| 0 <= i < |items| && items[i] == it;
      assert m[i] in m;
    }
  }

  /** A listed platform's files: the videos, thumbnails and metadata are
      exactly the files whose names end in .mp4, .jpg and .json, every item
      links under the job's outputs directory, and only videos carry a size. */
  lemma FilesOfMeaning(jobId: string, platform: string, files: seq<FileEntry>)
    ensures var pf := FilesOf(jobId, platform, files);
      && ListsExactly(pf.videos, jobId, platform, files, ".mp4", true)
      && ListsExactly(pf.thumbnails, jobId, platform, files, ".jpg", false)
      && ListsExactly(pf.metadata, jobId, platform, files, ".json", false)
  {
    ItemsOfMatching(jobId, platform, files, ".mp4", true);
    ItemsOfMatching(jobId, platform, files, ".jpg", false);
    ItemsOfMatching(jobId, platform, files, ".json", false);
  }

  /** A .jpeg file is served as an image but is never listed as a thumbnail,
      nor as anything else. */
  lemma JpegNotListed(jobId: string, platform: string, files: seq<FileEntry>, base: string)
    ensures HeadersFor(base + ".jpeg") == [("Content-Type", "image/jpeg")]
    ensures var pf := FilesOf(jobId, platform, files);
      && (forall it :: it in pf.videos ==> it.name != base + ".jpeg")
      && (forall it :: it in pf.thumbnails ==> it.name != base + ".jpeg")
      && (forall it :: it in pf.metadata ==> it.name != base + ".jpeg")
  {
    var name := base + ".jpeg";
    HeadersJpeg(base);
    FilesOfMeaning(jobId, platform, files);
    EndsWithConcat(base, ".jpeg");
    NotEndsWith(name, ".jpeg", ".mp4", 0);
    NotEndsWith(name, ".jpeg", ".jpg", 1);
    NotEndsWith(name, ".jpeg", ".json", 0);
  }

  /** The route: 404 for a job with no outputs directory, 500 when a read
      fails, otherwise the platforms are exactly the directories of the
      outputs directory and the files object has one key for each of them,
      holding that directory's classified files. */
  lemma {:induction false} ListMeaning(fs: map<string, Outputs>, jobId: string)
    ensures ListFor(fs, jobId) == NotFound <==> jobId !in fs
    ensures ListFor(fs, jobId) == ServerError <==> jobId in fs && fs[jobId].Unreadable?
    ensures ListFor(fs, jobId).Listed? ==>
      var entries := fs[jobId].entries;
      var r := ListFor(fs, jobId);
      && r.jobId == jobId
      && (forall x :: x in r.platforms <==> exists e :: e in entries && e.PlatformDir? && e.name == x)
      && (forall x :: x in Keys(r.files) <==> x in r.platforms)
      && (DistinctNames(entries) ==> forall e :: e in entries && e.PlatformDir? ==>
            Lookup(r.files, e.name) == Some(FilesOf(jobId, e.name, e.files)))
  {
    if jobId in fs && fs[jobId].Readable? {
      var entries := fs[jobId].entries;
      if DistinctNames(entries) {
        forall e | e in entries && e.PlatformDir? ensures Lookup(Result(jobId, entries), e.name) == Some(FilesOf(jobId, e.name, e.files)) {
          var i :| 0 <= i < |entries| && entries[i] == e;
          ResultLookup(jobId, entries, i);
        }
      }
    }
  }

  /** readdir never reports a name twice. */
  predicate DistinctNames(entries: seq<OutputEntry>) {
    forall i, j :: 0 <= i < j < |entries| ==> entries[i].name != entries[j].name
  }

  lemma {:induction false} ResultLookup(jobId: string, entries: seq<OutputEntry>, i: nat)
    requires DistinctNames(entries) && i < |entries| && entries[i].PlatformDir?
    ensures Lookup(Result(jobId, entries), entries[i].name) == Some(FilesOf(jobId, entries[i].name, entries[i].files))
  {
    var n := |entries| - 1;
    var e := entries[n];
    var front := Result(jobId, entries[..n]);
    var name := entries[i].name;
    if i == n {
      PutLookup(front, e.name, FilesOf(jobId, e.name, e.files), name);
    } else {
      assert entries[..n][i] == entries[i];
      assert DistinctNames(entries[..n]);
      ResultLookup(jobId, entries[..n], i);
      if e.PlatformDir? {
        PutLookup(front, e.name, FilesOf(jobId, e.name, e.files), name);
      }
    }
  }

  /** The handler: the forEach fills the result object platform by platform. */
  method List(fs: map<string, Outputs>, jobId: string) returns (resp: ListResponse)
    ensures resp == ListFor(fs, jobId)
  {
    if jobId !in fs {
      return NotFound;
    }
    if fs[jobId].Unreadable? {
      return ServerError;
    }
    var entries := fs[jobId].entries;
    var platforms := Platforms(entries);
    var result: seq<(string, PlatformFiles)> := [];
    var k := 0;
    while k < |entries|
      invariant 0 <= k <= |entries|
      invariant result == Result(jobId, entries[..k])
    {
      assert entries[..k + 1][..k] == entries[..k];
      var e := entries[k];
      if e.PlatformDir? {
        result := Put(result, e.name, FilesOf(jobId, e.name, e.files));
      }
      k := k + 1;
    }
    assert entries[..k] == entries;
    return Listed(jobId, platforms, result);
  }
}
