// The tool job queue: job ids, default output paths and MIME types, submission, the worker's
// processing of the first queued job with bounded retries, cancellation, the status summary,
// key=value parameters and the upsert of an asset into the manifest.

module ToolJobs {
  import opened Text
  import opened JsonValue
  import opened TaskGraph
  import opened RoleConfig

  const JobQueued := "queued"
  const JobRunning := "running"
  const JobDone := "done"
  const JobFailed := "failed"

  /** Job ids read TOOL-0001, TOOL-0002, ... */
  const JobPrefix := "TOOL"

  /** A job of the jobs file. An id can be missing from a hand-edited file. */
  datatype Job = Job(
    id: Option<string>,
    tool: string,
    prompt: string,
    params: Fields,
    outputPath: string,
    status: string,
    createdAt: int,
    updatedAt: int,
    startedAt: Option<int>,
    finishedAt: Option<int>,
    attempts: int,
    error: Option<string>,
    taskId: Option<string>,
    role: Option<string>,
    metadata: Fields)

  /** An entry of the asset manifest. */
  datatype Asset = Asset(
    assetId: Option<string>,
    tool: string,
    model: Json,
    license: Json,
    prompt: string,
    outputPath: string,
    mimeType: string,
    sha256: string,
    bytes: nat,
    createdAt: int,
    taskId: Option<string>,
    role: Option<string>)

  // ---------------------------------------------------------------- next_job_id

  /** int(str(id).split("-")[-1]), a missing id read as TOOL-0000; None where int() raises. */
  function IdSuffix(id: Option<string>): (r: Option<int>)
    ensures r.Some? ==> r.value >= 0
  {
    var s := if id.Some? then id.value else JobPrefix + "-0000";
    var parts := Split(s, '-');
    SplitPartsExclude(s, '-');
    ParseIntUnsigned(parts[|parts| - 1]);
    ParseInt(parts[|parts| - 1])
  }

  function Suffixes(jobs: seq<Job>): (r: seq<Option<int>>)
    ensures |r| == |jobs| && forall i :: 0 <= i < |jobs| ==> r[i] == IdSuffix(jobs[i].id)
  {
    seq(|jobs|, i requires 0 <= i < |jobs| => IdSuffix(jobs[i].id))
  }

  /** The number next_job_id formats: 1 for no jobs, otherwise one more than the largest
      suffix; None where one of the suffixes is not an integer. */
  function NextJobNumber(jobs: seq<Job>): Option<nat> {
    if |jobs| == 0 then Some(1)
    else
      MaxParsedFacts(Suffixes(jobs));
      match MaxParsed(Suffixes(jobs))
      case None => None
      case Some(m) => Some(m + 1)
  }

  /** next_job_id: the number zero padded to at least four digits after "TOOL-". */
  function NextJobId(jobs: seq<Job>): Option<string> {
    match NextJobNumber(jobs)
    case None => None
    case Some(n) => Some(FormatId(JobPrefix, n))
  }

  /** The suffix of a formatted job id reads back. */
  lemma {:induction false} JobIdSuffix(n: nat)
    ensures IdSuffix(Some(FormatId(JobPrefix, n))) == Some(n)
  {
    Pad4Parses(n);
    assert '-' !in JobPrefix;
    SplitAtFirst(JobPrefix, '-', Pad4(n));
    SplitNoSeparator(Pad4(n), '-');
    assert FormatId(JobPrefix, n) == JobPrefix + ['-'] + Pad4(n);
  }

  /** The first id is TOOL-0001; an id is allocated exactly when every suffix is an integer,
      its suffix reads back as a number larger than all of them, so it is not in use. */
  lemma {:induction false} NextJobIdFresh(jobs: seq<Job>)
    ensures jobs == [] ==> NextJobId(jobs) == Some("TOOL-0001")
    ensures NextJobId(jobs).Some? <==> forall i :: 0 <= i < |jobs| ==> IdSuffix(jobs[i].id).Some?
    ensures NextJobId(jobs).Some? ==>
              IdSuffix(NextJobId(jobs)) == NextJobNumber(jobs) &&
              (forall i :: 0 <= i < |jobs| ==> IdSuffix(jobs[i].id).value < NextJobNumber(jobs).value) &&
              (forall i :: 0 <= i < |jobs| ==> jobs[i].id != NextJobId(jobs))
  {
    if jobs == [] {
      Pad4One();
      assert NextJobNumber(jobs) == Some(1);
      assert FormatId(JobPrefix, 1) == JobPrefix + "-" + "0001";
      assert JobPrefix + "-" + "0001" == "TOOL-0001";
      JobIdSuffix(1);
    } else {
      var xs := Suffixes(jobs);
      MaxParsedFacts(xs);
      if NextJobNumber(jobs).Some? {
        var n := NextJobNumber(jobs).value;
        JobIdSuffix(n);
        forall i | 0 <= i < |jobs|
          ensures IdSuffix(jobs[i].id).value < n
        {
          assert xs[i] == IdSuffix(jobs[i].id);
        }
      }
    }
  }

  // ---------------------------------------------------------------- paths and MIME types

  /** The configured extension, stripped, with a leading dot added when missing. */
  function DefaultExt(toolCfg: Fields): string {
    var e := Strip(PyStr(GetOr(toolCfg, "default_ext", JStr(""))));
    if e != "" && !StartsWith(e, ".") then "." + e else e
  }

  /** The configured output directory, stripped, "assets" when blank. */
  function DefaultDir(toolCfg: Fields): string {
    var d := Strip(PyStr(GetOr(toolCfg, "default_output_dir", JStr("assets"))));
    if d == "" then "assets" else d
  }

  /** default_output_path: <dir>/<tool>_<job id lowercased><ext>. */
  function DefaultOutputPath(toolId: string, toolCfg: Fields, jobId: string): string {
    DefaultDir(toolCfg) + "/" + toolId + "_" + Lower(jobId) + DefaultExt(toolCfg)
  }

  /** Path.name: the last component that is neither empty nor ".", so that a trailing slash
      or a trailing "." component is skipped; "" when there is none. */
  function FileName(path: string): string
    decreases |path|
  {
    match RFind(path, "/")
    case None => if path == "." then "" else path
    case Some(i) =>
      var tail := path[i + 1..];
      if tail == "" || tail == "." then FileName(path[..i]) else tail
  }

  /** Path.suffix: from the last dot on, unless the dot opens or closes the name. */
  function Suffix(name: string): string {
    match RFind(name, ".")
    case None => ""
    case Some(i) => if 0 < i < |name| - 1 then name[i..] else ""
  }

  /** The MIME type of a lower-cased suffix. */
  function MimeOf(suffix: string): string {
    if suffix == ".wav" then "audio/wav"
    else if suffix == ".ogg" then "audio/ogg"
    else if suffix == ".svg" then "image/svg+xml"
    else if suffix == ".png" then "image/png"
    else if suffix == ".jpg" || suffix == ".jpeg" then "image/jpeg"
    else "application/octet-stream"
  }

  /** infer_mime. */
  function InferMime(path: string): string {
    MimeOf(Lower(Suffix(FileName(path))))
  }

  /** An extension made of a dot and a non-empty name without dots or slashes. */
  predicate PlainExt(e: string) {
    |e| >= 2 && e[0] == '.' && '.' !in e[1..] && '/' !in e[1..]
  }

  /** The last occurrence of a character that does not occur in what follows. */
  lemma {:induction false} RFindLast(p: string, c: char, q: string)
    requires c !in q
    ensures RFind(p + [c] + q, [c]) == Some(|p|)
  {
    var s := p + [c] + q;
    RFindFacts(s, [c]);
    assert s[|p|..|p| + 1] == [c];
    assert MatchAt(s, [c], |p|);
    forall i | |p| < i < |s|
      ensures s[i] != c
    {
      assert s[i] == q[i - |p| - 1];
    }
    forall i | |p| < i
      ensures !MatchAt(s, [c], i)
    {
      if i < |s| {
        assert s[i..i + 1] == [s[i]];
      }
    }
  }

  /** Lower-casing adds no slash. */
  lemma {:induction false} LowerNoSlash(s: string)
    requires '/' !in s
    ensures '/' !in Lower(s)
  {
    forall i | 0 <= i < |s|
      ensures Lower(s)[i] != '/'
    {
      assert s[i] != '/';
    }
  }

  /** The file name of dir/name, for a name without slashes that is neither empty nor ".". */
  lemma {:induction false} FileNameOf(dir: string, name: string)
    requires '/' !in name && name != "" && name != "."
    ensures FileName(dir + "/" + name) == name
  {
    assert dir + "/" + name == dir + ['/'] + name;
    RFindLast(dir, '/', name);
  }

  /** The suffix of stem+ext, for a non-empty stem and a plain extension. */
  lemma {:induction false} SuffixOf(stem: string, ext: string)
    requires |stem| > 0 && PlainExt(ext)
    ensures Suffix(stem + ext) == ext
  {
    assert stem + ext == stem + ['.'] + ext[1..];
    RFindLast(stem, '.', ext[1..]);
    assert (stem + ext)[|stem|..] == ext;
  }

  /** A job written to its default path is recorded with the MIME type of the tool's
      extension: the file name is <tool>_<id><ext> and its suffix is the extension. */
  lemma {:induction false} DefaultPathMime(toolId: string, toolCfg: Fields, jobId: string)
    requires '/' !in toolId && '/' !in jobId && PlainExt(DefaultExt(toolCfg))
    ensures InferMime(DefaultOutputPath(toolId, toolCfg, jobId)) == MimeOf(Lower(DefaultExt(toolCfg)))
  {
    LowerNoSlash(jobId);
    PathMime(DefaultDir(toolCfg), toolId, Lower(jobId), DefaultExt(toolCfg));
  }

  /** The MIME type of <dir>/<tool>_<id><ext> is that of the extension. */
  lemma {:induction false} PathMime(dir: string, toolId: string, id: string, ext: string)
    requires '/' !in toolId && '/' !in id && PlainExt(ext)
    ensures InferMime(dir + "/" + toolId + "_" + id + ext) == MimeOf(Lower(ext))
  {
    var stem := toolId + "_" + id;
    assert '/' !in stem + ext by {
      assert ext == [ext[0]] + ext[1..];
      assert stem + ext == toolId + "_" + id + [ext[0]] + ext[1..];
    }
    assert dir + "/" + toolId + "_" + id + ext == dir + "/" + (stem + ext);
    assert |stem + ext| >= 3;
    FileNameOf(dir, stem + ext);
    SuffixOf(stem, ext);
  }

  // ---------------------------------------------------------------- submission

  /** What submit_job is asked for. */
  datatype Request = Request(
    tool: string,
    prompt: string,
    outputPath: string,
    params: Option<Fields>,
    taskId: string,
    role: string,
    metadata: Option<Fields>)

  /** submit_job's result: the new job, or the error it raises. */
  datatype Submission =
    | Submitted(job: Job)
    | UnknownTool(tool: string)
    | UnparsableIds
    | EscapingPath(path: string)

  /** The configuration of a tool, when it is a JSON object. */
  function ToolConfig(tools: Fields, tool: string): Option<Fields> {
    match Get(tools, tool)
    case Some(JObj(f)) => Some(f)
    case _ => None
  }

  /** `s.strip() or None`. */
  function OptionalText(s: string): (r: Option<string>)
    ensures r.Some? ==> r.value != "" && r.value == Strip(s)
  {
    if Strip(s) == "" then None else Some(Strip(s))
  }

  /** `d or {}`. */
  function OrEmpty(d: Option<Fields>): Fields {
    if d.Some? then d.value else []
  }

  /** The output path submit_job stores: the given one stripped, else the default. */
  function RelOutput(req: Request, toolCfg: Fields, jobId: string): string {
    if Strip(req.outputPath) != "" then Strip(req.outputPath) else DefaultOutputPath(req.tool, toolCfg, jobId)
  }

  /** submit_job on a jobs list: the tool must be configured, the ids must parse and the output
      path must stay inside the project (`inside`); the new job is queued with no attempts. */
  function Submit(jobs: seq<Job>, tools: Fields, req: Request, inside: string -> bool, now: int): Submission {
    match ToolConfig(tools, req.tool)
    case None => UnknownTool(req.tool)
    case Some(cfg) =>
      match NextJobId(jobs)
      case None => UnparsableIds
      case Some(id) =>
        var path := RelOutput(req, cfg, id);
        if !inside(path) then EscapingPath(path)
        else Submitted(Job(Some(id), req.tool, Strip(req.prompt), OrEmpty(req.params), path, JobQueued,
                           now, now, None, None, 0, None, OptionalText(req.taskId), OptionalText(req.role),
                           OrEmpty(req.metadata)))
  }

  /** An unknown tool is refused first; an accepted job is queued with no attempts under a
      fresh id, at its given path or the tool's default path, which stays inside the project. */
  lemma {:induction false} SubmitFacts(jobs: seq<Job>, tools: Fields, req: Request, inside: string -> bool, now: int)
    ensures Submit(jobs, tools, req, inside, now).UnknownTool? <==> ToolConfig(tools, req.tool).None?
    ensures Submit(jobs, tools, req, inside, now).Submitted? <==>
              ToolConfig(tools, req.tool).Some? && NextJobId(jobs).Some? &&
              inside(RelOutput(req, ToolConfig(tools, req.tool).value, NextJobId(jobs).value))
    ensures var r := Submit(jobs, tools, req, inside, now);
            r.Submitted? ==>
              r.job.status == JobQueued && r.job.attempts == 0 && r.job.id == NextJobId(jobs) &&
              (forall i :: 0 <= i < |jobs| ==> jobs[i].id != r.job.id) &&
              r.job.outputPath == RelOutput(req, ToolConfig(tools, req.tool).value, r.job.id.value) &&
              inside(r.job.outputPath) && r.job.tool == req.tool
  {
    NextJobIdFresh(jobs);
  }

  // ---------------------------------------------------------------- processing

  /** What running a job reports: execute_job's flag and message, whether the output file
      exists, and its digest and size; or an exception. */
  datatype Execution =
    | Executed(ok: bool, message: string, outputExists: bool, sha256: string, bytes: nat)
    | Raised

  /** process_one_job's return: nothing queued, the job processed, or the job left running
      by an exception. */
  datatype Processing = NothingQueued | Processed(index: nat) | Crashed(index: nat)

  /** next_ready_job: the first job whose status is exactly "queued". */
  function NextReadyJob(jobs: seq<Job>): (r: Option<nat>)
    ensures r.Some? ==> r.value < |jobs| && jobs[r.value].status == JobQueued &&
                        forall k :: 0 <= k < r.value ==> jobs[k].status != JobQueued
    ensures r.None? ==> forall k :: 0 <= k < |jobs| ==> jobs[k].status != JobQueued
    decreases |jobs|
  {
    if |jobs| == 0 then None
    else if jobs[0].status == JobQueued then Some(0)
    else
      match NextReadyJob(jobs[1..])
      case None => None
      case Some(k) => Some(k + 1)
  }

  /** max(int(max_attempts), 1). */
  function MaxAttempts(configured: int): (r: int)
    ensures r >= 1 && r >= configured
  {
    Max(configured, 1)
  }

  /** The job once picked: running, one more attempt, no error. */
  function Picked(j: Job, now: int): Job {
    j.(status := JobRunning, startedAt := Some(now), updatedAt := now, attempts := j.attempts + 1, error := None)
  }

  /** execute_job fills in a blank output path with the default one of a configured tool. */
  function Prepared(j: Job, tools: Fields): Job
    requires j.id.Some?
  {
    match ToolConfig(tools, j.tool)
    case Some(cfg) =>
      if Strip(j.outputPath) == "" then j.(outputPath := DefaultOutputPath(j.tool, cfg, j.id.value)) else j
    case None => j
  }

  predicate Succeeded(e: Execution)
  {
    e.Executed? && e.ok && e.outputExists
  }

  /** The status a running job ends with: done on success, queued again while attempts are
      left, failed otherwise. */
  function Concluded(j: Job, e: Execution, maxAttempts: int, now: int): Job
    requires e.Executed?
  {
    if Succeeded(e) then j.(status := JobDone, finishedAt := Some(now), updatedAt := now, error := None)
    else if j.attempts < maxAttempts then j.(status := JobQueued, updatedAt := now, error := Some("Retrying: " + e.message))
    else j.(status := JobFailed, finishedAt := Some(now), updatedAt := now, error := Some(e.message))
  }

  /** The manifest entry of a finished job. */
  function ManifestEntry(j: Job, toolCfg: Fields, e: Execution, now: int): Asset
    requires e.Executed?
  {
    Asset(j.id, j.tool, GetOr(toolCfg, "model", JStr("")), GetOr(toolCfg, "license", JStr("unknown")), j.prompt,
          j.outputPath, InferMime(j.outputPath), e.sha256, e.bytes, now, j.taskId, j.role)
  }

  /** The assets that do not carry an id, in their order. */
  function OtherAssets(assets: seq<Asset>, id: Option<string>): (r: seq<Asset>)
    ensures |r| <= |assets|
  {
    if |assets| == 0 then []
    else
      var init := OtherAssets(assets[..|assets| - 1], id);
      if assets[|assets| - 1].assetId != id then init + [assets[|assets| - 1]] else init
  }

  /** The manifest with an entry put in place of any entry with its id. */
  function Upserted(assets: seq<Asset>, entry: Asset): (r: seq<Asset>)
    ensures |r| > 0
  {
    OtherAssets(assets, entry.assetId) + [entry]
  }

  /** The assets that carry an id, in their order. */
  function WithId(assets: seq<Asset>, id: Option<string>): seq<Asset> {
    if |assets| == 0 then []
    else
      var init := WithId(assets[..|assets| - 1], id);
      if assets[|assets| - 1].assetId == id then init + [assets[|assets| - 1]] else init
  }

  lemma {:induction false} OtherAssetsWithId(assets: seq<Asset>, id: Option<string>, x: Option<string>)
    ensures WithId(OtherAssets(assets, id), x) == if x == id then [] else WithId(assets, x)
    decreases |assets|
  {
    if |assets| > 0 {
      var init := assets[..|assets| - 1];
      OtherAssetsWithId(init, id, x);
      var o := OtherAssets(init, id);
      if assets[|assets| - 1].assetId != id {
        var o' := o + [assets[|assets| - 1]];
        assert o'[..|o'| - 1] == o;
      }
    }
  }

  /** After the upsert exactly one entry carries the id, and it is the last one; for every
      other id the entries carrying it are those of before, in their order. */
  lemma {:induction false} UpsertFacts(assets: seq<Asset>, entry: Asset)
    ensures var r := Upserted(assets, entry);
            r[|r| - 1] == entry && WithId(r, entry.assetId) == [entry] &&
            forall x :: x != entry.assetId ==> WithId(r, x) == WithId(assets, x)
  {
    var o := OtherAssets(assets, entry.assetId);
    var r := o + [entry];
    assert r[..|r| - 1] == o;
    OtherAssetsWithId(assets, entry.assetId, entry.assetId);
    forall x | x != entry.assetId
      ensures WithId(r, x) == WithId(assets, x)
    {
      OtherAssetsWithId(assets, entry.assetId, x);
    }
  }

  /** The positions of the assets that do not carry an id, in increasing order. */
  function OtherIndices(assets: seq<Asset>, id: Option<string>): seq<nat> {
    if |assets| == 0 then []
    else
      var init := OtherIndices(assets[..|assets| - 1], id);
      if assets[|assets| - 1].assetId != id then init + [|assets| - 1] else init
  }

  /** The kept assets are the subsequence of the others: the k-th kept asset is the asset at
      the k-th position of OtherIndices, those positions increase strictly, and every position
      whose asset carries another id is among them. */
  lemma {:induction false} OtherAssetsOrder(assets: seq<Asset>, id: Option<string>)
    ensures var o := OtherAssets(assets, id);
            var f := OtherIndices(assets, id);
            |f| == |o| &&
            (forall k :: 0 <= k < |f| ==> f[k] < |assets| && assets[f[k]].assetId != id && o[k] == assets[f[k]]) &&
            (forall k, l :: 0 <= k < l < |f| ==> f[k] < f[l]) &&
            (forall i :: 0 <= i < |assets| && assets[i].assetId != id ==> i in f)
    decreases |assets|
  {
    if |assets| > 0 {
      var n := |assets|;
      var init := assets[..n - 1];
      OtherAssetsOrder(init, id);
      var o0, f0 := OtherAssets(init, id), OtherIndices(init, id);
      var keep := assets[n - 1].assetId != id;
      var o := if keep then o0 + [assets[n - 1]] else o0;
      var f := if keep then f0 + [n - 1] else f0;
      assert OtherAssets(assets, id) == o && OtherIndices(assets, id) == f;
      forall k | 0 <= k < |f|
        ensures f[k] < n && assets[f[k]].assetId != id && o[k] == assets[f[k]]
      {
        if k < |f0| {
          assert f[k] == f0[k] && o[k] == o0[k] && init[f0[k]] == assets[f0[k]];
        }
      }
      forall k, l | 0 <= k < l < |f|
        ensures f[k] < f[l]
      {
        if l < |f0| {
          assert f[k] == f0[k] && f[l] == f0[l];
        } else {
          assert f[k] == f0[k] < n - 1;
        }
      }
      forall i | 0 <= i < n && assets[i].assetId != id
        ensures i in f
      {
        if i < n - 1 {
          assert init[i] == assets[i];
          assert i in f0;
        } else {
          assert f[|f| - 1] == i;
        }
      }
    }
  }

  /** The upsert keeps the other assets as an order-preserving subsequence: all of them, in
      their old relative order, ahead of the new entry. */
  lemma {:induction false} UpsertOrder(assets: seq<Asset>, entry: Asset)
    ensures var r := Upserted(assets, entry);
            var f := OtherIndices(assets, entry.assetId);
            |r| == |f| + 1 &&
            (forall k :: 0 <= k < |f| ==> f[k] < |assets| && r[k] == assets[f[k]]) &&
            (forall k, l :: 0 <= k < l < |f| ==> f[k] < f[l]) &&
            (forall i :: 0 <= i < |assets| && assets[i].assetId != entry.assetId ==> i in f)
  {
    OtherAssetsOrder(assets, entry.assetId);
  }

  /** process_one_job on a jobs list and a manifest: the first queued job is picked and saved
      as running; a missing id or an exception leaves it so; otherwise it ends done (its asset
      put into the manifest), queued again or failed. */
  function ProcessStep(jobs: seq<Job>, assets: seq<Asset>, maxAttempts: int, tools: Fields, e: Execution, now: int)
    : (Processing, seq<Job>, seq<Asset>)
  {
    match NextReadyJob(jobs)
    case None => (NothingQueued, jobs, assets)
    case Some(i) =>
      var p := Picked(jobs[i], now);
      if p.id.None? || e.Raised? then (Crashed(i), jobs[i := p], assets)
      else
        var q := Prepared(p, tools);
        var cfg := OrEmpty(ToolConfig(tools, q.tool));
        var assets' := if Succeeded(e) then Upserted(assets, ManifestEntry(q, cfg, e, now)) else assets;
        (Processed(i), jobs[i := Concluded(q, e, MaxAttempts(maxAttempts), now)], assets')
  }

  /** A processed job has one attempt more and is done exactly on success; it is queued again
      only while fewer than max(max_attempts, 1) attempts were made, and failed otherwise. No
      other job changes, and the manifest changes only on success. */
  lemma {:induction false} ProcessFacts(jobs: seq<Job>, assets: seq<Asset>, maxAttempts: int, tools: Fields,
                                        e: Execution, now: int)
    ensures var (r, jobs', assets') := ProcessStep(jobs, assets, maxAttempts, tools, e, now);
            |jobs'| == |jobs| &&
            (r == NothingQueued <==> NextReadyJob(jobs).None?) &&
            (r.Processed? || r.Crashed? ==>
               Some(r.index) == NextReadyJob(jobs) &&
               (forall k :: 0 <= k < |jobs| && k != r.index ==> jobs'[k] == jobs[k]) &&
               jobs'[r.index].attempts == jobs[r.index].attempts + 1 &&
               jobs'[r.index].id == jobs[r.index].id) &&
            (r.Crashed? ==> jobs'[r.index].status == JobRunning && assets' == assets) &&
            (r.Processed? ==>
               (jobs'[r.index].status == JobDone <==> Succeeded(e)) &&
               (jobs'[r.index].status == JobQueued <==>
                  !Succeeded(e) && jobs'[r.index].attempts < MaxAttempts(maxAttempts)) &&
               (jobs'[r.index].status == JobFailed <==>
                  !Succeeded(e) && jobs'[r.index].attempts >= MaxAttempts(maxAttempts)) &&
               (!Succeeded(e) ==> assets' == assets) &&
               (Succeeded(e) ==> assets'[|assets'| - 1].assetId == jobs[r.index].id))
  {
  }

  // ---------------------------------------------------------------- retry budget

  /** What a job still has to go through before it leaves the queue: the attempts left, at
      least one for a queued job, none for any other. */
  function Share(j: Job, maxAttempts: int): nat {
    if j.status != JobQueued then 0
    else if j.attempts < maxAttempts then maxAttempts - j.attempts
    else 1
  }

  function Budget(jobs: seq<Job>, maxAttempts: int): nat {
    if |jobs| == 0 then 0 else Budget(jobs[..|jobs| - 1], maxAttempts) + Share(jobs[|jobs| - 1], maxAttempts)
  }

  /** Changing one job changes the budget by the change of its share. */
  lemma {:induction false} BudgetUpdate(jobs: seq<Job>, i: nat, j: Job, maxAttempts: int)
    requires i < |jobs|
    ensures Budget(jobs[i := j], maxAttempts) + Share(jobs[i], maxAttempts) ==
            Budget(jobs, maxAttempts) + Share(j, maxAttempts)
    decreases |jobs|
  {
    var n := |jobs|;
    var jobs' := jobs[i := j];
    if i < n - 1 {
      assert jobs'[..n - 1] == jobs[..n - 1][i := j];
      BudgetUpdate(jobs[..n - 1], i, j, maxAttempts);
    } else {
      assert jobs'[..n - 1] == jobs[..n - 1];
    }
  }

  /** Every pass that picks a job shrinks the budget, so a worker that only processes reaches
      an empty queue: a job is queued again at most max(max_attempts, 1) times. */
  lemma {:induction false} ProcessShrinksBudget(jobs: seq<Job>, assets: seq<Asset>, maxAttempts: int, tools: Fields,
                                                e: Execution, now: int)
    ensures var (r, jobs', _) := ProcessStep(jobs, assets, maxAttempts, tools, e, now);
            r != NothingQueued ==> Budget(jobs', MaxAttempts(maxAttempts)) < Budget(jobs, MaxAttempts(maxAttempts))
  {
    var (r, jobs', _) := ProcessStep(jobs, assets, maxAttempts, tools, e, now);
    var m := MaxAttempts(maxAttempts);
    if r != NothingQueued {
      ProcessFacts(jobs, assets, maxAttempts, tools, e, now);
      var i := r.index;
      assert jobs' == jobs[i := jobs'[i]];
      BudgetUpdate(jobs, i, jobs'[i], m);
      assert Share(jobs'[i], m) < Share(jobs[i], m);
    }
  }

  /** run_worker with loop off, as a value: from `ran` jobs processed, process_one_job is run
      with the execution numbered `ran` until none is queued, an exception is raised, or
      max_jobs (when positive) were processed. Gives the count, whether it crashed, and the
      jobs and manifest left. */
  function WorkerRun(jobs: seq<Job>, assets: seq<Asset>, maxJobs: int, maxAttempts: int, tools: Fields,
                     execs: nat -> Execution, ran: nat, now: int): (nat, bool, seq<Job>, seq<Asset>)
    decreases Budget(jobs, MaxAttempts(maxAttempts))
  {
    if maxJobs > 0 && ran >= maxJobs then (ran, false, jobs, assets)
    else
      var step := ProcessStep(jobs, assets, maxAttempts, tools, execs(ran), now);
      if step.0.NothingQueued? then (ran, false, step.1, step.2)
      else if step.0.Crashed? then (ran, true, step.1, step.2)
      else
        ProcessShrinksBudget(jobs, assets, maxAttempts, tools, execs(ran), now);
        WorkerRun(step.1, step.2, maxJobs, maxAttempts, tools, execs, ran + 1, now)
  }

  /** What a worker run promises, of its result: it processes at most as many jobs as the
      retry budget allows and never more than max_jobs; when it stops neither on an exception
      nor on max_jobs, no job is left queued; and no job is added or removed. */
  predicate WorkerFacts(jobs: seq<Job>, maxJobs: int, maxAttempts: int, ran: nat, res: (nat, bool, seq<Job>, seq<Asset>)) {
    ran <= res.0 <= ran + Budget(jobs, MaxAttempts(maxAttempts)) &&
    (maxJobs > 0 ==> res.0 <= maxJobs) &&
    (!res.1 && (maxJobs <= 0 || res.0 < maxJobs) ==> NextReadyJob(res.2).None?) &&
    |res.2| == |jobs|
  }

  /** Every worker run keeps WorkerFacts. */
  lemma {:induction false} WorkerRunFacts(jobs: seq<Job>, assets: seq<Asset>, maxJobs: int, maxAttempts: int,
                                          tools: Fields, execs: nat -> Execution, ran: nat, now: int)
    requires maxJobs > 0 ==> ran <= maxJobs
    ensures WorkerFacts(jobs, maxJobs, maxAttempts, ran, WorkerRun(jobs, assets, maxJobs, maxAttempts, tools, execs, ran, now))
    decreases Budget(jobs, MaxAttempts(maxAttempts)), 1
  {
    if !(maxJobs > 0 && ran >= maxJobs) {
      var r, jobs', assets' := WorkerStep(jobs, assets, maxJobs, maxAttempts, tools, execs, ran, now);
      WorkerEffectAfter(jobs, assets, maxJobs, maxAttempts, tools, execs, ran, now, r, jobs', assets');
    }
  }

  /** What one processing step guarantees of the jobs it leaves: their count is kept; nothing
      is processed exactly when no job is queued, and then nothing changes; a processed job
      shrinks the retry budget. */
  predicate StepFacts(jobs: seq<Job>, maxAttempts: int, r: Processing, jobs': seq<Job>) {
    |jobs'| == |jobs| && (r.NothingQueued? <==> NextReadyJob(jobs).None?) && (r.NothingQueued? ==> jobs' == jobs) &&
    (r.Processed? ==> Budget(jobs', MaxAttempts(maxAttempts)) < Budget(jobs, MaxAttempts(maxAttempts)))
  }

  /** A worker pass with StepFacts, followed by the run from the state it left, keeps
      WorkerFacts from the start. */
  lemma {:induction false} WorkerEffectAfter(jobs: seq<Job>, assets: seq<Asset>, maxJobs: int, maxAttempts: int,
                                             tools: Fields, execs: nat -> Execution, ran: nat, now: int,
                                             r: Processing, jobs': seq<Job>, assets': seq<Asset>)
    requires maxJobs > 0 ==> ran < maxJobs
    requires StepFacts(jobs, maxAttempts, r, jobs')
    ensures r.NothingQueued? ==> WorkerFacts(jobs, maxJobs, maxAttempts, ran, (ran, false, jobs', assets'))
    ensures r.Crashed? ==> WorkerFacts(jobs, maxJobs, maxAttempts, ran, (ran, true, jobs', assets'))
    ensures r.Processed? ==>
            WorkerFacts(jobs, maxJobs, maxAttempts, ran, WorkerRun(jobs', assets', maxJobs, maxAttempts, tools, execs, ran + 1, now))
    decreases Budget(jobs, MaxAttempts(maxAttempts)), 0
  {
    var m := MaxAttempts(maxAttempts);
    if r.Processed? {
      WorkerRunFacts(jobs', assets', maxJobs, maxAttempts, tools, execs, ran + 1, now);
      var res := WorkerRun(jobs', assets', maxJobs, maxAttempts, tools, execs, ran + 1, now);
      assert WorkerFacts(jobs', maxJobs, maxAttempts, ran + 1, res);
      assert res.0 <= ran + 1 + Budget(jobs', m) <= ran + Budget(jobs, m);
    } else {
      assert jobs' == jobs || r.Crashed?;
    }
  }

  /** One pass of the worker, returned as values: it keeps StepFacts, and the run is that pass
      followed by the run from the state it left. */
  lemma {:induction false} WorkerStep(jobs: seq<Job>, assets: seq<Asset>, maxJobs: int, maxAttempts: int,
                                      tools: Fields, execs: nat -> Execution, ran: nat, now: int)
    returns (r: Processing, jobs': seq<Job>, assets': seq<Asset>)
    requires !(maxJobs > 0 && ran >= maxJobs)
    ensures StepFacts(jobs, maxAttempts, r, jobs')
    ensures r.NothingQueued? ==> WorkerRun(jobs, assets, maxJobs, maxAttempts, tools, execs, ran, now) == (ran, false, jobs', assets')
    ensures r.Crashed? ==> WorkerRun(jobs, assets, maxJobs, maxAttempts, tools, execs, ran, now) == (ran, true, jobs', assets')
    ensures r.Processed? ==>
            WorkerRun(jobs, assets, maxJobs, maxAttempts, tools, execs, ran, now) ==
            WorkerRun(jobs', assets', maxJobs, maxAttempts, tools, execs, ran + 1, now)
  {
    var step := ProcessStep(jobs, assets, maxAttempts, tools, execs(ran), now);
    r, jobs', assets' := step.0, step.1, step.2;
    ProcessStepShape(jobs, assets, maxAttempts, tools, execs(ran), now);
    ProcessShrinksBudget(jobs, assets, maxAttempts, tools, execs(ran), now);
  }

  /** The shape of one processing step: the job count is kept, and nothing is processed
      exactly when no job is queued, in which case nothing changes. */
  lemma {:induction false} ProcessStepShape(jobs: seq<Job>, assets: seq<Asset>, maxAttempts: int, tools: Fields,
                                            e: Execution, now: int)
    ensures var step := ProcessStep(jobs, assets, maxAttempts, tools, e, now);
            |step.1| == |jobs| &&
            (step.0.NothingQueued? <==> NextReadyJob(jobs).None?) &&
            (step.0.NothingQueued? ==> step.1 == jobs)
  {
  }

  // ---------------------------------------------------------------- the status partition

  /** Every job carries one of the four statuses. */
  predicate KnownStatuses(jobs: seq<Job>) {
    forall k :: 0 <= k < |jobs| ==> jobs[k].status in {JobQueued, JobRunning, JobDone, JobFailed}
  }

  /** Replacing one job by a job with a known status keeps the partition. */
  lemma {:induction false} KnownUpdate(jobs: seq<Job>, i: nat, j: Job)
    requires i < |jobs| && KnownStatuses(jobs) && j.status in {JobQueued, JobRunning, JobDone, JobFailed}
    ensures KnownStatuses(jobs[i := j])
  {
  }

  /** The number of jobs whose stripped status is `name`. */
  function CountStatus(jobs: seq<Job>, name: string): nat {
    if |jobs| == 0 then 0
    else CountStatus(jobs[..|jobs| - 1], name) + (if Strip(jobs[|jobs| - 1].status) == name then 1 else 0)
  }

  /** jobs_summary's counts. */
  datatype Summary = Summary(queued: nat, running: nat, done: nat, failed: nat)

  function Total(s: Summary): nat {
    s.queued + s.running + s.done + s.failed
  }

  function SummaryOf(jobs: seq<Job>): Summary {
    Summary(CountStatus(jobs, JobQueued), CountStatus(jobs, JobRunning), CountStatus(jobs, JobDone),
            CountStatus(jobs, JobFailed))
  }

  /** The counts never exceed the number of jobs, and add up to it exactly when every job's
      stripped status is one of the four. */
  lemma {:induction false} SummaryTotal(jobs: seq<Job>)
    ensures Total(SummaryOf(jobs)) <= |jobs|
    ensures Total(SummaryOf(jobs)) == |jobs| <==>
              forall k :: 0 <= k < |jobs| ==> Strip(jobs[k].status) in {JobQueued, JobRunning, JobDone, JobFailed}
    decreases |jobs|
  {
    if |jobs| > 0 {
      var init := jobs[..|jobs| - 1];
      SummaryTotal(init);
      assert forall k :: 0 <= k < |init| ==> init[k] == jobs[k];
      if Strip(jobs[|jobs| - 1].status) !in {JobQueued, JobRunning, JobDone, JobFailed} {
        assert Total(SummaryOf(jobs)) == Total(SummaryOf(init));
      }
    }
  }

  /** The four statuses are their own strip(), so a summary of known statuses covers every
      job. */
  lemma {:induction false} KnownStatusesCounted(jobs: seq<Job>)
    requires KnownStatuses(jobs)
    ensures Total(SummaryOf(jobs)) == |jobs|
  {
    assert IsStripped(JobQueued) && IsStripped(JobRunning) && IsStripped(JobDone) && IsStripped(JobFailed);
    SummaryTotal(jobs);
  }

  /** jobs_summary. */
  method JobsSummary(jobs: seq<Job>) returns (r: Summary)
    ensures r == SummaryOf(jobs)
  {
    r := Summary(0, 0, 0, 0);
    var k := 0;
    while k < |jobs|
      invariant k <= |jobs|
      invariant r == SummaryOf(jobs[..k])
    {
      var status := Strip(jobs[k].status);
      assert jobs[..k + 1][..k] == jobs[..k];
      if status == JobQueued {
        r := r.(queued := r.queued + 1);
      } else if status == JobRunning {
        r := r.(running := r.running + 1);
      } else if status == JobDone {
        r := r.(done := r.done + 1);
      } else if status == JobFailed {
        r := r.(failed := r.failed + 1);
      }
      k := k + 1;
    }
    assert jobs[..k] == jobs;
  }

  // ---------------------------------------------------------------- parse_kv_params

  /** One entry: without "=" the whole entry maps to True; otherwise it is split at the first
      "=" and both sides are stripped. */
  function KvEntry(entry: string): (string, Json) {
    match IndexOfChar(entry, '=')
    case None => (entry, JBool(true))
    case Some(i) => (Strip(entry[..i]), JStr(Strip(entry[i + 1..])))
  }

  function KvParams(raw: seq<string>): Fields {
    if |raw| == 0 then []
    else
      var (key, value) := KvEntry(raw[|raw| - 1]);
      Put(KvParams(raw[..|raw| - 1]), key, value)
  }

  /** parse_kv_params. */
  method ParseKvParams(raw: seq<string>) returns (parsed: Fields)
    ensures parsed == KvParams(raw)
  {
    parsed := [];
    var k := 0;
    while k < |raw|
      invariant k <= |raw|
      invariant parsed == KvParams(raw[..k])
    {
      var entry := raw[k];
      assert raw[..k + 1][..k] == raw[..k];
      var eq := IndexOfChar(entry, '=');
      if eq.None? {
        parsed := Put(parsed, entry, JBool(true));
      } else {
        parsed := Put(parsed, Strip(entry[..eq.value]), JStr(Strip(entry[eq.value + 1..])));
      }
      k := k + 1;
    }
    assert raw[..k] == raw;
  }

  /** The keys of the entries, in their order. */
  function KvKeys(raw: seq<string>): (r: seq<string>)
    ensures |r| == |raw| && forall i :: 0 <= i < |raw| ==> r[i] == KvEntry(raw[i]).0
  {
    seq(|raw|, i requires 0 <= i < |raw| => KvEntry(raw[i]).0)
  }

  /** The last index holding `key`. */
  function LastIndex(keys: seq<string>, key: string): (r: Option<nat>)
    ensures r.Some? ==> r.value < |keys|
  {
    if |keys| == 0 then None
    else if keys[|keys| - 1] == key then Some(|keys| - 1)
    else LastIndex(keys[..|keys| - 1], key)
  }

  /** LastIndex names an index holding the key with none after it, and None only when there
      is none. */
  lemma {:induction false} LastIndexFacts(keys: seq<string>, key: string)
    ensures var r := LastIndex(keys, key);
            (r.Some? ==> keys[r.value] == key && forall j :: r.value < j < |keys| ==> keys[j] != key) &&
            (r.None? ==> key !in keys)
    decreases |keys|
  {
    if |keys| > 0 && keys[|keys| - 1] != key {
      var init := keys[..|keys| - 1];
      LastIndexFacts(init, key);
      assert keys == init + [keys[|keys| - 1]];
    }
  }

  /** A key is bound to the value of the last entry naming it (see LastIndexFacts), and
      unbound when no entry names it. */
  lemma {:induction false} KvLookup(raw: seq<string>, key: string)
    ensures Get(KvParams(raw), key) == match LastIndex(KvKeys(raw), key)
                                       case None => None
                                       case Some(i) => Some(KvEntry(raw[i]).1)
    decreases |raw|
  {
    if |raw| > 0 {
      var n := |raw|;
      var init := raw[..n - 1];
      var (k, v) := KvEntry(raw[n - 1]);
      PutGet(KvParams(init), k, v, key);
      assert KvKeys(raw) == KvKeys(init) + [k];
      assert KvKeys(raw)[..n - 1] == KvKeys(init);
      if k != key {
        KvLookup(init, key);
        match LastIndex(KvKeys(init), key)
        case None =>
        case Some(i) => assert init[i] == raw[i];
      }
    }
  }

  /** key=value reads back as (key, value) when the key has no "=" and neither side has
      surrounding whitespace; an entry without "=" is a flag set to True. */
  lemma {:induction false} KvRoundTrip(key: string, value: string)
    requires '=' !in key && IsStripped(key) && IsStripped(value)
    ensures KvEntry(key + "=" + value) == (key, JStr(value))
    ensures '=' !in value ==> KvEntry(value) == (value, JBool(true))
  {
    var s := key + "=" + value;
    assert s[|key|] == '=';
    assert s[..|key|] == key;
    assert s[|key| + 1..] == value;
    var i := IndexOfChar(s, '=');
    assert i.Some?;
  }

  // ---------------------------------------------------------------- the stores

  /** The jobs file and the asset manifest. */
  class JobStore {
    var jobs: seq<Job>
    var assets: seq<Asset>

    /** Both files absent: no jobs and an empty manifest. */
    constructor ()
      ensures jobs == [] && assets == []
    {
      jobs := [];
      assets := [];
    }

    /** submit_job: the job appended on success, nothing changed on an error. */
    method SubmitJob(tools: Fields, req: Request, inside: string -> bool, now: int) returns (r: Submission)
      modifies this
      ensures r == Submit(old(jobs), tools, req, inside, now)
      ensures jobs == if r.Submitted? then old(jobs) + [r.job] else old(jobs)
      ensures KnownStatuses(old(jobs)) ==> KnownStatuses(jobs)
      ensures assets == old(assets)
    {
      r := Submit(jobs, tools, req, inside, now);
      if r.Submitted? {
        SubmitFacts(jobs, tools, req, inside, now);
        jobs := jobs + [r.job];
      }
    }

    /** append_manifest_asset: any entry with the job's id replaced by a new last entry. */
    method AppendManifestAsset(job: Job, toolCfg: Fields, e: Execution, now: int)
      requires e.Executed?
      modifies this
      ensures assets == Upserted(old(assets), ManifestEntry(job, toolCfg, e, now))
      ensures jobs == old(jobs)
    {
      var entry := ManifestEntry(job, toolCfg, e, now);
      assets := OtherAssets(assets, job.id) + [entry];
    }

    /** process_one_job, with execute_job and the output check given as `e`. */
    method ProcessOneJob(maxAttempts: int, tools: Fields, e: Execution, now: int) returns (r: Processing)
      modifies this
      ensures (r, jobs, assets) == ProcessStep(old(jobs), old(assets), maxAttempts, tools, e, now)
      ensures KnownStatuses(old(jobs)) ==> KnownStatuses(jobs)
    {
      var found := NextReadyJob(jobs);
      if found.None? {
        return NothingQueued;
      }
      var i := found.value;
      ghost var before := jobs;
      var job := Picked(jobs[i], now);
      jobs := jobs[i := job];
      if KnownStatuses(before) {
        KnownUpdate(before, i, job);
      }
      if job.id.None? || e.Raised? {
        return Crashed(i);
      }
      job := Prepared(job, tools);
      jobs := jobs[i := job];
      if Succeeded(e) {
        AppendManifestAsset(job, OrEmpty(ToolConfig(tools, job.tool)), e, now);
      }
      var fin := Concluded(job, e, MaxAttempts(maxAttempts), now);
      jobs := jobs[i := fin];
      assert jobs == before[i := fin];
      if KnownStatuses(before) {
        KnownUpdate(before, i, fin);
      }
      r := Processed(i);
    }

    /** cancel_job: the first job with the id, when queued, becomes failed. */
    method CancelJob(jobId: string, now: int) returns (cancelled: bool)
      modifies this
      ensures var f := FindJob(old(jobs), jobId);
              (cancelled <==> f.Some? && old(jobs)[f.value].status == JobQueued) &&
              (cancelled ==> jobs == old(jobs)[f.value := Cancelled(old(jobs)[f.value], now)])
      ensures !cancelled ==> jobs == old(jobs)
      ensures KnownStatuses(old(jobs)) ==> KnownStatuses(jobs)
      ensures assets == old(assets)
    {
      var k := 0;
      while k < |jobs|
        invariant k <= |jobs|
        invariant forall m :: 0 <= m < k ==> jobs[m].id != Some(jobId)
      {
        if jobs[k].id == Some(jobId) {
          FindJobAt(jobs, jobId, k);
          if jobs[k].status != JobQueued {
            return false;
          }
          jobs := jobs[k := Cancelled(jobs[k], now)];
          return true;
        }
        k := k + 1;
      }
      FindJobNone(jobs, jobId);
      cancelled := false;
    }

    /** run_worker with loop off: jobs are processed until none is queued or max_jobs (when
      positive) were processed; an exception ends the worker. The retry budget bounds the
      number of jobs processed. */
    method RunWorker(maxJobs: int, maxAttempts: int, tools: Fields, execs: nat -> Execution, now: int)
      returns (executed: nat, crashed: bool)
      modifies this
      ensures maxJobs > 0 ==> executed <= maxJobs
      ensures !crashed && (maxJobs <= 0 || executed < maxJobs) ==> NextReadyJob(jobs).None?
      ensures executed <= Budget(old(jobs), MaxAttempts(maxAttempts))
      ensures KnownStatuses(old(jobs)) ==> KnownStatuses(jobs)
      ensures (executed, crashed, jobs, assets) ==
              WorkerRun(old(jobs), old(assets), maxJobs, maxAttempts, tools, execs, 0, now)
    {
      executed, crashed := 0, false;
      ghost var m := MaxAttempts(maxAttempts);
      while !(maxJobs > 0 && executed >= maxJobs)
        invariant maxJobs > 0 ==> executed <= maxJobs
        invariant executed + Budget(jobs, m) <= Budget(old(jobs), m)
        invariant KnownStatuses(old(jobs)) ==> KnownStatuses(jobs)
        invariant WorkerRun(jobs, assets, maxJobs, maxAttempts, tools, execs, executed, now) ==
                  WorkerRun(old(jobs), old(assets), maxJobs, maxAttempts, tools, execs, 0, now)
        decreases Budget(jobs, m)
      {
        ghost var before := jobs;
        ProcessShrinksBudget(jobs, assets, maxAttempts, tools, execs(executed), now);
        var r := ProcessOneJob(maxAttempts, tools, execs(executed), now);
        if r.NothingQueued? {
          ProcessFacts(before, old(assets), maxAttempts, tools, execs(executed), now);
          return;
        }
        if r.Crashed? {
          return executed, true;
        }
        executed := executed + 1;
      }
    }
  }

  /** The first job carrying an id. */
  function FindJob(jobs: seq<Job>, id: string): (r: Option<nat>)
    ensures r.Some? ==> r.value < |jobs| && jobs[r.value].id == Some(id) &&
                        forall k :: 0 <= k < r.value ==> jobs[k].id != Some(id)
    ensures r.None? ==> forall k :: 0 <= k < |jobs| ==> jobs[k].id != Some(id)
    decreases |jobs|
  {
    if |jobs| == 0 then None
    else if jobs[0].id == Some(id) then Some(0)
    else
      match FindJob(jobs[1..], id)
      case None => None
      case Some(k) => Some(k + 1)
  }

  lemma {:induction false} FindJobAt(jobs: seq<Job>, id: string, k: nat)
    requires k < |jobs| && jobs[k].id == Some(id)
    requires forall m :: 0 <= m < k ==> jobs[m].id != Some(id)
    ensures FindJob(jobs, id) == Some(k)
  {
  }

  lemma {:induction false} FindJobNone(jobs: seq<Job>, id: string)
    requires forall m :: 0 <= m < |jobs| ==> jobs[m].id != Some(id)
    ensures FindJob(jobs, id).None?
  {
  }

  /** A cancelled job: failed by the user, with its id, tool, attempts and output path kept,
      so it is never picked again and no longer counts against the retry budget. */
  function Cancelled(j: Job, now: int): (r: Job)
    ensures r.status == JobFailed && r.error.Some?
    ensures r.id == j.id && r.tool == j.tool && r.attempts == j.attempts && r.outputPath == j.outputPath
    ensures forall m :: Share(r, m) == 0
  {
    j.(status := JobFailed, error := Some("Cancelled by user"), finishedAt := Some(now), updatedAt := now)
  }
}
