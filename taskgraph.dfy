// The task graph of the orchestrator's state document: tasks, role sessions, pipelines and
// debates as values, with the read-only rules over them (id allocation, dependency gating,
// deferral, session reuse, status aggregation and the handoff context).

module TaskGraph {
  import opened Text
  import opened JsonValue

  // ---------------------------------------------------------------- entities

  /** The four statuses a task moves through. */
  datatype Status = Queued | Running | Done | Failed

  /** A dict entry that may be missing, hold None, or hold a string. */
  datatype Slot = Absent | Null | Str(s: string)

  /** str(d.get(key, "")) */
  function SlotText(x: Slot): string {
    match x
    case Absent => ""
    case Null => "None"
    case Str(s) => s
  }

  /** Python truthiness of the slot's value. */
  predicate SlotTruthy(x: Slot) {
    x.Str? && x.s != ""
  }

  datatype Activity = Idle | Busy

  /** The per-role session record kept under state["roles"]. */
  datatype RoleState = RoleState(
    sessionId: Slot,
    sessionBackend: Slot,
    sessionModel: Slot,
    activity: Activity,
    lastActiveAt: Option<int>,
    tasksCompleted: int)

  /** The record a role gets when it first appears. */
  const FreshRole := RoleState(Null, Null, Null, Idle, None, 0)

  /** One task. Timestamps are integer seconds; `metadata` is None when the key is missing. */
  datatype Task = Task(
    id: string,
    role: string,
    title: string,
    description: string,
    status: Status,
    createdAt: int,
    updatedAt: int,
    startedAt: Option<int>,
    finishedAt: Option<int>,
    sessionId: Slot,
    outputPath: Option<string>,
    error: Option<string>,
    metadata: Option<Fields>)

  /** task.get("metadata") or {} */
  function Metadata(t: Task): Fields {
    match t.metadata
    case Some(m) => m
    case None => []
  }

  /** The status a pipeline or debate is given by aggregation. */
  datatype GroupStatus = GroupQueued | GroupRunning | GroupInProgress | GroupDone | GroupFailed

  datatype Pipeline = Pipeline(
    id: string,
    title: string,
    brief: string,
    roles: seq<string>,
    taskIds: seq<string>,
    status: GroupStatus,
    createdAt: int,
    updatedAt: int,
    lastError: Option<string>)

  datatype Debate = Debate(
    id: string,
    title: string,
    topic: string,
    roles: seq<string>,
    moderator: string,
    participantTaskIds: seq<string>,
    moderatorTaskId: string,
    taskIds: seq<string>,
    status: GroupStatus,
    createdAt: int,
    updatedAt: int,
    lastError: Option<string>)

  // ---------------------------------------------------------------- id allocation

  /** int(id.split("-")[1]); None where Python raises (no second piece, or not an integer). */
  function IdNumber(id: string): (r: Option<int>)
    ensures r.Some? ==> r.value >= 0
  {
    var parts := Split(id, '-');
    SplitPartsExclude(id, '-');
    if |parts| < 2 then None
    else
      ParseIntUnsigned(parts[1]);
      ParseInt(parts[1])
  }

  predicate AllNumbered(ids: seq<string>) {
    forall i :: 0 <= i < |ids| ==> IdNumber(ids[i]).Some?
  }

  function IdNumbers(ids: seq<string>): (r: seq<Option<int>>)
    ensures |r| == |ids|
  {
    seq(|ids|, i requires 0 <= i < |ids| => IdNumber(ids[i]))
  }

  /** max() over parsed numbers, None as soon as one of them failed to parse. */
  function MaxParsed(xs: seq<Option<int>>): Option<int>
    requires |xs| > 0
  {
    if |xs| == 1 then xs[0]
    else
      var rest := MaxParsed(xs[1..]);
      if xs[0].None? || rest.None? then None
      else if xs[0].value >= rest.value then xs[0]
      else rest
  }

  /** The maximum is defined exactly when every number parsed, bounds them all and is one of them. */
  lemma {:induction false} MaxParsedFacts(xs: seq<Option<int>>)
    requires |xs| > 0
    ensures MaxParsed(xs).Some? <==> forall i :: 0 <= i < |xs| ==> xs[i].Some?
    ensures MaxParsed(xs).Some? ==> forall i :: 0 <= i < |xs| ==> xs[i].value <= MaxParsed(xs).value
    ensures MaxParsed(xs).Some? ==> exists i :: 0 <= i < |xs| && xs[i] == MaxParsed(xs)
    decreases |xs|
  {
    if |xs| > 1 {
      MaxParsedFacts(xs[1..]);
      assert forall i :: 1 <= i < |xs| ==> xs[1..][i - 1] == xs[i];
    }
  }

  /** max(int(x.split("-")[1]) for x in ids), None where one of them raises. */
  function MaxIdNumber(ids: seq<string>): Option<int>
    requires |ids| > 0
  {
    MaxParsed(IdNumbers(ids))
  }

  lemma {:induction false} MaxIdNumberFacts(ids: seq<string>)
    requires |ids| > 0
    ensures MaxIdNumber(ids).Some? <==> AllNumbered(ids)
    ensures MaxIdNumber(ids).Some? ==> forall i :: 0 <= i < |ids| ==> IdNumber(ids[i]).value <= MaxIdNumber(ids).value
    ensures MaxIdNumber(ids).Some? ==> exists i :: 0 <= i < |ids| && IdNumber(ids[i]) == MaxIdNumber(ids)
  {
    var nums := IdNumbers(ids);
    assert forall i :: 0 <= i < |ids| ==> nums[i] == IdNumber(ids[i]);
    MaxParsedFacts(nums);
  }

  /** f"{prefix}-{n:04d}" */
  function FormatId(prefix: string, n: nat): string {
    prefix + "-" + Pad4(n)
  }

  /** The number the next allocated id carries: 1 for an empty list, otherwise one more than
      the largest number in use; None where Python raises. */
  function NextNumber(ids: seq<string>): (r: Option<nat>)
    ensures r.Some? <==> AllNumbered(ids)
  {
    if |ids| == 0 then Some(1)
    else
      MaxIdNumberFacts(ids);
      match MaxIdNumber(ids)
      case None => None
      case Some(m) => Some(m + 1)
  }

  /** next_task_id / next_pipeline_id / next_debate_id. */
  function NextId(prefix: string, ids: seq<string>): (r: Option<string>)
    ensures r.Some? <==> AllNumbered(ids)
  {
    match NextNumber(ids)
    case None => None
    case Some(n) => Some(FormatId(prefix, n))
  }

  /** The number of a formatted id reads back. */
  lemma {:induction false} FormatIdNumber(prefix: string, n: nat)
    requires '-' !in prefix
    ensures IdNumber(FormatId(prefix, n)) == Some(n)
  {
    Pad4Parses(n);
    SplitAtFirst(prefix, '-', Pad4(n));
    SplitNoSeparator(Pad4(n), '-');
    assert FormatId(prefix, n) == prefix + ['-'] + Pad4(n);
  }

  /** The number a newly allocated id carries is the one NextNumber names. */
  lemma {:induction false} NextIdNumber(prefix: string, ids: seq<string>)
    requires '-' !in prefix && AllNumbered(ids)
    ensures NextId(prefix, ids).Some?
    ensures IdNumber(NextId(prefix, ids).value) == NextNumber(ids)
    ensures forall i :: 0 <= i < |ids| ==> IdNumber(ids[i]).value < NextNumber(ids).value
  {
    FormatIdNumber(prefix, NextNumber(ids).value);
    if |ids| > 0 {
      MaxIdNumberFacts(ids);
    }
  }

  /** Allocating an id moves the counter on by exactly one. */
  lemma {:induction false} NextNumberStep(prefix: string, ids: seq<string>)
    requires '-' !in prefix && AllNumbered(ids)
    ensures NextNumber(ids + [FormatId(prefix, NextNumber(ids).value)]) == Some(NextNumber(ids).value + 1)
  {
    var n := NextNumber(ids).value;
    var r := FormatId(prefix, n);
    NextIdNumber(prefix, ids);
    var xs := ids + [r];
    var nums := IdNumbers(ids);
    assert IdNumbers(xs) == nums + [Some(n)];
    MaxParsedTop(nums, n);
  }

  /** A new largest number becomes the maximum. */
  lemma {:induction false} MaxParsedTop(xs: seq<Option<int>>, v: int)
    requires forall i :: 0 <= i < |xs| ==> xs[i].Some? && xs[i].value < v
    ensures MaxParsed(xs + [Some(v)]) == Some(v)
  {
    var ys := xs + [Some(v)];
    assert ys[|xs|] == Some(v);
    assert forall i :: 0 <= i < |xs| ==> ys[i] == xs[i];
    var r := MaxParsed(ys);
    MaxParsedFacts(ys);
    var i :| 0 <= i < |ys| && ys[i] == r;
  }

  /** The ids k successive allocations hand out, starting at number `first`. */
  function Consecutive(prefix: string, first: nat, k: nat): (r: seq<string>)
    ensures |r| == k
  {
    seq(k, a requires 0 <= a < k => FormatId(prefix, first + a))
  }

  lemma {:induction false} ConsecutiveExtend(prefix: string, first: nat, k: nat)
    ensures Consecutive(prefix, first, k + 1) == Consecutive(prefix, first, k) + [FormatId(prefix, first + k)]
  {
    assert forall a :: 0 <= a < k ==> Consecutive(prefix, first, k + 1)[a] == Consecutive(prefix, first, k)[a];
  }

  /** The i-th of k successive allocations carries number first + i. */
  lemma {:induction false} ConsecutiveNumbers(prefix: string, first: nat, k: nat)
    requires '-' !in prefix
    ensures forall a :: 0 <= a < k ==> IdNumber(Consecutive(prefix, first, k)[a]) == Some(first + a)
  {
    forall a | 0 <= a < k
      ensures IdNumber(Consecutive(prefix, first, k)[a]) == Some(first + a)
    {
      var id := FormatId(prefix, first + a);
      assert Consecutive(prefix, first, k)[a] == id;
      FormatIdNumber(prefix, first + a);
    }
  }

  /** Ids allocated one after another from a numbered list are pairwise distinct and none of
      them was in use, and the list stays numbered once they are added. */
  lemma {:induction false} ConsecutiveFresh(prefix: string, ids: seq<string>, k: nat)
    requires '-' !in prefix && AllNumbered(ids)
    ensures var c := Consecutive(prefix, NextNumber(ids).value, k);
            (forall a :: 0 <= a < k ==> c[a] !in ids) &&
            (forall a, b :: 0 <= a < b < k ==> c[a] != c[b]) &&
            AllNumbered(ids + c)
  {
    var first := NextNumber(ids).value;
    var c := Consecutive(prefix, first, k);
    NextIdNumber(prefix, ids);
    ConsecutiveNumbers(prefix, first, k);
    forall a, j | 0 <= a < k && 0 <= j < |ids|
      ensures c[a] != ids[j]
    {
      assert IdNumber(ids[j]).value < first;
    }
    forall a, b | 0 <= a < b < k
      ensures c[a] != c[b]
    {
      assert IdNumber(c[a]) != IdNumber(c[b]);
    }
    var xs := ids + c;
    forall i | 0 <= i < |xs|
      ensures IdNumber(xs[i]).Some?
    {
      if i < |ids| {
        assert xs[i] == ids[i];
      } else {
        assert xs[i] == c[i - |ids|];
      }
    }
  }

  /** A newly allocated id carries a number above every number in use, so it is not in use,
      and the list stays numbered once it is added. */
  lemma {:induction false} NextIdFresh(prefix: string, ids: seq<string>)
    requires '-' !in prefix && AllNumbered(ids)
    ensures NextId(prefix, ids).Some?
    ensures IdNumber(NextId(prefix, ids).value).Some?
    ensures forall i :: 0 <= i < |ids| ==>
              IdNumber(ids[i]).value < IdNumber(NextId(prefix, ids).value).value
    ensures NextId(prefix, ids).value !in ids
    ensures AllNumbered(ids + [NextId(prefix, ids).value])
  {
    NextIdNumber(prefix, ids);
    AboveAll(ids, NextId(prefix, ids).value);
  }

  lemma {:induction false} AboveAll(ids: seq<string>, r: string)
    requires AllNumbered(ids) && IdNumber(r).Some?
    requires forall i :: 0 <= i < |ids| ==> IdNumber(ids[i]).value < IdNumber(r).value
    ensures r !in ids && AllNumbered(ids + [r])
  {
    var xs := ids + [r];
    assert forall i :: 0 <= i < |ids| ==> xs[i] == ids[i];
    assert xs[|ids|] == r;
  }

  /** With no ids yet, every prefix starts at number 0001. */
  lemma {:induction false} FirstIds(prefix: string)
    ensures NextId(prefix, []) == Some(prefix + "-0001")
  {
    Pad4One();
    assert NextNumber([]) == Some(1);
    assert FormatId(prefix, 1) == prefix + "-" + "0001";
    assert prefix + "-" + "0001" == prefix + "-0001";
  }

  function TaskIds(tasks: seq<Task>): (r: seq<string>)
    ensures |r| == |tasks| && forall i :: 0 <= i < |tasks| ==> r[i] == tasks[i].id
  {
    seq(|tasks|, i requires 0 <= i < |tasks| => tasks[i].id)
  }

  function PipelineIds(ps: seq<Pipeline>): (r: seq<string>)
    ensures |r| == |ps| && forall i :: 0 <= i < |ps| ==> r[i] == ps[i].id
  {
    seq(|ps|, i requires 0 <= i < |ps| => ps[i].id)
  }

  function DebateIds(ds: seq<Debate>): (r: seq<string>)
    ensures |r| == |ds| && forall i :: 0 <= i < |ds| ==> r[i] == ds[i].id
  {
    seq(|ds|, i requires 0 <= i < |ds| => ds[i].id)
  }

  // ---------------------------------------------------------------- lookup and gating

  /** get_task: the index of the first task with this id. */
  function FindTask(tasks: seq<Task>, id: string): (r: Option<nat>)
    ensures r.Some? ==> r.value < |tasks| && tasks[r.value].id == id &&
                        forall j :: 0 <= j < r.value ==> tasks[j].id != id
    ensures r.None? ==> forall j :: 0 <= j < |tasks| ==> tasks[j].id != id
  {
    if |tasks| == 0 then None
    else if tasks[0].id == id then Some(0)
    else match FindTask(tasks[1..], id)
      case None => None
      case Some(j) => Some(j + 1)
  }

  /** task_dependencies: str() of each listed id, [] when the entry is not a list. */
  function TaskDependencies(t: Task): (r: seq<string>)
    ensures (match Get(Metadata(t), "depends_on_task_ids") case Some(JArr(deps)) => |r| == |deps|
                                                           case _ => r == [])
  {
    match Get(Metadata(t), "depends_on_task_ids")
    case Some(JArr(deps)) => seq(|deps|, i requires 0 <= i < |deps| => PyStr(deps[i]))
    case _ => []
  }

  /** The first task named `id` exists and is done. */
  predicate DependencyDone(tasks: seq<Task>, id: string) {
    match FindTask(tasks, id)
    case Some(j) => tasks[j].status == Done
    case None => false
  }

  /** The dependency loop of is_task_ready, stopping at the first unmet dependency. */
  function AllDependenciesDone(tasks: seq<Task>, deps: seq<string>): (b: bool)
    ensures b <==> forall i :: 0 <= i < |deps| ==> DependencyDone(tasks, deps[i])
  {
    if |deps| == 0 then true
    else if !DependencyDone(tasks, deps[0]) then false
    else AllDependenciesDone(tasks, deps[1..])
  }

  predicate IsTaskReady(tasks: seq<Task>, t: Task) {
    AllDependenciesDone(tasks, TaskDependencies(t))
  }

  /** Readiness in terms of the task list alone: every dependency names a task whose first
      occurrence is done. A task without dependencies is ready. */
  lemma {:induction false} ReadyIff(tasks: seq<Task>, t: Task)
    ensures IsTaskReady(tasks, t) <==>
            forall d :: d in TaskDependencies(t) ==>
              exists j :: 0 <= j < |tasks| && tasks[j].id == d && tasks[j].status == Done &&
                          forall i :: 0 <= i < j ==> tasks[i].id != d
    ensures TaskDependencies(t) == [] ==> IsTaskReady(tasks, t)
  {
    var deps := TaskDependencies(t);
    forall d | d in deps
      ensures DependencyDone(tasks, d) <==>
              exists j :: 0 <= j < |tasks| && tasks[j].id == d && tasks[j].status == Done &&
                          forall i :: 0 <= i < j ==> tasks[i].id != d
    {
      match FindTask(tasks, d)
      case None =>
      case Some(j) =>
        forall j2 | 0 <= j2 < |tasks| && tasks[j2].id == d && (forall i :: 0 <= i < j2 ==> tasks[i].id != d)
          ensures j2 == j
        {
        }
    }
  }

  /** The retry instant stored in the metadata; an entry that is not an integer reads as none. */
  function RetryAt(t: Task): Option<int> {
    match Get(Metadata(t), "retry_at")
    case Some(JNum(n)) => Some(n)
    case _ => None
  }

  /** is_task_deferred at instant `now`. */
  predicate IsTaskDeferred(t: Task, now: int) {
    RetryAt(t).Some? && RetryAt(t).value > now
  }

  /** The condition next_queued_task selects on. */
  predicate Eligible(tasks: seq<Task>, t: Task, now: int) {
    t.status == Queued && !IsTaskDeferred(t, now) && IsTaskReady(tasks, t)
  }

  /** The condition queued_but_blocked filters on. */
  predicate Blocked(tasks: seq<Task>, t: Task, now: int) {
    t.status == Queued && (IsTaskDeferred(t, now) || !IsTaskReady(tasks, t))
  }

  function FirstEligible(tasks: seq<Task>, from: nat, now: int): (r: Option<nat>)
    requires from <= |tasks|
    ensures r.Some? ==> from <= r.value < |tasks| && Eligible(tasks, tasks[r.value], now) &&
                        forall j :: from <= j < r.value ==> !Eligible(tasks, tasks[j], now)
    ensures r.None? ==> forall j :: from <= j < |tasks| ==> !Eligible(tasks, tasks[j], now)
    decreases |tasks| - from
  {
    if from == |tasks| then None
    else if Eligible(tasks, tasks[from], now) then Some(from)
    else
      var r := FirstEligible(tasks, from + 1, now);
      assert forall j :: from + 1 <= j < |tasks| && (r.None? || j < r.value) ==> !Eligible(tasks, tasks[j], now);
      r
  }

  /** next_queued_task: the index of the first queued, undeferred, ready task. */
  function NextQueuedTask(tasks: seq<Task>, now: int): (r: Option<nat>)
    ensures r.Some? ==> r.value < |tasks| && Eligible(tasks, tasks[r.value], now) &&
                        forall j :: 0 <= j < r.value ==> !Eligible(tasks, tasks[j], now)
    ensures r.None? ==> forall j :: 0 <= j < |tasks| ==> !Eligible(tasks, tasks[j], now)
  {
    FirstEligible(tasks, 0, now)
  }

  function BlockedAmong(tasks: seq<Task>, xs: seq<Task>, now: int): (r: seq<Task>)
    ensures |r| <= |xs|
    ensures forall t :: t in r <==> t in xs && Blocked(tasks, t, now)
  {
    if |xs| == 0 then []
    else
      var init := BlockedAmong(tasks, xs[..|xs| - 1], now);
      var x := xs[|xs| - 1];
      assert xs == xs[..|xs| - 1] + [x];
      if Blocked(tasks, x, now) then init + [x] else init
  }

  /** queued_but_blocked: the queued tasks that are deferred or wait on a dependency. */
  function QueuedButBlocked(tasks: seq<Task>, now: int): (r: seq<Task>)
    ensures forall t :: t in r <==> t in tasks && Blocked(tasks, t, now)
  {
    BlockedAmong(tasks, tasks, now)
  }

  /** Every queued task is either the kind next_queued_task picks or listed as blocked, never
      both; when nothing is picked, every queued task is listed. */
  lemma {:induction false} QueuePartition(tasks: seq<Task>, now: int)
    ensures forall i :: 0 <= i < |tasks| && tasks[i].status == Queued ==>
              (Eligible(tasks, tasks[i], now) <==> tasks[i] !in QueuedButBlocked(tasks, now))
    ensures NextQueuedTask(tasks, now).Some? ==>
              tasks[NextQueuedTask(tasks, now).value] !in QueuedButBlocked(tasks, now)
    ensures NextQueuedTask(tasks, now).None? ==>
              forall i :: 0 <= i < |tasks| && tasks[i].status == Queued ==>
                tasks[i] in QueuedButBlocked(tasks, now)
  {
  }

  // ---------------------------------------------------------------- sessions

  /** _same_session_model: the stored session was opened on this backend and model. A stored
      session without a backend counts as a codex session. */
  predicate SameSessionModel(r: RoleState, backend: string, model: string) {
    var stored := Lower(Strip(SlotText(r.sessionBackend)));
    var existing := if stored == "" && SlotTruthy(r.sessionId) then "codex" else stored;
    existing == Lower(Strip(backend)) && Strip(SlotText(r.sessionModel)) == Strip(model)
  }

  /** A session recorded for a normalised backend and model is found again for them. */
  lemma {:induction false} SameSessionAfterStore(r: RoleState, backend: string, model: string)
    requires r.sessionBackend == Str(backend) && r.sessionModel == Str(model)
    requires IsStripped(backend) && Lower(backend) == backend && IsStripped(model)
    requires backend != ""
    ensures SameSessionModel(r, backend, model)
  {
  }

  /** A session stored before backends were recorded belongs to codex. */
  lemma {:induction false} LegacySessionIsCodex(r: RoleState, model: string)
    requires r.sessionBackend == Absent && SlotTruthy(r.sessionId)
    requires r.sessionModel == Str(model) && IsStripped(model)
    ensures SameSessionModel(r, "codex", model)
  {
    CodexStripped();
  }

  lemma {:induction false} CodexStripped()
    ensures Strip("codex") == "codex" && Lower("codex") == "codex"
  {
    var c := "codex";
    assert IsStripped(c);
    assert forall i :: 0 <= i < |c| ==> LowerChar(c[i]) == c[i];
  }

  // ---------------------------------------------------------------- status aggregation

  /** The status read for one listed task id: the task's own, or `missing`. */
  datatype Observed = Present(status: Status) | Missing

  function Observe(tasks: seq<Task>, id: string): Observed {
    match FindTask(tasks, id)
    case Some(j) => Present(tasks[j].status)
    case None => Missing
  }

  function ObserveAll(tasks: seq<Task>, ids: seq<string>): (r: seq<Observed>)
    ensures |r| == |ids| && forall i :: 0 <= i < |ids| ==> r[i] == Observe(tasks, ids[i])
  {
    seq(|ids|, i requires 0 <= i < |ids| => Observe(tasks, ids[i]))
  }

  predicate AllDone(xs: seq<Observed>) {
    forall i :: 0 <= i < |xs| ==> xs[i] == Present(Done)
  }

  /** The fixed-priority reduction of recompute_pipeline_status and recompute_debate_status. */
  function AggregateStatus(xs: seq<Observed>): GroupStatus {
    if Present(Failed) in xs then GroupFailed
    else if |xs| > 0 && AllDone(xs) then GroupDone
    else if Present(Running) in xs then GroupRunning
    else if Present(Done) in xs then GroupInProgress
    else GroupQueued
  }

  /** Each aggregate status in terms of which statuses occur: any failure fails the group; a
      non-empty all-done group is done; otherwise a running task makes it running; some done
      and some queued or missing is in progress; and only queued or missing tasks (or none at
      all) leave it queued. A missing task counts against being done. */
  lemma {:induction false} AggregateCases(xs: seq<Observed>)
    ensures AggregateStatus(xs) == GroupFailed <==> Present(Failed) in xs
    ensures AggregateStatus(xs) == GroupDone <==> |xs| > 0 && AllDone(xs)
    ensures AggregateStatus(xs) == GroupRunning <==> Present(Failed) !in xs && Present(Running) in xs
    ensures AggregateStatus(xs) == GroupInProgress <==>
              Present(Failed) !in xs && Present(Running) !in xs && Present(Done) in xs &&
              (Present(Queued) in xs || Missing in xs)
    ensures AggregateStatus(xs) == GroupQueued <==>
              forall i :: 0 <= i < |xs| ==> xs[i] == Present(Queued) || xs[i] == Missing
  {
    forall i | 0 <= i < |xs|
      ensures xs[i] in xs
      ensures xs[i] in {Present(Queued), Present(Running), Present(Done), Present(Failed), Missing}
    {
      match xs[i]
      case Missing =>
      case Present(st) =>
        match st
        case Queued =>
        case Running =>
        case Done =>
        case Failed =>
    }
    if |xs| > 0 && AllDone(xs) {
      assert xs[0] == Present(Done);
    }
  }

  lemma {:induction false} AllDoneIff(xs: seq<Observed>)
    ensures AllDone(xs) <==> forall o :: o in multiset(xs) ==> o == Present(Done)
  {
    assert forall i :: 0 <= i < |xs| ==> xs[i] in multiset(xs);
  }

  /** The reduction looks at which statuses occur, not at their order. */
  lemma {:induction false} AggregateIgnoresOrder(xs: seq<Observed>, ys: seq<Observed>)
    requires multiset(xs) == multiset(ys)
    ensures AggregateStatus(xs) == AggregateStatus(ys)
  {
    assert forall o :: o in xs <==> o in multiset(xs);
    assert forall o :: o in ys <==> o in multiset(ys);
    assert |xs| == |multiset(xs)| == |ys|;
    AllDoneIff(xs);
    AllDoneIff(ys);
  }

  // ---------------------------------------------------------------- handoff context

  const HandoffLimit := 4000

  /** s[:n] */
  function Prefix(s: string, n: nat): (r: string)
    ensures |r| <= n && |r| <= |s| && r == s[..|r|]
  {
    if |s| <= n then s else s[..n]
  }

  /** The chunk one dependency contributes to build_handoff_context: its compression summary
      when that file exists and is not blank, else the start of its output file; `files` maps
      the paths that exist to their text. */
  function HandoffChunk(tasks: seq<Task>, depId: string, files: map<string, string>): (r: Option<string>)
    ensures r.Some? ==> r.value != "" && FindTask(tasks, depId).Some?
  {
    match FindTask(tasks, depId)
    case None => None
    case Some(j) =>
      var dep := tasks[j];
      var head := " (" + dep.role + "):\n";
      var cp := GetOr(Metadata(dep), "compression_path", JNull);
      var summary := if cp.JStr? && !IsBlank(cp.s) && cp.s in files then Strip(files[cp.s]) else "";
      if summary != "" then Some("Handoff summary from " + depId + head + Prefix(summary, HandoffLimit))
      else
        match dep.outputPath
        case None => None
        case Some(p) =>
          if p == "" || p !in files then None
          else
            var content := Strip(Prefix(files[p], HandoffLimit));
            if content == "" then None else Some("Handoff from " + depId + head + content)
  }

  function HandoffChunks(tasks: seq<Task>, deps: seq<string>, files: map<string, string>): (r: seq<string>)
    ensures |r| <= |deps|
    ensures forall c :: c in r ==> c != ""
    ensures r == [] <==> forall i :: 0 <= i < |deps| ==> HandoffChunk(tasks, deps[i], files).None?
  {
    if |deps| == 0 then []
    else
      var rest := HandoffChunks(tasks, deps[1..], files);
      assert forall i :: 1 <= i < |deps| ==> deps[1..][i - 1] == deps[i];
      match HandoffChunk(tasks, deps[0], files)
      case Some(c) => [c] + rest
      case None => rest
  }

  /** build_handoff_context: the dependency chunks joined by blank lines. */
  function HandoffContext(tasks: seq<Task>, t: Task, files: map<string, string>): string {
    var chunks := HandoffChunks(tasks, TaskDependencies(t), files);
    if chunks == [] then "" else Join("\n\n", chunks)
  }

  /** The context is empty exactly when no dependency has a summary or output to hand over;
      a task without dependencies gets none. */
  lemma {:induction false} HandoffEmptyIff(tasks: seq<Task>, t: Task, files: map<string, string>)
    ensures HandoffContext(tasks, t, files) == "" <==>
            forall d :: d in TaskDependencies(t) ==> HandoffChunk(tasks, d, files).None?
  {
    var deps := TaskDependencies(t);
    var chunks := HandoffChunks(tasks, deps, files);
    if chunks != [] {
      assert chunks[0] in chunks;
      JoinNonEmpty("\n\n", chunks);
    }
    assert forall d :: d in deps <==> exists i :: 0 <= i < |deps| && deps[i] == d;
  }
}
