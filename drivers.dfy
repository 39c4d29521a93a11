// The command drivers: dispatch of one task (named, or the next ready one), the run of a
// pipeline's or a debate's tasks in their listed order, and the drain of the whole queue.
// Every driver works on one loaded state and one instant `now`; the runner calls of a command
// are numbered from `base` on.

module Drivers {
  import opened Text
  import opened JsonValue
  import opened TaskGraph
  import opened StateStore
  import opened RoleConfig
  import opened Dispatch

  /** The team status under which work is dispatched. */
  const TeamRunning := "running"

  /** The number of tasks drain_queue runs when no positive limit is given. */
  const DefaultDrainLimit := 10000

  /** The most runner calls one dispatched task can make. */
  function CallBound(env: Env): nat {
    Max(env.router.maxAttempts, 1) * FormatAttempts(env)
  }

  // ---------------------------------------------------------------- dispatch

  /** What dispatch decides before running anything: the task to run, or the exit code. */
  datatype Choice = Chosen(index: nat) | Refused(code: int)

  /** dispatch's checks: the team must be running; a named task must exist, be queued, not
      be deferred (which is not an error) and have its dependencies done; with no task named,
      the next ready queued task is taken, and having none is not an error. */
  function Choose(status: string, tasks: seq<Task>, taskId: string, now: int): (r: Choice)
    ensures r.Chosen? ==> r.index < |tasks| && Eligible(tasks, tasks[r.index], now)
    ensures status != TeamRunning ==> r == Refused(1)
  {
    if status != TeamRunning then Refused(1)
    else if taskId != "" then
      match FindTask(tasks, taskId)
      case None => Refused(1)
      case Some(i) =>
        if tasks[i].status != Queued then Refused(1)
        else if IsTaskDeferred(tasks[i], now) then Refused(0)
        else if !IsTaskReady(tasks, tasks[i]) then Refused(1)
        else Chosen(i)
    else
      match NextQueuedTask(tasks, now)
      case None => Refused(0)
      case Some(i) => Chosen(i)
  }

  /** A named task is run exactly when its first occurrence is eligible, and the command
      succeeds without running anything exactly when that task is queued but deferred. */
  lemma {:induction false} ChooseNamed(tasks: seq<Task>, taskId: string, now: int, i: nat)
    requires taskId != ""
    ensures Choose(TeamRunning, tasks, taskId, now) == Chosen(i) <==>
              FindTask(tasks, taskId) == Some(i) && Eligible(tasks, tasks[i], now)
    ensures Choose(TeamRunning, tasks, taskId, now) == Refused(0) <==>
              FindTask(tasks, taskId).Some? && tasks[FindTask(tasks, taskId).value].status == Queued &&
              IsTaskDeferred(tasks[FindTask(tasks, taskId).value], now)
  {
  }

  /** With no task named, the next ready queued task is run, and an empty queue is not an
      error. */
  lemma {:induction false} ChooseUnnamed(tasks: seq<Task>, now: int)
    ensures match NextQueuedTask(tasks, now)
            case Some(i) => Choose(TeamRunning, tasks, "", now) == Chosen(i)
            case None => Choose(TeamRunning, tasks, "", now) == Refused(0)
  {
  }

  /** No two tasks share an id. */
  predicate DistinctIds(ids: seq<string>) {
    forall j, k :: 0 <= j < k < |ids| ==> ids[j] != ids[k]
  }

  /** With distinct ids, a task is found at its own index. */
  lemma {:induction false} FindOwnId(tasks: seq<Task>, i: nat)
    requires i < |tasks| && DistinctIds(TaskIds(tasks))
    ensures FindTask(tasks, tasks[i].id) == Some(i)
  {
    forall k | 0 <= k < |tasks| && k != i
      ensures tasks[k].id != tasks[i].id
    {
      if k < i {
        assert TaskIds(tasks)[k] != TaskIds(tasks)[i];
      } else {
        assert TaskIds(tasks)[i] != TaskIds(tasks)[k];
      }
    }
  }

  /** drain_queue names the task next_queued_task returned; with distinct ids dispatch then
      runs that very task. */
  lemma {:induction false} ChooseNext(tasks: seq<Task>, now: int, i: nat)
    requires NextQueuedTask(tasks, now) == Some(i) && DistinctIds(TaskIds(tasks))
    ensures Choose(TeamRunning, tasks, tasks[i].id, now) == Chosen(i)
  {
    if tasks[i].id != "" {
      FindOwnId(tasks, i);
      ChooseNamed(tasks, tasks[i].id, now, i);
    } else {
      ChooseUnnamed(tasks, now);
    }
  }

  /** One dispatch command, from the state before to the state after: refused with its exit
      code and nothing changed, or the chosen task run. */
  predicate DispatchedBy(env: Env, now: int, base: nat, status: string, taskId: string,
                         ts: seq<Task>, rs: map<string, RoleState>, ps: seq<Pipeline>, ds: seq<Debate>,
                         ts': seq<Task>, rs': map<string, RoleState>, ps': seq<Pipeline>, ds': seq<Debate>,
                         code: int, calls: nat)
  {
    match Choose(status, ts, taskId, now)
    case Refused(c) => code == c && calls == 0 && ts' == ts && rs' == rs && ps' == ps && ds' == ds
    case Chosen(i) => DispatchedAt(env, now, base, i, ts, rs, ps, ds, ts', rs', ps', ds', code, calls)
  }

  /** dispatch, the command. */
  method DispatchCommand(st: RuntimeState, taskId: string, env: Env, now: int, base: nat) returns (code: int, calls: nat)
    modifies st
    ensures DispatchedBy(env, now, base, old(st.status), taskId, old(st.tasks), old(st.roles), old(st.pipelines),
                         old(st.debates), st.tasks, st.roles, st.pipelines, st.debates, code, calls)
    ensures st.version == old(st.version) && st.status == old(st.status) && st.config == old(st.config)
    ensures st.missing == old(st.missing)
  {
    var choice := Choose(st.status, st.tasks, taskId, now);
    match choice
    case Refused(c) =>
      code, calls := c, 0;
    case Chosen(i) =>
      code, calls := DispatchTaskObject(st, i, env, now, base);
  }

  /** The part of the runtime state the drivers change. */
  datatype World = World(tasks: seq<Task>, roles: map<string, RoleState>, pipelines: seq<Pipeline>, debates: seq<Debate>)

  function WorldOf(st: RuntimeState): World
    reads st
  {
    World(st.tasks, st.roles, st.pipelines, st.debates)
  }

  /** What a command leaves: the new state, its exit code, and the number the next runner
      call gets (the calls it made follow on from the number it started at). */
  datatype Outcome = Outcome(world: World, code: int, next: nat)

  /** _dispatch_task_object run on task i, as a function of the state it starts from. */
  function RanAt(env: Env, now: int, base: nat, i: nat, w: World): Outcome
    requires i < |w.tasks|
  {
    var t := w.tasks[i];
    var run := TaskRun(env, w.roles, t, base);
    var ts := w.tasks[i := Started(t, now)];
    var rs := w.roles[t.role := RoleOf(w.roles, t.role).(activity := Busy)];
    var u := Concluded(ts[i], run, env.policy, now);
    var ts' := ts[i := u];
    Outcome(World(ts', rs[ts[i].role := Released(run, now)],
                  if run.result.Some? then PipelinesAfter(w.pipelines, GroupRef(ts[i], "pipeline_id"), u, ts', now) else w.pipelines,
                  if run.result.Some? then DebatesAfter(w.debates, GroupRef(ts[i], "debate_id"), u, ts', now) else w.debates),
            ExitCode(run, env.policy), base + run.calls)
  }

  /** dispatch as a function of the state it starts from. */
  function Dispatched(env: Env, now: int, base: nat, status: string, taskId: string, w: World): Outcome {
    match Choose(status, w.tasks, taskId, now)
    case Refused(c) => Outcome(w, c, base)
    case Chosen(i) => RanAt(env, now, base, i, w)
  }

  /** The dispatch relation holds of exactly one outcome, the one Dispatched computes. */
  lemma {:induction false} DispatchedByIff(env: Env, now: int, base: nat, status: string, taskId: string,
                                           ts: seq<Task>, rs: map<string, RoleState>, ps: seq<Pipeline>, ds: seq<Debate>,
                                           ts': seq<Task>, rs': map<string, RoleState>, ps': seq<Pipeline>, ds': seq<Debate>,
                                           code: int, calls: nat)
    ensures DispatchedBy(env, now, base, status, taskId, ts, rs, ps, ds, ts', rs', ps', ds', code, calls) <==>
            Dispatched(env, now, base, status, taskId, World(ts, rs, ps, ds)) == Outcome(World(ts', rs', ps', ds'), code, base + calls)
  {
    match Choose(status, ts, taskId, now)
    case Refused(c) =>
    case Chosen(i) =>
      assert Started(ts[i], now).role == ts[i].role;
  }

  /** A task is settled at `now`: done, or queued again with its retry instant still ahead. */
  predicate SettledTask(t: Task, now: int) {
    t.status == Done || (t.status == Queued && IsTaskDeferred(t, now))
  }

  /** The task an id names is settled. */
  predicate Settled(tasks: seq<Task>, id: string, now: int) {
    FindTask(tasks, id).Some? && SettledTask(tasks[FindTask(tasks, id).value], now)
  }

  /** Lookups by id see only the ids. */
  lemma {:induction false} FindTaskSameIds(ts: seq<Task>, ts': seq<Task>, id: string)
    requires TaskIds(ts') == TaskIds(ts)
    ensures FindTask(ts', id) == FindTask(ts, id)
  {
    forall k | 0 <= k < |ts|
      ensures ts'[k].id == ts[k].id
    {
      assert TaskIds(ts')[k] == TaskIds(ts)[k];
    }
  }

  /** A change confined to one task that was runnable, or that leaves it settled, keeps every
      settled id settled. */
  lemma {:induction false} SettledKept(ts: seq<Task>, ts': seq<Task>, i: nat, id: string, now: int)
    requires |ts'| == |ts| && TaskIds(ts') == TaskIds(ts) && i < |ts|
    requires forall j :: 0 <= j < |ts| && j != i ==> ts'[j] == ts[j]
    requires !SettledTask(ts[i], now) || SettledTask(ts'[i], now)
    requires Settled(ts, id, now)
    ensures Settled(ts', id, now)
  {
    FindTaskSameIds(ts, ts', id);
  }

  /** What one dispatch means to the loops that call it: ids, pipelines and debates keep
      their shape; a settled id stays settled; a named task is settled when the code is 0; and
      the runner is called at most CallBound times. */
  lemma {:induction false} DispatchedByEffect(env: Env, now: int, base: nat, status: string, taskId: string,
                                              ts: seq<Task>, rs: map<string, RoleState>, ps: seq<Pipeline>, ds: seq<Debate>,
                                              ts': seq<Task>, rs': map<string, RoleState>, ps': seq<Pipeline>, ds': seq<Debate>,
                                              code: int, calls: nat)
    requires DispatchedBy(env, now, base, status, taskId, ts, rs, ps, ds, ts', rs', ps', ds', code, calls)
    ensures |ts'| == |ts| && TaskIds(ts') == TaskIds(ts)
    ensures SamePipelines(ps, ps') && SameDebates(ds, ds')
    ensures forall id :: Settled(ts, id, now) ==> Settled(ts', id, now)
    ensures taskId != "" && code == 0 ==> Settled(ts', taskId, now)
    ensures calls <= CallBound(env)
  {
    match Choose(status, ts, taskId, now)
    case Refused(c) =>
      assert SamePipelines(ps, ps') && SameDebates(ds, ds');
    case Chosen(i) =>
      DispatchEffect(env, now, base, i, ts, rs, ps, ds, ts', rs', ps', ds', code, calls);
      assert SettledTask(ts'[i], now) <== code == 0;
      forall id | Settled(ts, id, now)
        ensures Settled(ts', id, now)
      {
        SettledKept(ts, ts', i, id, now);
      }
      if taskId != "" && code == 0 {
        ChooseNamed(ts, taskId, now, i);
        FindTaskSameIds(ts, ts', taskId);
      }
  }

  /** Dispatched computes an outcome the dispatch relation holds of. */
  lemma {:induction false} DispatchedOutcome(env: Env, now: int, base: nat, status: string, taskId: string, w: World)
    ensures var o := Dispatched(env, now, base, status, taskId, w);
            o.next >= base &&
            DispatchedBy(env, now, base, status, taskId, w.tasks, w.roles, w.pipelines, w.debates,
                         o.world.tasks, o.world.roles, o.world.pipelines, o.world.debates, o.code, o.next - base)
  {
    var o := Dispatched(env, now, base, status, taskId, w);
    assert o.next >= base;
    DispatchedByIff(env, now, base, status, taskId, w.tasks, w.roles, w.pipelines, w.debates,
                    o.world.tasks, o.world.roles, o.world.pipelines, o.world.debates, o.code, o.next - base);
  }

  // ---------------------------------------------------------------- pipelines and debates

  /** The body of the task loop for one id, as a function of the state it starts from. */
  function Visited(env: Env, now: int, base: nat, id: string, stopOnFailure: bool, w: World): Outcome {
    var found := FindTask(w.tasks, id);
    if found.None? || w.tasks[found.value].status == Failed then Outcome(w, if stopOnFailure then 1 else 0, base)
    else if w.tasks[found.value].status == Done then Outcome(w, 0, base)
    else
      var o := Dispatched(env, now, base, TeamRunning, id, w);
      o.(code := if o.code != 0 && stopOnFailure then o.code else 0)
  }

  /** The task loop as a function of the state it starts from: one visit after the other,
      each numbering its runner calls after the previous ones, up to the first non-zero code. */
  function ListRun(env: Env, now: int, base: nat, ids: seq<string>, stopOnFailure: bool, w: World): Outcome
    decreases |ids|
  {
    if |ids| == 0 then Outcome(w, 0, base)
    else
      var o := Visited(env, now, base, ids[0], stopOnFailure, w);
      if o.code != 0 then o else ListRun(env, now, o.next, ids[1..], stopOnFailure, o.world)
  }

  /** The facts one visit keeps: ids, pipelines and debates keep their shape; a settled id
      stays settled; only stopOnFailure stops the loop, and a visit that goes on under it
      leaves its task settled; and the runner is called at most CallBound times. */
  ghost predicate VisitFacts(env: Env, now: int, base: nat, id: string, stopOnFailure: bool, w: World, o: Outcome)
  {
    |o.world.tasks| == |w.tasks| && TaskIds(o.world.tasks) == TaskIds(w.tasks) &&
    SamePipelines(w.pipelines, o.world.pipelines) && SameDebates(w.debates, o.world.debates) &&
    (o.code != 0 ==> stopOnFailure) &&
    (forall m :: Settled(w.tasks, m, now) ==> Settled(o.world.tasks, m, now)) &&
    (stopOnFailure && o.code == 0 && id != "" ==> Settled(o.world.tasks, id, now)) &&
    base <= o.next <= base + CallBound(env)
  }

  /** What one visit does: it keeps VisitFacts. */
  lemma {:induction false} VisitedEffect(env: Env, now: int, base: nat, id: string, stopOnFailure: bool, w: World)
    ensures VisitFacts(env, now, base, id, stopOnFailure, w, Visited(env, now, base, id, stopOnFailure, w))
  {
    var found := FindTask(w.tasks, id);
    if found.None? || w.tasks[found.value].status == Failed || w.tasks[found.value].status == Done {
      assert SamePipelines(w.pipelines, w.pipelines) && SameDebates(w.debates, w.debates);
    } else {
      var o := Dispatched(env, now, base, TeamRunning, id, w);
      DispatchedOutcome(env, now, base, TeamRunning, id, w);
      DispatchedByEffect(env, now, base, TeamRunning, id, w.tasks, w.roles, w.pipelines, w.debates,
                         o.world.tasks, o.world.roles, o.world.pipelines, o.world.debates, o.code, o.next - base);
    }
  }

  /** The facts the whole task loop keeps: the same shape facts; without stopOnFailure the code
      is 0; with it, a 0 means every listed task is settled; and each visit calls the runner at
      most CallBound times. */
  ghost predicate ListFacts(env: Env, now: int, base: nat, ids: seq<string>, stopOnFailure: bool, w: World, o: Outcome)
  {
    |o.world.tasks| == |w.tasks| && TaskIds(o.world.tasks) == TaskIds(w.tasks) &&
    SamePipelines(w.pipelines, o.world.pipelines) && SameDebates(w.debates, o.world.debates) &&
    (!stopOnFailure ==> o.code == 0) &&
    (forall m :: Settled(w.tasks, m, now) ==> Settled(o.world.tasks, m, now)) &&
    (stopOnFailure && o.code == 0 ==>
       forall k :: 0 <= k < |ids| && ids[k] != "" ==> Settled(o.world.tasks, ids[k], now)) &&
    base <= o.next <= base + Times(|ids|, CallBound(env))
  }

  /** The first visit of a non-empty task loop, returned as a value: it keeps VisitFacts, and
      the loop is that visit followed by the loop over the remaining ids. */
  lemma {:induction false} ListVisitOutcome(env: Env, now: int, base: nat, ids: seq<string>, stopOnFailure: bool, w: World)
    returns (v: Outcome)
    requires |ids| > 0
    ensures VisitFacts(env, now, base, ids[0], stopOnFailure, w, v)
    ensures ListRun(env, now, base, ids, stopOnFailure, w) ==
            if v.code != 0 then v else ListRun(env, now, v.next, ids[1..], stopOnFailure, v.world)
  {
    v := Visited(env, now, base, ids[0], stopOnFailure, w);
    VisitedEffect(env, now, base, ids[0], stopOnFailure, w);
  }

  /** What the whole task loop does: it keeps ListFacts. */
  lemma {:induction false} ListRunEffect(env: Env, now: int, base: nat, ids: seq<string>, stopOnFailure: bool, w: World)
    ensures ListFacts(env, now, base, ids, stopOnFailure, w, ListRun(env, now, base, ids, stopOnFailure, w))
    decreases |ids|, 1
  {
    if |ids| == 0 {
      assert SamePipelines(w.pipelines, w.pipelines) && SameDebates(w.debates, w.debates);
    } else {
      var v := ListVisitOutcome(env, now, base, ids, stopOnFailure, w);
      ListEffectAfter(env, now, base, ids, stopOnFailure, w, v);
    }
  }

  /** A first visit that keeps VisitFacts, followed by the loop over the remaining ids, keeps
      ListFacts over the whole list. */
  lemma {:induction false} ListEffectAfter(env: Env, now: int, base: nat, ids: seq<string>, stopOnFailure: bool,
                                           w: World, v: Outcome)
    requires |ids| > 0 && VisitFacts(env, now, base, ids[0], stopOnFailure, w, v)
    ensures v.code != 0 ==> ListFacts(env, now, base, ids, stopOnFailure, w, v)
    ensures v.code == 0 ==>
            ListFacts(env, now, base, ids, stopOnFailure, w, ListRun(env, now, v.next, ids[1..], stopOnFailure, v.world))
    decreases |ids|, 0
  {
    var cb := CallBound(env);
    assert Times(|ids|, cb) == Times(|ids| - 1, cb) + cb;
    if v.code == 0 {
      var rest := ids[1..];
      ListRunEffect(env, now, v.next, rest, stopOnFailure, v.world);
      var o := ListRun(env, now, v.next, rest, stopOnFailure, v.world);
      assert |rest| == |ids| - 1;
      assert TaskIds(o.world.tasks) == TaskIds(w.tasks);
      assert SamePipelines(w.pipelines, o.world.pipelines) by {
        assert SamePipelines(w.pipelines, v.world.pipelines) && SamePipelines(v.world.pipelines, o.world.pipelines);
      }
      assert SameDebates(w.debates, o.world.debates) by {
        assert SameDebates(w.debates, v.world.debates) && SameDebates(v.world.debates, o.world.debates);
      }
      assert forall k :: 1 <= k < |ids| ==> ids[k] == rest[k - 1];
    } else {
      assert Times(|ids| - 1, cb) >= 0;
    }
  }

  /** One visit of the task loop: the run from position k is the visit's outcome when its code
      is not 0, and otherwise the run from position k + 1 in the state the visit left. */
  lemma {:induction false} ListRunVisit(env: Env, now: int, base: nat, ids: seq<string>, k: nat, stopOnFailure: bool,
                                        w: World, o: Outcome)
    requires k < |ids| && Visited(env, now, base, ids[k], stopOnFailure, w) == o
    ensures ListRun(env, now, base, ids[k..], stopOnFailure, w) ==
            if o.code != 0 then o else ListRun(env, now, o.next, ids[k + 1..], stopOnFailure, o.world)
  {
    assert ids[k..][0] == ids[k] && ids[k..][1..] == ids[k + 1..];
  }

  /** The loop run_pipeline_by_id and run_debate_by_id share: each listed task in turn; a
      missing or failed one stops the run when stopOnFailure is set, a done one is skipped,
      any other is dispatched by id, and a non-zero dispatch code stops the run when
      stopOnFailure is set. 0 means every listed task was visited. `next` is the number the
      next runner call gets. */
  method RunTaskList(st: RuntimeState, ids: seq<string>, stopOnFailure: bool, env: Env, now: int, base: nat)
    returns (code: int, next: nat)
    requires st.status == TeamRunning
    modifies st
    ensures ListRun(env, now, base, ids, stopOnFailure, old(WorldOf(st))) == Outcome(WorldOf(st), code, next)
    ensures st.version == old(st.version) && st.status == old(st.status) && st.config == old(st.config)
    ensures st.missing == old(st.missing)
  {
    var k := 0;
    next := base;
    ghost var total := ListRun(env, now, base, ids, stopOnFailure, WorldOf(st));
    assert ids[0..] == ids;
    while k < |ids|
      invariant k <= |ids|
      invariant total == ListRun(env, now, next, ids[k..], stopOnFailure, WorldOf(st))
      invariant st.version == old(st.version) && st.status == old(st.status) && st.config == old(st.config)
      invariant st.missing == old(st.missing)
    {
      ghost var w := WorldOf(st);
      var c, n := VisitTask(st, ids[k], stopOnFailure, env, now, next);
      ListRunVisit(env, now, next, ids, k, stopOnFailure, w, Outcome(WorldOf(st), c, n));
      next := n;
      if c != 0 {
        return c, next;
      }
      k := k + 1;
    }
    assert ids[k..] == [];
    code := 0;
  }

  /** k * c written as repeated addition, so that the proofs about call counts stay linear. */
  function Times(k: nat, c: nat): (r: nat)
    ensures k > 0 ==> r >= c
  {
    if k == 0 then 0 else Times(k - 1, c) + c
  }

  lemma {:induction false} TimesIs(k: nat, c: nat)
    ensures Times(k, c) == k * c
  {
    if k > 0 {
      TimesIs(k - 1, c);
    }
  }

  /** The body of that loop for one id: 0 to go on, anything else to stop with. */
  method VisitTask(st: RuntimeState, id: string, stopOnFailure: bool, env: Env, now: int, base: nat)
    returns (code: int, next: nat)
    requires st.status == TeamRunning
    modifies st
    ensures Visited(env, now, base, id, stopOnFailure, old(WorldOf(st))) == Outcome(WorldOf(st), code, next)
    ensures st.version == old(st.version) && st.status == old(st.status) && st.config == old(st.config)
    ensures st.missing == old(st.missing)
  {
    var found := FindTask(st.tasks, id);
    if found.None? || st.tasks[found.value].status == Failed {
      code, next := if stopOnFailure then 1 else 0, base;
    } else if st.tasks[found.value].status == Done {
      code, next := 0, base;
    } else {
      ghost var ts, rs, ps, ds := st.tasks, st.roles, st.pipelines, st.debates;
      var c, calls := DispatchCommand(st, id, env, now, base);
      DispatchedByIff(env, now, base, TeamRunning, id, ts, rs, ps, ds,
                      st.tasks, st.roles, st.pipelines, st.debates, c, calls);
      code, next := if c != 0 && stopOnFailure then c else 0, base + calls;
    }
  }

  /** run_pipeline_by_id: refused unless the team is running and the pipeline exists; otherwise
      the task loop runs over the pipeline's task ids, and when it completes the pipeline's
      status is recomputed from its tasks as they now are. With stopOnFailure, completing
      means every listed task is done or deferred. */
  method RunPipelineById(st: RuntimeState, pipelineId: string, stopOnFailure: bool, env: Env, now: int, base: nat)
    returns (code: int, next: nat)
    modifies st
    ensures old(st.status) != TeamRunning || FindPipeline(old(st.pipelines), pipelineId).None? ==>
              code == 1 && next == base && st.tasks == old(st.tasks) && st.roles == old(st.roles) &&
              st.pipelines == old(st.pipelines) && st.debates == old(st.debates)
    ensures |st.tasks| == |old(st.tasks)| && TaskIds(st.tasks) == TaskIds(old(st.tasks))
    ensures SamePipelines(old(st.pipelines), st.pipelines) && SameDebates(old(st.debates), st.debates)
    ensures old(st.status) == TeamRunning && FindPipeline(old(st.pipelines), pipelineId).Some? ==>
              var j := FindPipeline(old(st.pipelines), pipelineId).value;
              var ids := old(st.pipelines)[j].taskIds;
              (!stopOnFailure ==> code == 0) &&
              (code == 0 ==> st.pipelines[j].status == AggregateStatus(ObserveAll(st.tasks, ids))) &&
              (stopOnFailure && code == 0 ==> forall k :: 0 <= k < |ids| && ids[k] != "" ==> Settled(st.tasks, ids[k], now)) &&
              base <= next <= base + |ids| * CallBound(env)
    ensures old(st.status) == TeamRunning && FindPipeline(old(st.pipelines), pipelineId).Some? ==>
              var ids := old(st.pipelines)[FindPipeline(old(st.pipelines), pipelineId).value].taskIds;
              var o := ListRun(env, now, base, ids, stopOnFailure, old(WorldOf(st)));
              code == o.code && next == o.next && st.tasks == o.world.tasks && st.roles == o.world.roles &&
              st.debates == o.world.debates &&
              st.pipelines == if code == 0 then RefreshPipeline(o.world.pipelines, pipelineId, st.tasks, now) else o.world.pipelines
    ensures st.version == old(st.version) && st.status == old(st.status) && st.config == old(st.config)
    ensures st.missing == old(st.missing)
  {
    var found := FindPipeline(st.pipelines, pipelineId);
    if st.status != TeamRunning || found.None? {
      assert SamePipelines(st.pipelines, st.pipelines) && SameDebates(st.debates, st.debates);
      return 1, base;
    }
    ghost var ps0 := st.pipelines;
    var ids := st.pipelines[found.value].taskIds;
    ListRunEffect(env, now, base, ids, stopOnFailure, WorldOf(st));
    TimesIs(|ids|, CallBound(env));
    code, next := RunTaskList(st, ids, stopOnFailure, env, now, base);
    if code == 0 {
      ghost var ps1 := st.pipelines;
      FindPipelineSame(ps0, ps1, pipelineId);
      var _ := st.RecomputePipelineStatus(pipelineId, now);
      assert SamePipelines(ps1, st.pipelines);
    }
  }

  /** run_debate_by_id, the same loop over a debate's tasks. */
  method RunDebateById(st: RuntimeState, debateId: string, stopOnFailure: bool, env: Env, now: int, base: nat)
    returns (code: int, next: nat)
    modifies st
    ensures old(st.status) != TeamRunning || FindDebate(old(st.debates), debateId).None? ==>
              code == 1 && next == base && st.tasks == old(st.tasks) && st.roles == old(st.roles) &&
              st.pipelines == old(st.pipelines) && st.debates == old(st.debates)
    ensures |st.tasks| == |old(st.tasks)| && TaskIds(st.tasks) == TaskIds(old(st.tasks))
    ensures SamePipelines(old(st.pipelines), st.pipelines) && SameDebates(old(st.debates), st.debates)
    ensures old(st.status) == TeamRunning && FindDebate(old(st.debates), debateId).Some? ==>
              var j := FindDebate(old(st.debates), debateId).value;
              var ids := old(st.debates)[j].taskIds;
              (!stopOnFailure ==> code == 0) &&
              (code == 0 ==> st.debates[j].status == AggregateStatus(ObserveAll(st.tasks, ids))) &&
              (stopOnFailure && code == 0 ==> forall k :: 0 <= k < |ids| && ids[k] != "" ==> Settled(st.tasks, ids[k], now)) &&
              base <= next <= base + |ids| * CallBound(env)
    ensures old(st.status) == TeamRunning && FindDebate(old(st.debates), debateId).Some? ==>
              var ids := old(st.debates)[FindDebate(old(st.debates), debateId).value].taskIds;
              var o := ListRun(env, now, base, ids, stopOnFailure, old(WorldOf(st)));
              code == o.code && next == o.next && st.tasks == o.world.tasks && st.roles == o.world.roles &&
              st.pipelines == o.world.pipelines &&
              st.debates == if code == 0 then RefreshDebate(o.world.debates, debateId, st.tasks, now) else o.world.debates
    ensures st.version == old(st.version) && st.status == old(st.status) && st.config == old(st.config)
    ensures st.missing == old(st.missing)
  {
    var found := FindDebate(st.debates, debateId);
    if st.status != TeamRunning || found.None? {
      assert SamePipelines(st.pipelines, st.pipelines) && SameDebates(st.debates, st.debates);
      return 1, base;
    }
    ghost var ds0 := st.debates;
    var ids := st.debates[found.value].taskIds;
    ListRunEffect(env, now, base, ids, stopOnFailure, WorldOf(st));
    TimesIs(|ids|, CallBound(env));
    code, next := RunTaskList(st, ids, stopOnFailure, env, now, base);
    if code == 0 {
      ghost var ds1 := st.debates;
      FindDebateSame(ds0, ds1, debateId);
      var _ := st.RecomputeDebateStatus(debateId, now);
      assert SameDebates(ds1, st.debates);
    }
  }

  /** Lookups by id see only the ids. */
  lemma {:induction false} FindPipelineSame(ps: seq<Pipeline>, ps': seq<Pipeline>, id: string)
    requires SamePipelines(ps, ps')
    ensures FindPipeline(ps', id) == FindPipeline(ps, id)
  {
  }

  lemma {:induction false} FindDebateSame(ds: seq<Debate>, ds': seq<Debate>, id: string)
    requires SameDebates(ds, ds')
    ensures FindDebate(ds', id) == FindDebate(ds, id)
  {
  }

  /** When a pipeline or debate run completes with stopOnFailure and lists only real ids, no
      task of it failed or is running, so its status is done, in progress or queued. */
  lemma {:induction false} SettledAggregate(tasks: seq<Task>, ids: seq<string>, now: int)
    requires forall k :: 0 <= k < |ids| ==> ids[k] != "" && Settled(tasks, ids[k], now)
    ensures AggregateStatus(ObserveAll(tasks, ids)) in {GroupDone, GroupInProgress, GroupQueued}
  {
    var xs := ObserveAll(tasks, ids);
    forall k | 0 <= k < |xs|
      ensures xs[k] == Present(Done) || xs[k] == Present(Queued)
    {
      assert Settled(tasks, ids[k], now);
    }
    assert Present(Failed) !in xs;
    assert Present(Running) !in xs;
  }

  // ---------------------------------------------------------------- drain_queue

  /** A task dispatch could run at `now`: queued and not deferred. */
  predicate Waiting(t: Task, now: int) {
    t.status == Queued && !IsTaskDeferred(t, now)
  }

  /** The number of waiting tasks. */
  function Pending(tasks: seq<Task>, now: int): nat {
    if |tasks| == 0 then 0
    else Pending(tasks[..|tasks| - 1], now) + (if Waiting(tasks[|tasks| - 1], now) then 1 else 0)
  }

  /** Taking one waiting task out of the waiting ones lowers the count by one. */
  lemma {:induction false} PendingDrop(ts: seq<Task>, ts': seq<Task>, i: nat, now: int)
    requires |ts'| == |ts| && i < |ts|
    requires forall j :: 0 <= j < |ts| && j != i ==> ts'[j] == ts[j]
    requires Waiting(ts[i], now) && !Waiting(ts'[i], now)
    ensures Pending(ts', now) + 1 == Pending(ts, now)
    decreases |ts|
  {
    var n := |ts|;
    if i < n - 1 {
      PendingDrop(ts[..n - 1], ts'[..n - 1], i, now);
    } else {
      assert ts'[..n - 1] == ts[..n - 1];
    }
  }

  /** The limit drain_queue runs to. */
  function DrainLimit(maxTasks: int): (r: nat)
    ensures r > 0
    ensures maxTasks > 0 ==> r == maxTasks
  {
    if maxTasks > 0 then maxTasks else DefaultDrainLimit
  }

  /** One drain step with distinct ids runs the next ready task, which stops waiting. */
  lemma {:induction false} DrainStep(env: Env, now: int, base: nat, i: nat,
                                     ts: seq<Task>, rs: map<string, RoleState>, ps: seq<Pipeline>, ds: seq<Debate>,
                                     ts': seq<Task>, rs': map<string, RoleState>, ps': seq<Pipeline>, ds': seq<Debate>,
                                     code: int, calls: nat)
    requires NextQueuedTask(ts, now) == Some(i) && DistinctIds(TaskIds(ts))
    requires DispatchedBy(env, now, base, TeamRunning, ts[i].id, ts, rs, ps, ds, ts', rs', ps', ds', code, calls)
    ensures Pending(ts', now) + 1 == Pending(ts, now)
  {
    ChooseNext(ts, now, i);
    DispatchEffect(env, now, base, i, ts, rs, ps, ds, ts', rs', ps', ds', code, calls);
    PendingDrop(ts, ts', i, now);
  }

  /** One pass of drain_queue's loop: dispatch by id of the task next_queued_task returned. */
  method DispatchNext(st: RuntimeState, i: nat, env: Env, now: int, base: nat) returns (code: int, next: nat)
    requires st.status == TeamRunning && NextQueuedTask(st.tasks, now) == Some(i)
    modifies st
    ensures Dispatched(env, now, base, TeamRunning, old(st.tasks)[i].id, old(WorldOf(st))) == Outcome(WorldOf(st), code, next)
    ensures st.version == old(st.version) && st.status == old(st.status) && st.config == old(st.config)
    ensures st.missing == old(st.missing)
  {
    ghost var ts, rs, ps, ds := st.tasks, st.roles, st.pipelines, st.debates;
    var calls;
    code, calls := DispatchCommand(st, st.tasks[i].id, env, now, base);
    DispatchedByIff(env, now, base, TeamRunning, ts[i].id, ts, rs, ps, ds,
                    st.tasks, st.roles, st.pipelines, st.debates, code, calls);
    next := base + calls;
  }

  /** What drain_queue's loop leaves: the new state, the code, the number of tasks run and
      the number the next runner call gets. */
  datatype Drain = Drain(world: World, code: int, executed: nat, next: nat)

  /** drain_queue's loop as a function of the state it starts from, with `left` passes left
      and `ran` tasks run so far: pass after pass until the limit is reached. */
  function DrainRun(env: Env, now: int, base: nat, left: nat, continueOnFailure: bool, w: World, ran: nat): Drain
    decreases left, 1, 0
  {
    if left == 0 then Drain(w, 0, ran, base)
    else DrainPass(env, now, base, left, continueOnFailure, w, ran)
  }

  /** One pass and the passes after it: the next ready task dispatched by id, until none is
      left or a dispatch fails without continueOnFailure. */
  function DrainPass(env: Env, now: int, base: nat, left: nat, continueOnFailure: bool, w: World, ran: nat): Drain
    requires left > 0
    decreases left, 0, 1
  {
    match NextQueuedTask(w.tasks, now)
    case None => Drain(w, 0, ran, base)
    case Some(i) => DrainStepAt(env, now, base, left, continueOnFailure, w, ran, i)
  }

  /** The pass that dispatches task i, and the passes after it. */
  function DrainStepAt(env: Env, now: int, base: nat, left: nat, continueOnFailure: bool, w: World, ran: nat, i: nat): Drain
    requires left > 0 && i < |w.tasks|
    decreases left, 0, 0
  {
    var o := Dispatched(env, now, base, TeamRunning, w.tasks[i].id, w);
    if o.code != 0 && !continueOnFailure then Drain(o.world, o.code, ran + 1, o.next)
    else DrainRun(env, now, o.next, left - 1, continueOnFailure, o.world, ran + 1)
  }

  /** The loop stops where the limit is reached or nothing is left to run. */
  lemma {:induction false} DrainRunStop(env: Env, now: int, base: nat, left: nat, continueOnFailure: bool, w: World, ran: nat)
    requires left == 0 || NextQueuedTask(w.tasks, now).None?
    ensures DrainRun(env, now, base, left, continueOnFailure, w, ran) == Drain(w, 0, ran, base)
  {
    if left > 0 {
      assert DrainRun(env, now, base, left, continueOnFailure, w, ran) == DrainPass(env, now, base, left, continueOnFailure, w, ran);
    }
  }

  /** One pass of drain_queue's loop, dispatching task i, in terms of the passes after it. */
  lemma {:induction false} DrainRunPass(env: Env, now: int, base: nat, left: nat, continueOnFailure: bool,
                                        w: World, ran: nat, i: nat, o: Outcome)
    requires left > 0 && NextQueuedTask(w.tasks, now) == Some(i)
    requires Dispatched(env, now, base, TeamRunning, w.tasks[i].id, w) == o
    ensures DrainRun(env, now, base, left, continueOnFailure, w, ran) ==
            if o.code != 0 && !continueOnFailure then Drain(o.world, o.code, ran + 1, o.next)
            else DrainRun(env, now, o.next, left - 1, continueOnFailure, o.world, ran + 1)
  {
    assert DrainRun(env, now, base, left, continueOnFailure, w, ran) == DrainPass(env, now, base, left, continueOnFailure, w, ran);
    assert DrainPass(env, now, base, left, continueOnFailure, w, ran) == DrainStepAt(env, now, base, left, continueOnFailure, w, ran, i);
  }

  /** What dispatching the task next_queued_task returned does, seen from the drain loop: ids,
      pipelines and debates keep their shape; with distinct ids one waiting task fewer is
      left; and the runner is called at most CallBound times. */
  ghost predicate NextFacts(env: Env, now: int, base: nat, w: World, o: Outcome) {
    |o.world.tasks| == |w.tasks| && TaskIds(o.world.tasks) == TaskIds(w.tasks) &&
    SamePipelines(w.pipelines, o.world.pipelines) && SameDebates(w.debates, o.world.debates) &&
    (DistinctIds(TaskIds(w.tasks)) ==> Pending(o.world.tasks, now) + 1 == Pending(w.tasks, now)) &&
    base <= o.next <= base + CallBound(env)
  }

  lemma {:induction false} DispatchNextEffect(env: Env, now: int, base: nat, i: nat, w: World)
    requires NextQueuedTask(w.tasks, now) == Some(i)
    ensures NextFacts(env, now, base, w, Dispatched(env, now, base, TeamRunning, w.tasks[i].id, w))
  {
    var o := Dispatched(env, now, base, TeamRunning, w.tasks[i].id, w);
    DispatchedOutcome(env, now, base, TeamRunning, w.tasks[i].id, w);
    DispatchedByEffect(env, now, base, TeamRunning, w.tasks[i].id, w.tasks, w.roles, w.pipelines, w.debates,
                       o.world.tasks, o.world.roles, o.world.pipelines, o.world.debates, o.code, o.next - base);
    if DistinctIds(TaskIds(w.tasks)) {
      DrainStep(env, now, base, i, w.tasks, w.roles, w.pipelines, w.debates,
                o.world.tasks, o.world.roles, o.world.pipelines, o.world.debates, o.code, o.next - base);
    }
  }

  /** What the drain loop promises about the result d of its remaining `left` passes, started
      on w with `ran` tasks run: it runs at most `left` more tasks; stopping with 0 short of
      the limit means nothing is left to run; a non-zero code only comes without
      continueOnFailure; with distinct ids each task run was waiting at the start; ids,
      pipelines and debates keep their shape; and each task run calls the runner at most
      CallBound times. */
  ghost predicate DrainFacts(env: Env, now: int, base: nat, left: nat, continueOnFailure: bool, w: World, ran: nat, d: Drain)
  {
    ran <= d.executed <= ran + left &&
    (d.code == 0 && d.executed < ran + left ==> NextQueuedTask(d.world.tasks, now).None?) &&
    (d.code != 0 ==> !continueOnFailure) &&
    (DistinctIds(TaskIds(w.tasks)) ==> d.executed - ran + Pending(d.world.tasks, now) <= Pending(w.tasks, now)) &&
    |d.world.tasks| == |w.tasks| && TaskIds(d.world.tasks) == TaskIds(w.tasks) &&
    SamePipelines(w.pipelines, d.world.pipelines) && SameDebates(w.debates, d.world.debates) &&
    base <= d.next
  }

  /** The pass that dispatches task i, seen from outside: some outcome o with NextFacts,
      followed by the passes after it. */
  lemma {:induction false} DrainPassOutcome(env: Env, now: int, base: nat, left: nat, continueOnFailure: bool,
                                            w: World, ran: nat, i: nat)
    returns (o: Outcome)
    requires left > 0 && NextQueuedTask(w.tasks, now) == Some(i)
    ensures NextFacts(env, now, base, w, o)
    ensures DrainRun(env, now, base, left, continueOnFailure, w, ran) ==
            if o.code != 0 && !continueOnFailure then Drain(o.world, o.code, ran + 1, o.next)
            else DrainRun(env, now, o.next, left - 1, continueOnFailure, o.world, ran + 1)
  {
    o := Dispatched(env, now, base, TeamRunning, w.tasks[i].id, w);
    DispatchNextEffect(env, now, base, i, w);
    DrainRunPass(env, now, base, left, continueOnFailure, w, ran, i, o);
  }

  /** What the whole drain loop does, by induction on the passes left. */
  lemma {:induction false} DrainRunEffect(env: Env, now: int, base: nat, left: nat, continueOnFailure: bool, w: World, ran: nat)
    ensures DrainFacts(env, now, base, left, continueOnFailure, w, ran, DrainRun(env, now, base, left, continueOnFailure, w, ran))
    decreases left, 1
  {
    assert SamePipelines(w.pipelines, w.pipelines) && SameDebates(w.debates, w.debates);
    if left > 0 && NextQueuedTask(w.tasks, now).Some? {
      var o := DrainPassOutcome(env, now, base, left, continueOnFailure, w, ran, NextQueuedTask(w.tasks, now).value);
      DrainEffectAfter(env, now, base, left, continueOnFailure, w, ran, o);
    }
  }

  /** A pass keeps DrainFacts: given what its dispatch o did, the pass and the passes after
      it promise what the passes after it promise, one task more. */
  lemma {:induction false} DrainEffectAfter(env: Env, now: int, base: nat, left: nat, continueOnFailure: bool,
                                            w: World, ran: nat, o: Outcome)
    requires left > 0 && NextFacts(env, now, base, w, o)
    ensures o.code != 0 && !continueOnFailure ==>
            DrainFacts(env, now, base, left, continueOnFailure, w, ran, Drain(o.world, o.code, ran + 1, o.next))
    ensures !(o.code != 0 && !continueOnFailure) ==>
            DrainFacts(env, now, base, left, continueOnFailure, w, ran,
                       DrainRun(env, now, o.next, left - 1, continueOnFailure, o.world, ran + 1))
    decreases left, 0
  {
    if !(o.code != 0 && !continueOnFailure) {
      DrainRunEffect(env, now, o.next, left - 1, continueOnFailure, o.world, ran + 1);
      var d := DrainRun(env, now, o.next, left - 1, continueOnFailure, o.world, ran + 1);
      assert TaskIds(d.world.tasks) == TaskIds(w.tasks);
      assert DistinctIds(TaskIds(w.tasks)) ==> DistinctIds(TaskIds(o.world.tasks));
      assert SamePipelines(w.pipelines, d.world.pipelines) by {
        assert SamePipelines(w.pipelines, o.world.pipelines) && SamePipelines(o.world.pipelines, d.world.pipelines);
      }
      assert SameDebates(w.debates, d.world.debates) by {
        assert SameDebates(w.debates, o.world.debates) && SameDebates(o.world.debates, d.world.debates);
      }
    }
  }

  /** drain_queue: refused unless the team is running; otherwise the next ready task is
      dispatched by id until none is left, the limit is reached, or a dispatch fails without
      continueOnFailure. A 0 short of the limit means nothing was left to run; with distinct
      ids no more tasks run than were waiting at the start. */
  method DrainQueue(st: RuntimeState, maxTasks: int, continueOnFailure: bool, env: Env, now: int, base: nat)
    returns (code: int, executed: nat, next: nat)
    modifies st
    ensures old(st.status) != TeamRunning ==>
              code == 1 && executed == 0 && next == base && st.tasks == old(st.tasks) && st.roles == old(st.roles) &&
              st.pipelines == old(st.pipelines) && st.debates == old(st.debates)
    ensures executed <= DrainLimit(maxTasks)
    ensures old(st.status) == TeamRunning && code == 0 && executed < DrainLimit(maxTasks) ==>
              NextQueuedTask(st.tasks, now).None?
    ensures old(st.status) == TeamRunning && code != 0 ==> !continueOnFailure
    ensures DistinctIds(TaskIds(old(st.tasks))) ==> executed <= Pending(old(st.tasks), now)
    ensures |st.tasks| == |old(st.tasks)| && TaskIds(st.tasks) == TaskIds(old(st.tasks))
    ensures SamePipelines(old(st.pipelines), st.pipelines) && SameDebates(old(st.debates), st.debates)
    ensures base <= next
    ensures old(st.status) == TeamRunning ==>
              DrainRun(env, now, base, DrainLimit(maxTasks), continueOnFailure, old(WorldOf(st)), 0) ==
              Drain(WorldOf(st), code, executed, next)
    ensures st.version == old(st.version) && st.status == old(st.status) && st.config == old(st.config)
    ensures st.missing == old(st.missing)
  {
    if st.status != TeamRunning {
      assert SamePipelines(st.pipelines, st.pipelines) && SameDebates(st.debates, st.debates);
      return 1, 0, base;
    }
    DrainRunEffect(env, now, base, DrainLimit(maxTasks), continueOnFailure, WorldOf(st), 0);
    code, executed, next := DrainLoop(st, DrainLimit(maxTasks), continueOnFailure, env, now, base);
  }

  /** One pass of drain_queue's loop on a running team, with `ran` of `limit` tasks run, in
      terms of the passes after it. */
  method DrainOne(st: RuntimeState, i: nat, limit: nat, ran: nat, continueOnFailure: bool, env: Env, now: int, base: nat)
    returns (code: int, next: nat)
    requires st.status == TeamRunning && ran < limit && NextQueuedTask(st.tasks, now) == Some(i)
    modifies st
    ensures DrainRun(env, now, base, limit - ran, continueOnFailure, old(WorldOf(st)), ran) ==
            if code != 0 && !continueOnFailure then Drain(WorldOf(st), code, ran + 1, next)
            else DrainRun(env, now, next, limit - (ran + 1), continueOnFailure, WorldOf(st), ran + 1)
    ensures st.version == old(st.version) && st.status == old(st.status) && st.config == old(st.config)
    ensures st.missing == old(st.missing)
  {
    ghost var w := WorldOf(st);
    code, next := DispatchNext(st, i, env, now, base);
    DrainRunPass(env, now, base, limit - ran, continueOnFailure, w, ran, i, Outcome(WorldOf(st), code, next));
  }

  /** drain_queue's loop, once the team is known to be running. */
  method DrainLoop(st: RuntimeState, limit: nat, continueOnFailure: bool, env: Env, now: int, base: nat)
    returns (code: int, executed: nat, next: nat)
    requires st.status == TeamRunning
    modifies st
    ensures DrainRun(env, now, base, limit, continueOnFailure, old(WorldOf(st)), 0) ==
            Drain(WorldOf(st), code, executed, next)
    ensures st.version == old(st.version) && st.status == old(st.status) && st.config == old(st.config)
    ensures st.missing == old(st.missing)
  {
    executed, next := 0, base;
    ghost var total := DrainRun(env, now, base, limit, continueOnFailure, WorldOf(st), 0);
    while executed < limit
      invariant executed <= limit
      invariant total == DrainRun(env, now, next, limit - executed, continueOnFailure, WorldOf(st), executed)
      invariant st.version == old(st.version) && st.status == old(st.status) && st.config == old(st.config)
      invariant st.missing == old(st.missing)
      decreases limit - executed
    {
      var found := NextQueuedTask(st.tasks, now);
      if found.None? {
        DrainRunStop(env, now, next, limit - executed, continueOnFailure, WorldOf(st), executed);
        break;
      }
      var c, n := DrainOne(st, found.value, limit, executed, continueOnFailure, env, now, next);
      executed, next := executed + 1, n;
      if c != 0 && !continueOnFailure {
        return c, executed, next;
      }
    }
    code := 0;
  }
}
