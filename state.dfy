// The orchestrator's runtime state document and the operations that change it in place:
// construction and schema migration, role registration, task enqueueing, the pipeline and
// debate factories, deferral, crash recovery and the pipeline/debate status refresh.

module StateStore {
  import opened Text
  import opened JsonValue
  import opened TaskGraph

  /** The top-level keys ensure_state_schema restores when a stored document lacks them. */
  datatype StateKey = VersionKey | PipelinesKey | DebatesKey | ConfigKey | RolesKey | TasksKey

  const SchemaVersion := 3

  // ---------------------------------------------------------------- migration of one entry

  /** The fixes ensure_state_schema applies to one role record: missing session backend and
      model become None, and a session without a backend is taken to be a codex session. */
  function MigrateRole(r: RoleState): RoleState {
    var r1 := if r.sessionBackend == Absent then r.(sessionBackend := Null) else r;
    var r2 := if r1.sessionModel == Absent then r1.(sessionModel := Null) else r1;
    if !SlotTruthy(r2.sessionBackend) && SlotTruthy(r2.sessionId) then
      r2.(sessionBackend := Str("codex"), sessionModel := if r2.sessionModel == Null then Str("") else r2.sessionModel)
    else r2
  }

  /** The conditions under which the role loop of ensure_state_schema reports a change. */
  predicate RoleNeedsMigration(r: RoleState) {
    r.sessionBackend == Absent || r.sessionModel == Absent ||
    (!SlotTruthy(if r.sessionBackend == Absent then Null else r.sessionBackend) && SlotTruthy(r.sessionId))
  }

  /** A change is reported exactly when the record changes, and a migrated record needs no
      further migration. */
  lemma {:induction false} MigrateRoleFacts(r: RoleState)
    ensures RoleNeedsMigration(r) <==> MigrateRole(r) != r
    ensures MigrateRole(MigrateRole(r)) == MigrateRole(r)
    ensures !RoleNeedsMigration(MigrateRole(r))
  {
  }

  function WithMetadata(t: Task): (r: Task)
    ensures r.metadata.Some?
  {
    if t.metadata.None? then t.(metadata := Some([])) else t
  }

  function WithMetadataAll(ts: seq<Task>): (r: seq<Task>)
    ensures |r| == |ts| && forall i :: 0 <= i < |ts| ==> r[i] == WithMetadata(ts[i])
  {
    seq(|ts|, i requires 0 <= i < |ts| => WithMetadata(ts[i]))
  }

  /** The role map once every configured role id has a record. */
  function WithRoles(base: map<string, RoleState>, ids: seq<string>): (r: map<string, RoleState>)
    ensures forall k :: k in r <==> k in base || k in ids
    ensures forall k :: k in r ==> r[k] == if k in base then base[k] else FreshRole
  {
    map k | k in base.Keys + (set j | 0 <= j < |ids| :: ids[j]) :: if k in base then base[k] else FreshRole
  }

  function MigrateRoles(m: map<string, RoleState>): (r: map<string, RoleState>)
    ensures r.Keys == m.Keys && forall k :: k in m ==> r[k] == MigrateRole(m[k])
  {
    map k | k in m :: MigrateRole(m[k])
  }

  /** Registering the roles of a list one at a time, from nothing to all of them. */
  lemma {:induction false} WithRolesStep(base: map<string, RoleState>, ids: seq<string>, i: nat)
    requires i < |ids|
    ensures WithRoles(base, ids[..i + 1]) == EnsuredRole(WithRoles(base, ids[..i]), ids[i])
  {
    assert ids[..i + 1] == ids[..i] + [ids[i]];
  }

  lemma {:induction false} WithRolesEnds(base: map<string, RoleState>, ids: seq<string>)
    ensures WithRoles(base, ids[..0]) == base
    ensures WithRoles(base, ids[..|ids|]) == WithRoles(base, ids)
  {
    assert ids[..|ids|] == ids;
  }

  /** ensure_role on a role map. */
  function EnsuredRole(roles: map<string, RoleState>, role: string): (r: map<string, RoleState>)
    ensures role in r && r.Keys == roles.Keys + {role}
    ensures forall k :: k in roles ==> r[k] == roles[k]
    ensures role !in roles ==> r[role] == FreshRole
  {
    if role in roles then roles else roles[role := FreshRole]
  }

  // ---------------------------------------------------------------- task records

  /** The metadata a pipeline stage is enqueued with. */
  function StageMetadata(pipelineId: string, index: nat, count: nat, deps: seq<string>): Fields {
    [("pipeline_id", JStr(pipelineId)), ("stage_index", JNum(index)), ("stage_count", JNum(count)),
     ("depends_on_task_ids", IdList(deps))]
  }

  /** The metadata a debate task is enqueued with. */
  function DebateMetadata(debateId: string, stage: string, deps: seq<string>): Fields {
    [("debate_id", JStr(debateId)), ("debate_stage", JStr(stage)), ("depends_on_task_ids", IdList(deps))]
  }

  function IdList(ids: seq<string>): Json {
    JArr(seq(|ids|, i requires 0 <= i < |ids| => JStr(ids[i])))
  }

  /** The dependencies a stage or debate task reads back are exactly the ids it was given. */
  lemma {:induction false} StageDependencies(t: Task, pipelineId: string, index: nat, count: nat, deps: seq<string>)
    requires t.metadata == Some(StageMetadata(pipelineId, index, count, deps))
    ensures TaskDependencies(t) == deps
  {
    var md := StageMetadata(pipelineId, index, count, deps);
    assert md[|md| - 1].0 == "depends_on_task_ids";
  }

  lemma {:induction false} DebateDependencies(t: Task, debateId: string, stage: string, deps: seq<string>)
    requires t.metadata == Some(DebateMetadata(debateId, stage, deps))
    ensures TaskDependencies(t) == deps
  {
    var md := DebateMetadata(debateId, stage, deps);
    assert md[|md| - 1].0 == "depends_on_task_ids";
  }

  /** A queued task record with no run history and no session yet. */
  function QueuedTask(id: string, role: string, title: string, description: string, metadata: Fields, now: int): Task {
    Task(id, role, title, description, Queued, now, now, None, None, Null, None, None, Some(metadata))
  }

  /** The record enqueue_task appends: title and description are stored stripped. */
  function NewTask(id: string, role: string, title: string, description: string, metadata: Fields, now: int): Task {
    QueuedTask(id, role, Strip(title), Strip(description), metadata, now)
  }

  /** Each text as enqueue_task stores it. */
  function Stripped(texts: seq<string>): (r: seq<string>)
    ensures |r| == |texts|
  {
    seq(|texts|, i requires 0 <= i < |texts| => Strip(texts[i]))
  }

  lemma {:induction false} StrippedAt(texts: seq<string>, i: nat)
    requires i < |texts|
    ensures Stripped(texts)[i] == Strip(texts[i])
  {
  }

  function StageTitle(pipelineId: string, title: string, role: string): string {
    "[" + pipelineId + "] " + title + " :: " + role
  }

  /** The fixed notes closing every stage description. */
  const PipelineNotes: string :=
    "Execution notes:\n" +
    "- Keep output concise and artifact-based.\n" +
    "- Read handoff context from previous stage outputs if available.\n" +
    "- Include risks and next handoff in final report.\n" +
    "- Follow output contract schema at team/config/output_contract.schema.json.\n"

  /** The stage description create_pipeline writes; `template` is the stage template (the
      stripped text of the role's template file, "" when there is none) and `notes` is
      PipelineNotes, passed in so that reasoning about descriptions need not expand it. */
  function StageDescription(pipelineId: string, index: nat, count: nat, role: string, brief: string,
                            template: string, notes: string): string {
    "Pipeline ID: " + pipelineId + "\n" +
    "Stage: " + NatToString(index) + "/" + NatToString(count) + "\n" +
    "Role: " + role + "\n" +
    "Project brief:\n" + brief + "\n\n" +
    notes +
    (if template != "" then "\nStage template:\n" + template + "\n" else "")
  }

  /** The fixed instructions closing every participant description. */
  const ParticipantNotes: string :=
    "Debate instructions:\n" +
    "- Argue one distinct approach with concrete tradeoffs.\n" +
    "- Challenge assumptions and mention risks.\n" +
    "- Give actionable recommendations for the moderator.\n" +
    "- Follow output contract schema at team/config/output_contract.schema.json.\n"

  /** A participant's description; `notes` is ParticipantNotes. */
  function ParticipantDescription(debateId: string, role: string, topic: string, notes: string): string {
    "Debate ID: " + debateId + "\n" +
    "Role: " + role + "\n" +
    "Topic:\n" + topic + "\n\n" +
    notes
  }

  /** The fixed instructions closing the moderator description. */
  const ModeratorNotes: string :=
    "Moderator instructions:\n" +
    "- Read all participant outputs.\n" +
    "- Summarize agreements and disagreements.\n" +
    "- Produce final recommendation with rationale and next tasks.\n" +
    "- Follow output contract schema at team/config/output_contract.schema.json.\n"

  /** The moderator's description; `notes` is ModeratorNotes. */
  function ModeratorDescription(debateId: string, moderator: string, topic: string, notes: string): string {
    "Debate ID: " + debateId + "\n" +
    "Moderator: " + moderator + "\n" +
    "Topic:\n" + topic + "\n\n" +
    notes
  }

  /** set_task_retry at instant `now`: back to queued until now + max(minutes, 1) minutes. */
  function Retried(t: Task, deferMinutes: int, reason: string, now: int): Task {
    var md := Put(Metadata(t), "retry_at", JNum(now + 60 * (if deferMinutes > 1 then deferMinutes else 1)));
    t.(metadata := Some(md), status := Queued, updatedAt := now, startedAt := None, finishedAt := None,
       error := Some(reason))
  }

  /** A retried task is queued and deferred for at least a minute and at most the requested
      time, and no longer deferred after that. */
  lemma {:induction false} RetriedDeferral(t: Task, deferMinutes: int, reason: string, now: int, later: int)
    ensures Retried(t, deferMinutes, reason, now).status == Queued
    ensures RetryAt(Retried(t, deferMinutes, reason, now)) == Some(now + 60 * (if deferMinutes > 1 then deferMinutes else 1))
    ensures IsTaskDeferred(Retried(t, deferMinutes, reason, now), later) <==>
            later < now + 60 * (if deferMinutes > 1 then deferMinutes else 1)
    ensures IsTaskDeferred(Retried(t, deferMinutes, reason, now), now)
  {
    PutGet(Metadata(t), "retry_at", JNum(now + 60 * (if deferMinutes > 1 then deferMinutes else 1)), "retry_at");
  }

  const RecoveredPrefix := "Recovered inflight task: "

  /** What recover_inflight_tasks does to one task. */
  function Recovered(t: Task, reason: string, now: int): Task {
    if t.status == Running then
      t.(status := Queued, updatedAt := now, startedAt := None, finishedAt := None,
         error := Some(RecoveredPrefix + reason))
    else t
  }

  function CountRunning(ts: seq<Task>): (n: nat)
    ensures n <= |ts|
  {
    if |ts| == 0 then 0
    else CountRunning(ts[..|ts| - 1]) + (if ts[|ts| - 1].status == Running then 1 else 0)
  }

  /** The count is zero exactly when no task is running. */
  lemma {:induction false} CountRunningZero(ts: seq<Task>)
    ensures CountRunning(ts) == 0 <==> forall i :: 0 <= i < |ts| ==> ts[i].status != Running
  {
    if |ts| > 0 {
      var init := ts[..|ts| - 1];
      CountRunningZero(init);
      assert forall i :: 0 <= i < |init| ==> init[i] == ts[i];
    }
  }

  /** Counting one more task adds one exactly when that task is running. */
  lemma {:induction false} CountRunningSnoc(ts: seq<Task>, i: nat)
    requires i < |ts|
    ensures CountRunning(ts[..i + 1]) == CountRunning(ts[..i]) + (if ts[i].status == Running then 1 else 0)
  {
    assert ts[..i + 1][..i] == ts[..i];
  }

  /** After recovery nothing is running, and every task that was not running is untouched. */
  lemma {:induction false} RecoveryLeavesNothingRunning(ts: seq<Task>, reason: string, now: int)
    ensures forall i :: 0 <= i < |ts| ==> Recovered(ts[i], reason, now).status != Running
    ensures forall i :: 0 <= i < |ts| && ts[i].status != Running ==> Recovered(ts[i], reason, now) == ts[i]
    ensures forall i :: 0 <= i < |ts| && ts[i].status == Running ==>
              Recovered(ts[i], reason, now).status == Queued &&
              Recovered(ts[i], reason, now).startedAt.None? &&
              Recovered(ts[i], reason, now).finishedAt.None? &&
              Recovered(ts[i], reason, now).error == Some(RecoveredPrefix + reason)
  {
  }

  function FindPipeline(ps: seq<Pipeline>, id: string): (r: Option<nat>)
    ensures r.Some? ==> r.value < |ps| && ps[r.value].id == id &&
                        forall j :: 0 <= j < r.value ==> ps[j].id != id
    ensures r.None? ==> forall j :: 0 <= j < |ps| ==> ps[j].id != id
  {
    if |ps| == 0 then None
    else if ps[0].id == id then Some(0)
    else match FindPipeline(ps[1..], id)
      case None => None
      case Some(j) => Some(j + 1)
  }

  function FindDebate(ds: seq<Debate>, id: string): (r: Option<nat>)
    ensures r.Some? ==> r.value < |ds| && ds[r.value].id == id &&
                        forall j :: 0 <= j < r.value ==> ds[j].id != id
    ensures r.None? ==> forall j :: 0 <= j < |ds| ==> ds[j].id != id
  {
    if |ds| == 0 then None
    else if ds[0].id == id then Some(0)
    else match FindDebate(ds[1..], id)
      case None => None
      case Some(j) => Some(j + 1)
  }

  lemma {:induction false} SomeKeyMissing(s: set<StateKey>)
    ensures s != {} <==>
            VersionKey in s || PipelinesKey in s || DebatesKey in s || ConfigKey in s ||
            RolesKey in s || TasksKey in s
  {
    if s != {} {
      var k :| k in s;
      match k
      case VersionKey =>
      case PipelinesKey =>
      case DebatesKey =>
      case ConfigKey =>
      case RolesKey =>
      case TasksKey =>
    }
  }

  /** The document has every key, every configured role, only migrated role records and a
      metadata dict on every task. */
  predicate MigratedForm(missing: set<StateKey>, roles: map<string, RoleState>, tasks: seq<Task>,
                         roleIds: seq<string>) {
    missing == {} &&
    (forall r :: r in roleIds ==> r in roles) &&
    (forall r :: r in roles ==> !RoleNeedsMigration(roles[r])) &&
    (forall i :: 0 <= i < |tasks| ==> tasks[i].metadata.Some?)
  }

  function BaseRoles(missing: set<StateKey>, roles: map<string, RoleState>): map<string, RoleState> {
    if RolesKey in missing then map[] else roles
  }

  function BaseTasks(missing: set<StateKey>, tasks: seq<Task>): seq<Task> {
    if TasksKey in missing then [] else tasks
  }

  /** When ensure_state_schema reports a change: a key is missing, a configured role is
      absent, a role record needs migration or a task lacks metadata. */
  predicate SchemaChange(missing: set<StateKey>, roles: map<string, RoleState>, tasks: seq<Task>,
                         roleIds: seq<string>) {
    var base := BaseRoles(missing, roles);
    var added := WithRoles(base, roleIds);
    var ts := BaseTasks(missing, tasks);
    (VersionKey in missing || PipelinesKey in missing || DebatesKey in missing || ConfigKey in missing ||
     RolesKey in missing) ||
    (exists j :: 0 <= j < |roleIds| && roleIds[j] !in base) ||
    (exists k :: k in added && RoleNeedsMigration(added[k])) ||
    TasksKey in missing ||
    (exists i :: 0 <= i < |ts| && ts[i].metadata.None?)
  }

  /** ensure_state_schema reports a change exactly when the document was not yet migrated. */
  lemma {:induction false} SchemaChangeIff(missing: set<StateKey>, roles: map<string, RoleState>, tasks: seq<Task>,
                        roleIds: seq<string>)
    ensures SchemaChange(missing, roles, tasks, roleIds) <==> !MigratedForm(missing, roles, tasks, roleIds)
  {
    SomeKeyMissing(missing);
    var added := WithRoles(roles, roleIds);
    forall k | k in added && RoleNeedsMigration(added[k])
      ensures k in roles && RoleNeedsMigration(roles[k])
    {
    }
    if missing == {} && !SchemaChange(missing, roles, tasks, roleIds) {
      assert forall r :: r in roleIds ==> r in roles;
      assert forall r :: r in roles ==> r in added && added[r] == roles[r];
    }
  }

  /** The document ensure_state_schema leaves behind is in migrated form. */
  lemma {:induction false} SchemaResult(missing: set<StateKey>, roles: map<string, RoleState>, tasks: seq<Task>,
                     roleIds: seq<string>)
    ensures MigratedForm({}, MigrateRoles(WithRoles(BaseRoles(missing, roles), roleIds)),
                         WithMetadataAll(BaseTasks(missing, tasks)), roleIds)
  {
    var added := WithRoles(BaseRoles(missing, roles), roleIds);
    forall k | k in added
      ensures !RoleNeedsMigration(MigrateRoles(added)[k])
    {
      MigrateRoleFacts(added[k]);
    }
  }

  lemma {:induction false} PrefixesUndashed()
    ensures '-' !in "TASK" && '-' !in "PIPE" && '-' !in "DEBATE"
  {
  }

  function DebateTitle(debateId: string, title: string, who: string): string {
    "[" + debateId + "] " + title + " :: " + who
  }

  /** The stage titles create_pipeline passes to enqueue_task, in stage order. */
  function StageTitles(pipelineId: string, title: string, stageRoles: seq<string>): (r: seq<string>)
    ensures |r| == |stageRoles|
  {
    seq(|stageRoles|, i requires 0 <= i < |stageRoles| => StageTitle(pipelineId, title, stageRoles[i]))
  }

  /** The stage descriptions create_pipeline passes to enqueue_task, in stage order. */
  function StageDescriptions(pipelineId: string, stageRoles: seq<string>, brief: string,
                             template: string -> string, notes: string): (r: seq<string>)
    ensures |r| == |stageRoles|
  {
    seq(|stageRoles|, i requires 0 <= i < |stageRoles| =>
      StageDescription(pipelineId, i + 1, |stageRoles|, stageRoles[i], brief, template(stageRoles[i]), notes))
  }

  lemma {:induction false} StageTextsAt(pipelineId: string, title: string, brief: string, stageRoles: seq<string>,
                     template: string -> string, notes: string, i: nat)
    requires i < |stageRoles|
    ensures StageTitles(pipelineId, title, stageRoles)[i] == StageTitle(pipelineId, title, stageRoles[i])
    ensures StageDescriptions(pipelineId, stageRoles, brief, template, notes)[i] ==
            StageDescription(pipelineId, i + 1, |stageRoles|, stageRoles[i], brief, template(stageRoles[i]), notes)
  {
  }

  /** The i-th task create_pipeline enqueues, given the allocated ids and the stored texts. */
  /** What a stage depends on: the id of the stage before it, nothing for the first. */
  function PreviousStage(ids: seq<string>): seq<string> {
    if |ids| == 0 then [] else [ids[|ids| - 1]]
  }

  function StageTask(pipelineId: string, stageRoles: seq<string>, titles: seq<string>, descriptions: seq<string>,
                     i: nat, ids: seq<string>, now: int): Task
    requires i < |stageRoles| && i < |titles| && i < |descriptions| && i < |ids|
  {
    QueuedTask(ids[i], stageRoles[i], titles[i], descriptions[i],
               StageMetadata(pipelineId, i + 1, |stageRoles|, if i == 0 then [] else [ids[i - 1]]), now)
  }

  lemma {:induction false} TaskIdsAppend(ts: seq<Task>, t: Task)
    ensures TaskIds(ts + [t]) == TaskIds(ts) + [t.id]
  {
  }

  lemma {:induction false} PipelineIdsAppend(ps: seq<Pipeline>, p: Pipeline)
    ensures PipelineIds(ps + [p]) == PipelineIds(ps) + [p.id]
  {
  }

  lemma {:induction false} DebateIdsAppend(ds: seq<Debate>, d: Debate)
    ensures DebateIds(ds + [d]) == DebateIds(ds) + [d.id]
  {
  }

  /** The tasks create_pipeline enqueues for the first |ids| stages, in order. */
  function StageTasks(pipelineId: string, stageRoles: seq<string>, titles: seq<string>, descriptions: seq<string>,
                      ids: seq<string>, now: int): (r: seq<Task>)
    requires |ids| <= |stageRoles| && |ids| <= |titles| && |ids| <= |descriptions|
    ensures |r| == |ids|
  {
    if |ids| == 0 then []
    else StageTasks(pipelineId, stageRoles, titles, descriptions, ids[..|ids| - 1], now) +
         [StageTask(pipelineId, stageRoles, titles, descriptions, |ids| - 1, ids, now)]
  }

  lemma {:induction false} StageTasksExtend(pipelineId: string, stageRoles: seq<string>, titles: seq<string>, descriptions: seq<string>,
                         ids: seq<string>, id: string, now: int)
    requires |ids| < |stageRoles| && |ids| < |titles| && |ids| < |descriptions|
    ensures StageTasks(pipelineId, stageRoles, titles, descriptions, ids + [id], now) ==
            StageTasks(pipelineId, stageRoles, titles, descriptions, ids, now) +
            [StageTask(pipelineId, stageRoles, titles, descriptions, |ids|, ids + [id], now)]
  {
    assert (ids + [id])[..|ids|] == ids;
  }

  /** The task enqueued for stage |ids| + 1 extends the stages enqueued so far. */
  lemma {:induction false} StageStep(pipelineId: string, title: string, brief: string, stageRoles: seq<string>,
                  template: string -> string, notes: string, ids: seq<string>, dependsOn: seq<string>, t: Task, now: int)
    requires |ids| < |stageRoles|
    requires dependsOn == PreviousStage(ids)
    requires t == NewTask(t.id, stageRoles[|ids|], StageTitle(pipelineId, title, stageRoles[|ids|]),
                          StageDescription(pipelineId, |ids| + 1, |stageRoles|, stageRoles[|ids|], brief,
                                           template(stageRoles[|ids|]), notes),
                          StageMetadata(pipelineId, |ids| + 1, |stageRoles|, dependsOn), now)
    ensures StageTasks(pipelineId, stageRoles, Stripped(StageTitles(pipelineId, title, stageRoles)),
                       Stripped(StageDescriptions(pipelineId, stageRoles, brief, template, notes)), ids + [t.id], now) ==
            StageTasks(pipelineId, stageRoles, Stripped(StageTitles(pipelineId, title, stageRoles)),
                       Stripped(StageDescriptions(pipelineId, stageRoles, brief, template, notes)), ids, now) + [t]
  {
    var texts := StageTitles(pipelineId, title, stageRoles);
    var bodies := StageDescriptions(pipelineId, stageRoles, brief, template, notes);
    var titles := Stripped(texts);
    var descriptions := Stripped(bodies);
    var i := |ids|;
    StageTextsAt(pipelineId, title, brief, stageRoles, template, notes, i);
    StrippedAt(texts, i);
    StrippedAt(bodies, i);
    var all := ids + [t.id];
    assert dependsOn == if i == 0 then [] else [all[i - 1]];
    assert t == StageTask(pipelineId, stageRoles, titles, descriptions, i, all, now);
    StageTasksExtend(pipelineId, stageRoles, titles, descriptions, ids, t.id, now);
  }

  /** Element i of the enqueued stages is stage i's task. */
  lemma {:induction false} StageTasksAt(pipelineId: string, stageRoles: seq<string>, titles: seq<string>,
                                        descriptions: seq<string>, ids: seq<string>, now: int)
    requires |ids| <= |stageRoles| && |ids| <= |titles| && |ids| <= |descriptions|
    ensures forall i :: 0 <= i < |ids| ==>
              StageTasks(pipelineId, stageRoles, titles, descriptions, ids, now)[i] ==
              StageTask(pipelineId, stageRoles, titles, descriptions, i, ids, now)
  {
    if |ids| > 0 {
      var n := |ids| - 1;
      var init := ids[..n];
      StageTasksAt(pipelineId, stageRoles, titles, descriptions, init, now);
      var before := StageTasks(pipelineId, stageRoles, titles, descriptions, init, now);
      var ts := StageTasks(pipelineId, stageRoles, titles, descriptions, ids, now);
      forall i | 0 <= i < n
        ensures ts[i] == StageTask(pipelineId, stageRoles, titles, descriptions, i, ids, now)
      {
        assert ts[i] == before[i];
        assert init[i] == ids[i];
        if i > 0 {
          assert init[i - 1] == ids[i - 1];
        }
      }
    }
  }

  /** The pipeline's stages form a chain: the first depends on nothing, every later one on
      exactly the stage before it; all are queued for their stage's role under the allocated
      ids, in order. */
  lemma {:induction false} PipelineChain(pipelineId: string, stageRoles: seq<string>, titles: seq<string>,
                      descriptions: seq<string>, ids: seq<string>, now: int)
    requires |ids| <= |stageRoles| && |ids| <= |titles| && |ids| <= |descriptions|
    ensures var ts := StageTasks(pipelineId, stageRoles, titles, descriptions, ids, now);
            TaskIds(ts) == ids &&
            (forall i :: 0 <= i < |ts| ==> ts[i].status == Queued && ts[i].role == stageRoles[i]) &&
            (forall i :: 0 <= i < |ts| ==> TaskDependencies(ts[i]) == if i == 0 then [] else [ids[i - 1]])
  {
    var ts := StageTasks(pipelineId, stageRoles, titles, descriptions, ids, now);
    StageTasksAt(pipelineId, stageRoles, titles, descriptions, ids, now);
    forall i | 0 <= i < |ts|
      ensures TaskDependencies(ts[i]) == if i == 0 then [] else [ids[i - 1]]
    {
      StageDependencies(ts[i], pipelineId, i + 1, |stageRoles|, if i == 0 then [] else [ids[i - 1]]);
    }
  }

  /** The participant titles and descriptions create_debate passes to enqueue_task. */
  function PositionTitles(debateId: string, title: string, roles: seq<string>): (r: seq<string>)
    ensures |r| == |roles|
  {
    seq(|roles|, i requires 0 <= i < |roles| => DebateTitle(debateId, title, roles[i]))
  }

  function PositionDescriptions(debateId: string, roles: seq<string>, topic: string, notes: string): (r: seq<string>)
    ensures |r| == |roles|
  {
    seq(|roles|, i requires 0 <= i < |roles| => ParticipantDescription(debateId, roles[i], topic, notes))
  }

  function PositionTask(debateId: string, role: string, title: string, description: string, id: string, now: int): Task {
    QueuedTask(id, role, title, description, DebateMetadata(debateId, "position", []), now)
  }

  /** The participant tasks create_debate enqueues for the first |ids| roles, in order. */
  function PositionTasks(debateId: string, roles: seq<string>, titles: seq<string>, descriptions: seq<string>,
                         ids: seq<string>, now: int): (r: seq<Task>)
    requires |ids| <= |roles| && |ids| <= |titles| && |ids| <= |descriptions|
    ensures |r| == |ids|
  {
    if |ids| == 0 then []
    else
      var n := |ids| - 1;
      PositionTasks(debateId, roles, titles, descriptions, ids[..n], now) +
      [PositionTask(debateId, roles[n], titles[n], descriptions[n], ids[n], now)]
  }

  /** The moderator task create_debate enqueues last, given its stored title and description. */
  function ModerationTask(debateId: string, moderator: string, title: string, description: string,
                          participantIds: seq<string>, id: string, now: int): Task {
    QueuedTask(id, moderator, title, description, DebateMetadata(debateId, "moderation", participantIds), now)
  }

  lemma {:induction false} PositionTasksExtend(debateId: string, roles: seq<string>, titles: seq<string>, descriptions: seq<string>,
                            ids: seq<string>, id: string, now: int)
    requires |ids| < |roles| && |ids| < |titles| && |ids| < |descriptions|
    ensures PositionTasks(debateId, roles, titles, descriptions, ids + [id], now) ==
            PositionTasks(debateId, roles, titles, descriptions, ids, now) +
            [PositionTask(debateId, roles[|ids|], titles[|ids|], descriptions[|ids|], id, now)]
  {
    assert (ids + [id])[..|ids|] == ids;
  }

  /** Element i of the enqueued participant tasks is participant i's task. */
  lemma {:induction false} PositionTasksAt(debateId: string, roles: seq<string>, titles: seq<string>,
                                           descriptions: seq<string>, ids: seq<string>, now: int)
    requires |ids| <= |roles| && |ids| <= |titles| && |ids| <= |descriptions|
    ensures forall i :: 0 <= i < |ids| ==>
              PositionTasks(debateId, roles, titles, descriptions, ids, now)[i] ==
              PositionTask(debateId, roles[i], titles[i], descriptions[i], ids[i], now)
  {
    if |ids| > 0 {
      var n := |ids| - 1;
      PositionTasksAt(debateId, roles, titles, descriptions, ids[..n], now);
      var before := PositionTasks(debateId, roles, titles, descriptions, ids[..n], now);
      var ts := PositionTasks(debateId, roles, titles, descriptions, ids, now);
      forall i | 0 <= i < n
        ensures ts[i] == PositionTask(debateId, roles[i], titles[i], descriptions[i], ids[i], now)
      {
        assert ts[i] == before[i];
        assert ids[..n][i] == ids[i];
      }
    }
  }

  /** Participants can run in any order, since none depends on anything. */
  lemma {:induction false} DebateFanIn(debateId: string, roles: seq<string>, titles: seq<string>,
                    descriptions: seq<string>, ids: seq<string>, now: int)
    requires |ids| <= |roles| && |ids| <= |titles| && |ids| <= |descriptions|
    ensures var ts := PositionTasks(debateId, roles, titles, descriptions, ids, now);
            TaskIds(ts) == ids &&
            (forall i :: 0 <= i < |ts| ==> ts[i].status == Queued && ts[i].role == roles[i]) &&
            (forall i :: 0 <= i < |ts| ==> TaskDependencies(ts[i]) == [])
  {
    var ts := PositionTasks(debateId, roles, titles, descriptions, ids, now);
    PositionTasksAt(debateId, roles, titles, descriptions, ids, now);
    forall i | 0 <= i < |ts|
      ensures TaskDependencies(ts[i]) == []
    {
      DebateDependencies(ts[i], debateId, "position", []);
    }
  }

  /** The moderator waits for every participant of its debate. */
  lemma {:induction false} ModeratorWaitsForAll(debateId: string, moderator: string, title: string, description: string,
                             participantIds: seq<string>, id: string, now: int)
    ensures TaskDependencies(ModerationTask(debateId, moderator, title, description, participantIds, id, now))
            == participantIds
  {
    DebateDependencies(ModerationTask(debateId, moderator, title, description, participantIds, id, now),
                       debateId, "moderation", participantIds);
  }

  /** The id enqueue_task allocates is fresh, keeps every id numbered and advances the next
      task number by one. */
  lemma {:induction false} EnqueuedIds(ts: seq<Task>, t: Task)
    requires AllNumbered(TaskIds(ts))
    requires t.id == NextId("TASK", TaskIds(ts)).value
    ensures t.id !in TaskIds(ts)
    ensures AllNumbered(TaskIds(ts + [t]))
    ensures NextNumber(TaskIds(ts + [t])).value == NextNumber(TaskIds(ts)).value + 1
  {
    PrefixesUndashed();
    NextIdFresh("TASK", TaskIds(ts));
    NextNumberStep("TASK", TaskIds(ts));
    TaskIdsAppend(ts, t);
  }

  lemma {:induction false} AppendAssociates(base: seq<Task>, added: seq<Task>, t: Task)
    ensures base + added + [t] == base + (added + [t])
  {
  }

  /** Allocating the next task id while the ids allocated so far are consecutive from `first`
      extends them by the next consecutive id. */
  lemma {:induction false} TaskIdStep(ids: seq<string>, ts: seq<Task>, first: nat, t: Task)
    requires ids == Consecutive("TASK", first, |ids|)
    requires AllNumbered(TaskIds(ts)) && NextNumber(TaskIds(ts)).value == first + |ids|
    requires t.id == NextId("TASK", TaskIds(ts)).value
    ensures t.id == FormatId("TASK", first + |ids|)
    ensures ids + [t.id] == Consecutive("TASK", first, |ids| + 1)
    ensures AllNumbered(TaskIds(ts + [t])) && NextNumber(TaskIds(ts + [t])).value == first + |ids| + 1
  {
    EnqueuedIds(ts, t);
    ConsecutiveExtend("TASK", first, |ids|);
  }

  /** One stage of create_pipeline on values: appending the task enqueue_task builds for
      stage |ids| + 1 keeps the enqueued stages, the consecutive ids and the next task number
      in step. */
  lemma {:induction false} StageProgress(pipelineId: string, title: string, brief: string, stageRoles: seq<string>,
                      template: string -> string, notes: string, ids: seq<string>, dependsOn: seq<string>, now: int,
                      base: seq<Task>, ts: seq<Task>, first: nat, t: Task)
    requires |ids| < |stageRoles|
    requires dependsOn == PreviousStage(ids)
    requires ids == Consecutive("TASK", first, |ids|)
    requires ts == base + StageTasks(pipelineId, stageRoles, Stripped(StageTitles(pipelineId, title, stageRoles)),
                                     Stripped(StageDescriptions(pipelineId, stageRoles, brief, template, notes)), ids, now)
    requires AllNumbered(TaskIds(ts)) && NextNumber(TaskIds(ts)).value == first + |ids|
    requires t == NewTask(NextId("TASK", TaskIds(ts)).value, stageRoles[|ids|],
                          StageTitle(pipelineId, title, stageRoles[|ids|]),
                          StageDescription(pipelineId, |ids| + 1, |stageRoles|, stageRoles[|ids|], brief,
                                           template(stageRoles[|ids|]), notes),
                          StageMetadata(pipelineId, |ids| + 1, |stageRoles|, dependsOn), now)
    ensures t.id == FormatId("TASK", first + |ids|)
    ensures ids + [t.id] == Consecutive("TASK", first, |ids| + 1)
    ensures ts + [t] == base + StageTasks(pipelineId, stageRoles, Stripped(StageTitles(pipelineId, title, stageRoles)),
                                          Stripped(StageDescriptions(pipelineId, stageRoles, brief, template, notes)),
                                          ids + [t.id], now)
    ensures AllNumbered(TaskIds(ts + [t])) && NextNumber(TaskIds(ts + [t])).value == first + |ids| + 1
  {
    TaskIdStep(ids, ts, first, t);
    var before := StageTasks(pipelineId, stageRoles, Stripped(StageTitles(pipelineId, title, stageRoles)),
                             Stripped(StageDescriptions(pipelineId, stageRoles, brief, template, notes)), ids, now);
    StageStep(pipelineId, title, brief, stageRoles, template, notes, ids, dependsOn, t, now);
    AppendAssociates(base, before, t);
  }

  /** What create_pipeline's stage loop keeps after enqueuing stages 1..|ids|: `ids` are
      consecutive task ids from number `first`, `ts` is `base` followed by those stage tasks,
      the next task number is one past them, every stage role so far has a record, and
      `dependsOn` names the last stage enqueued. */
  ghost predicate StagesEnqueued(pipelineId: string, title: string, brief: string, stageRoles: seq<string>,
                                 template: string -> string, notes: string, now: int,
                                 base: seq<Task>, baseRoles: map<string, RoleState>, first: nat,
                                 ids: seq<string>, dependsOn: seq<string>, ts: seq<Task>, roles: map<string, RoleState>)
  {
    && |ids| <= |stageRoles|
    && dependsOn == PreviousStage(ids)
    && ids == Consecutive("TASK", first, |ids|)
    && ts == base + StageTasks(pipelineId, stageRoles, Stripped(StageTitles(pipelineId, title, stageRoles)),
                               Stripped(StageDescriptions(pipelineId, stageRoles, brief, template, notes)), ids, now)
    && AllNumbered(TaskIds(ts)) && NextNumber(TaskIds(ts)).value == first + |ids|
    && roles == WithRoles(baseRoles, stageRoles[..|ids|])
  }

  /** One pass of the stage loop on values: enqueue_task's new task and role map for stage
      |ids| + 1 keep StagesEnqueued, and the new id is the next consecutive one. */
  lemma {:induction false} StageLoopStep(pipelineId: string, title: string, brief: string, stageRoles: seq<string>,
                      template: string -> string, notes: string, now: int,
                      base: seq<Task>, baseRoles: map<string, RoleState>, first: nat,
                      ids: seq<string>, dependsOn: seq<string>, ts: seq<Task>, roles: map<string, RoleState>, t: Task)
    requires |ids| < |stageRoles|
    requires StagesEnqueued(pipelineId, title, brief, stageRoles, template, notes, now, base, baseRoles, first,
                            ids, dependsOn, ts, roles)
    requires t == NewTask(NextId("TASK", TaskIds(ts)).value, stageRoles[|ids|],
                          StageTitle(pipelineId, title, stageRoles[|ids|]),
                          StageDescription(pipelineId, |ids| + 1, |stageRoles|, stageRoles[|ids|], brief,
                                           template(stageRoles[|ids|]), notes),
                          StageMetadata(pipelineId, |ids| + 1, |stageRoles|, dependsOn), now)
    ensures t.id == FormatId("TASK", first + |ids|)
    ensures StagesEnqueued(pipelineId, title, brief, stageRoles, template, notes, now, base, baseRoles, first,
                           ids + [t.id], [t.id], ts + [t], EnsuredRole(roles, stageRoles[|ids|]))
  {
    var ids2 := ids + [t.id];
    assert |ids2| == |ids| + 1 && PreviousStage(ids2) == [t.id];
    assert t.id == FormatId("TASK", first + |ids|) && ids2 == Consecutive("TASK", first, |ids2|) &&
           ts + [t] == base + StageTasks(pipelineId, stageRoles, Stripped(StageTitles(pipelineId, title, stageRoles)),
                                         Stripped(StageDescriptions(pipelineId, stageRoles, brief, template, notes)), ids2, now) &&
           AllNumbered(TaskIds(ts + [t])) && NextNumber(TaskIds(ts + [t])).value == first + |ids2| by {
      StageProgress(pipelineId, title, brief, stageRoles, template, notes, ids, dependsOn, now, base, ts, first, t);
    }
    assert EnsuredRole(roles, stageRoles[|ids|]) == WithRoles(baseRoles, stageRoles[..|ids2|]) by {
      WithRolesStep(baseRoles, stageRoles, |ids|);
    }
  }

  /** Before the first stage, nothing is enqueued yet. */
  lemma {:induction false} StagesStart(pipelineId: string, title: string, brief: string, stageRoles: seq<string>,
                    template: string -> string, notes: string, now: int,
                    base: seq<Task>, baseRoles: map<string, RoleState>)
    requires AllNumbered(TaskIds(base))
    ensures StagesEnqueued(pipelineId, title, brief, stageRoles, template, notes, now, base, baseRoles,
                           NextNumber(TaskIds(base)).value, [], [], base, baseRoles)
  {
    WithRolesEnds(baseRoles, stageRoles);
    assert base + [] == base;
  }

  /** After the last stage: every stage task is enqueued, every stage role has a record. */
  lemma {:induction false} StagesDone(pipelineId: string, title: string, brief: string, stageRoles: seq<string>,
                   template: string -> string, notes: string, now: int,
                   base: seq<Task>, baseRoles: map<string, RoleState>, first: nat,
                   ids: seq<string>, dependsOn: seq<string>, ts: seq<Task>, roles: map<string, RoleState>)
    requires |ids| == |stageRoles|
    requires StagesEnqueued(pipelineId, title, brief, stageRoles, template, notes, now, base, baseRoles, first,
                            ids, dependsOn, ts, roles)
    ensures ids == Consecutive("TASK", first, |stageRoles|)
    ensures ts == base + StageTasks(pipelineId, stageRoles, Stripped(StageTitles(pipelineId, title, stageRoles)),
                                    Stripped(StageDescriptions(pipelineId, stageRoles, brief, template, notes)), ids, now)
    ensures AllNumbered(TaskIds(ts)) && NextNumber(TaskIds(ts)).value == first + |stageRoles|
    ensures roles == WithRoles(baseRoles, stageRoles)
  {
    WithRolesEnds(baseRoles, stageRoles);
  }

  lemma {:induction false} PositionTextsAt(debateId: string, title: string, topic: string, participants: seq<string>,
                        notes: string, i: nat)
    requires i < |participants|
    ensures PositionTitles(debateId, title, participants)[i] == DebateTitle(debateId, title, participants[i])
    ensures PositionDescriptions(debateId, participants, topic, notes)[i] ==
            ParticipantDescription(debateId, participants[i], topic, notes)
  {
  }

  /** One participant of create_debate on values: appending the task enqueue_task builds for
      participant |ids| keeps the enqueued positions, the consecutive ids and the next task
      number in step. */
  lemma {:induction false} PositionProgress(debateId: string, title: string, topic: string, participants: seq<string>,
                         notes: string, ids: seq<string>, now: int, base: seq<Task>, ts: seq<Task>,
                         first: nat, t: Task)
    requires |ids| < |participants|
    requires ids == Consecutive("TASK", first, |ids|)
    requires ts == base + PositionTasks(debateId, participants, Stripped(PositionTitles(debateId, title, participants)),
                                        Stripped(PositionDescriptions(debateId, participants, topic, notes)), ids, now)
    requires AllNumbered(TaskIds(ts)) && NextNumber(TaskIds(ts)).value == first + |ids|
    requires t == NewTask(NextId("TASK", TaskIds(ts)).value, participants[|ids|],
                          DebateTitle(debateId, title, participants[|ids|]),
                          ParticipantDescription(debateId, participants[|ids|], topic, notes),
                          DebateMetadata(debateId, "position", []), now)
    ensures t.id == FormatId("TASK", first + |ids|)
    ensures ids + [t.id] == Consecutive("TASK", first, |ids| + 1)
    ensures ts + [t] == base + PositionTasks(debateId, participants, Stripped(PositionTitles(debateId, title, participants)),
                                             Stripped(PositionDescriptions(debateId, participants, topic, notes)),
                                             ids + [t.id], now)
    ensures AllNumbered(TaskIds(ts + [t])) && NextNumber(TaskIds(ts + [t])).value == first + |ids| + 1
  {
    TaskIdStep(ids, ts, first, t);
    var texts := PositionTitles(debateId, title, participants);
    var bodies := PositionDescriptions(debateId, participants, topic, notes);
    var titles := Stripped(texts);
    var descriptions := Stripped(bodies);
    var before := PositionTasks(debateId, participants, titles, descriptions, ids, now);
    PositionTextsAt(debateId, title, topic, participants, notes, |ids|);
    StrippedAt(texts, |ids|);
    StrippedAt(bodies, |ids|);
    assert t == PositionTask(debateId, participants[|ids|], titles[|ids|], descriptions[|ids|], t.id, now);
    PositionTasksExtend(debateId, participants, titles, descriptions, ids, t.id, now);
    AppendAssociates(base, before, t);
  }

  /** What create_debate's participant loop keeps after enqueuing positions 1..|ids|: `ids`
      are consecutive task ids from number `first`, `ts` is `base` followed by those position
      tasks, the next task number is one past them, and every participant so far has a role
      record. */
  ghost predicate PositionsEnqueued(debateId: string, title: string, topic: string, participants: seq<string>,
                                    notes: string, now: int, base: seq<Task>, baseRoles: map<string, RoleState>,
                                    first: nat, ids: seq<string>, ts: seq<Task>, roles: map<string, RoleState>)
  {
    && |ids| <= |participants|
    && ids == Consecutive("TASK", first, |ids|)
    && ts == base + PositionTasks(debateId, participants, Stripped(PositionTitles(debateId, title, participants)),
                                  Stripped(PositionDescriptions(debateId, participants, topic, notes)), ids, now)
    && AllNumbered(TaskIds(ts)) && NextNumber(TaskIds(ts)).value == first + |ids|
    && roles == WithRoles(baseRoles, participants[..|ids|])
  }

  /** One pass of the participant loop on values. */
  lemma {:induction false} PositionLoopStep(debateId: string, title: string, topic: string, participants: seq<string>,
                         notes: string, now: int, base: seq<Task>, baseRoles: map<string, RoleState>,
                         first: nat, ids: seq<string>, ts: seq<Task>, roles: map<string, RoleState>, t: Task)
    requires |ids| < |participants|
    requires PositionsEnqueued(debateId, title, topic, participants, notes, now, base, baseRoles, first, ids, ts, roles)
    requires t == NewTask(NextId("TASK", TaskIds(ts)).value, participants[|ids|],
                          DebateTitle(debateId, title, participants[|ids|]),
                          ParticipantDescription(debateId, participants[|ids|], topic, notes),
                          DebateMetadata(debateId, "position", []), now)
    ensures t.id == FormatId("TASK", first + |ids|)
    ensures PositionsEnqueued(debateId, title, topic, participants, notes, now, base, baseRoles, first,
                              ids + [t.id], ts + [t], EnsuredRole(roles, participants[|ids|]))
  {
    var ids2 := ids + [t.id];
    assert |ids2| == |ids| + 1;
    assert t.id == FormatId("TASK", first + |ids|) && ids2 == Consecutive("TASK", first, |ids2|) &&
           ts + [t] == base + PositionTasks(debateId, participants, Stripped(PositionTitles(debateId, title, participants)),
                                            Stripped(PositionDescriptions(debateId, participants, topic, notes)), ids2, now) &&
           AllNumbered(TaskIds(ts + [t])) && NextNumber(TaskIds(ts + [t])).value == first + |ids2| by {
      PositionProgress(debateId, title, topic, participants, notes, ids, now, base, ts, first, t);
    }
    assert EnsuredRole(roles, participants[|ids|]) == WithRoles(baseRoles, participants[..|ids2|]) by {
      WithRolesStep(baseRoles, participants, |ids|);
    }
  }

  /** Before the first participant, nothing is enqueued yet. */
  lemma {:induction false} PositionsStart(debateId: string, title: string, topic: string, participants: seq<string>,
                       notes: string, now: int, base: seq<Task>, baseRoles: map<string, RoleState>)
    requires AllNumbered(TaskIds(base))
    ensures PositionsEnqueued(debateId, title, topic, participants, notes, now, base, baseRoles,
                              NextNumber(TaskIds(base)).value, [], base, baseRoles)
  {
    WithRolesEnds(baseRoles, participants);
    assert base + [] == base;
  }

  /** After the last participant: every position task is enqueued. */
  lemma {:induction false} PositionsDone(debateId: string, title: string, topic: string, participants: seq<string>,
                      notes: string, now: int, base: seq<Task>, baseRoles: map<string, RoleState>,
                      first: nat, ids: seq<string>, ts: seq<Task>, roles: map<string, RoleState>)
    requires |ids| == |participants|
    requires PositionsEnqueued(debateId, title, topic, participants, notes, now, base, baseRoles, first, ids, ts, roles)
    ensures ids == Consecutive("TASK", first, |participants|)
    ensures ts == base + PositionTasks(debateId, participants, Stripped(PositionTitles(debateId, title, participants)),
                                       Stripped(PositionDescriptions(debateId, participants, topic, notes)), ids, now)
    ensures AllNumbered(TaskIds(ts)) && NextNumber(TaskIds(ts)).value == first + |participants|
    ensures roles == WithRoles(baseRoles, participants)
  {
    WithRolesEnds(baseRoles, participants);
  }

  // ---------------------------------------------------------------- the state document

  class RuntimeState {
    var version: int
    /** The team status: "running" once started, "stopped" otherwise. */
    var status: string
    var config: Fields
    var roles: map<string, RoleState>
    var tasks: seq<Task>
    var pipelines: seq<Pipeline>
    var debates: seq<Debate>
    /** Keys the stored document lacks; the matching fields are then meaningless. */
    var missing: set<StateKey>

    /** The document has every top-level key. */
    predicate Loaded()
      reads this
    {
      missing == {}
    }

    /** Every task, pipeline and debate id has a number, so the next ids can be allocated. */
    predicate Numbered()
      reads this
    {
      AllNumbered(TaskIds(tasks)) && AllNumbered(PipelineIds(pipelines)) && AllNumbered(DebateIds(debates))
    }

    /** What ensure_state_schema establishes. */
    predicate Migrated(roleIds: seq<string>)
      reads this
    {
      MigratedForm(missing, roles, tasks, roleIds)
    }

    /** new_state: version 3, stopped, a fresh record for every configured role, no tasks. */
    constructor (roleIds: seq<string>, baseConfig: Fields)
      ensures version == SchemaVersion && status == "stopped" && config == baseConfig
      ensures roles == WithRoles(map[], roleIds)
      ensures tasks == [] && pipelines == [] && debates == [] && missing == {}
      ensures Migrated(roleIds) && Numbered()
    {
      version := SchemaVersion;
      status := "stopped";
      config := baseConfig;
      roles := WithRoles(map[], roleIds);
      tasks := [];
      pipelines := [];
      debates := [];
      missing := {};
    }

    /** ensure_state_schema: restores missing keys, adds the configured roles, migrates role
        records and gives every task a metadata dict. It reports a change exactly when the
        document was not already in migrated form, so a second run reports none. */
    method EnsureStateSchema(roleIds: seq<string>, baseConfig: Fields) returns (changed: bool)
      modifies this
      ensures version == if VersionKey in old(missing) then SchemaVersion else old(version)
      ensures pipelines == if PipelinesKey in old(missing) then [] else old(pipelines)
      ensures debates == if DebatesKey in old(missing) then [] else old(debates)
      ensures config == if ConfigKey in old(missing) then baseConfig else old(config)
      ensures roles == MigrateRoles(WithRoles(BaseRoles(old(missing), old(roles)), roleIds))
      ensures tasks == WithMetadataAll(BaseTasks(old(missing), old(tasks)))
      ensures status == old(status) && missing == {}
      ensures Migrated(roleIds)
      ensures changed <==> !old(Migrated(roleIds))
    {
      changed := RestoreTopLevelKeys(baseConfig);
      changed := AddConfiguredRoles(roleIds, changed);
      changed := MigrateRoleRecords(changed);
      changed := RestoreTasksKey(changed);
      changed := FillTaskMetadata(changed);
      assert changed == SchemaChange(old(missing), old(roles), old(tasks), roleIds);
      missing := {};
      SchemaChangeIff(old(missing), old(roles), old(tasks), roleIds);
      SchemaResult(old(missing), old(roles), old(tasks), roleIds);
    }

    /** The top-level keys ensure_state_schema restores before it looks at roles. */
    method RestoreTopLevelKeys(baseConfig: Fields) returns (changed: bool)
      modifies this
      ensures version == if VersionKey in old(missing) then SchemaVersion else old(version)
      ensures pipelines == if PipelinesKey in old(missing) then [] else old(pipelines)
      ensures debates == if DebatesKey in old(missing) then [] else old(debates)
      ensures config == if ConfigKey in old(missing) then baseConfig else old(config)
      ensures roles == BaseRoles(old(missing), old(roles))
      ensures changed <==> VersionKey in old(missing) || PipelinesKey in old(missing) ||
                           DebatesKey in old(missing) || ConfigKey in old(missing) || RolesKey in old(missing)
      ensures tasks == old(tasks) && status == old(status) && missing == old(missing)
    {
      changed := false;
      if VersionKey in missing {
        version := SchemaVersion;
        changed := true;
      }
      if PipelinesKey in missing {
        pipelines := [];
        changed := true;
      }
      if DebatesKey in missing {
        debates := [];
        changed := true;
      }
      if ConfigKey in missing {
        config := baseConfig;
        changed := true;
      }
      if RolesKey in missing {
        roles := map[];
        changed := true;
      }
    }

    /** The tasks key, restored after the role loops. */
    method RestoreTasksKey(changed0: bool) returns (changed: bool)
      modifies this
      ensures tasks == BaseTasks(old(missing), old(tasks))
      ensures changed <==> changed0 || TasksKey in old(missing)
      ensures version == old(version) && status == old(status) && config == old(config)
      ensures roles == old(roles) && pipelines == old(pipelines) && debates == old(debates)
      ensures missing == old(missing)
    {
      changed := changed0;
      if TasksKey in missing {
        tasks := [];
        changed := true;
      }
    }

    /** The role-id loop of ensure_state_schema. */
    method AddConfiguredRoles(roleIds: seq<string>, changed0: bool) returns (changed: bool)
      modifies this
      ensures roles == WithRoles(old(roles), roleIds)
      ensures changed <==> changed0 || exists j :: 0 <= j < |roleIds| && roleIds[j] !in old(roles)
      ensures version == old(version) && status == old(status) && config == old(config)
      ensures tasks == old(tasks) && pipelines == old(pipelines) && debates == old(debates)
      ensures missing == old(missing)
    {
      changed := changed0;
      var i := 0;
      while i < |roleIds|
        invariant 0 <= i <= |roleIds|
        invariant roles == WithRoles(old(roles), roleIds[..i])
        invariant changed <==> changed0 || exists j :: 0 <= j < i && roleIds[j] !in old(roles)
        invariant version == old(version) && status == old(status) && config == old(config)
        invariant tasks == old(tasks) && pipelines == old(pipelines) && debates == old(debates)
        invariant missing == old(missing)
      {
        var role := roleIds[i];
        assert roleIds[..i + 1] == roleIds[..i] + [role];
        if role !in roles {
          roles := roles[role := FreshRole];
          changed := true;
        }
        i := i + 1;
      }
      assert roleIds[..i] == roleIds;
    }

    /** The role-record loop of ensure_state_schema. */
    method MigrateRoleRecords(changed0: bool) returns (changed: bool)
      modifies this
      ensures roles == MigrateRoles(old(roles))
      ensures changed <==> changed0 || exists k :: k in old(roles) && RoleNeedsMigration(old(roles)[k])
      ensures version == old(version) && status == old(status) && config == old(config)
      ensures tasks == old(tasks) && pipelines == old(pipelines) && debates == old(debates)
      ensures missing == old(missing)
    {
      changed := changed0;
      var todo := roles.Keys;
      while todo != {}
        invariant todo <= old(roles).Keys && roles.Keys == old(roles).Keys
        invariant forall k :: k in todo ==> roles[k] == old(roles)[k]
        invariant forall k :: k in roles && k !in todo ==> roles[k] == MigrateRole(old(roles)[k])
        invariant changed <==> changed0 ||
                               exists k :: k in old(roles) && k !in todo && RoleNeedsMigration(old(roles)[k])
        invariant version == old(version) && status == old(status) && config == old(config)
        invariant tasks == old(tasks) && pipelines == old(pipelines) && debates == old(debates)
        invariant missing == old(missing)
        decreases |todo|
      {
        var k :| k in todo;
        var r := roles[k];
        MigrateRoleFacts(r);
        if RoleNeedsMigration(r) {
          changed := true;
        }
        roles := roles[k := MigrateRole(r)];
        todo := todo - {k};
      }
    }

    /** The task loop of ensure_state_schema. */
    method FillTaskMetadata(changed0: bool) returns (changed: bool)
      modifies this
      ensures tasks == WithMetadataAll(old(tasks))
      ensures changed <==> changed0 || exists i :: 0 <= i < |old(tasks)| && old(tasks)[i].metadata.None?
      ensures version == old(version) && status == old(status) && config == old(config)
      ensures roles == old(roles) && pipelines == old(pipelines) && debates == old(debates)
      ensures missing == old(missing)
    {
      changed := changed0;
      var i := 0;
      while i < |tasks|
        invariant 0 <= i <= |tasks| && |tasks| == |old(tasks)|
        invariant forall j :: 0 <= j < i ==> tasks[j] == WithMetadata(old(tasks)[j])
        invariant forall j :: i <= j < |tasks| ==> tasks[j] == old(tasks)[j]
        invariant changed <==> changed0 || exists j :: 0 <= j < i && old(tasks)[j].metadata.None?
        invariant version == old(version) && status == old(status) && config == old(config)
        invariant roles == old(roles) && pipelines == old(pipelines) && debates == old(debates)
        invariant missing == old(missing)
      {
        if tasks[i].metadata.None? {
          tasks := tasks[i := WithMetadata(tasks[i])];
          changed := true;
        }
        i := i + 1;
      }
    }


    /** ensure_role: a role seen for the first time gets a fresh record. */
    method EnsureRole(role: string)
      modifies this
      ensures role in roles && roles.Keys == old(roles).Keys + {role}
      ensures forall k :: k in old(roles) ==> roles[k] == old(roles)[k]
      ensures role !in old(roles) ==> roles[role] == FreshRole
      ensures version == old(version) && status == old(status) && config == old(config)
      ensures tasks == old(tasks) && pipelines == old(pipelines) && debates == old(debates)
      ensures missing == old(missing)
    {
      if role !in roles {
        roles := roles[role := FreshRole];
      }
    }

    /** enqueue_task: appends one queued task under the next free task id. */
    method EnqueueTask(role: string, title: string, description: string, metadata: Fields, now: int)
      returns (task: Task)
      requires Loaded() && AllNumbered(TaskIds(tasks))
      modifies this
      ensures task == NewTask(NextId("TASK", TaskIds(old(tasks))).value, role, title, description, metadata, now)
      ensures tasks == old(tasks) + [task]
      ensures task.id !in TaskIds(old(tasks))
      ensures AllNumbered(TaskIds(tasks)) && NextNumber(TaskIds(tasks)).value == NextNumber(TaskIds(old(tasks))).value + 1
      ensures roles == EnsuredRole(old(roles), role)
      ensures version == old(version) && status == old(status) && config == old(config)
      ensures pipelines == old(pipelines) && debates == old(debates) && missing == old(missing)
    {
      EnsureRole(role);
      var ts := tasks;
      var id := NextId("TASK", TaskIds(ts)).value;
      task := NewTask(id, role, title, description, metadata, now);
      EnqueuedIds(ts, task);
      tasks := ts + [task];
    }

    /** One iteration of create_pipeline's stage loop: enqueues stage |taskIds| + 1, which
        depends on `dependsOn`, the id of the stage before it (nothing for the first stage).
        `base`, `baseRoles` and `first` are the tasks, roles and next task number from before
        the loop. */
    method EnqueueStage(pipelineId: string, title: string, brief: string, stageRoles: seq<string>,
                        template: string -> string, notes: string, taskIds: seq<string>, dependsOn: seq<string>, now: int,
                        ghost base: seq<Task>, ghost baseRoles: map<string, RoleState>, ghost first: nat)
      returns (task: Task)
      requires |taskIds| < |stageRoles|
      requires StagesEnqueued(pipelineId, title, brief, stageRoles, template, notes, now, base, baseRoles, first,
                              taskIds, dependsOn, tasks, roles)
      requires Loaded()
      modifies this
      ensures task.id == FormatId("TASK", first + |taskIds|)
      ensures StagesEnqueued(pipelineId, title, brief, stageRoles, template, notes, now, base, baseRoles, first,
                             taskIds + [task.id], [task.id], tasks, roles)
      ensures Loaded()
      ensures version == old(version) && status == old(status) && config == old(config)
      ensures pipelines == old(pipelines) && debates == old(debates)
    {
      var i := |taskIds|;
      var role := stageRoles[i];
      ghost var ts := tasks;
      ghost var rs := roles;
      task := EnqueueTask(role, StageTitle(pipelineId, title, role),
                          StageDescription(pipelineId, i + 1, |stageRoles|, role, brief, template(role), notes),
                          StageMetadata(pipelineId, i + 1, |stageRoles|, dependsOn), now);
      StageLoopStep(pipelineId, title, brief, stageRoles, template, notes, now, base, baseRoles, first,
                    taskIds, dependsOn, ts, rs, task);
    }

    /** create_pipeline's stage loop: enqueues one task per stage role, in order. */
    method EnqueueStages(pipelineId: string, title: string, brief: string, stageRoles: seq<string>,
                         template: string -> string, notes: string, now: int) returns (taskIds: seq<string>)
      requires Loaded() && AllNumbered(TaskIds(tasks))
      modifies this
      ensures taskIds == Consecutive("TASK", NextNumber(TaskIds(old(tasks))).value, |stageRoles|)
      ensures tasks == old(tasks) + StageTasks(pipelineId, stageRoles, Stripped(StageTitles(pipelineId, title, stageRoles)),
                                               Stripped(StageDescriptions(pipelineId, stageRoles, brief, template, notes)), taskIds, now)
      ensures AllNumbered(TaskIds(tasks)) && NextNumber(TaskIds(tasks)).value == NextNumber(TaskIds(old(tasks))).value + |stageRoles|
      ensures roles == WithRoles(old(roles), stageRoles)
      ensures Loaded()
      ensures version == old(version) && status == old(status) && config == old(config)
      ensures pipelines == old(pipelines) && debates == old(debates)
    {
      ghost var first := NextNumber(TaskIds(tasks)).value;
      StagesStart(pipelineId, title, brief, stageRoles, template, notes, now, tasks, roles);
      taskIds := [];
      var dependsOn: seq<string> := [];
      var i := 0;
      while i < |stageRoles|
        invariant i == |taskIds|
        invariant StagesEnqueued(pipelineId, title, brief, stageRoles, template, notes, now, old(tasks), old(roles),
                                 first, taskIds, dependsOn, tasks, roles)
        invariant Loaded()
        invariant version == old(version) && status == old(status) && config == old(config)
        invariant pipelines == old(pipelines) && debates == old(debates)
      {
        var task := EnqueueStage(pipelineId, title, brief, stageRoles, template, notes, taskIds, dependsOn, now,
                                 old(tasks), old(roles), first);
        taskIds := taskIds + [task.id];
        dependsOn := [task.id];
        i := i + 1;
      }
      StagesDone(pipelineId, title, brief, stageRoles, template, notes, now, old(tasks), old(roles), first,
                 taskIds, dependsOn, tasks, roles);
    }

    /** Appends a pipeline record under the next free pipeline id. */
    method AppendPipeline(p: Pipeline)
      requires AllNumbered(PipelineIds(pipelines)) && p.id == NextId("PIPE", PipelineIds(pipelines)).value
      modifies this
      ensures pipelines == old(pipelines) + [p]
      ensures AllNumbered(PipelineIds(pipelines))
      ensures version == old(version) && status == old(status) && config == old(config)
      ensures tasks == old(tasks) && roles == old(roles) && debates == old(debates) && missing == old(missing)
    {
      PrefixesUndashed();
      NextIdFresh("PIPE", PipelineIds(pipelines));
      PipelineIdsAppend(pipelines, p);
      pipelines := pipelines + [p];
    }

    /** create_pipeline: one task per role, each stage depending on the one before (see
        PipelineChain), under consecutive fresh task ids (see ConsecutiveFresh), and a queued
        pipeline listing those ids in stage order. */
    method CreatePipeline(title: string, brief: string, stageRoles: seq<string>,
                          template: string -> string, now: int) returns (p: Pipeline)
      requires Loaded() && Numbered()
      modifies this
      ensures p.id == NextId("PIPE", PipelineIds(old(pipelines))).value
      ensures p == Pipeline(p.id, Strip(title), Strip(brief), stageRoles, p.taskIds, GroupQueued, now, now, None)
      ensures pipelines == old(pipelines) + [p]
      ensures p.taskIds == Consecutive("TASK", NextNumber(TaskIds(old(tasks))).value, |stageRoles|)
      ensures tasks == old(tasks) + StageTasks(p.id, stageRoles, Stripped(StageTitles(p.id, title, stageRoles)),
                                               Stripped(StageDescriptions(p.id, stageRoles, brief, template, PipelineNotes)), p.taskIds, now)
      ensures AllNumbered(TaskIds(tasks)) && NextNumber(TaskIds(tasks)).value == NextNumber(TaskIds(old(tasks))).value + |stageRoles|
      ensures roles == WithRoles(old(roles), stageRoles)
      ensures Loaded() && Numbered()
      ensures version == old(version) && status == old(status) && config == old(config)
      ensures debates == old(debates)
    {
      var pipelineId := NextId("PIPE", PipelineIds(pipelines)).value;
      var taskIds := EnqueueStages(pipelineId, title, brief, stageRoles, template, PipelineNotes, now);
      p := Pipeline(pipelineId, Strip(title), Strip(brief), stageRoles, taskIds, GroupQueued, now, now, None);
      AppendPipeline(p);
    }

    /** One iteration of create_debate's participant loop: enqueues the position task of
        participant |participantIds|. `base`, `baseRoles` and `first` are the tasks, roles and
        next task number from before the loop. */
    method EnqueuePosition(debateId: string, title: string, topic: string, participants: seq<string>,
                           notes: string, participantIds: seq<string>, now: int,
                           ghost base: seq<Task>, ghost baseRoles: map<string, RoleState>, ghost first: nat)
      returns (task: Task)
      requires |participantIds| < |participants|
      requires PositionsEnqueued(debateId, title, topic, participants, notes, now, base, baseRoles, first,
                                 participantIds, tasks, roles)
      requires Loaded()
      modifies this
      ensures task.id == FormatId("TASK", first + |participantIds|)
      ensures PositionsEnqueued(debateId, title, topic, participants, notes, now, base, baseRoles, first,
                                participantIds + [task.id], tasks, roles)
      ensures Loaded()
      ensures version == old(version) && status == old(status) && config == old(config)
      ensures pipelines == old(pipelines) && debates == old(debates)
    {
      var i := |participantIds|;
      var role := participants[i];
      ghost var ts := tasks;
      ghost var rs := roles;
      task := EnqueueTask(role, DebateTitle(debateId, title, role), ParticipantDescription(debateId, role, topic, notes),
                          DebateMetadata(debateId, "position", []), now);
      PositionLoopStep(debateId, title, topic, participants, notes, now, base, baseRoles, first,
                       participantIds, ts, rs, task);
    }

    /** create_debate's participant loop: one position task per participant, in order. */
    method EnqueuePositions(debateId: string, title: string, topic: string, participants: seq<string>,
                            notes: string, now: int) returns (participantIds: seq<string>)
      requires Loaded() && AllNumbered(TaskIds(tasks))
      modifies this
      ensures participantIds == Consecutive("TASK", NextNumber(TaskIds(old(tasks))).value, |participants|)
      ensures tasks == old(tasks) + PositionTasks(debateId, participants, Stripped(PositionTitles(debateId, title, participants)),
                                                  Stripped(PositionDescriptions(debateId, participants, topic, notes)),
                                                  participantIds, now)
      ensures AllNumbered(TaskIds(tasks)) && NextNumber(TaskIds(tasks)).value == NextNumber(TaskIds(old(tasks))).value + |participants|
      ensures roles == WithRoles(old(roles), participants)
      ensures Loaded()
      ensures version == old(version) && status == old(status) && config == old(config)
      ensures pipelines == old(pipelines) && debates == old(debates)
    {
      ghost var first := NextNumber(TaskIds(tasks)).value;
      PositionsStart(debateId, title, topic, participants, notes, now, tasks, roles);
      participantIds := [];
      var i := 0;
      while i < |participants|
        invariant i == |participantIds|
        invariant PositionsEnqueued(debateId, title, topic, participants, notes, now, old(tasks), old(roles),
                                    first, participantIds, tasks, roles)
        invariant Loaded()
        invariant version == old(version) && status == old(status) && config == old(config)
        invariant pipelines == old(pipelines) && debates == old(debates)
      {
        var task := EnqueuePosition(debateId, title, topic, participants, notes, participantIds, now,
                                    old(tasks), old(roles), first);
        participantIds := participantIds + [task.id];
        i := i + 1;
      }
      PositionsDone(debateId, title, topic, participants, notes, now, old(tasks), old(roles), first,
                    participantIds, tasks, roles);
    }

    /** Appends a debate record under the next free debate id. */
    method AppendDebate(d: Debate)
      requires AllNumbered(DebateIds(debates)) && d.id == NextId("DEBATE", DebateIds(debates)).value
      modifies this
      ensures debates == old(debates) + [d]
      ensures AllNumbered(DebateIds(debates))
      ensures version == old(version) && status == old(status) && config == old(config)
      ensures tasks == old(tasks) && roles == old(roles) && pipelines == old(pipelines) && missing == old(missing)
    {
      PrefixesUndashed();
      NextIdFresh("DEBATE", DebateIds(debates));
      DebateIdsAppend(debates, d);
      debates := debates + [d];
    }

    /** create_debate: a task per participant with no dependencies, then a moderator task that
        depends on all of them (see DebateFanIn, ModeratorWaitsForAll), under consecutive fresh
        task ids, and a queued debate listing participants then moderator. */
    method CreateDebate(title: string, topic: string, participants: seq<string>, moderator: string, now: int)
      returns (d: Debate)
      requires Loaded() && Numbered()
      modifies this
      ensures d.id == NextId("DEBATE", DebateIds(old(debates))).value
      ensures d == Debate(d.id, Strip(title), Strip(topic), participants, moderator, d.participantTaskIds,
                          d.moderatorTaskId, d.participantTaskIds + [d.moderatorTaskId], GroupQueued, now, now, None)
      ensures debates == old(debates) + [d]
      ensures d.taskIds == Consecutive("TASK", NextNumber(TaskIds(old(tasks))).value, |participants| + 1)
      ensures tasks == old(tasks) +
                       PositionTasks(d.id, participants, Stripped(PositionTitles(d.id, title, participants)),
                                     Stripped(PositionDescriptions(d.id, participants, topic, ParticipantNotes)),
                                     d.participantTaskIds, now) +
                       [ModerationTask(d.id, moderator, Strip(DebateTitle(d.id, title, "moderator")),
                                       Strip(ModeratorDescription(d.id, moderator, topic, ModeratorNotes)),
                                       d.participantTaskIds, d.moderatorTaskId, now)]
      ensures AllNumbered(TaskIds(tasks)) &&
              NextNumber(TaskIds(tasks)).value == NextNumber(TaskIds(old(tasks))).value + |participants| + 1
      ensures roles == EnsuredRole(WithRoles(old(roles), participants), moderator)
      ensures Loaded() && Numbered()
      ensures version == old(version) && status == old(status) && config == old(config)
      ensures pipelines == old(pipelines)
    {
      var debateId := NextId("DEBATE", DebateIds(debates)).value;
      ghost var first := NextNumber(TaskIds(tasks)).value;
      var participantIds := EnqueuePositions(debateId, title, topic, participants, ParticipantNotes, now);
      ghost var ts := tasks;
      var moderatorTask := EnqueueTask(moderator, DebateTitle(debateId, title, "moderator"),
                                       ModeratorDescription(debateId, moderator, topic, ModeratorNotes),
                                       DebateMetadata(debateId, "moderation", participantIds), now);
      TaskIdStep(participantIds, ts, first, moderatorTask);
      d := Debate(debateId, Strip(title), Strip(topic), participants, moderator, participantIds, moderatorTask.id,
                  participantIds + [moderatorTask.id], GroupQueued, now, now, None);
      AppendDebate(d);
    }

    /** set_task_retry on the task at index i. */
    method SetTaskRetry(i: nat, deferMinutes: int, reason: string, now: int)
      requires i < |tasks|
      modifies this
      ensures tasks == old(tasks)[i := Retried(old(tasks)[i], deferMinutes, reason, now)]
      ensures roles == old(roles) && pipelines == old(pipelines) && debates == old(debates)
      ensures version == old(version) && status == old(status) && config == old(config)
      ensures missing == old(missing)
    {
      tasks := tasks[i := Retried(tasks[i], deferMinutes, reason, now)];
    }

    /** recover_inflight_tasks: every running task goes back to the queue; the count of such
        tasks is returned. */
    method RecoverInflightTasks(reason: string, now: int) returns (recovered: nat)
      requires Loaded()
      modifies this
      ensures |tasks| == |old(tasks)|
      ensures forall i :: 0 <= i < |tasks| ==> tasks[i] == Recovered(old(tasks)[i], reason, now)
      ensures recovered == CountRunning(old(tasks))
      ensures CountRunning(tasks) == 0
      ensures roles == old(roles) && pipelines == old(pipelines) && debates == old(debates)
      ensures version == old(version) && status == old(status) && config == old(config)
      ensures missing == old(missing)
    {
      recovered := 0;
      var i := 0;
      while i < |tasks|
        invariant 0 <= i <= |tasks| && |tasks| == |old(tasks)|
        invariant forall j :: 0 <= j < i ==> tasks[j] == Recovered(old(tasks)[j], reason, now)
        invariant forall j :: i <= j < |tasks| ==> tasks[j] == old(tasks)[j]
        invariant recovered == CountRunning(old(tasks)[..i])
        invariant roles == old(roles) && pipelines == old(pipelines) && debates == old(debates)
        invariant version == old(version) && status == old(status) && config == old(config)
        invariant missing == old(missing)
      {
        CountRunningSnoc(old(tasks), i);
        if tasks[i].status == Running {
          tasks := tasks[i := Recovered(tasks[i], reason, now)];
          recovered := recovered + 1;
        }
        i := i + 1;
      }
      assert old(tasks)[..i] == old(tasks);
      RecoveryLeavesNothingRunning(old(tasks), reason, now);
      CountRunningZero(tasks);
    }

    /** The status the listed tasks have now, `missing` for an id with no task. */
    method ObserveTasks(ids: seq<string>) returns (statuses: seq<Observed>)
      ensures statuses == ObserveAll(tasks, ids)
    {
      statuses := [];
      var k := 0;
      while k < |ids|
        invariant 0 <= k <= |ids|
        invariant statuses == ObserveAll(tasks, ids[..k])
      {
        var found := FindTask(tasks, ids[k]);
        statuses := statuses + [if found.Some? then Present(tasks[found.value].status) else Missing];
        k := k + 1;
      }
      assert ids[..k] == ids;
    }

    /** recompute_pipeline_status: None for an unknown pipeline; otherwise the first pipeline
        with that id gets the aggregate status of its tasks. */
    method RecomputePipelineStatus(pipelineId: string, now: int) returns (r: Option<GroupStatus>)
      modifies this
      ensures FindPipeline(old(pipelines), pipelineId).None? ==> r.None? && pipelines == old(pipelines)
      ensures FindPipeline(old(pipelines), pipelineId).Some? ==>
                var j := FindPipeline(old(pipelines), pipelineId).value;
                r == Some(AggregateStatus(ObserveAll(tasks, old(pipelines)[j].taskIds))) &&
                pipelines == old(pipelines)[j := old(pipelines)[j].(status := r.value, updatedAt := now)]
      ensures tasks == old(tasks) && roles == old(roles) && debates == old(debates)
      ensures version == old(version) && status == old(status) && config == old(config)
      ensures missing == old(missing)
    {
      var found := FindPipeline(pipelines, pipelineId);
      if found.None? {
        return None;
      }
      var j := found.value;
      var statuses := ObserveTasks(pipelines[j].taskIds);
      var next := AggregateStatus(statuses);
      pipelines := pipelines[j := pipelines[j].(status := next, updatedAt := now)];
      r := Some(next);
    }

    /** recompute_debate_status: the same reduction over a debate's tasks. */
    method RecomputeDebateStatus(debateId: string, now: int) returns (r: Option<GroupStatus>)
      modifies this
      ensures FindDebate(old(debates), debateId).None? ==> r.None? && debates == old(debates)
      ensures FindDebate(old(debates), debateId).Some? ==>
                var j := FindDebate(old(debates), debateId).value;
                r == Some(AggregateStatus(ObserveAll(tasks, old(debates)[j].taskIds))) &&
                debates == old(debates)[j := old(debates)[j].(status := r.value, updatedAt := now)]
      ensures tasks == old(tasks) && roles == old(roles) && pipelines == old(pipelines)
      ensures version == old(version) && status == old(status) && config == old(config)
      ensures missing == old(missing)
    {
      var found := FindDebate(debates, debateId);
      if found.None? {
        return None;
      }
      var j := found.value;
      var statuses := ObserveTasks(debates[j].taskIds);
      var next := AggregateStatus(statuses);
      debates := debates[j := debates[j].(status := next, updatedAt := now)];
      r := Some(next);
    }
  }
}
