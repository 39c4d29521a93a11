// The dispatcher: one task run over its role's model chain with output-format retries, and
// the bookkeeping of its outcome (done, deferred or failed) on the task, its role and the
// pipeline or debate it belongs to.

module Dispatch {
  import opened Text
  import opened JsonValue
  import opened TaskGraph
  import opened StateStore
  import opened RoleConfig
  import opened Contract

  // ---------------------------------------------------------------- the runner

  /** What one agent run reports (CodexResult). */
  datatype RunResult = RunResult(
    returnCode: int,
    sessionId: Option<string>,
    message: string,
    stderr: string,
    backend: string,
    model: Option<string>)

  /** What a runner call is given besides the task: its position among all runner calls of
      the command, the backend, the model and the session to resume. */
  datatype Call = Call(index: nat, backend: string, model: string, session: Option<string>)

  /** The fixed inputs of a command: the router and quota settings, MAX_OUTPUT_FORMAT_RETRIES,
      json.loads, the agent runner, and how a reply of a role to a task is judged. */
  datatype Env = Env(
    router: RouterConfig,
    policy: QuotaPolicy,
    formatRetries: int,
    parse: string -> Option<Json>,
    runner: Call -> RunResult,
    judge: (string, string, string) -> Verdict)

  /** What the dispatcher makes of one reply: the contract it extracts and the violations of
      the contract and of the report structure. */
  datatype Verdict = Verdict(contract: Option<Fields>, errors: seq<string>)

  /** extract_output_contract, then validate_task_output on the reply. */
  function Judge(role: string, taskId: string, parse: string -> Option<Json>, message: string): Verdict {
    var contract := ExtractOutputContract(message, parse);
    Verdict(contract, ValidateTaskOutput(role, taskId, message, contract))
  }

  /** The inputs of a command, replies being judged by extract_output_contract and
      validate_task_output. */
  function CommandEnv(router: RouterConfig, policy: QuotaPolicy, formatRetries: int,
                      parse: string -> Option<Json>, runner: Call -> RunResult): Env {
    Env(router, policy, formatRetries, parse, runner, (role, taskId, m) => Judge(role, taskId, parse, m))
  }

  /** The task being run: the inputs, how its replies are judged, and the position of its
      first runner call. */
  datatype Ctx = Ctx(env: Env, check: string -> Verdict, base: nat)

  function TaskCtx(env: Env, role: string, taskId: string, base: nat): Ctx {
    Ctx(env, m => env.judge(role, taskId, m), base)
  }

  /** len(range(1, MAX_OUTPUT_FORMAT_RETRIES + 2)): the runs one chain entry may make. */
  function FormatAttempts(env: Env): nat {
    if env.formatRetries + 1 > 0 then env.formatRetries + 1 else 0
  }

  // ---------------------------------------------------------------- one chain entry

  /** The variables of the format-retry loop: the runs so far, the last result, the session
      to resume, the last contract, the entry's contract errors, and whether the loop has
      stopped and whether it stopped on a valid reply. */
  datatype Attempt = Attempt(
    calls: nat,
    result: Option<RunResult>,
    session: Option<string>,
    contract: Option<Fields>,
    errors: seq<string>,
    stop: bool,
    ok: bool)

  /** One pass of the format-retry loop; nothing happens once the loop has stopped. A run
      that exits non-zero stops the loop; a reply whose contract and report validate stops it
      successfully; otherwise the errors are kept for the next pass. */
  function FormatStep(c: Ctx, backend: string, model: string, a: Attempt): Attempt {
    if a.stop then a
    else
      var r := c.env.runner(Call(c.base + a.calls, backend, model, a.session));
      var session := if r.sessionId.Some? && r.sessionId.value != "" then r.sessionId else a.session;
      var a1 := a.(calls := a.calls + 1, result := Some(r), session := session);
      if r.returnCode != 0 then a1.(stop := true)
      else
        var v := c.check(r.message);
        a1.(contract := v.contract, errors := v.errors, stop := v.errors == [], ok := v.errors == [])
  }

  /** The loop variables after k passes. */
  function FormatsAfter(c: Ctx, backend: string, model: string, a0: Attempt, k: nat): Attempt {
    if k == 0 then a0 else FormatStep(c, backend, model, FormatsAfter(c, backend, model, a0, k - 1))
  }

  /** Once the loop has stopped, further passes change nothing. */
  lemma {:induction false} FormatsStay(c: Ctx, backend: string, model: string, a0: Attempt, k: nat, m: nat)
    requires k <= m && FormatsAfter(c, backend, model, a0, k).stop
    ensures FormatsAfter(c, backend, model, a0, m) == FormatsAfter(c, backend, model, a0, k)
    decreases m
  {
    if m > k {
      FormatsStay(c, backend, model, a0, k, m - 1);
    }
  }

  /** From a fresh entry: each pass makes at most one run; a stop without success comes
      from a non-zero exit; success means the last reply exited 0 and its extracted contract
      and report validate; a loop still going after a pass holds a reply with errors. */
  lemma {:induction false} FormatsFacts(c: Ctx, backend: string, model: string, a0: Attempt, k: nat)
    requires a0.errors == [] && !a0.stop && !a0.ok
    ensures var a := FormatsAfter(c, backend, model, a0, k);
            a0.calls <= a.calls <= a0.calls + k &&
            (a.ok ==> a.stop && a.result.Some? && a.result.value.returnCode == 0 && a.errors == [] &&
                      c.check(a.result.value.message) == Verdict(a.contract, [])) &&
            (a.stop && !a.ok ==> a.result.Some? && a.result.value.returnCode != 0) &&
            (!a.stop && k > 0 ==> a.result.Some? && a.result.value.returnCode == 0 && a.errors != []) &&
            (k > 0 ==> a.result.Some? && (a.result.value.returnCode == 0 ==>
                         c.check(a.result.value.message) == Verdict(a.contract, a.errors))) &&
            (k == 0 ==> a == a0)
  {
    if k > 0 {
      FormatsFacts(c, backend, model, a0, k - 1);
    }
  }

  /** The loop variables of the chain loop. */
  datatype Run = Run(
    calls: nat,
    result: Option<RunResult>,
    contract: Option<Fields>,
    errors: seq<string>,
    attempted: seq<ChainEntry>,
    exhausted: seq<ChainEntry>,
    role: RoleState,
    stop: bool,
    ok: bool)

  /** The stored session is resumed when it was opened on this backend and model and is a
      non-blank string. */
  function EntrySession(role: RoleState, e: ChainEntry): Option<string> {
    if SameSessionModel(role, e.backend, e.model) && role.sessionId.Str? && Strip(role.sessionId.s) != ""
    then Some(role.sessionId.s) else None
  }

  /** The backend and model that an entry is attempted with. */
  function Attempted(e: ChainEntry): ChainEntry {
    ChainEntry(NormalizeBackend(e.backend), Strip(e.model))
  }

  /** The entries as attempted, and the session each of them resumes from the role record
      the chain loop starts with. */
  function Plan(chain: seq<ChainEntry>): (r: seq<ChainEntry>)
    ensures |r| == |chain|
  {
    if |chain| == 0 then [] else Plan(chain[..|chain| - 1]) + [Attempted(chain[|chain| - 1])]
  }

  function Sessions(role: RoleState, plan: seq<ChainEntry>): (r: seq<Option<string>>)
    ensures |r| == |plan|
  {
    if |plan| == 0 then [] else Sessions(role, plan[..|plan| - 1]) + [EntrySession(role, plan[|plan| - 1])]
  }

  lemma {:induction false} PlanAt(chain: seq<ChainEntry>, i: nat)
    requires i < |chain|
    ensures Plan(chain)[i] == Attempted(chain[i])
    decreases |chain|
  {
    if i < |chain| - 1 {
      PlanAt(chain[..|chain| - 1], i);
    }
  }

  lemma {:induction false} SessionsAt(role: RoleState, plan: seq<ChainEntry>, i: nat)
    requires i < |plan|
    ensures Sessions(role, plan)[i] == EntrySession(role, plan[i])
    decreases |plan|
  {
    if i < |plan| - 1 {
      SessionsAt(role, plan[..|plan| - 1], i);
    }
  }

  /** The format-retry loop of one entry, started from the chain loop's variables. */
  function EntryAttempts(c: Ctx, run: Run, e: ChainEntry, session: Option<string>): Attempt {
    FormatsAfter(c, e.backend, e.model, Attempt(run.calls, run.result, session, run.contract, [], false, false),
                 FormatAttempts(c.env))
  }

  /** The role record once a valid reply was received: its session, backend and model. */
  function StoredSession(role: RoleState, session: Option<string>, r: RunResult): RoleState {
    role.(sessionId := if session.Some? then Str(session.value) else Null,
          sessionBackend := Str(r.backend),
          sessionModel := Str(if r.model.Some? then r.model.value else ""))
  }

  /** The entry ended on a run that exited non-zero with a quota or rate-limit error. */
  predicate HitQuota(c: Ctx, a: Attempt) {
    a.result.Some? && a.result.value.returnCode != 0 && IsQuotaError(c.env.policy.markers, a.result.value.stderr)
  }

  /** One pass of the chain loop over an entry as attempted; nothing happens once the loop
      has stopped. */
  function EntryStep(c: Ctx, run: Run, e: ChainEntry, session: Option<string>): Run {
    if run.stop then run
    else
      var a := EntryAttempts(c, run, e, session);
      var role := if a.ok && a.result.Some? then StoredSession(run.role, a.session, a.result.value) else run.role;
      var run1 := run.(calls := a.calls, result := a.result, contract := a.contract,
                       attempted := run.attempted + [e], role := role, ok := a.ok,
                       errors := if a.ok then [] else run.errors);
      if a.result.Some? && a.result.value.returnCode == 0 && a.errors == [] then run1.(stop := true)
      else if HitQuota(c, a) then run1.(errors := a.errors, exhausted := run.exhausted + [e])
      else run1.(errors := a.errors)
  }

  function InitialRun(role: RoleState): Run {
    Run(0, None, None, [], [], [], role, false, false)
  }

  /** The chain loop's variables after k entries of the plan. */
  function ChainAfter(c: Ctx, plan: seq<ChainEntry>, sessions: seq<Option<string>>, role0: RoleState, k: nat): Run
    requires k <= |plan| == |sessions|
  {
    if k == 0 then InitialRun(role0)
    else EntryStep(c, ChainAfter(c, plan, sessions, role0, k - 1), plan[k - 1], sessions[k - 1])
  }

  /** The chain loop run to the end. */
  function ChainRun(c: Ctx, chain: seq<ChainEntry>, role0: RoleState): Run {
    var plan := Plan(chain);
    ChainAfter(c, plan, Sessions(role0, plan), role0, |chain|)
  }

  /** Once the chain loop has stopped, further entries change nothing. */
  lemma {:induction false} ChainStays(c: Ctx, plan: seq<ChainEntry>, sessions: seq<Option<string>>, role0: RoleState, k: nat, m: nat)
    requires k <= m <= |plan| == |sessions| && ChainAfter(c, plan, sessions, role0, k).stop
    ensures ChainAfter(c, plan, sessions, role0, m) == ChainAfter(c, plan, sessions, role0, k)
    decreases m
  {
    if m > k {
      ChainStays(c, plan, sessions, role0, k, m - 1);
    }
  }

  /** The final result exited 0 with no contract errors. */
  predicate Succeeded(run: Run) {
    run.result.Some? && run.result.value.returnCode == 0 && run.errors == []
  }

  /** Every attempted entry was quota-exhausted. */
  predicate AllExhausted(run: Run) {
    |run.attempted| > 0 && |run.exhausted| == |run.attempted|
  }

  /** The chain loop's invariant after k entries: it stops exactly on a valid reply, which is
      then the final result (it exited 0 and its extracted contract and report validate).
      Until then the role record is untouched, every entry is attempted, each entry runs at
      most FormatAttempts times, and without any format attempt no result is produced. */
  predicate ChainInv(c: Ctx, r: Run, role0: RoleState, k: nat) {
    (r.stop <==> r.ok) && (r.ok <==> Succeeded(r)) &&
    (r.ok ==> r.result.Some? && c.check(r.result.value.message) == Verdict(r.contract, [])) &&
    (r.result.Some? && r.result.value.returnCode == 0 ==>
       c.check(r.result.value.message) == Verdict(r.contract, r.errors)) &&
    (!r.ok ==> r.role == role0) &&
    (FormatAttempts(c.env) == 0 ==> r.result.None?) &&
    (!r.stop ==> |r.attempted| == k) && |r.attempted| <= k &&
    r.calls <= |r.attempted| * FormatAttempts(c.env) &&
    |r.exhausted| <= |r.attempted|
  }

  /** The chain loop keeps its invariant for every plan. */
  lemma {:induction false} ChainFacts(c: Ctx, plan: seq<ChainEntry>, sessions: seq<Option<string>>, role0: RoleState, k: nat)
    requires k <= |plan| == |sessions|
    ensures ChainInv(c, ChainAfter(c, plan, sessions, role0, k), role0, k)
  {
    if k > 0 {
      ChainFacts(c, plan, sessions, role0, k - 1);
      ChainStep(c, ChainAfter(c, plan, sessions, role0, k - 1), plan[k - 1], sessions[k - 1], role0, k - 1);
    }
  }

  /** One pass of the chain loop keeps the invariant. */
  lemma {:induction false} ChainStep(c: Ctx, run: Run, e: ChainEntry, session: Option<string>, role0: RoleState, k: nat)
    requires ChainInv(c, run, role0, k)
    ensures ChainInv(c, EntryStep(c, run, e, session), role0, k + 1)
  {
    if !run.stop {
      var a0 := Attempt(run.calls, run.result, session, run.contract, [], false, false);
      FormatsFacts(c, e.backend, e.model, a0, FormatAttempts(c.env));
      assert (|run.attempted| + 1) * FormatAttempts(c.env) == |run.attempted| * FormatAttempts(c.env) + FormatAttempts(c.env);
    }
  }

  /** How the format-retry loop ended for each entry attempted among the first k. */
  function EntryEnds(c: Ctx, plan: seq<ChainEntry>, sessions: seq<Option<string>>, role0: RoleState, k: nat): seq<Attempt>
    requires k <= |plan| == |sessions|
  {
    if k == 0 then []
    else
      var prev := ChainAfter(c, plan, sessions, role0, k - 1);
      var ends := EntryEnds(c, plan, sessions, role0, k - 1);
      if prev.stop then ends else ends + [EntryAttempts(c, prev, plan[k - 1], sessions[k - 1])]
  }

  /** An entry that runs is recorded as attempted, and as exhausted exactly when it ended on
      a quota error. */
  lemma {:induction false} StepCounts(c: Ctx, run: Run, e: ChainEntry, session: Option<string>)
    requires !run.stop
    ensures var r := EntryStep(c, run, e, session);
            r.attempted == run.attempted + [e] &&
            |r.exhausted| == |run.exhausted| + (if HitQuota(c, EntryAttempts(c, run, e, session)) then 1 else 0)
  {
  }

  /** The chain loop ends with every attempted entry quota-exhausted exactly when each of
      them ended on a quota or rate-limit error. */
  lemma {:induction false} ExhaustedIff(c: Ctx, plan: seq<ChainEntry>, sessions: seq<Option<string>>, role0: RoleState, k: nat)
    requires k <= |plan| == |sessions|
    ensures var r := ChainAfter(c, plan, sessions, role0, k);
            var ends := EntryEnds(c, plan, sessions, role0, k);
            |ends| == |r.attempted| && |r.exhausted| <= |r.attempted| &&
            (|r.exhausted| == |r.attempted| <==> forall j :: 0 <= j < |ends| ==> HitQuota(c, ends[j]))
  {
    if k > 0 {
      ExhaustedIff(c, plan, sessions, role0, k - 1);
      ExhaustedStep(c, ChainAfter(c, plan, sessions, role0, k - 1), plan[k - 1], sessions[k - 1],
                    EntryEnds(c, plan, sessions, role0, k - 1));
    }
  }

  /** One pass of the chain loop keeps ExhaustedIff's relation between the run and the ends
      of its attempted entries. */
  lemma {:induction false} ExhaustedStep(c: Ctx, run: Run, e: ChainEntry, session: Option<string>, ends: seq<Attempt>)
    requires |ends| == |run.attempted| && |run.exhausted| <= |run.attempted|
    requires |run.exhausted| == |run.attempted| <==> forall j :: 0 <= j < |ends| ==> HitQuota(c, ends[j])
    ensures var r := EntryStep(c, run, e, session);
            var ends' := if run.stop then ends else ends + [EntryAttempts(c, run, e, session)];
            |ends'| == |r.attempted| && |r.exhausted| <= |r.attempted| &&
            (|r.exhausted| == |r.attempted| <==> forall j :: 0 <= j < |ends'| ==> HitQuota(c, ends'[j]))
  {
    if !run.stop {
      StepCounts(c, run, e, session);
      var a := EntryAttempts(c, run, e, session);
      var ends' := ends + [a];
      assert forall j :: 0 <= j < |ends| ==> ends'[j] == ends[j];
      assert ends'[|ends|] == a;
    }
  }

  lemma {:induction false} MulMono(a: nat, b: nat, n: nat)
    requires a <= b
    ensures a * n <= b * n
  {
  }

  /** Each entry of the chain makes at most FormatAttempts runs. */
  lemma {:induction false} ChainCallsBound(c: Ctx, chain: seq<ChainEntry>, role0: RoleState)
    ensures ChainRun(c, chain, role0).calls <= |chain| * FormatAttempts(c.env)
  {
    var plan := Plan(chain);
    ChainFacts(c, plan, Sessions(role0, plan), role0, |chain|);
    MulMono(|ChainRun(c, chain, role0).attempted|, |chain|, FormatAttempts(c.env));
  }

  /** The runner is called at most max(max_model_attempts_per_task, 1) times
      (MAX_OUTPUT_FORMAT_RETRIES + 1) for one task. */
  lemma {:induction false} AttemptsBound(env: Env, role: string, taskId: string, base: nat, role0: RoleState)
    ensures ChainRun(TaskCtx(env, role, taskId, base), ModelChainForRole(env.router, role), role0).calls <=
            Max(env.router.maxAttempts, 1) * FormatAttempts(env)
  {
    var chain := ModelChainForRole(env.router, role);
    ChainCallsBound(TaskCtx(env, role, taskId, base), chain, role0);
    MulMono(|chain|, Max(env.router.maxAttempts, 1), FormatAttempts(env));
  }

  // ---------------------------------------------------------------- the outcome

  const TaskOutputDir := "team/state/task_outputs/"
  const NoResultError := "Internal error: task execution did not produce a result"
  const ExecutionFailed := "Model execution failed"
  const ContractInvalidPrefix := "Output contract invalid: "

  /** The record of a role, as ensure_role leaves it. */
  function RoleOf(roles: map<string, RoleState>, role: string): RoleState {
    if role in roles then roles[role] else FreshRole
  }

  /** The task once the run starts: running since now, with no retry instant. */
  function Started(t: Task, now: int): Task {
    t.(status := Running, startedAt := Some(now), updatedAt := now,
       metadata := Some(Remove(Metadata(t), "retry_at")))
  }

  /** The list of {"backend", "model"} objects recorded in the metadata. */
  function ModelsJson(es: seq<ChainEntry>): Json {
    JArr(seq(|es|, i requires 0 <= i < |es| => EntryJson(es[i])))
  }

  function OptionalJson(s: Option<string>): Json {
    if s.Some? then JStr(s.value) else JNull
  }

  function ContractJson(c: Option<Fields>): Json {
    if c.Some? then JObj(c.value) else JNull
  }

  /** The contract is a non-empty dict, so a compression summary is written. */
  predicate HasContract(run: Run) {
    run.contract.Some? && |run.contract.value| > 0
  }

  /** The done path: output written, runner and contract recorded. */
  function Completed(t: Task, r: RunResult, run: Run, now: int): Task {
    var md := Put(Put(Put(Put(Metadata(t), "runner_backend", JStr(r.backend)), "runner_model", OptionalJson(r.model)),
                      "attempted_models", ModelsJson(run.attempted)),
                  "output_contract", ContractJson(run.contract));
    var md' := if HasContract(run) then Put(md, "compression_path", JStr(TaskOutputDir + t.id + ".compression.md")) else md;
    t.(status := Done, error := None, outputPath := Some(TaskOutputDir + t.id + ".md"), finishedAt := Some(now),
       metadata := Some(md'))
  }

  function DeferReason(minutes: int): string {
    "All configured models hit quota/rate limits. Deferred for " + IntToString(minutes) + " minutes."
  }

  /** The deferral path: set_task_retry, then the attempted and exhausted models recorded. */
  function Deferred(t: Task, run: Run, policy: QuotaPolicy, now: int): Task {
    var t1 := Retried(t, policy.deferMinutes, DeferReason(policy.deferMinutes), now);
    var md := Put(Put(Metadata(t1), "attempted_models", ModelsJson(run.attempted)),
                  "quota_exhausted_models", ModelsJson(run.exhausted));
    t1.(metadata := Some(md))
  }

  /** The failure message: the contract errors, else the runner's stderr, else a default. */
  function FailureMessage(errors: seq<string>, stderr: string): string {
    if errors != [] then ContractInvalidPrefix + Join("; ", errors)
    else if stderr != "" then stderr
    else ExecutionFailed
  }

  function FailedTask(t: Task, r: RunResult, run: Run, now: int): Task {
    t.(status := Failed, error := Some(FailureMessage(run.errors, r.stderr)), finishedAt := Some(now),
       metadata := Some(Put(Metadata(t), "attempted_models", ModelsJson(run.attempted))))
  }

  /** role_state.get("session_id") */
  function SessionSlot(x: Slot): Slot {
    if x == Absent then Null else x
  }

  /** The task once the chain loop is over. Without any result the task fails at once;
      otherwise it is done, deferred or failed, and takes the role's session. */
  function Concluded(t: Task, run: Run, policy: QuotaPolicy, now: int): Task {
    match run.result
    case None => t.(status := Failed, error := Some(NoResultError), finishedAt := Some(now))
    case Some(r) =>
      var t1 := if Succeeded(run) then Completed(t, r, run, now)
                else if AllExhausted(run) && policy.deferOnExhausted then Deferred(t, run, policy, now)
                else FailedTask(t, r, run, now);
      t1.(sessionId := SessionSlot(run.role.sessionId), updatedAt := now)
  }

  /** The role once the task is over: idle, one more completed task when it is done. */
  function Released(run: Run, now: int): RoleState {
    run.role.(activity := Idle, lastActiveAt := Some(now),
              tasksCompleted := run.role.tasksCompleted + if Succeeded(run) then 1 else 0)
  }

  /** What _dispatch_task_object returns. */
  function ExitCode(run: Run, policy: QuotaPolicy): int {
    match run.result
    case None => 1
    case Some(r) =>
      if Succeeded(run) || (AllExhausted(run) && policy.deferOnExhausted) then 0
      else if r.returnCode != 0 then r.returnCode else 1
  }

  /** Exactly one of done, deferred (queued again) and failed; done and deferred report 0
      and a failure a non-zero code; the role is left idle and credited exactly for a done
      task; the task keeps its identity. */
  lemma {:induction false} OutcomeCases(t: Task, run: Run, policy: QuotaPolicy, now: int)
    ensures var u := Concluded(t, run, policy, now);
            (u.status == Done <==> Succeeded(run)) &&
            (u.status == Queued <==> !Succeeded(run) && run.result.Some? && AllExhausted(run) && policy.deferOnExhausted) &&
            (u.status == Failed <==> !Succeeded(run) && !(run.result.Some? && AllExhausted(run) && policy.deferOnExhausted)) &&
            u.status != Running &&
            (ExitCode(run, policy) == 0 <==> u.status == Done || u.status == Queued) &&
            (u.status == Failed ==> u.error.Some? && u.finishedAt == Some(now)) &&
            (u.status == Done ==> u.error.None? && u.outputPath == Some(TaskOutputDir + t.id + ".md")) &&
            u.id == t.id && u.role == t.role && u.createdAt == t.createdAt &&
            (u.status == Queued ==> u.metadata == Deferred(t, run, policy, now).metadata)
    ensures Released(run, now).activity == Idle && Released(run, now).lastActiveAt == Some(now)
    ensures Released(run, now).tasksCompleted == run.role.tasksCompleted + if Succeeded(run) then 1 else 0
  {
  }

  /** For task t: the task is done exactly when the final reply exited 0 with an extracted
      contract that, with the report, validates; it is deferred exactly when, short of that,
      every model attempted ended on a quota or rate-limit error and deferral is on; and it
      has failed otherwise. */
  lemma {:induction false} DispatchVerdict(router: RouterConfig, policy: QuotaPolicy, formatRetries: int,
                                           parse: string -> Option<Json>, runner: Call -> RunResult,
                                           t: Task, base: nat, role0: RoleState, now: int)
    ensures var env := CommandEnv(router, policy, formatRetries, parse, runner);
            var c := TaskCtx(env, t.role, t.id, base);
            var chain := ModelChainForRole(router, t.role);
            var run := ChainRun(c, chain, role0);
            var ends := EntryEnds(c, Plan(chain), Sessions(role0, Plan(chain)), role0, |chain|);
            var u := Concluded(Started(t, now), run, policy, now);
            (u.status == Done <==>
               run.result.Some? && run.result.value.returnCode == 0 &&
               run.contract == ExtractOutputContract(run.result.value.message, parse) &&
               ValidateTaskOutput(t.role, t.id, run.result.value.message, run.contract) == []) &&
            (u.status == Queued <==>
               u.status != Done && run.result.Some? && |ends| > 0 &&
               (forall j :: 0 <= j < |ends| ==> HitQuota(c, ends[j])) && policy.deferOnExhausted) &&
            (u.status == Failed <==> u.status != Done && u.status != Queued)
  {
    var env := CommandEnv(router, policy, formatRetries, parse, runner);
    var c := TaskCtx(env, t.role, t.id, base);
    var chain := ModelChainForRole(router, t.role);
    var plan := Plan(chain);
    var sessions := Sessions(role0, plan);
    var run := ChainRun(c, chain, role0);
    ChainFacts(c, plan, sessions, role0, |chain|);
    ExhaustedIff(c, plan, sessions, role0, |chain|);
    OutcomeCases(Started(t, now), run, policy, now);
    if run.result.Some? {
      var m := run.result.value.message;
      assert c.check(m) == Judge(t.role, t.id, parse, m);
    }
  }

  /** A deferred task is queued with its retry instant max(minutes, 1) minutes ahead, so it
      is not picked again before then, and records the models that hit their quota. */
  lemma {:induction false} DeferredWaits(t: Task, run: Run, policy: QuotaPolicy, now: int, later: int)
    ensures var u := Deferred(t, run, policy, now);
            u.status == Queued &&
            RetryAt(u) == Some(now + 60 * Max(policy.deferMinutes, 1)) &&
            (IsTaskDeferred(u, later) <==> later < now + 60 * Max(policy.deferMinutes, 1)) &&
            Get(Metadata(u), "quota_exhausted_models") == Some(ModelsJson(run.exhausted))
  {
    var u := Deferred(t, run, policy, now);
    var t1 := Retried(t, policy.deferMinutes, DeferReason(policy.deferMinutes), now);
    assert Max(policy.deferMinutes, 1) == if policy.deferMinutes > 1 then policy.deferMinutes else 1;
    RetriedDeferral(t, policy.deferMinutes, DeferReason(policy.deferMinutes), now, later);
    var at := Put(Metadata(t1), "attempted_models", ModelsJson(run.attempted));
    assert Metadata(u) == Put(at, "quota_exhausted_models", ModelsJson(run.exhausted));
    PutPutOther(Metadata(t1), "attempted_models", ModelsJson(run.attempted),
                "quota_exhausted_models", ModelsJson(run.exhausted), "retry_at");
    PutGet(at, "quota_exhausted_models", ModelsJson(run.exhausted), "quota_exhausted_models");
    assert RetryAt(u) == RetryAt(t1);
  }

  // ---------------------------------------------------------------- the loops

  /** One pass of the format-retry loop: a run, the session it reports kept, then a stop on
      a non-zero exit or on a reply that validates. */
  method RunPass(c: Ctx, backend: string, model: string, ghost a0: Attempt, ghost k: nat, a: Attempt) returns (r: Attempt)
    requires a == FormatsAfter(c, backend, model, a0, k) && !a.stop
    ensures r == FormatsAfter(c, backend, model, a0, k + 1)
  {
    var result := c.env.runner(Call(c.base + a.calls, backend, model, a.session));
    var session := a.session;
    if result.sessionId.Some? && result.sessionId.value != "" {
      session := result.sessionId;
    }
    r := a.(calls := a.calls + 1, result := Some(result), session := session);
    if result.returnCode != 0 {
      r := r.(stop := true);
    } else {
      var v := c.check(result.message);
      r := r.(contract := v.contract, errors := v.errors, stop := v.errors == [], ok := v.errors == []);
    }
  }

  /** The format-retry loop of one chain entry, run from the chain loop's variables: runs
      the entry until a run exits non-zero, a reply validates, or the passes are used up. */
  method RunFormats(c: Ctx, backend: string, model: string, calls0: nat, result0: Option<RunResult>,
                    session0: Option<string>, contract0: Option<Fields>) returns (a: Attempt)
    ensures a == FormatsAfter(c, backend, model, Attempt(calls0, result0, session0, contract0, [], false, false),
                              FormatAttempts(c.env))
  {
    ghost var a0 := Attempt(calls0, result0, session0, contract0, [], false, false);
    var n := FormatAttempts(c.env);
    a := Attempt(calls0, result0, session0, contract0, [], false, false);
    var k := 0;
    while k < n
      invariant 0 <= k <= n
      invariant a == FormatsAfter(c, backend, model, a0, k) && !a.stop
    {
      a := RunPass(c, backend, model, a0, k, a);
      k := k + 1;
      if a.stop {
        FormatsStay(c, backend, model, a0, k, n);
        return;
      }
    }
  }

  /** One chain entry as attempted: the backend lower-cased (codex when blank), the model
      stripped, and the role's session when it was opened on that backend and model. */
  method EntryToAttempt(chain: seq<ChainEntry>, i: nat, role: RoleState) returns (e: ChainEntry, session: Option<string>)
    requires i < |chain|
    ensures e == Plan(chain)[i] && session == Sessions(role, Plan(chain))[i]
  {
    PlanAt(chain, i);
    SessionsAt(role, Plan(chain), i);
    e := ChainEntry(NormalizeBackend(chain[i].backend), Strip(chain[i].model));
    session := None;
    if SameSessionModel(role, e.backend, e.model) && role.sessionId.Str? && Strip(role.sessionId.s) != "" {
      session := Some(role.sessionId.s);
    }
  }

  /** One pass of the chain loop over entry i: the entry's format-retry loop, then the
      role's session stored on success, the entry recorded as attempted, and as exhausted when
      it ended on a quota error. */
  method RunEntry(c: Ctx, chain: seq<ChainEntry>, role0: RoleState, i: nat, run: Run) returns (r: Run)
    requires i < |chain|
    requires run == ChainAfter(c, Plan(chain), Sessions(role0, Plan(chain)), role0, i) && !run.stop
    ensures r == ChainAfter(c, Plan(chain), Sessions(role0, Plan(chain)), role0, i + 1)
  {
    assert run.role == role0 by {
      ChainFacts(c, Plan(chain), Sessions(role0, Plan(chain)), role0, i);
    }
    var e, session := EntryToAttempt(chain, i, run.role);
    var a := RunFormats(c, e.backend, e.model, run.calls, run.result, session, run.contract);
    var role := run.role;
    if a.ok && a.result.Some? {
      role := StoredSession(run.role, a.session, a.result.value);
    }
    r := run.(calls := a.calls, result := a.result, contract := a.contract,
              attempted := run.attempted + [e], role := role, ok := a.ok,
              errors := if a.ok then [] else run.errors);
    if a.result.Some? && a.result.value.returnCode == 0 && a.errors == [] {
      r := r.(stop := true);
    } else if HitQuota(c, a) {
      r := r.(errors := a.errors, exhausted := run.exhausted + [e]);
    } else {
      r := r.(errors := a.errors);
    }
  }

  /** The chain loop: each entry in turn until a reply validates. */
  method RunModelChain(c: Ctx, chain: seq<ChainEntry>, role0: RoleState) returns (run: Run)
    ensures run == ChainRun(c, chain, role0)
  {
    run := InitialRun(role0);
    var i := 0;
    while i < |chain|
      invariant 0 <= i <= |chain|
      invariant run == ChainAfter(c, Plan(chain), Sessions(role0, Plan(chain)), role0, i) && !run.stop
    {
      run := RunEntry(c, chain, role0, i, run);
      i := i + 1;
      if run.stop {
        ChainStays(c, Plan(chain), Sessions(role0, Plan(chain)), role0, i, |chain|);
        return;
      }
    }
  }

  // ---------------------------------------------------------------- the state after a run

  /** The chain loop run for task t, from its role's record as ensure_role leaves it, busy. */
  function TaskRun(env: Env, roles: map<string, RoleState>, t: Task, base: nat): Run {
    ChainRun(TaskCtx(env, t.role, t.id, base), ModelChainForRole(env.router, t.role),
             RoleOf(roles, t.role).(activity := Busy))
  }

  /** The pipeline or debate id recorded in the metadata under `key`, as str(), when truthy. */
  function GroupRef(t: Task, key: string): Option<string> {
    match Get(Metadata(t), key)
    case Some(j) => if Truthy(j) then Some(PyStr(j)) else None
    case None => None
  }

  /** A failed task's error recorded on the pipeline with that id. */
  function MarkPipeline(ps: seq<Pipeline>, id: string, u: Task): seq<Pipeline> {
    match FindPipeline(ps, id)
    case None => ps
    case Some(j) => if u.status == Failed then ps[j := ps[j].(lastError := u.error)] else ps
  }

  /** recompute_pipeline_status on a pipeline list. */
  function RefreshPipeline(ps: seq<Pipeline>, id: string, tasks: seq<Task>, now: int): seq<Pipeline> {
    match FindPipeline(ps, id)
    case None => ps
    case Some(j) => ps[j := ps[j].(status := AggregateStatus(ObserveAll(tasks, ps[j].taskIds)), updatedAt := now)]
  }

  function MarkDebate(ds: seq<Debate>, id: string, u: Task): seq<Debate> {
    match FindDebate(ds, id)
    case None => ds
    case Some(j) => if u.status == Failed then ds[j := ds[j].(lastError := u.error)] else ds
  }

  function RefreshDebate(ds: seq<Debate>, id: string, tasks: seq<Task>, now: int): seq<Debate> {
    match FindDebate(ds, id)
    case None => ds
    case Some(j) => ds[j := ds[j].(status := AggregateStatus(ObserveAll(tasks, ds[j].taskIds)), updatedAt := now)]
  }

  /** The pipelines once a task that produced a result is over. */
  function PipelinesAfter(ps: seq<Pipeline>, id: Option<string>, u: Task, tasks: seq<Task>, now: int): seq<Pipeline> {
    if id.None? then ps else RefreshPipeline(MarkPipeline(ps, id.value, u), id.value, tasks, now)
  }

  function DebatesAfter(ds: seq<Debate>, id: Option<string>, u: Task, tasks: seq<Task>, now: int): seq<Debate> {
    if id.None? then ds else RefreshDebate(MarkDebate(ds, id.value, u), id.value, tasks, now)
  }

  /** The tasks, roles, pipelines and debates (primed) once the chain loop of task i is over,
      from the state it started in: the outcome recorded on the task, the role released, the
      task's pipeline and debate brought up to date, and the code returned. */
  predicate Finished(policy: QuotaPolicy, now: int, i: nat, run: Run,
                     ts: seq<Task>, rs: map<string, RoleState>, ps: seq<Pipeline>, ds: seq<Debate>,
                     ts': seq<Task>, rs': map<string, RoleState>, ps': seq<Pipeline>, ds': seq<Debate>,
                     code: int)
    requires i < |ts|
  {
    var u := Concluded(ts[i], run, policy, now);
    ts' == ts[i := u] && rs' == rs[ts[i].role := Released(run, now)] &&
    ps' == (if run.result.Some? then PipelinesAfter(ps, GroupRef(ts[i], "pipeline_id"), u, ts', now) else ps) &&
    ds' == (if run.result.Some? then DebatesAfter(ds, GroupRef(ts[i], "debate_id"), u, ts', now) else ds) &&
    code == ExitCode(run, policy)
  }

  /** The state after _dispatch_task_object ran task i at instant `now`, returning `code`
      after `calls` runner calls. */
  predicate DispatchedAt(env: Env, now: int, base: nat, i: nat,
                         ts: seq<Task>, rs: map<string, RoleState>, ps: seq<Pipeline>, ds: seq<Debate>,
                         ts': seq<Task>, rs': map<string, RoleState>, ps': seq<Pipeline>, ds': seq<Debate>,
                         code: int, calls: nat)
    requires i < |ts|
  {
    var t := ts[i];
    var run := TaskRun(env, rs, t, base);
    Finished(env.policy, now, i, run, ts[i := Started(t, now)], rs[t.role := RoleOf(rs, t.role).(activity := Busy)],
             ps, ds, ts', rs', ps', ds', code) &&
    calls == run.calls
  }

  /** The start of a run: the role registered and busy, the task running. */
  method StartTask(st: RuntimeState, i: nat, now: int) returns (role: RoleState)
    requires i < |st.tasks|
    modifies st
    ensures role == RoleOf(old(st.roles), old(st.tasks)[i].role).(activity := Busy)
    ensures st.tasks == old(st.tasks)[i := Started(old(st.tasks)[i], now)]
    ensures st.roles == old(st.roles)[old(st.tasks)[i].role := role]
    ensures st.pipelines == old(st.pipelines) && st.debates == old(st.debates)
    ensures st.version == old(st.version) && st.status == old(st.status) && st.config == old(st.config)
    ensures st.missing == old(st.missing)
  {
    var t := st.tasks[i];
    st.EnsureRole(t.role);
    st.tasks := st.tasks[i := Started(t, now)];
    role := st.roles[t.role].(activity := Busy);
    st.roles := st.roles[t.role := role];
  }

  /** failed_task bookkeeping on a pipeline: a failed task's error is recorded on the pipeline
      with that id, whose status is then recomputed. */
  method RecordPipeline(st: RuntimeState, id: Option<string>, u: Task, now: int)
    modifies st
    ensures st.pipelines == PipelinesAfter(old(st.pipelines), id, u, st.tasks, now)
    ensures st.tasks == old(st.tasks) && st.roles == old(st.roles) && st.debates == old(st.debates)
    ensures st.version == old(st.version) && st.status == old(st.status) && st.config == old(st.config)
    ensures st.missing == old(st.missing)
  {
    if id.Some? {
      var found := FindPipeline(st.pipelines, id.value);
      if found.Some? && u.status == Failed {
        st.pipelines := st.pipelines[found.value := st.pipelines[found.value].(lastError := u.error)];
      }
      var _ := st.RecomputePipelineStatus(id.value, now);
    }
  }

  method RecordDebate(st: RuntimeState, id: Option<string>, u: Task, now: int)
    modifies st
    ensures st.debates == DebatesAfter(old(st.debates), id, u, st.tasks, now)
    ensures st.tasks == old(st.tasks) && st.roles == old(st.roles) && st.pipelines == old(st.pipelines)
    ensures st.version == old(st.version) && st.status == old(st.status) && st.config == old(st.config)
    ensures st.missing == old(st.missing)
  {
    if id.Some? {
      var found := FindDebate(st.debates, id.value);
      if found.Some? && u.status == Failed {
        st.debates := st.debates[found.value := st.debates[found.value].(lastError := u.error)];
      }
      var _ := st.RecomputeDebateStatus(id.value, now);
    }
  }

  /** The code _dispatch_task_object returns: 0 for a done or deferred task, otherwise the
      runner's non-zero exit code, or 1. */
  method ReturnCode(t: Task, run: Run, policy: QuotaPolicy, now: int) returns (code: int)
    ensures code == ExitCode(run, policy)
  {
    var u := Concluded(t, run, policy, now);
    if run.result.None? {
      code := 1;
    } else if u.status == Done || u.status == Queued {
      code := 0;
    } else if run.result.value.returnCode != 0 {
      code := run.result.value.returnCode;
    } else {
      code := 1;
    }
    assert code == ExitCode(run, policy) by {
      OutcomeCases(t, run, policy, now);
    }
  }

  /** The end of a run: the outcome recorded, the role released, the pipeline and debate
      the task belongs to brought up to date, and the code to return. */
  method FinishTask(st: RuntimeState, i: nat, run: Run, policy: QuotaPolicy, now: int) returns (code: int)
    requires i < |st.tasks|
    modifies st
    ensures Finished(policy, now, i, run, old(st.tasks), old(st.roles), old(st.pipelines), old(st.debates),
                     st.tasks, st.roles, st.pipelines, st.debates, code)
    ensures st.version == old(st.version) && st.status == old(st.status) && st.config == old(st.config)
    ensures st.missing == old(st.missing)
  {
    var t := st.tasks[i];
    var u := Concluded(t, run, policy, now);
    st.tasks := st.tasks[i := u];
    st.roles := st.roles[t.role := Released(run, now)];
    code := ReturnCode(t, run, policy, now);
    if run.result.Some? {
      RecordPipeline(st, GroupRef(t, "pipeline_id"), u, now);
      RecordDebate(st, GroupRef(t, "debate_id"), u, now);
    }
  }

  /** _dispatch_task_object: task i runs over its role's model chain, its outcome is recorded,
      the role is released, and the task's pipeline and debate are brought up to date. */
  method DispatchTaskObject(st: RuntimeState, i: nat, env: Env, now: int, base: nat) returns (code: int, calls: nat)
    requires i < |st.tasks|
    modifies st
    ensures DispatchedAt(env, now, base, i, old(st.tasks), old(st.roles), old(st.pipelines), old(st.debates),
                         st.tasks, st.roles, st.pipelines, st.debates, code, calls)
    ensures st.version == old(st.version) && st.status == old(st.status) && st.config == old(st.config)
    ensures st.missing == old(st.missing)
  {
    var t := st.tasks[i];
    var role := StartTask(st, i, now);
    var run := RunModelChain(TaskCtx(env, t.role, t.id, base), ModelChainForRole(env.router, t.role), role);
    calls := run.calls;
    code := FinishTask(st, i, run, env.policy, now);
  }

  /** Two pipeline lists with the same ids and task lists, position by position. */
  predicate SamePipelines(ps: seq<Pipeline>, ps': seq<Pipeline>) {
    |ps'| == |ps| && forall j :: 0 <= j < |ps| ==> ps'[j].id == ps[j].id && ps'[j].taskIds == ps[j].taskIds
  }

  predicate SameDebates(ds: seq<Debate>, ds': seq<Debate>) {
    |ds'| == |ds| && forall j :: 0 <= j < |ds| ==> ds'[j].id == ds[j].id && ds'[j].taskIds == ds[j].taskIds
  }

  /** Recording an outcome on a pipeline changes only its status, error and update time. */
  lemma {:induction false} PipelinesAfterShape(ps: seq<Pipeline>, id: Option<string>, u: Task, tasks: seq<Task>, now: int)
    ensures SamePipelines(ps, PipelinesAfter(ps, id, u, tasks, now))
  {
    if id.Some? {
      var m := MarkPipeline(ps, id.value, u);
      assert SamePipelines(ps, m);
      assert SamePipelines(m, RefreshPipeline(m, id.value, tasks, now));
    }
  }

  lemma {:induction false} DebatesAfterShape(ds: seq<Debate>, id: Option<string>, u: Task, tasks: seq<Task>, now: int)
    ensures SameDebates(ds, DebatesAfter(ds, id, u, tasks, now))
  {
    if id.Some? {
      var m := MarkDebate(ds, id.value, u);
      assert SameDebates(ds, m);
      assert SameDebates(m, RefreshDebate(m, id.value, tasks, now));
    }
  }

  /** Once the chain loop is over the task is done, failed, or queued again with a retry
      instant still ahead; a code of 0 means done or deferred. No other task changes, no id
      changes, and the role is left idle. */
  lemma {:induction false} FinishedEffect(policy: QuotaPolicy, now: int, i: nat, run: Run,
                                          ts: seq<Task>, rs: map<string, RoleState>, ps: seq<Pipeline>, ds: seq<Debate>,
                                          ts': seq<Task>, rs': map<string, RoleState>, ps': seq<Pipeline>, ds': seq<Debate>,
                                          code: int)
    requires i < |ts|
    requires Finished(policy, now, i, run, ts, rs, ps, ds, ts', rs', ps', ds', code)
    ensures |ts'| == |ts| && TaskIds(ts') == TaskIds(ts)
    ensures forall j :: 0 <= j < |ts| && j != i ==> ts'[j] == ts[j]
    ensures ts'[i].status in {Done, Failed, Queued}
    ensures ts'[i].status == Queued ==> IsTaskDeferred(ts'[i], now)
    ensures code == 0 <==> ts'[i].status in {Done, Queued}
    ensures SamePipelines(ps, ps') && SameDebates(ds, ds')
    ensures rs'.Keys == rs.Keys + {ts[i].role} && rs'[ts[i].role].activity == Idle
  {
    var u := Concluded(ts[i], run, policy, now);
    OutcomeCases(ts[i], run, policy, now);
    if u.status == Queued {
      DeferredWaits(ts[i], run, policy, now, now);
      assert RetryAt(u) == RetryAt(Deferred(ts[i], run, policy, now));
    }
    assert forall j :: 0 <= j < |ts| ==> TaskIds(ts')[j] == TaskIds(ts)[j];
    if run.result.Some? {
      PipelinesAfterShape(ps, GroupRef(ts[i], "pipeline_id"), u, ts', now);
      DebatesAfterShape(ds, GroupRef(ts[i], "debate_id"), u, ts', now);
    }
  }

  /** A dispatched task is no longer waiting to run: it is done, failed, or queued again with
      a retry instant still ahead; a code of 0 means done or deferred. No other task changes,
      no id changes, the role is left idle, and the runner is called at most
      max(max_model_attempts_per_task, 1) (MAX_OUTPUT_FORMAT_RETRIES + 1) times. */
  lemma {:induction false} DispatchEffect(env: Env, now: int, base: nat, i: nat,
                                          ts: seq<Task>, rs: map<string, RoleState>, ps: seq<Pipeline>, ds: seq<Debate>,
                                          ts': seq<Task>, rs': map<string, RoleState>, ps': seq<Pipeline>, ds': seq<Debate>,
                                          code: int, calls: nat)
    requires i < |ts|
    requires DispatchedAt(env, now, base, i, ts, rs, ps, ds, ts', rs', ps', ds', code, calls)
    ensures |ts'| == |ts| && TaskIds(ts') == TaskIds(ts)
    ensures forall j :: 0 <= j < |ts| && j != i ==> ts'[j] == ts[j]
    ensures ts'[i].status in {Done, Failed, Queued}
    ensures ts'[i].status == Queued ==> IsTaskDeferred(ts'[i], now)
    ensures code == 0 <==> ts'[i].status in {Done, Queued}
    ensures SamePipelines(ps, ps') && SameDebates(ds, ds')
    ensures rs'.Keys == rs.Keys + {ts[i].role} && rs'[ts[i].role].activity == Idle
    ensures calls <= Max(env.router.maxAttempts, 1) * FormatAttempts(env)
  {
    var t := ts[i];
    StartedEffect(env.policy, now, i, TaskRun(env, rs, t, base), ts, rs, ps, ds, ts', rs', ps', ds', code);
    AttemptsBound(env, t.role, t.id, base, RoleOf(rs, t.role).(activity := Busy));
  }

  /** FinishedEffect seen from the state before the task was started, for any run. */
  lemma {:induction false} StartedEffect(policy: QuotaPolicy, now: int, i: nat, run: Run,
                                         ts: seq<Task>, rs: map<string, RoleState>, ps: seq<Pipeline>, ds: seq<Debate>,
                                         ts': seq<Task>, rs': map<string, RoleState>, ps': seq<Pipeline>, ds': seq<Debate>,
                                         code: int)
    requires i < |ts|
    requires Finished(policy, now, i, run, ts[i := Started(ts[i], now)],
                      rs[ts[i].role := RoleOf(rs, ts[i].role).(activity := Busy)], ps, ds, ts', rs', ps', ds', code)
    ensures |ts'| == |ts| && TaskIds(ts') == TaskIds(ts)
    ensures forall j :: 0 <= j < |ts| && j != i ==> ts'[j] == ts[j]
    ensures ts'[i].status in {Done, Failed, Queued}
    ensures ts'[i].status == Queued ==> IsTaskDeferred(ts'[i], now)
    ensures code == 0 <==> ts'[i].status in {Done, Queued}
    ensures SamePipelines(ps, ps') && SameDebates(ds, ds')
    ensures rs'.Keys == rs.Keys + {ts[i].role} && rs'[ts[i].role].activity == Idle
  {
    var t := ts[i];
    var ts1 := ts[i := Started(t, now)];
    var rs1 := rs[t.role := RoleOf(rs, t.role).(activity := Busy)];
    FinishedEffect(policy, now, i, run, ts1, rs1, ps, ds, ts', rs', ps', ds', code);
    assert TaskIds(ts1) == TaskIds(ts) by {
      assert forall j :: 0 <= j < |ts| ==> TaskIds(ts1)[j] == TaskIds(ts)[j];
    }
  }
}
