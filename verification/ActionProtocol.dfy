/**
 Action attempts of supervised tasks, their recovery budget and the hard-overrun continuation, as a
 step machine.

 Any number of executor processes and operators act at once; each registry transaction is one action,
 and a process may die between any two of its own.  One watchdog process creates overrun
 continuations.  `now` is a clock that never goes back.
 */
module ActionProtocol {
  import opened Prelude

  datatype AttemptState = Armed | Submitted | ReconcileRequired | Acknowledged | Failed | Cancelled

  predicate Unresolved(st: AttemptState) { st.Armed? || st.Submitted? || st.ReconcileRequired? }

  /** States in which the continuation has, or may have, reached the worker. */
  predicate Effective(st: AttemptState) { st.Submitted? || st.ReconcileRequired? || st.Acknowledged? }

  /** Which writer recorded the attempt: the one that charges the recovery budget, or the overrun watchdog. */
  datatype Origin = Charged | Overrun(threshold: int)

  datatype Attempt = Attempt(
    task: string, worker: string, origin: Origin, state: AttemptState, createdAt: int, updatedAt: int,
    submittedAt: Option<int>)

  datatype Task = Task(terminal: bool, worker: Option<string>, used: nat, max: nat)

  datatype Worker = Worker(task: string, active: bool, startedAt: int)

  /** What a transport call returned; `Disabled` is the refusal of a disabled transport, before any effect. */
  datatype TransportReply = Disabled | CallRaised | Replied(submitted: bool, sideEffectPossible: bool)

  datatype Hand = Recorded(attempt: nat) | Ready(attempt: nat) | Answered(attempt: nat, reply: TransportReply)

  /** The watchdog's progress through one task of a cycle. */
  datatype Watch = Asleep | Checked(task: string) | Due(task: string, worker: string, at: int, threshold: int)

  /** `live` says whether the attempt was still unresolved when its transport was called. */
  datatype Call = Call(attempt: nat, live: bool, reply: TransportReply)

  datatype Sys = Sys(
    tasks: map<string, Task>, workers: map<string, Worker>, attempts: seq<Attempt>, now: int,
    hands: map<nat, Hand>, watch: Watch, calls: seq<Call>)

  function Init(): Sys { Sys(map[], map[], [], 0, map[], Asleep, []) }

  // ---- The registry writers ----

  ghost predicate NoUnresolved(s: Sys, task: string) {
    forall i :: 0 <= i < |s.attempts| && s.attempts[i].task == task ==> !Unresolved(s.attempts[i].state)
  }

  /** The fences both writers check inside their transaction. */
  ghost predicate MayRecord(s: Sys, task: string, worker: string) {
    && task in s.tasks && !s.tasks[task].terminal && worker in s.workers && s.workers[worker].task == task
    && s.tasks[task].worker == Some(worker) && s.workers[worker].active && NoUnresolved(s, task)
  }

  function Fresh(task: string, worker: string, origin: Origin, at: int): Attempt {
    Attempt(task, worker, origin, Armed, at, at, None)
  }

  function PutAttempt(s: Sys, i: nat, row: Attempt): Sys
    requires i < |s.attempts|
  {
    s.(attempts := s.attempts[i := row])
  }

  // ---- The overrun clock ----

  /** When a continuation took effect: its submission if known, else the last thing that happened to it. */
  function EffectAt(a: Attempt): int { if a.submittedAt.Some? then a.submittedAt.value else a.updatedAt }

  predicate EffectiveFor(a: Attempt, task: string, worker: string) {
    a.task == task && a.worker == worker && Effective(a.state)
  }

  /** `r` is the effect time of a newest effective continuation of the worker, or none if there is none. */
  ghost predicate IsEffectiveContinue(attempts: seq<Attempt>, task: string, worker: string, r: Option<int>) {
    if r.None? then forall i :: 0 <= i < |attempts| ==> !EffectiveFor(attempts[i], task, worker)
    else exists i ::
           0 <= i < |attempts| && NewestEffective(attempts, task, worker, i) && r.value == EffectAt(attempts[i])
  }

  ghost predicate NewestEffective(attempts: seq<Attempt>, task: string, worker: string, i: int) {
    && 0 <= i < |attempts| && EffectiveFor(attempts[i], task, worker)
    && forall j :: 0 <= j < |attempts| && EffectiveFor(attempts[j], task, worker) ==>
         attempts[j].createdAt <= attempts[i].createdAt
  }

  function Anchor(startedAt: int, continued: Option<int>, generation: Option<int>): int {
    var a := if continued.Some? then Max(startedAt, continued.value) else startedAt;
    if generation.Some? then Max(a, generation.value) else a
  }

  function Threshold(overrunAfter: int): int { Max(1, overrunAfter) }

  /** The anchor is the latest of the three times: when the worker started, was continued, and began to generate. */
  lemma AnchorIsLatest(startedAt: int, continued: Option<int>, generation: Option<int>)
    ensures var a := Anchor(startedAt, continued, generation);
      && startedAt <= a && (continued.Some? ==> continued.value <= a) && (generation.Some? ==> generation.value <= a)
      && (a == startedAt || continued == Some(a) || generation == Some(a))
  {
  }

  predicate ClockDue(at: int, anchor: int, threshold: int) { at - anchor >= threshold && at - anchor >= 0 }

  // ---- Steps ----

  datatype Action =
    | Tick(step: nat)
    | AddTask(id: string, max: nat)
    | EditTask(id: string, terminal: bool, current: Option<string>)
    | EditWorker(id: string, row: Worker)
    | RecordCharged(p: nat, task: string, worker: string, at: int)
    | CheckTask(task: string)
    | ReadClock(continued: Option<int>, generation: Option<int>, overrunAfter: int)
    | RecordOverrun(p: nat)
    | WatchEnds
    | ReadArmed(p: nat)
    | CallTransport(p: nat, reply: TransportReply)
    | Settle(p: nat)
    | ProcessEnds(p: nat)
    | Acknowledge(i: nat, observedAt: int)
    | Cancel(i: nat)
    | OperatorFails(i: nat)

  ghost predicate Enabled(s: Sys, a: Action) {
    match a
    case AddTask(id, _) => id !in s.tasks
    case EditTask(id, _, _) => id in s.tasks
    case EditWorker(id, row) => id in s.workers ==> s.workers[id].task == row.task
    case RecordCharged(p, task, worker, at) =>
      p !in s.hands && at <= s.now && MayRecord(s, task, worker) && s.tasks[task].used < s.tasks[task].max
    case CheckTask(task) => s.watch.Asleep? && NoUnresolved(s, task)
    case ReadClock(continued, _, _) =>
      && s.watch.Checked? && s.watch.task in s.tasks && !s.tasks[s.watch.task].terminal
      && s.tasks[s.watch.task].worker.Some?
      && var worker := s.tasks[s.watch.task].worker.value;
         worker in s.workers && s.workers[worker].active
           && IsEffectiveContinue(s.attempts, s.watch.task, worker, continued)
    case RecordOverrun(p) => p !in s.hands && s.watch.Due? && MayRecord(s, s.watch.task, s.watch.worker)
    case ReadArmed(p) =>
      p in s.hands && s.hands[p].Recorded? && s.hands[p].attempt < |s.attempts|
        && s.attempts[s.hands[p].attempt].state.Armed?
    case CallTransport(p, _) => p in s.hands && s.hands[p].Ready? && s.hands[p].attempt < |s.attempts|
    case Settle(p) =>
      && p in s.hands && s.hands[p].Answered? && s.hands[p].attempt < |s.attempts| && !s.hands[p].reply.Disabled?
      && var a := s.attempts[s.hands[p].attempt];
         if s.hands[p].reply.Replied? && s.hands[p].reply.submitted then a.state.Armed? else Unresolved(a.state)
    case ProcessEnds(p) => p in s.hands
    case Acknowledge(i, observedAt) =>
      i < |s.attempts| && Unresolved(s.attempts[i].state) && s.attempts[i].createdAt <= observedAt
    case Cancel(i) => i < |s.attempts| && Unresolved(s.attempts[i].state)
    case OperatorFails(i) => i < |s.attempts| && Unresolved(s.attempts[i].state)
    case _ => true
  }

  /** What the executor writes after the transport has answered. */
  function StateAfter(reply: TransportReply): AttemptState {
    match reply
    case Disabled => Armed
    case CallRaised => ReconcileRequired
    case Replied(submitted, sideEffectPossible) =>
      if submitted then Submitted else if sideEffectPossible then ReconcileRequired else Failed
  }

  function SettledRow(a: Attempt, reply: TransportReply, now: int): Attempt {
    if reply.Disabled? then a
    else a.(state := StateAfter(reply), updatedAt := now,
            submittedAt := if StateAfter(reply).Submitted? then Some(now) else a.submittedAt)
  }

  ghost function Apply(s: Sys, a: Action): Sys
    requires Enabled(s, a)
  {
    match a
    case Tick(step) => s.(now := s.now + step)
    case AddTask(id, max) => s.(tasks := s.tasks[id := Task(false, None, 0, max)])
    case EditTask(id, terminal, current) =>
      s.(tasks := s.tasks[id := s.tasks[id].(terminal := terminal, worker := current)])
    case EditWorker(id, row) => s.(workers := s.workers[id := row])
    case RecordCharged(p, task, worker, at) =>
      s.(attempts := s.attempts + [Fresh(task, worker, Charged, at)],
         tasks := s.tasks[task := s.tasks[task].(used := s.tasks[task].used + 1)],
         hands := s.hands[p := Recorded(|s.attempts|)])
    case CheckTask(task) => s.(watch := Checked(task))
    case ReadClock(continued, generation, overrunAfter) =>
      var worker := s.tasks[s.watch.task].worker.value;
      var anchor := Anchor(s.workers[worker].startedAt, continued, generation);
      if ClockDue(s.now, anchor, Threshold(overrunAfter)) then
        s.(watch := Due(s.watch.task, worker, s.now, Threshold(overrunAfter)))
      else s.(watch := Asleep)
    case RecordOverrun(p) =>
      s.(attempts := s.attempts + [Fresh(s.watch.task, s.watch.worker, Overrun(s.watch.threshold), s.watch.at)],
         hands := s.hands[p := Recorded(|s.attempts|)], watch := Asleep)
    case WatchEnds => s.(watch := Asleep)
    case ReadArmed(p) => s.(hands := s.hands[p := Ready(s.hands[p].attempt)])
    case CallTransport(p, reply) =>
      var i := s.hands[p].attempt;
      s.(hands := s.hands[p := Answered(i, reply)],
         calls := s.calls + [Call(i, Unresolved(s.attempts[i].state), reply)])
    case Settle(p) =>
      var i := s.hands[p].attempt;
      PutAttempt(s, i, SettledRow(s.attempts[i], s.hands[p].reply, s.now)).(hands := s.hands - {p})
    case ProcessEnds(p) => s.(hands := s.hands - {p})
    case Acknowledge(i, observedAt) =>
      PutAttempt(s, i, s.attempts[i].(state := Acknowledged, updatedAt := observedAt))
    case Cancel(i) => PutAttempt(s, i, s.attempts[i].(state := Cancelled, updatedAt := s.now))
    case OperatorFails(i) => PutAttempt(s, i, s.attempts[i].(state := Failed, updatedAt := s.now))
  }

  // ---- Runs ----

  ghost predicate Legal(acts: seq<Action>)
    decreases |acts|, 0
  {
    acts == [] || (Legal(acts[..|acts| - 1]) && Enabled(Exec(acts[..|acts| - 1]), acts[|acts| - 1]))
  }

  ghost function Exec(acts: seq<Action>): Sys
    requires Legal(acts)
    decreases |acts|, 1
  {
    if acts == [] then Init() else Apply(Exec(acts[..|acts| - 1]), acts[|acts| - 1])
  }

  predicate Pinned(acts: seq<Action>) { true }

  /** The run `acts` leads to `s`; see `ChatProtocol.Leads`. */
  ghost predicate Leads(acts: seq<Action>, s: Sys) {
    forall u {:trigger Pinned(u)} :: Pinned(u) && u == acts ==> Legal(u) && Exec(u) == s
  }

  lemma Unroll(acts: seq<Action>, s: Sys)
    requires Leads(acts, s)
    ensures Legal(acts) && Exec(acts) == s
  {
    assert Pinned(acts);
  }

  lemma LeadsFurther(acts: seq<Action>, s: Sys, a: Action)
    requires Leads(acts, s) && Enabled(s, a)
    ensures Leads(acts + [a], Apply(s, a))
  {
    Unroll(acts, s);
    assert (acts + [a])[..|acts + [a]| - 1] == acts;
  }

  // ---- What every run keeps ----

  function ChargedTo(attempts: seq<Attempt>, task: string): nat {
    if attempts == [] then 0
    else ChargedTo(attempts[..|attempts| - 1], task)
         + if attempts[|attempts| - 1].task == task && attempts[|attempts| - 1].origin.Charged? then 1 else 0
  }

  ghost predicate Budget(s: Sys) {
    && (forall id :: id in s.tasks ==> s.tasks[id].used == ChargedTo(s.attempts, id) <= s.tasks[id].max)
    && (forall i :: 0 <= i < |s.attempts| ==> s.attempts[i].task in s.tasks)
  }

  /** Only the newest attempt of a task can be unresolved. */
  ghost predicate OneOpen(s: Sys) {
    forall i, j :: 0 <= i < j < |s.attempts| && s.attempts[i].task == s.attempts[j].task ==>
      !Unresolved(s.attempts[i].state)
  }

  /** Each attempt is in at most one process's hands. */
  ghost predicate Hands(s: Sys) {
    && (forall p :: p in s.hands ==> s.hands[p].attempt < |s.attempts|)
    && (forall p, q :: p in s.hands && q in s.hands && s.hands[p].attempt == s.hands[q].attempt ==> p == q)
  }

  /** What a process holds has not been called before that process calls it. */
  ghost predicate Uncalled(s: Sys) {
    && (forall k :: 0 <= k < |s.calls| ==> s.calls[k].attempt < |s.attempts|)
    && (forall p, k :: p in s.hands && !s.hands[p].Answered? && 0 <= k < |s.calls| ==>
          s.calls[k].attempt != s.hands[p].attempt)
  }

  ghost predicate CalledOnce(s: Sys) {
    forall k, l :: 0 <= k < l < |s.calls| ==> s.calls[k].attempt != s.calls[l].attempt
  }

  /** A call for an attempt that is still unresolved comes after the calls for all older attempts of its task. */
  ghost predicate CalledInOrder(s: Sys) {
    forall k, l :: 0 <= k < l < |s.calls| && s.calls[l].live ==>
      s.calls[k].attempt < |s.attempts| && s.calls[l].attempt < |s.attempts|
      && (s.attempts[s.calls[k].attempt].task == s.attempts[s.calls[l].attempt].task ==>
            s.calls[k].attempt < s.calls[l].attempt)
  }

  ghost predicate Times(s: Sys) {
    forall i :: 0 <= i < |s.attempts| ==>
      && s.attempts[i].createdAt <= s.now && s.attempts[i].createdAt <= s.attempts[i].updatedAt
      && s.attempts[i].createdAt <= EffectAt(s.attempts[i])
  }

  predicate OverrunOf(a: Attempt, task: string) { a.task == task && a.origin.Overrun? }

  /** Between the watchdog's check and its record, every overrun continuation of the task is over. */
  ghost predicate Watching(s: Sys) {
    && (!s.watch.Asleep? ==> forall i :: 0 <= i < |s.attempts| && OverrunOf(s.attempts[i], s.watch.task) ==>
          !Unresolved(s.attempts[i].state))
    && (s.watch.Due? ==>
          && s.watch.at <= s.now
          && forall i ::
               (0 <= i < |s.attempts| && OverrunOf(s.attempts[i], s.watch.task)
                && s.attempts[i].worker == s.watch.worker
                && Effective(s.attempts[i].state)) ==> s.attempts[i].createdAt + s.watch.threshold <= s.watch.at)
  }

  ghost predicate Spaced(s: Sys) {
    (forall i, j ::
          (0 <= i < j < |s.attempts| && s.attempts[i].origin.Overrun? && s.attempts[j].origin.Overrun?
           && s.attempts[i].worker == s.attempts[j].worker && Effective(s.attempts[i].state))
          ==> s.attempts[i].createdAt + s.attempts[j].origin.threshold <= s.attempts[j].createdAt)
  }

  /** A worker belongs to one task, and so do the attempts made through it. */
  ghost predicate Owned(s: Sys) {
    forall i :: 0 <= i < |s.attempts| ==>
      s.attempts[i].worker in s.workers && s.workers[s.attempts[i].worker].task == s.attempts[i].task
  }

  ghost predicate Inv(s: Sys) {
    && Budget(s) && OneOpen(s) && Hands(s) && Uncalled(s) && CalledOnce(s) && CalledInOrder(s)
    && Times(s) && Watching(s) && Spaced(s) && Owned(s)
  }

  lemma ChargedAppend(attempts: seq<Attempt>, a: Attempt, task: string)
    ensures ChargedTo(attempts + [a], task) == ChargedTo(attempts, task)
      + if a.task == task && a.origin.Charged? then 1 else 0
  {
    var more := attempts + [a];
    assert more[..|more| - 1] == attempts;
  }

  predicate Records(a: Action) { a.RecordCharged? || a.RecordOverrun? }

  /** Recording appends one row; no other step changes whose an attempt is or who pays for it. */
  lemma RowsAfter(s: Sys, a: Action) returns (row: Option<Attempt>)
    requires Enabled(s, a)
    ensures Records(a) <==> row.Some?
    ensures row.Some? ==> Apply(s, a).attempts == s.attempts + [row.value]
    ensures a.RecordCharged? ==> row.value.task == a.task && row.value.origin.Charged?
    ensures a.RecordOverrun? ==> row.value.origin.Overrun?
    ensures row.None? ==> |Apply(s, a).attempts| == |s.attempts|
    ensures row.None? ==> forall i :: 0 <= i < |s.attempts| ==>
      Apply(s, a).attempts[i].task == s.attempts[i].task && Apply(s, a).attempts[i].origin == s.attempts[i].origin
  {
    row := match a
      case RecordCharged(_, task, worker, at) => Some(Fresh(task, worker, Charged, at))
      case RecordOverrun(_) => Some(Fresh(s.watch.task, s.watch.worker, Overrun(s.watch.threshold), s.watch.at))
      case _ => None;
  }

  /** Recording charges one attempt, or none, to one task; every other step leaves all charges as they are. */
  lemma ChargesAfter(s: Sys, s': Sys, row: Option<Attempt>, id: string)
    requires row.Some? ==> s'.attempts == s.attempts + [row.value]
    requires row.None? ==> |s'.attempts| == |s.attempts|
    requires row.None? ==> forall i :: 0 <= i < |s.attempts| ==>
      s'.attempts[i].task == s.attempts[i].task && s'.attempts[i].origin == s.attempts[i].origin
    ensures ChargedTo(s'.attempts, id) ==
      ChargedTo(s.attempts, id) + if row.Some? && row.value.task == id && row.value.origin.Charged? then 1 else 0
  {
    if row.Some? {
      ChargedAppend(s.attempts, row.value, id);
    } else {
      SameCharges(s.attempts, s'.attempts, id);
    }
  }

  lemma StepKeepsBudget(s: Sys, a: Action)
    requires Budget(s) && Enabled(s, a)
    ensures Budget(Apply(s, a))
  {
    var row := RowsAfter(s, a);
    forall id | id in Apply(s, a).tasks
      ensures Apply(s, a).tasks[id].used == ChargedTo(Apply(s, a).attempts, id) <= Apply(s, a).tasks[id].max
    {
      ChargesAfter(s, Apply(s, a), row, id);
      if a.AddTask? && a.id == id {
        NothingCharged(s.attempts, id);
      }
    }
  }

  lemma {:induction false} SameCharges(a: seq<Attempt>, b: seq<Attempt>, task: string)
    requires |a| == |b| && forall i :: 0 <= i < |a| ==> a[i].task == b[i].task && a[i].origin == b[i].origin
    ensures ChargedTo(a, task) == ChargedTo(b, task)
  {
    if a != [] {
      SameCharges(a[..|a| - 1], b[..|b| - 1], task);
    }
  }

  lemma {:induction false} NothingCharged(a: seq<Attempt>, task: string)
    requires forall i :: 0 <= i < |a| ==> a[i].task != task
    ensures ChargedTo(a, task) == 0
  {
    if a != [] {
      NothingCharged(a[..|a| - 1], task);
    }
  }

  lemma StepKeepsOneOpen(s: Sys, a: Action)
    requires OneOpen(s) && Enabled(s, a)
    ensures OneOpen(Apply(s, a))
  {
  }

  lemma StepKeepsHands(s: Sys, a: Action)
    requires Hands(s) && Enabled(s, a)
    ensures Hands(Apply(s, a))
  {
  }

  lemma StepKeepsUncalled(s: Sys, a: Action)
    requires Hands(s) && Uncalled(s) && Enabled(s, a)
    ensures Uncalled(Apply(s, a))
  {
  }

  lemma StepKeepsCalls(s: Sys, a: Action)
    requires OneOpen(s) && Hands(s) && Uncalled(s) && CalledOnce(s) && CalledInOrder(s) && Enabled(s, a)
    ensures CalledOnce(Apply(s, a)) && CalledInOrder(Apply(s, a))
  {
    var s' := Apply(s, a);
    assert |s.attempts| <= |s'.attempts| && forall i :: 0 <= i < |s.attempts| ==>
      s'.attempts[i].task == s.attempts[i].task;
    if a.CallTransport? {
      assert s'.calls == s.calls + [Call(s.hands[a.p].attempt, Unresolved(s.attempts[s.hands[a.p].attempt].state),
          a.reply)];
    } else {
      assert s'.calls == s.calls;
    }
  }

  lemma StepKeepsTimes(s: Sys, a: Action)
    requires Times(s) && Watching(s) && Enabled(s, a)
    ensures Times(Apply(s, a))
  {
  }

  lemma StepKeepsWatching(s: Sys, a: Action)
    requires Times(s) && Watching(s) && Enabled(s, a)
    ensures Watching(Apply(s, a))
  {
  }

  lemma StepKeepsSpaced(s: Sys, a: Action)
    requires OneOpen(s) && Watching(s) && Spaced(s) && Owned(s) && Enabled(s, a)
    ensures Spaced(Apply(s, a))
  {
  }

  lemma StepKeepsOwned(s: Sys, a: Action)
    requires Owned(s) && Enabled(s, a)
    ensures Owned(Apply(s, a))
  {
  }

  lemma {:induction false} RunKeepsInv(acts: seq<Action>)
    requires Legal(acts)
    ensures Inv(Exec(acts))
    decreases |acts|
  {
    if acts != [] {
      var s, a := Exec(acts[..|acts| - 1]), acts[|acts| - 1];
      RunKeepsInv(acts[..|acts| - 1]);
      StepKeepsBudget(s, a);
      StepKeepsOneOpen(s, a);
      StepKeepsHands(s, a);
      StepKeepsUncalled(s, a);
      StepKeepsCalls(s, a);
      StepKeepsTimes(s, a);
      StepKeepsWatching(s, a);
      StepKeepsSpaced(s, a);
      StepKeepsOwned(s, a);
    }
  }

  // ---- Theorems ----

  /** A task's counter is the number of budgeted attempts ever recorded for it, and stays within its limit. */
  lemma BudgetIsConserved(acts: seq<Action>, task: string)
    requires Legal(acts) && task in Exec(acts).tasks
    ensures Exec(acts).tasks[task].used == ChargedTo(Exec(acts).attempts, task) <= Exec(acts).tasks[task].max
  {
    RunKeepsInv(acts);
  }

  /** However many executors run and die, an attempt's transport is called at most once. */
  lemma OneCallPerAttempt(acts: seq<Action>, k: nat, l: nat)
    requires Legal(acts) && k < |Exec(acts).calls| && l < |Exec(acts).calls|
    requires Exec(acts).calls[k].attempt == Exec(acts).calls[l].attempt
    ensures k == l
  {
    RunKeepsInv(acts);
  }

  /**
   When a transport is called for an attempt that is still unresolved, every other attempt of the task is
   over; so another one is open at a call only if this one was closed between its last check and the call.
   */
  lemma CallLeavesNoOtherOpen(acts: seq<Action>, p: nat, reply: TransportReply, j: nat)
    requires Legal(acts) && Enabled(Exec(acts), CallTransport(p, reply)) && j < |Exec(acts).attempts|
    requires
      var s := Exec(acts); var i := s.hands[p].attempt;
      j != i && s.attempts[j].task == s.attempts[i].task && Unresolved(s.attempts[j].state)
    ensures var s := Exec(acts); s.hands[p].attempt < j && !Unresolved(s.attempts[s.hands[p].attempt].state)
  {
    RunKeepsInv(acts);
  }

  ghost predicate OtherOpen(s: Sys, i: nat, j: nat)
    requires i < |s.attempts|
  {
    j < |s.attempts| && j != i && s.attempts[j].task == s.attempts[i].task && Unresolved(s.attempts[j].state)
  }

  ghost predicate Newest(s: Sys, task: string, j: nat) {
    && j < |s.attempts| && s.attempts[j].task == task
    && forall m :: j < m < |s.attempts| ==> s.attempts[m].task != task
  }

  ghost predicate WasCalled(s: Sys, j: nat) {
    exists k :: 0 <= k < |s.calls| && s.calls[k].attempt == j
  }

  /**
   At a transport call another attempt of the task is open exactly when the calling one has been closed since its
   executor last looked and the task's newest attempt is open; and the other one may have been called before.
   */
  lemma OtherOpenAtCallIff(acts: seq<Action>, p: nat, reply: TransportReply)
    requires Legal(acts) && Enabled(Exec(acts), CallTransport(p, reply))
    ensures
      var s := Exec(acts); var i, task := s.hands[p].attempt, s.attempts[s.hands[p].attempt].task;
      && ((exists j :: OtherOpen(s, i, j))
          <==> !Unresolved(s.attempts[i].state)
               && exists j: nat :: Newest(s, task, j) && Unresolved(s.attempts[j].state))
      && ((exists j :: OtherOpen(s, i, j) && WasCalled(s, j))
          <==> !Unresolved(s.attempts[i].state)
               && exists j: nat :: Newest(s, task, j) && Unresolved(s.attempts[j].state) && WasCalled(s, j))
  {
    RunKeepsInv(acts);
    var s := Exec(acts);
    var i := s.hands[p].attempt;
    OpenIsNewest(s, i);
  }

  lemma OpenIsNewest(s: Sys, i: nat)
    requires OneOpen(s) && i < |s.attempts|
    ensures forall j :: OtherOpen(s, i, j) ==> !Unresolved(s.attempts[i].state) && Newest(s, s.attempts[i].task, j)
    ensures !Unresolved(s.attempts[i].state) ==> forall j: nat ::
      Newest(s, s.attempts[i].task, j) && Unresolved(s.attempts[j].state) ==> OtherOpen(s, i, j)
  {
  }

  /**
   Before a call for an attempt that is still unresolved, every attempt of the task called earlier has become terminal.
   */
  lemma EarlierCallIsOver(acts: seq<Action>, k: nat, l: nat)
    requires Legal(acts) && k < l < |Exec(acts).calls| && Exec(acts).calls[l].live
    ensures Exec(acts).calls[k].attempt < |Exec(acts).attempts| && Exec(acts).calls[l].attempt < |Exec(acts).attempts|
    ensures
      var s := Exec(acts);
      s.attempts[s.calls[k].attempt].task == s.attempts[s.calls[l].attempt].task ==>
        s.calls[k].attempt < s.calls[l].attempt && !Unresolved(s.attempts[s.calls[k].attempt].state)
  {
    RunKeepsInv(acts);
  }

  // ---- Effects ----

  /** Somebody other than the executor has acknowledged, cancelled or failed the attempt. */
  predicate SomeResolves(acts: seq<Action>, i: nat) { exists k :: 0 <= k < |acts| && Resolves(acts[k], i) }

  predicate Resolves(a: Action, i: nat) {
    (a.Acknowledge? && a.i == i) || (a.Cancel? && a.i == i) || (a.OperatorFails? && a.i == i)
  }

  /** A process that waits to settle holds the answer that its call got. */
  ghost predicate AnswersKept(s: Sys) {
    forall p :: p in s.hands && s.hands[p].Answered? ==>
      exists k :: 0 <= k < |s.calls| && s.calls[k].attempt == s.hands[p].attempt && s.calls[k].reply == s.hands[p].reply
  }

  /** An attempt is closed only by somebody else, or by its executor after an answer that proves there was no effect. */
  ghost predicate ClosedBy(s: Sys, acts: seq<Action>, i: nat) {
    || SomeResolves(acts, i)
    || exists k :: 0 <= k < |s.calls| && s.calls[k].attempt == i && s.calls[k].reply == Replied(false, false)
  }

  ghost predicate Closings(s: Sys, acts: seq<Action>) {
    forall i :: 0 <= i < |s.attempts| ==>
      var st := s.attempts[i].state;
      st.Armed? || st.Submitted? || st.ReconcileRequired? || ClosedBy(s, acts, i)
  }

  lemma StepKeepsAnswers(s: Sys, a: Action)
    requires AnswersKept(s) && Enabled(s, a)
    ensures AnswersKept(Apply(s, a))
  {
    var t := Apply(s, a);
    forall p | p in t.hands && t.hands[p].Answered?
      ensures exists k ::
        0 <= k < |t.calls| && t.calls[k].attempt == t.hands[p].attempt && t.calls[k].reply == t.hands[p].reply
    {
      if a.CallTransport? && a.p == p {
        assert t.calls[|s.calls|].reply == a.reply;
      } else {
        assert p in s.hands && s.hands[p] == t.hands[p];
        var k :| 0 <= k < |s.calls| && s.calls[k].attempt == s.hands[p].attempt && s.calls[k].reply == s.hands[p].reply;
        assert t.calls[k] == s.calls[k];
      }
    }
  }

  lemma ClosedStaysClosedBy(s: Sys, before: seq<Action>, a: Action, i: nat)
    requires Enabled(s, a) && ClosedBy(s, before, i)
    ensures ClosedBy(Apply(s, a), before + [a], i)
  {
    var t, acts := Apply(s, a), before + [a];
    if SomeResolves(before, i) {
      var n :| 0 <= n < |before| && Resolves(before[n], i);
      assert Resolves(acts[n], i);
    } else {
      var k :| 0 <= k < |s.calls| && s.calls[k].attempt == i && s.calls[k].reply == Replied(false, false);
      assert t.calls[k] == s.calls[k];
    }
  }

  lemma StepKeepsClosings(s: Sys, before: seq<Action>, a: Action)
    requires AnswersKept(s) && Closings(s, before) && Enabled(s, a)
    ensures Closings(Apply(s, a), before + [a])
  {
    var t, acts := Apply(s, a), before + [a];
    forall i | 0 <= i < |t.attempts| && i < |s.attempts|
      ensures
        var st := t.attempts[i].state;
        st.Armed? || st.Submitted? || st.ReconcileRequired? || ClosedBy(t, acts, i)
    {
      if ClosedBy(s, before, i) {
        ClosedStaysClosedBy(s, before, a, i);
      } else if Resolves(a, i) {
        assert Resolves(acts[|before|], i);
      } else if a.Settle? && s.hands[a.p].attempt == i {
        var k :| 0 <= k < |s.calls| && s.calls[k].attempt == i && s.calls[k].reply == s.hands[a.p].reply;
        assert t.calls[k] == s.calls[k];
      }
    }
  }

  lemma {:induction false} RunKeepsClosings(acts: seq<Action>)
    requires Legal(acts)
    ensures AnswersKept(Exec(acts)) && Closings(Exec(acts), acts)
    decreases |acts|
  {
    if acts != [] {
      var before, a := acts[..|acts| - 1], acts[|acts| - 1];
      RunKeepsClosings(before);
      StepKeepsAnswers(Exec(before), a);
      StepKeepsClosings(Exec(before), before, a);
      assert acts == before + [a];
    }
  }

  lemma OlderIsClosed(s: Sys, acts: seq<Action>, i: nat, k: nat)
    requires OneOpen(s) && CalledOnce(s) && Closings(s, acts) && i < |s.attempts| && k < |s.calls|
    requires s.attempts[i].state.Armed? || s.attempts[i].state.Submitted? || s.attempts[i].state.ReconcileRequired?
    requires s.calls[k].attempt < |s.attempts| && s.calls[k].attempt != i
    requires s.attempts[s.calls[k].attempt].task == s.attempts[i].task
    ensures s.calls[k].reply == Replied(false, false) || SomeResolves(acts, s.calls[k].attempt)
  {
    assert ClosedBy(s, acts, s.calls[k].attempt);
  }

  /**
   When a transport is called for an attempt that is still open, every earlier call for the task was proven to have
   had no effect, or its attempt has been acknowledged, cancelled or failed by somebody other than its executor.
   */
  lemma EarlierEffectsAreResolved(acts: seq<Action>, p: nat, reply: TransportReply, k: nat)
    requires Legal(acts) && Enabled(Exec(acts), CallTransport(p, reply)) && k < |Exec(acts).calls|
    requires
      var s := Exec(acts); var i := s.hands[p].attempt;
      && (s.attempts[i].state.Armed? || s.attempts[i].state.Submitted? || s.attempts[i].state.ReconcileRequired?)
      && s.calls[k].attempt < |s.attempts| && s.attempts[s.calls[k].attempt].task == s.attempts[i].task
    ensures
      var call := Exec(acts).calls[k];
      call.reply == Replied(false, false) || SomeResolves(acts, call.attempt)
  {
    RunKeepsInv(acts);
    RunKeepsClosings(acts);
    OlderIsClosed(Exec(acts), acts, Exec(acts).hands[p].attempt, k);
  }

  // ---- Late calls ----

  /** A task with a running worker and one attempt in the first process's hands, which has looked at it. */
  lemma FirstIsReady() returns (acts: seq<Action>, s: Sys)
    ensures Leads(acts, s) && s.hands == map[0 := Ready(0)] && s.calls == [] && s.now == 0
    ensures s.tasks == map["t" := Task(false, Some("w"), 1, 2)] && s.workers == map["w" := Worker("t", true, 0)]
    ensures s.attempts == [Fresh("t", "w", Charged, 0)]
  {
    acts, s := [], Init();
    acts, s := Further(acts, s, AddTask("t", 2));
    acts, s := Further(acts, s, EditWorker("w", Worker("t", true, 0)));
    acts, s := Further(acts, s, EditTask("t", false, Some("w")));
    acts, s := Further(acts, s, RecordCharged(0, "t", "w", 0));
    acts, s := Further(acts, s, ReadArmed(0));
  }

  lemma Further(acts: seq<Action>, s: Sys, a: Action) returns (more: seq<Action>, t: Sys)
    requires Leads(acts, s) && Enabled(s, a)
    ensures more == acts + [a] && t == Apply(s, a) && Leads(more, t)
  {
    LeadsFurther(acts, s, a);
    more, t := acts + [a], Apply(s, a);
  }

  /** The first attempt has been cancelled and a second one is ready, in another process. */
  lemma BothAreReady() returns (acts: seq<Action>, s: Sys)
    ensures Leads(acts, s) && s.hands == map[0 := Ready(0), 1 := Ready(1)] && s.calls == []
    ensures s.attempts == [Fresh("t", "w", Charged, 0).(state := Cancelled), Fresh("t", "w", Charged, 0)]
  {
    acts, s := FirstIsReady();
    acts, s := Further(acts, s, Cancel(0));
    acts, s := Further(acts, s, RecordCharged(1, "t", "w", 0));
    acts, s := Further(acts, s, ReadArmed(1));
  }

  /** A run in which the attempt called first is still open when the older, cancelled one is called. */
  lemma LateCallMeetsOpenAttempt(first: TransportReply, late: TransportReply) returns (acts: seq<Action>)
    ensures Legal(acts) && Exec(acts).calls == [Call(1, true, first), Call(0, false, late)]
    ensures |Exec(acts).attempts| == 2 && Exec(acts).attempts[0].task == Exec(acts).attempts[1].task
    ensures Unresolved(Exec(acts).attempts[1].state) && Exec(acts).attempts[0].state.Cancelled?
  {
    var s;
    acts, s := BothAreReady();
    acts, s := Further(acts, s, CallTransport(1, first));
    acts, s := Further(acts, s, CallTransport(0, late));
    Unroll(acts, s);
  }

  // ---- Disabled transports ----

  /** The attempt was called, its transport refused, and nobody has anything left to do with it. */
  ghost predicate Refused(s: Sys, i: nat) {
    && i < |s.attempts| && s.attempts[i].state.Armed? && WasCalled(s, i)
    && forall p :: p in s.hands && s.hands[p].attempt == i ==> s.hands[p] == Answered(i, Disabled)
  }

  /** No further call for the attempt, and no newer attempt of its task. */
  ghost predicate Shut(s: Sys, t: Sys, i: nat)
    requires i < |s.attempts|
  {
    && |s.attempts| <= |t.attempts| && t.attempts[i] == s.attempts[i]
    && (forall j :: 0 <= j < |s.attempts| ==> t.attempts[j].task == s.attempts[j].task)
    && (forall j :: |s.attempts| <= j < |t.attempts| ==> t.attempts[j].task != s.attempts[i].task)
    && |s.calls| <= |t.calls| && t.calls[..|s.calls|] == s.calls
    && forall k :: |s.calls| <= k < |t.calls| ==> t.calls[k].attempt != i
  }

  lemma RefusedStep(s: Sys, a: Action, i: nat)
    requires Hands(s) && Refused(s, i) && Enabled(s, a) && !Resolves(a, i)
    ensures Refused(Apply(s, a), i) && Shut(s, Apply(s, a), i)
  {
    var k :| 0 <= k < |s.calls| && s.calls[k].attempt == i;
    assert Apply(s, a).calls[k].attempt == i;
  }

  lemma ShutTransitive(s: Sys, t: Sys, u: Sys, i: nat)
    requires i < |s.attempts| && Shut(s, t, i) && Shut(t, u, i)
    ensures Shut(s, u, i)
  {
    assert u.calls[..|s.calls|] == u.calls[..|t.calls|][..|s.calls|];
    forall k | |s.calls| <= k < |u.calls| ensures u.calls[k].attempt != i {
      if k < |t.calls| { assert u.calls[k] == u.calls[..|t.calls|][k]; }
    }
    forall j | |s.attempts| <= j < |u.attempts| ensures u.attempts[j].task != s.attempts[i].task {
      if j < |t.attempts| { assert u.attempts[j].task == t.attempts[j].task; }
    }
  }

  lemma ClosedStays(s: Sys, a: Action, i: nat)
    requires i < |s.attempts| && !Unresolved(s.attempts[i].state) && Enabled(s, a)
    ensures i < |Apply(s, a).attempts| && Apply(s, a).attempts[i] == s.attempts[i]
  {
  }

  /** From a refusal on: unchanged until somebody resolves the attempt, and over for good from then on. */
  ghost predicate Awaits(s: Sys, t: Sys, i: nat, resolved: bool)
    requires i < |s.attempts|
  {
    if resolved then i < |t.attempts| && !Unresolved(t.attempts[i].state) else Refused(t, i) && Shut(s, t, i)
  }

  lemma AwaitsStep(s: Sys, t: Sys, a: Action, i: nat, resolved: bool)
    requires i < |s.attempts| && Hands(t) && Awaits(s, t, i, resolved) && Enabled(t, a)
    ensures Awaits(s, Apply(t, a), i, resolved || Resolves(a, i))
  {
    if resolved {
      ClosedStays(t, a, i);
    } else if !Resolves(a, i) {
      RefusedStep(t, a, i);
      ShutTransitive(s, t, Apply(t, a), i);
    }
  }

  lemma RunKeepsHands(acts: seq<Action>)
    requires Legal(acts)
    ensures Hands(Exec(acts))
  {
    RunKeepsInv(acts);
  }

  lemma {:induction false} AwaitsRun(acts: seq<Action>, more: seq<Action>, i: nat)
    requires Legal(acts) && Legal(acts + more) && Refused(Exec(acts), i)
    ensures Awaits(Exec(acts), Exec(acts + more), i, SomeResolves(more, i))
    decreases |more|
  {
    if more == [] {
      assert acts + more == acts;
    } else {
      var before, a := more[..|more| - 1], more[|more| - 1];
      assert (acts + more)[..|acts + more| - 1] == acts + before;
      AwaitsRun(acts, before, i);
      RunKeepsHands(acts + before);
      AwaitsStep(Exec(acts), Exec(acts + before), a, i, SomeResolves(before, i));
      assert SomeResolves(more, i) <==> SomeResolves(before, i) || Resolves(a, i);
    }
  }

  lemma RefusedByCall(s: Sys, p: nat)
    requires Hands(s) && Enabled(s, CallTransport(p, Disabled)) && s.attempts[s.hands[p].attempt].state.Armed?
    ensures Refused(Apply(s, CallTransport(p, Disabled)), s.hands[p].attempt)
  {
    var t := Apply(s, CallTransport(p, Disabled));
    assert t.calls[|s.calls|].attempt == s.hands[p].attempt;
  }

  /**
   After the refusal of a disabled transport the attempt stays ARMED exactly until somebody acknowledges, cancels or
   fails it; until then no executor calls it again and no other attempt of its task is recorded.
   */
  lemma DisabledStaysArmedIff(acts: seq<Action>, p: nat, more: seq<Action>)
    requires Legal(acts) && Enabled(Exec(acts), CallTransport(p, Disabled))
    requires Exec(acts).attempts[Exec(acts).hands[p].attempt].state.Armed?
    requires Legal(acts + [CallTransport(p, Disabled)]) && Legal(acts + [CallTransport(p, Disabled)] + more)
    ensures
      var i, s, t := Exec(acts).hands[p].attempt, Exec(acts + [CallTransport(p, Disabled)]),
                     Exec(acts + [CallTransport(p, Disabled)] + more);
      && i < |s.attempts| && i < |t.attempts|
      && (t.attempts[i].state.Armed? <==> !SomeResolves(more, i))
      && (!SomeResolves(more, i) ==> Shut(s, t, i))
  {
    var called := acts + [CallTransport(p, Disabled)];
    assert called[..|called| - 1] == acts;
    RunKeepsInv(acts);
    RefusedByCall(Exec(acts), p);
    AwaitsRun(called, more, Exec(acts).hands[p].attempt);
  }

  // ---- Overrun spacing ----

  /**
   Two overrun continuations of one worker that took effect, or may have, were created at least the
   threshold of the later one apart, whatever was observed, restarted or recovered in between.
   */
  lemma OverrunSpacing(acts: seq<Action>, i: nat, j: nat)
    requires Legal(acts) && i < |Exec(acts).attempts| && j < |Exec(acts).attempts| && i != j
    requires
      var a, b := Exec(acts).attempts[i], Exec(acts).attempts[j];
      && a.worker == b.worker && a.origin.Overrun? && b.origin.Overrun?
      && (a.state.Submitted? || a.state.ReconcileRequired? || a.state.Acknowledged?)
      && (b.state.Submitted? || b.state.ReconcileRequired? || b.state.Acknowledged?)
    ensures
      var a, b := Exec(acts).attempts[i], Exec(acts).attempts[j];
      a.createdAt + b.origin.threshold <= b.createdAt || b.createdAt + a.origin.threshold <= a.createdAt
  {
    RunKeepsInv(acts);
  }
}
