/**
 The executor and the overrun watchdog over the registry's action rows, statement for statement.

 Between any two of its own transactions a process lets others act: the clock moves, attempts are
 acknowledged, cancelled or failed, tasks and workers change, and the process itself may die.
 */
module ActionRuntime {
  import opened Prelude
  import opened ActionProtocol

  // ---- The overrun clock's two scans ----

  datatype BrowserSample = BrowserSample(observedAt: int, generating: Option<bool>)

  predicate Generating(b: BrowserSample) { b.generating == Some(true) }

  /** The samples `history[lo..hi]` are the newest unbroken stretch of observed generation. */
  ghost predicate NewestStretch(history: seq<BrowserSample>, lo: nat, hi: nat) {
    && lo < hi <= |history|
    && (forall i :: 0 <= i < lo ==> history[i].generating != Some(true))
    && (forall i :: lo <= i < hi ==> history[i].generating == Some(true))
    && (hi < |history| ==> history[hi].generating != Some(true))
  }

  ghost predicate IsGenerationStart(history: seq<BrowserSample>, start: Option<int>) {
    if start.None? then forall i :: 0 <= i < |history| ==> history[i].generating != Some(true)
    else exists lo: nat, hi: nat :: NewestStretch(history, lo, hi) && start.value == history[hi - 1].observedAt
  }

  /** A history has one newest stretch, so its start is unique. */
  lemma GenerationStartIsUnique(history: seq<BrowserSample>, a: Option<int>, b: Option<int>)
    requires IsGenerationStart(history, a) && IsGenerationStart(history, b)
    ensures a == b
  {
    if a.Some? && b.Some? {
      var lo: nat, hi: nat :| NewestStretch(history, lo, hi) && a.value == history[hi - 1].observedAt;
      var lo': nat, hi': nat :| NewestStretch(history, lo', hi') && b.value == history[hi' - 1].observedAt;
      assert Generating(history[lo]) && Generating(history[lo']);
      assert lo == lo';
      assert hi == hi';
    }
  }

  /** The earliest sample of the newest stretch of generation, reading history newest first. */
  method LatestGenerationStart(history: seq<BrowserSample>) returns (start: Option<int>)
    ensures IsGenerationStart(history, start)
  {
    start := None;
    ghost var lo: nat := 0;
    var i: nat := 0;
    while i < |history|
      invariant 0 <= lo <= i <= |history|
      invariant forall k :: 0 <= k < lo ==> !Generating(history[k])
      invariant start.None? ==> lo == i
      invariant start.Some? ==> lo < i && start.value == history[i - 1].observedAt && forall k :: lo <= k < i ==>
        Generating(history[k])
    {
      if start.None? {
        if Generating(history[i]) {
          start := Some(history[i].observedAt);
        } else {
          lo := lo + 1;
        }
      } else if Generating(history[i]) {
        start := Some(history[i].observedAt);
      } else {
        assert NewestStretch(history, lo, i);
        return;
      }
      i := i + 1;
    }
    if start.Some? {
      assert NewestStretch(history, lo, i);
    }
  }

  ghost predicate NewestFirst(rows: seq<Attempt>) {
    forall i, j :: 0 <= i < j < |rows| ==> rows[i].createdAt >= rows[j].createdAt
  }

  /** The worker was sent a continuation that has, or may have, reached it. */
  predicate Continued(row: Attempt, task: string, worker: string) {
    && row.task == task && row.worker == worker
    && (row.state.Submitted? || row.state.ReconcileRequired? || row.state.Acknowledged?)
  }

  /** The first effective row of the worker, scanning newest first. */
  method EffectiveContinueAt(rows: seq<Attempt>, task: string, worker: string) returns (r: Option<int>)
    requires NewestFirst(rows)
    ensures IsEffectiveContinue(rows, task, worker, r)
    ensures r.None? <==> forall k :: 0 <= k < |rows| ==> !Continued(rows[k], task, worker)
    ensures r.Some? ==> exists k ::
      && 0 <= k < |rows| && Continued(rows[k], task, worker)
      && (forall j :: 0 <= j < k ==> !Continued(rows[j], task, worker))
      && r == (if rows[k].submittedAt.Some? then rows[k].submittedAt else Some(rows[k].updatedAt))
  {
    var i := 0;
    while i < |rows|
      invariant 0 <= i <= |rows|
      invariant forall k :: 0 <= k < i ==> !EffectiveFor(rows[k], task, worker)
      invariant forall k :: 0 <= k < i ==> !Continued(rows[k], task, worker)
    {
      if rows[i].task == task && rows[i].worker == worker && Effective(rows[i].state) {
        assert NewestEffective(rows, task, worker, i) && Continued(rows[i], task, worker);
        if rows[i].submittedAt.Some? {
          return rows[i].submittedAt;
        }
        return Some(rows[i].updatedAt);
      }
      i := i + 1;
    }
    return None;
  }

  /** The clock depends on which rows there are, not on the order they are read in. */
  lemma SameRowsSameContinue(rows: seq<Attempt>, attempts: seq<Attempt>, task: string, worker: string, r: Option<int>)
    requires IsEffectiveContinue(rows, task, worker, r)
    requires forall a :: a in rows <==> a in attempts && a.task == task
    ensures IsEffectiveContinue(attempts, task, worker, r)
  {
    if r.None? {
      forall i | 0 <= i < |attempts|
        ensures !EffectiveFor(attempts[i], task, worker)
      {
        if attempts[i].task == task {
          assert attempts[i] in rows;
        }
      }
    } else {
      var k :| 0 <= k < |rows| && NewestEffective(rows, task, worker, k) && r.value == EffectAt(rows[k]);
      assert rows[k] in attempts;
      var i :| 0 <= i < |attempts| && attempts[i] == rows[k];
      forall j | 0 <= j < |attempts| && EffectiveFor(attempts[j], task, worker)
        ensures attempts[j].createdAt <= attempts[i].createdAt
      {
        assert attempts[j] in rows;
      }
      assert NewestEffective(attempts, task, worker, i);
    }
  }

  // ---- The executor ----

  /** The columns of an attempt that nothing rewrites. */
  predicate SameAttempt(a: Attempt, b: Attempt) {
    b.task == a.task && b.worker == a.worker && b.origin == a.origin && b.createdAt == a.createdAt
  }

  ghost predicate SameAttempts(before: seq<Attempt>, after: seq<Attempt>) {
    |after| == |before| && forall i :: 0 <= i < |before| ==> SameAttempt(before[i], after[i])
  }

  /** How one turn ended: blocked before any call, an exception that ends the command, or a settled attempt. */
  datatype TurnResult = Blocked | Aborted | Settled(state: AttemptState)

  /** What the answer of a transport call leaves in the row. */
  predicate Leaves(reply: TransportReply, st: AttemptState) {
    && (st.Submitted? <==> reply.Replied? && reply.submitted)
    && (st.ReconcileRequired? <==>
          reply.CallRaised? || (reply.Replied? && !reply.submitted && reply.sideEffectPossible))
    && (st.Failed? <==> reply.Replied? && !reply.submitted && !reply.sideEffectPossible)
  }

  class ActionRegistry {
    var tasks: map<string, Task>
    var workers: map<string, Worker>
    var attempts: seq<Attempt>
    var now: int

    /** What the transport has answered so far. */
    ghost var answers: seq<TransportReply>

    /** The run so far, and the protocol state it leads to. */
    ghost var history: seq<Action>
    ghost var sys: Sys

    ghost predicate Valid()
      reads this
    {
      Leads(history, sys) && sys.tasks == tasks && sys.workers == workers && sys.attempts == attempts && sys.now == now
    }

    constructor ()
      ensures Valid() && history == []
    {
      tasks, workers, attempts, now := map[], map[], [], 0;
      answers, history, sys := [], [], Init();
    }

    /** The transport: any answer is possible. */
    method Submit() returns (reply: TransportReply)
      modifies this`answers
      ensures answers == old(answers) + [reply]
    {
      reply := *;
      answers := answers + [reply];
    }

    ghost method Record(a: Action)
      requires Leads(history, sys) && Enabled(sys, a)
      modifies this`history, this`sys
      ensures Leads(history, sys) && sys == Apply(old(sys), a) && history == old(history) + [a]
    {
      LeadsFurther(history, sys, a);
      history, sys := history + [a], Apply(sys, a);
    }

    /** A step that writes no row. */
    ghost method Note(a: Action)
      requires Valid() && Enabled(sys, a)
      requires
        var s := Apply(sys, a);
        s.tasks == tasks && s.workers == workers && s.attempts == attempts && s.now == now
      modifies this`history, this`sys
      ensures Valid() && sys == Apply(old(sys), a) && history == old(history) + [a]
    {
      Record(a);
    }

    method WriteAttempt(id: nat, row: Attempt, ghost a: Action)
      requires Valid() && id < |attempts| && Enabled(sys, a)
      requires
        var s := Apply(sys, a);
        s.tasks == tasks && s.workers == workers && s.attempts == attempts[id := row] && s.now == now
      modifies this`attempts, this`history, this`sys
      ensures Valid() && sys == Apply(old(sys), a) && history == old(history) + [a]
    {
      Record(a);
      attempts := attempts[id := row];
    }

    method UnresolvedExists(task: string) returns (found: bool)
      requires Valid()
      ensures found <==> !NoUnresolved(sys, task)
    {
      var i := 0;
      while i < |attempts|
        invariant 0 <= i <= |attempts|
        invariant forall k :: 0 <= k < i && attempts[k].task == task ==> !Unresolved(attempts[k].state)
      {
        if attempts[i].task == task && Unresolved(attempts[i].state) {
          return true;
        }
        i := i + 1;
      }
      return false;
    }

    /** The fences a writer checks in its own transaction. */
    method PassesFences(task: string, worker: string) returns (ok: bool)
      requires Valid()
      ensures ok <==> MayRecord(sys, task, worker)
    {
      if task !in tasks || tasks[task].terminal {
        return false;
      }
      if worker !in workers || workers[worker].task != task {
        return false;
      }
      if tasks[task].worker != Some(worker) || !workers[worker].active {
        return false;
      }
      var unresolved := UnresolvedExists(task);
      return !unresolved;
    }

    /** Records an ARMED attempt and charges one slot of the recovery budget, or refuses and changes nothing. */
    method RecordRecovery(ghost p: nat, task: string, worker: string, at: int) returns (id: Option<nat>)
      requires Valid() && p !in sys.hands && at <= now
      modifies this`attempts, this`tasks, this`history, this`sys
      ensures Valid()
      ensures id.Some? <==> old(MayRecord(sys, task, worker) && tasks[task].used < tasks[task].max)
      ensures id.Some? ==>
        sys == Apply(old(sys), RecordCharged(p, task, worker, at))
          && history == old(history) + [RecordCharged(p, task, worker, at)]
      ensures id.Some? ==> id.value == |old(attempts)| && sys.hands == old(sys.hands)[p := Recorded(id.value)]
      ensures id.None? ==> sys == old(sys) && history == old(history)
      ensures id.Some? ==>
        && attempts == old(attempts) + [Attempt(task, worker, Charged, Armed, at, at, None)] && task in old(tasks)
        && tasks == old(tasks)[task := old(tasks)[task].(used := old(tasks)[task].used + 1)]
    {
      var ok := PassesFences(task, worker);
      if !ok || tasks[task].used >= tasks[task].max {
        return None;
      }
      Record(RecordCharged(p, task, worker, at));
      id := Some(|attempts|);
      attempts := attempts + [Fresh(task, worker, Charged, at)];
      tasks := tasks[task := tasks[task].(used := tasks[task].used + 1)];
    }

    /** Records the continuation the watchdog has found due, charging no budget. */
    method RecordCurrentWorkerAction(ghost p: nat, task: string, worker: string, at: int, threshold: int)
      returns (id: Option<nat>)
      requires Valid() && p !in sys.hands && sys.watch == Due(task, worker, at, threshold)
      modifies this`attempts, this`history, this`sys
      ensures Valid()
      ensures id.Some? <==> old(MayRecord(sys, task, worker))
      ensures id.Some? ==> sys == Apply(old(sys), RecordOverrun(p)) && history == old(history) + [RecordOverrun(p)]
      ensures id.Some? ==> id.value == |old(attempts)| && sys.hands == old(sys.hands)[p := Recorded(id.value)]
      ensures id.None? ==> sys == old(sys) && history == old(history)
      ensures id.Some? ==>
        attempts == old(attempts) + [Attempt(task, worker, Overrun(threshold), Armed, at, at, None)]
    {
      var ok := PassesFences(task, worker);
      if !ok {
        return None;
      }
      Record(RecordOverrun(p));
      id := Some(|attempts|);
      attempts := attempts + [Fresh(task, worker, Overrun(threshold), at)];
    }

    /** Others act on the rows and the clock moves; what processes hold in hand is their own. */
    method Others()
      requires Valid()
      modifies this`attempts, this`tasks, this`now, this`history, this`sys
      ensures Valid() && old(history) <= history && sys.hands == old(sys.hands) && sys.watch == old(sys.watch)
      ensures sys.calls == old(sys.calls) && SameAttempts(old(attempts), attempts) && old(now) <= now
    {
      var n: nat := *;
      while 0 < n
        invariant Valid() && old(history) <= history && sys.hands == old(sys.hands) && sys.watch == old(sys.watch)
        invariant sys.calls == old(sys.calls) && SameAttempts(old(attempts), attempts) && old(now) <= now
      {
        OneOther();
        n := n - 1;
      }
    }

    method OneOther()
      requires Valid()
      modifies this`attempts, this`tasks, this`now, this`history, this`sys
      ensures Valid() && old(history) <= history && sys.hands == old(sys.hands) && sys.watch == old(sys.watch)
      ensures sys.calls == old(sys.calls) && SameAttempts(old(attempts), attempts) && old(now) <= now
    {
      var i: int := *;
      var step: int := *;
      var at: int := *;
      var id: string := *;
      var terminal: bool := *;
      var current: Option<string> := *;
      if 0 <= i < |attempts| && Unresolved(attempts[i].state) && at >= attempts[i].createdAt && terminal {
        WriteAttempt(i, attempts[i].(state := Acknowledged, updatedAt := at), Acknowledge(i, at));
      } else if 0 <= i < |attempts| && Unresolved(attempts[i].state) {
        if * {
          WriteAttempt(i, attempts[i].(state := Cancelled, updatedAt := now), Cancel(i));
        } else {
          WriteAttempt(i, attempts[i].(state := Failed, updatedAt := now), OperatorFails(i));
        }
      } else if id in tasks {
        Record(EditTask(id, terminal, current));
        tasks := tasks[id := tasks[id].(terminal := terminal, worker := current)];
      } else if 0 <= step {
        Record(Tick(step));
        now := now + step;
      }
    }

    /** Submits an armed attempt; afterwards the process holds nothing. */
    method SubmitArmedAction(ghost p: nat, id: nat) returns (r: TurnResult, reply: TransportReply)
      requires Valid() && p in sys.hands && sys.hands[p] == Recorded(id) && id < |attempts|
      modifies this
      ensures Valid() && old(history) <= history && sys.watch == old(sys.watch) && SameAttempts(old(attempts), attempts)
      ensures sys.hands == old(sys.hands) - {p}
      ensures r.Blocked? ==> sys.calls == old(sys.calls) && !attempts[id].state.Armed?
      ensures answers == if r.Blocked? then old(answers) else old(answers) + [reply]
      ensures !r.Blocked? ==> exists live :: sys.calls == old(sys.calls) + [Call(id, live, reply)]
      ensures r.Settled? ==> attempts[id].state == r.state && !reply.Disabled? && Leaves(reply, r.state)
      ensures r.Settled? ==>
        attempts[id].updatedAt == now && (r.state.Submitted? ==> attempts[id].submittedAt == Some(now))
      ensures r.Aborted? ==> reply.Disabled? || !attempts[id].state.Armed?
    {
      reply := Disabled;
      Others();
      if !attempts[id].state.Armed? {
        Note(ProcessEnds(p));
        return Blocked, reply;
      }
      Note(ReadArmed(p));
      Others();
      reply := Submit();
      Note(CallTransport(p, reply));
      Others();
      r := SettleReply(p, id, reply);
    }

    /** Writes what the transport answered; a row that someone closed meanwhile is left alone, with an exception. */
    method SettleReply(ghost p: nat, id: nat, reply: TransportReply) returns (r: TurnResult)
      requires Valid() && p in sys.hands && sys.hands[p] == Answered(id, reply) && id < |attempts|
      modifies this`attempts, this`history, this`sys
      ensures Valid() && old(history) <= history && sys.watch == old(sys.watch) && sys.calls == old(sys.calls)
      ensures |attempts| == |old(attempts)| && sys.hands == old(sys.hands) - {p} && !r.Blocked?
      ensures r.Settled? ==> !reply.Disabled? && Leaves(reply, r.state)
      ensures r.Settled? ==>
        attempts == old(attempts)[id := old(attempts)[id].(
          state := r.state, updatedAt := now,
          submittedAt := if r.state.Submitted? then Some(now) else old(attempts)[id].submittedAt)]
      ensures r.Aborted? ==> attempts == old(attempts) && (reply.Disabled? || !attempts[id].state.Armed?)
    {
      var open :=
        if reply.Replied? && reply.submitted then attempts[id].state.Armed? else Unresolved(attempts[id].state);
      if reply.Disabled? || !open {
        Note(ProcessEnds(p));
        return Aborted;
      }
      WriteAttempt(id, SettledRow(attempts[id], reply, now), Settle(p));
      return Settled(attempts[id].state);
    }

    /** The durable gates of a recovery turn. */
    ghost predicate Recoverable(task: string)
      reads this
    {
      && task in tasks && tasks[task].worker.Some? && tasks[task].worker.value in workers
      && workers[tasks[task].worker.value].active && NoUnresolved(sys, task)
    }

    /** The worker is still the task's, and the task has budget and nothing open. */
    ghost predicate Rechargeable(task: string, worker: string)
      reads this
    {
      MayRecord(sys, task, worker) && task in tasks && tasks[task].used < tasks[task].max
    }

    /** One recovery turn of the current worker; `ready` stands for the plan's own gates. */
    method ExecuteRecovery(ghost p: nat, task: string, ready: bool) returns (r: TurnResult, reply: TransportReply)
      requires Valid() && p !in sys.hands
      modifies this
      ensures Valid() && old(history) <= history && sys.hands == old(sys.hands) && sys.watch == old(sys.watch)
      ensures |old(attempts)| <= |attempts| <= |old(attempts)| + 1
      ensures |old(attempts)| < |attempts| ==>
        && old(ready && Recoverable(task))
        && SameAttempt(Fresh(task, old(tasks[task].worker.value), Charged, old(now)), attempts[|old(attempts)|])
      ensures r.Settled? ==> |attempts| == |old(attempts)| + 1 && attempts[|old(attempts)|].state == r.state
      ensures r.Settled? ==> Leaves(reply, r.state)
      ensures |attempts| == |old(attempts)| ==> sys.calls == old(sys.calls)
      ensures answers ==
        if |attempts| == |old(attempts)| || r.Blocked? then old(answers) else old(answers) + [reply]
      ensures |old(attempts)| < |attempts| ==>
        if r.Blocked? then sys.calls == old(sys.calls)
        else exists live :: sys.calls == old(sys.calls) + [Call(|old(attempts)|, live, reply)]
      ensures r.Blocked? ==>
        if |attempts| == |old(attempts)| then !old(ready && Recoverable(task))
        else |old(attempts)| < |attempts| && !attempts[|old(attempts)|].state.Armed?
      ensures r.Aborted? && |attempts| == |old(attempts)| ==>
        old(ready && Recoverable(task)) && !Rechargeable(task, old(tasks[task].worker.value))
      ensures r.Aborted? && |old(attempts)| < |attempts| ==> reply.Disabled? || !attempts[|old(attempts)|].state.Armed?
    {
      reply := Disabled;
      var at := now;
      if !ready || task !in tasks || tasks[task].worker.None? {
        return Blocked, reply;
      }
      var worker := tasks[task].worker.value;
      if worker !in workers || !workers[worker].active {
        return Blocked, reply;
      }
      var unresolved := UnresolvedExists(task);
      if unresolved {
        return Blocked, reply;
      }
      Others();
      var id := RecordRecovery(p, task, worker, at);
      if id.None? {
        return Aborted, reply;
      }
      r, reply := SubmitArmedAction(p, id.value);
    }

    // ---- The overrun watchdog ----

    /** The rows of a task, newest first. */
    method ActionAttempts(task: string) returns (rows: seq<Attempt>)
      ensures NewestFirst(rows)
      ensures forall a :: a in rows <==> a in attempts && a.task == task
    {
      rows := [];
      var i := 0;
      while i < |attempts|
        invariant 0 <= i <= |attempts|
        invariant NewestFirst(rows)
        invariant forall a :: a in rows <==> a in attempts[..i] && a.task == task
      {
        if attempts[i].task == task {
          rows := InsertRow(rows, attempts[i]);
        }
        assert attempts[..i + 1] == attempts[..i] + [attempts[i]];
        i := i + 1;
      }
      assert attempts[..i] == attempts;
    }

    predicate Running(task: string)
      reads this
    {
      && task in tasks && !tasks[task].terminal && tasks[task].worker.Some?
      && tasks[task].worker.value in workers && workers[tasks[task].worker.value].active
    }

    /** `due` is the running worker and the time, if the time since the latest anchor has reached the threshold. */
    ghost predicate ClockSays(task: string, samples: seq<BrowserSample>, overrunAfter: int, due: Option<(string, int)>)
      reads this
    {
      if !Running(task) then due.None?
      else
        exists continued, generation ::
          && IsEffectiveContinue(attempts, task, tasks[task].worker.value, continued)
          && IsGenerationStart(samples, generation)
          && due ==
               (var anchor := Anchor(workers[tasks[task].worker.value].startedAt, continued, generation);
                var threshold := if 1 <= overrunAfter then overrunAfter else 1;
                if threshold <= now - anchor then Some((tasks[task].worker.value, now)) else None)
    }

    /** The clock of one task as the watchdog reads it; `None` if nothing is due. */
    method OverrunClock(task: string, samples: seq<BrowserSample>, overrunAfter: int)
      returns (due: Option<(string, int)>)
      requires Valid() && sys.watch == Checked(task)
      modifies this`history, this`sys
      ensures Valid() && old(history) <= history && sys.hands == old(sys.hands) && sys.calls == old(sys.calls)
      ensures due.Some? ==> sys.watch == Due(task, due.value.0, due.value.1, Threshold(overrunAfter))
      ensures due.None? ==> sys.watch.Asleep?
      ensures ClockSays(task, samples, overrunAfter, due)
    {
      if task !in tasks || tasks[task].terminal || tasks[task].worker.None? {
        Note(WatchEnds);
        return None;
      }
      var worker := tasks[task].worker.value;
      if worker !in workers || !workers[worker].active {
        Note(WatchEnds);
        return None;
      }
      var rows := ActionAttempts(task);
      var continued := EffectiveContinueAt(rows, task, worker);
      SameRowsSameContinue(rows, attempts, task, worker, continued);
      var generation := LatestGenerationStart(samples);
      var anchor := workers[worker].startedAt;
      if continued.Some? {
        anchor := Max(anchor, continued.value);
      }
      if generation.Some? {
        anchor := Max(anchor, generation.value);
      }
      var threshold := Max(1, overrunAfter);
      var elapsed := now - anchor;
      Note(ReadClock(continued, generation, overrunAfter));
      if elapsed >= threshold && elapsed >= 0 {
        return Some((worker, now));
      }
      return None;
    }

    /** Checks that nothing of the task is unresolved, then reads its clock. */
    method FindDue(task: string, samples: seq<BrowserSample>, overrunAfter: int, ready: bool)
      returns (due: Option<(string, int)>)
      requires Valid() && sys.watch.Asleep?
      modifies this`attempts, this`tasks, this`now, this`history, this`sys
      ensures Valid() && old(history) <= history && sys.hands == old(sys.hands) && sys.calls == old(sys.calls)
      ensures due.Some? ==> sys.watch == Due(task, due.value.0, due.value.1, Threshold(overrunAfter))
      ensures due.None? ==> sys.watch.Asleep?
      ensures due.Some? ==> old(NoUnresolved(sys, task)) && ready && ClockSays(task, samples, overrunAfter, due)
      ensures due.None? ==> !old(NoUnresolved(sys, task)) || !ready || ClockSays(task, samples, overrunAfter, None)
      ensures |attempts| == |old(attempts)|
    {
      var unresolved := UnresolvedExists(task);
      if unresolved {
        return None;
      }
      Note(CheckTask(task));
      Others();
      due := OverrunClock(task, samples, overrunAfter);
      if due.Some? && !ready {
        Note(WatchEnds);
        return None;
      }
    }

    /** Creates and submits the continuation of one task if it is due; `due` is what its clock said. */
    method ContinueIfDue(ghost p: nat, task: string, samples: seq<BrowserSample>, overrunAfter: int, ready: bool)
      returns (r: TurnResult, reply: TransportReply, due: Option<(string, int)>)
      requires Valid() && p !in sys.hands && sys.watch.Asleep?
      modifies this
      ensures Valid() && old(history) <= history && sys.hands == old(sys.hands) && sys.watch.Asleep?
      ensures |old(attempts)| <= |attempts| <= |old(attempts)| + 1
      ensures due.None? ==> r.Blocked? && |attempts| == |old(attempts)|
      ensures due.None? ==>
        !old(NoUnresolved(sys, task)) || !ready || ClockSays(task, samples, overrunAfter, None)
      ensures due.Some? ==> old(NoUnresolved(sys, task)) && ready
      ensures due.Some? && |attempts| == |old(attempts)| ==> r.Aborted? && !MayRecord(sys, task, due.value.0)
      ensures |old(attempts)| < |attempts| ==>
        due.Some? && Continues(attempts[|old(attempts)|], task, due.value, overrunAfter)
      ensures |attempts| == |old(attempts)| || r.Blocked? ==> sys.calls == old(sys.calls)
      ensures answers ==
        if |attempts| == |old(attempts)| || r.Blocked? then old(answers) else old(answers) + [reply]
      ensures |old(attempts)| < |attempts| && !r.Blocked? ==>
        exists live :: sys.calls == old(sys.calls) + [Call(|old(attempts)|, live, reply)]
      ensures |old(attempts)| < |attempts| ==>
        match r
        case Blocked => !attempts[|old(attempts)|].state.Armed?
        case Aborted => reply.Disabled? || !attempts[|old(attempts)|].state.Armed?
        case Settled(st) => attempts[|old(attempts)|].state == st && Leaves(reply, st)
      ensures r.Settled? ==> r.state.Submitted? || r.state.ReconcileRequired? || r.state.Failed?
    {
      reply := Disabled;
      due := FindDue(task, samples, overrunAfter, ready);
      if due.None? {
        return Blocked, reply, due;
      }
      Others();
      var id := RecordCurrentWorkerAction(p, task, due.value.0, due.value.1, Max(1, overrunAfter));
      if id.None? {
        Note(WatchEnds);
        return Aborted, reply, due;
      }
      r, reply := SubmitArmedAction(p, id.value);
    }

    /**
     One cycle over all tasks, a turn for each; it ends with the first turn that may have sent, or could not go on.
     */
    method AutoContinueOverrunCycle(
      ghost p: nat, ids: seq<string>, samples: map<string, seq<BrowserSample>>, overrunAfter: int, ready: set<string>)
      returns (results: seq<AttemptState>, ghost turns: seq<TurnResult>)
      requires Valid() && p !in sys.hands && sys.watch.Asleep?
      modifies this
      ensures Valid() && old(history) <= history && sys.hands == old(sys.hands) && sys.watch.Asleep?
      ensures |turns| <= |ids| && results == StatesOf(turns)
      ensures forall n :: 0 <= n < |turns| - 1 ==> turns[n].Blocked? || turns[n] == Settled(Failed)
      ensures |turns| < |ids| ==>
        turns != [] && !turns[|turns| - 1].Blocked? && turns[|turns| - 1] != Settled(Failed)
      ensures |sys.calls| <= |old(sys.calls)| + |results| + 1
      ensures |sys.calls| - |old(sys.calls)| == |answers| - |old(answers)|
      ensures (forall n :: 0 <= n < |turns| ==> !turns[n].Aborted?) ==> |sys.calls| == |old(sys.calls)| + |results|
    {
      results, turns := [], [];
      var n := 0;
      while n < |ids|
        invariant Valid() && old(history) <= history && sys.hands == old(sys.hands) && sys.watch.Asleep?
        invariant 0 <= n <= |ids| && |turns| == n && results == StatesOf(turns)
        invariant forall i :: 0 <= i < n ==> turns[i].Blocked? || turns[i] == Settled(Failed)
        invariant |sys.calls| == |old(sys.calls)| + |results| && |answers| == |old(answers)| + |results|
      {
        var seen := if ids[n] in samples then samples[ids[n]] else [];
        var r, reply, due := ContinueIfDue(p, ids[n], seen, overrunAfter, ids[n] in ready);
        StatesAppend(turns, r);
        turns := turns + [r];
        if r.Aborted? {
          return;
        }
        if r.Settled? {
          results := results + [r.state];
          if r.state.Submitted? || r.state.ReconcileRequired? {
            return;
          }
        }
        n := n + 1;
      }
    }
  }

  /** The row is the continuation of the worker found due, dated when its clock was read. */
  predicate Continues(row: Attempt, task: string, due: (string, int), overrunAfter: int) {
    && row.task == task && row.worker == due.0 && row.createdAt == due.1
    && row.origin == Overrun(if 1 <= overrunAfter then overrunAfter else 1)
  }

  /** The states of the attempts that were settled, in order. */
  ghost function StatesOf(turns: seq<TurnResult>): seq<AttemptState> {
    if turns == [] then []
    else
      StatesOf(turns[..|turns| - 1])
      + if turns[|turns| - 1].Settled? then [turns[|turns| - 1].state] else []
  }

  lemma StatesAppend(turns: seq<TurnResult>, r: TurnResult)
    ensures StatesOf(turns + [r]) == StatesOf(turns) + if r.Settled? then [r.state] else []
  {
    assert (turns + [r])[..|turns|] == turns;
  }

  function InsertRow(rows: seq<Attempt>, a: Attempt): (r: seq<Attempt>)
    requires NewestFirst(rows)
    ensures NewestFirst(r) && forall x :: x in r <==> x in rows || x == a
  {
    if rows == [] || a.createdAt >= rows[0].createdAt then [a] + rows
    else
      var rest := InsertRow(rows[1..], a);
      assert rows == [rows[0]] + rows[1..];
      assert forall x :: x in rest ==> x.createdAt <= rows[0].createdAt;
      [rows[0]] + rest
  }
}
