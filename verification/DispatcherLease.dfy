/**
 The single-row lease that admits one dispatcher worker at a time, and the processes around it.

 A worker acquires the row once, heartbeats it in its loop and deletes it on the way out; it may die
 anywhere.  A helper (`ensure_chat_dispatch_worker`) reads the row, probes the recorded process and,
 if it is dead, deletes the row by owner id: three separate steps, with anything in between.
 Process ids and owner ids are not reused.
 */
module DispatcherLease {
  import opened Prelude

  datatype Lease = Lease(
    owner: string, pid: int, heartbeatAt: int, expiresAt: int, maxWindows: int, idleClose: int)

  const MIN_TTL := 5

  // ---- The row operations ----

  predicate Refused(row: Option<Lease>, owner: string, now: int, alive: set<int>) {
    row.Some? && row.value.owner != owner
      && (now < row.value.expiresAt || (0 < row.value.pid && row.value.pid in alive))
  }

  function Acquired(owner: string, pid: int, now: int, ttl: int, maxWindows: int, idleClose: int): Lease {
    Lease(owner, pid, now, now + Max(MIN_TTL, ttl), Max(1, maxWindows), Max(1, idleClose))
  }

  predicate HeldBy(row: Option<Lease>, owner: string) { row.Some? && row.value.owner == owner }

  function Renewed(row: Option<Lease>, owner: string, now: int, ttl: int): Option<Lease> {
    if HeldBy(row, owner) then Some(row.value.(heartbeatAt := now, expiresAt := now + Max(MIN_TTL, ttl))) else row
  }

  function Released(row: Option<Lease>, owner: string): Option<Lease> {
    if HeldBy(row, owner) then None else row
  }

  class LeaseTable {
    var row: Option<Lease>

    constructor ()
      ensures row == None
    {
      row := None;
    }

    method AcquireLease(owner: string, pid: int, maxWindows: int, idleClose: int, ttl: int, now: int, alive: set<int>)
      returns (ok: bool)
      modifies this
      ensures ok <==> !Refused(old(row), owner, now, alive)
      ensures row == if ok then Some(Acquired(owner, pid, now, ttl, maxWindows, idleClose)) else old(row)
      ensures ok <==>
        || old(row).None? || old(row).value.owner == owner
        || (old(row).value.expiresAt <= now && !(0 < old(row).value.pid && old(row).value.pid in alive))
      ensures ok ==> row == Some(Lease(
        owner, pid, now, now + if 5 < ttl then ttl else 5, if 1 < maxWindows then maxWindows else 1,
        if 1 < idleClose then idleClose else 1))
    {
      if row.Some? && row.value.owner != owner {
        var leaseIsFresh := now < row.value.expiresAt;
        var leasePid := row.value.pid;
        var processAlive := 0 < leasePid && leasePid in alive;
        if leaseIsFresh || processAlive {
          return false;
        }
      }
      row := Some(Lease(owner, pid, now, now + Max(MIN_TTL, ttl), Max(1, maxWindows), Max(1, idleClose)));
      return true;
    }

    method HeartbeatLease(owner: string, ttl: int, now: int) returns (ok: bool)
      modifies this
      ensures ok <==> HeldBy(old(row), owner)
      ensures row == Renewed(old(row), owner, now, ttl)
      ensures ok ==> row == Some(old(row).value.(
        heartbeatAt := now, expiresAt := now + if 5 < ttl then ttl else 5))
      ensures !ok ==> row == old(row) && (row.Some? ==> row.value.owner != owner)
    {
      ok := row.Some? && row.value.owner == owner;
      if ok {
        row := Some(row.value.(heartbeatAt := now, expiresAt := now + Max(MIN_TTL, ttl)));
      }
    }

    method ReleaseLease(owner: string)
      modifies this
      ensures row == Released(old(row), owner)
      ensures row == if old(row).Some? && old(row).value.owner == owner then None else old(row)
    {
      if row.Some? && row.value.owner == owner {
        row := None;
      }
    }
  }

  // ---- Processes ----

  datatype Phase = Starting | Looping | Leaving | Gone

  datatype Worker = Worker(owner: string, phase: Phase)

  /** What a helper process holds between its steps. */
  datatype Helper = Saw(lease: Lease) | Condemned(owner: string)

  datatype Sys = Sys(row: Option<Lease>, workers: map<int, Worker>, helpers: map<nat, Helper>)

  function Init(): Sys { Sys(None, map[], map[]) }

  function Alive(s: Sys): set<int> { set pid | pid in s.workers && !s.workers[pid].phase.Gone? }

  predicate InLoop(s: Sys, pid: int) { pid in s.workers && s.workers[pid].phase.Looping? }

  datatype Action =
    | Spawn(pid: int, owner: string)
    | Acquire(pid: int, now: int, ttl: int, maxWindows: int, idleClose: int)
    | Heartbeat(pid: int, now: int, ttl: int)
    | Leave(pid: int)
    | Release(pid: int)
    | Die(pid: int)
    | HelperReads(helper: nat)
    | HelperProbes(helper: nat)
    | HelperClears(helper: nat)

  ghost predicate Enabled(s: Sys, a: Action) {
    match a
    case Spawn(pid, owner) =>
      0 < pid && pid !in s.workers && forall p :: p in s.workers ==> s.workers[p].owner != owner
    case Acquire(pid, _, _, _, _) => pid in s.workers && s.workers[pid].phase.Starting?
    case Heartbeat(pid, _, _) => InLoop(s, pid)
    case Leave(pid) => InLoop(s, pid)
    case Release(pid) => pid in s.workers && s.workers[pid].phase.Leaving?
    case Die(pid) => pid in Alive(s)
    case HelperReads(_) => s.row.Some?
    case HelperProbes(h) => h in s.helpers && s.helpers[h].Saw?
    case HelperClears(h) => h in s.helpers && s.helpers[h].Condemned?
  }

  function SetPhase(s: Sys, pid: int, phase: Phase): Sys
    requires pid in s.workers
  {
    s.(workers := s.workers[pid := s.workers[pid].(phase := phase)])
  }

  ghost function Apply(s: Sys, a: Action): Sys
    requires Enabled(s, a)
  {
    match a
    case Spawn(pid, owner) => s.(workers := s.workers[pid := Worker(owner, Starting)])
    case Acquire(pid, now, ttl, maxWindows, idleClose) =>
      var owner := s.workers[pid].owner;
      if Refused(s.row, owner, now, Alive(s)) then SetPhase(s, pid, Gone)
      else SetPhase(s, pid, Looping).(row := Some(Acquired(owner, pid, now, ttl, maxWindows, idleClose)))
    case Heartbeat(pid, now, ttl) =>
      var owner := s.workers[pid].owner;
      if HeldBy(s.row, owner) then s.(row := Renewed(s.row, owner, now, ttl)) else SetPhase(s, pid, Leaving)
    case Leave(pid) => SetPhase(s, pid, Leaving)
    case Release(pid) => SetPhase(s, pid, Gone).(row := Released(s.row, s.workers[pid].owner))
    case Die(pid) => SetPhase(s, pid, Gone)
    case HelperReads(h) => s.(helpers := s.helpers[h := Saw(s.row.value)])
    case HelperProbes(h) =>
      var lease := s.helpers[h].lease;
      if 0 < lease.pid && lease.pid in Alive(s) then s.(helpers := s.helpers - {h})
      else s.(helpers := s.helpers[h := Condemned(lease.owner)])
    case HelperClears(h) =>
      s.(row := Released(s.row, s.helpers[h].owner), helpers := s.helpers - {h})
  }

  ghost predicate Legal(acts: seq<Action>)
    decreases |acts|, 0
  {
    acts == [] || (Legal(acts[..|acts| - 1]) && Enabled(Exec(acts[..|acts| - 1]), acts[|acts| - 1]))
  }

  ghost function Exec(acts: seq<Action>): Sys
    requires Legal(acts)
    decreases |acts|, 1
  {
    if acts == [] then Init() else Apply(Exec(acts[..|acts| - 1]), acts[|acts| - 1])
  }

  // ---- What every run keeps ----

  /** A lease names a worker that exists, under that worker's own owner id. */
  predicate Attributed(s: Sys, lease: Lease) {
    lease.pid in s.workers && s.workers[lease.pid].owner == lease.owner
  }

  /** Every owner id belongs to one worker, and every lease ever read is attributed. */
  ghost predicate Names(s: Sys) {
    && (forall p :: p in s.workers ==> 0 < p)
    && (forall p, q :: p in s.workers && q in s.workers && s.workers[p].owner == s.workers[q].owner ==> p == q)
    && (s.row.Some? ==> Attributed(s, s.row.value))
    && (forall h :: h in s.helpers && s.helpers[h].Saw? ==> Attributed(s, s.helpers[h].lease))
  }

  ghost predicate Spent(s: Sys, owner: string) {
    exists p :: p in s.workers && s.workers[p].owner == owner && s.workers[p].phase.Gone?
  }

  /** A looping worker holds the row, and an owner id a helper means to delete is spent for good. */
  ghost predicate Holds(s: Sys) {
    && (forall p :: InLoop(s, p) ==> HeldBy(s.row, s.workers[p].owner))
    && (forall h :: h in s.helpers && s.helpers[h].Condemned? ==> Spent(s, s.helpers[h].owner))
  }

  ghost predicate Inv(s: Sys) { Names(s) && Holds(s) }

  lemma StepKeepsNames(s: Sys, a: Action)
    requires Names(s) && Enabled(s, a)
    ensures Names(Apply(s, a))
  {
  }

  lemma StepKeepsHolds(s: Sys, a: Action)
    requires Inv(s) && Enabled(s, a)
    ensures Holds(Apply(s, a))
  {
    var t := Apply(s, a);
    forall h | h in t.helpers && t.helpers[h].Condemned?
      ensures Spent(t, t.helpers[h].owner)
    {
      if h in s.helpers && s.helpers[h].Saw? {
        assert s.workers[s.helpers[h].lease.pid].phase.Gone?;
      } else {
        var p :| p in s.workers && s.workers[p].owner == s.helpers[h].owner && s.workers[p].phase.Gone?;
        assert p in t.workers && t.workers[p] == s.workers[p];
      }
    }
  }

  lemma {:induction false} RunKeepsInv(acts: seq<Action>)
    requires Legal(acts)
    ensures Inv(Exec(acts))
    decreases |acts|
  {
    if acts != [] {
      var before := acts[..|acts| - 1];
      RunKeepsInv(before);
      StepKeepsNames(Exec(before), acts[|acts| - 1]);
      StepKeepsHolds(Exec(before), acts[|acts| - 1]);
    }
  }

  /** No two workers are in the loop at once, whether or not the holder's lease has expired. */
  lemma MutualExclusion(acts: seq<Action>, p: int, q: int)
    requires Legal(acts) && InLoop(Exec(acts), p) && InLoop(Exec(acts), q)
    ensures p == q
    ensures Exec(acts).row.Some? && Exec(acts).row.value.owner == Exec(acts).workers[p].owner
    ensures Exec(acts).row.value.pid == p
  {
    RunKeepsInv(acts);
  }

  /** The exit that a refused heartbeat would take is never taken, and a heartbeat never changes hands. */
  lemma HeartbeatNeverRefused(acts: seq<Action>, p: int, now: int, ttl: int)
    requires Legal(acts) && Enabled(Exec(acts), Heartbeat(p, now, ttl))
    ensures
      var s, t := Exec(acts), Apply(Exec(acts), Heartbeat(p, now, ttl));
      InLoop(t, p) && t.row == Some(s.row.value.(heartbeatAt := now, expiresAt := now + Max(MIN_TTL, ttl)))
  {
    RunKeepsInv(acts);
  }

  /** A helper's delete, however late it comes, never removes the lease of a worker that is in its loop. */
  lemma LateClearIsHarmless(acts: seq<Action>, h: nat, p: int)
    requires Legal(acts) && Enabled(Exec(acts), HelperClears(h)) && InLoop(Exec(acts), p)
    ensures Apply(Exec(acts), HelperClears(h)).row == Exec(acts).row
  {
    RunKeepsInv(acts);
  }

  /** While a worker is in its loop nobody else gets in, at any time of day. */
  lemma LoopExcludesAcquire(acts: seq<Action>, p: int, q: int, now: int, ttl: int, maxWindows: int, idleClose: int)
    requires Legal(acts) && InLoop(Exec(acts), p) && Enabled(Exec(acts), Acquire(q, now, ttl, maxWindows, idleClose))
    ensures
      var t := Apply(Exec(acts), Acquire(q, now, ttl, maxWindows, idleClose));
      !InLoop(t, q) && InLoop(t, p) && t.row == Exec(acts).row
  {
    RunKeepsInv(acts);
  }

  /**
   A starting worker gets in exactly when the row is gone, or it has run out and its process is dead.
   So a lease left by a dead worker delays its successor by at most the time to expiry, and not at
   all once a helper has cleared it.
   */
  lemma AcquireSucceedsIff(acts: seq<Action>, q: int, now: int, ttl: int, maxWindows: int, idleClose: int)
    requires Legal(acts) && Enabled(Exec(acts), Acquire(q, now, ttl, maxWindows, idleClose))
    ensures
      var s := Exec(acts);
      InLoop(Apply(s, Acquire(q, now, ttl, maxWindows, idleClose)), q)
      <==> s.row.None? || HeldBy(s.row, s.workers[q].owner)
           || (s.row.value.expiresAt <= now && s.row.value.pid !in Alive(s))
  {
    RunKeepsInv(acts);
  }
}
