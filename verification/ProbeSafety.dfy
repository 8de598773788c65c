/**
 The probe protocol over whole runs: registry transactions, the windows that authorities create, and
 observers that look at those windows.

 Each OPEN authority can create at most one tagged window, at any later time; windows may vanish at
 any time.  An observation looks for the old target and then for the new one, with anything in
 between, and may be applied long after it was made.  An incomplete observation may say anything.
 */
module ProbeSafety {
  import opened Prelude
  import opened ProbeOps
  import opened ProbeRegistry

  datatype Phase = ClosePhase | OpenPhase

  datatype Grant = Grant(op: string, phase: Phase)

  datatype Sighting = Sighting(op: string, oldMatches: seq<WindowMatch>, newMatches: Option<seq<WindowMatch>>)

  /** `windows` holds the live tagged windows under the index of the grant that created them. */
  datatype Sys = Sys(
    t: Tables, grants: seq<Grant>, launched: set<nat>, windows: map<nat, WindowMatch>, seen: seq<Sighting>)

  function Init(): Sys { Sys(Tables(map[], map[], map[], {}), [], {}, map[], []) }

  datatype Action =
    | Roster(workers: map<string, Worker>, tasks: set<string>)
    | ArmStep(op: Operation)
    | GrantClose(id: string, now: int)
    | GrantOpen(id: string, now: int)
    | FailStep(id: string, now: int)
    | CompleteStep(id: string, binding: Option<SlotBinding>, now: int, outcome: Option<ReconcileOutcome>)
    | ReconcileStep(id: string, obs: Observation, now: int)
    | Launch(grant: nat, window: WindowMatch)
    | Vanish(grant: nat)
    | LookOld(id: string, found: seq<WindowMatch>)
    | LookNew(sighting: nat, found: seq<WindowMatch>)

  /** The owner token is drawn fresh; `ProbeOps.TagsTellTokensApart` is why that makes the target fresh. */
  ghost predicate FreshTag(t: Tables, op: Operation) {
    forall id :: id in t.ops && !t.ops[id].kind.CloseKind? && !op.kind.CloseKind? ==>
      !SameUrl(op.expectedUrl, t.ops[id].expectedUrl)
  }

  ghost predicate NoLive(s: Sys, url: string) {
    forall g :: g in s.windows ==> !SameUrl(s.windows[g].actualUrl, url)
  }

  /** `found` lists the live windows at `url`, and nothing else. */
  ghost predicate Honest(s: Sys, url: string, found: seq<WindowMatch>) {
    && (forall m :: m in found ==> SameUrl(m.actualUrl, url) && exists g :: g in s.windows && s.windows[g] == m)
    && (forall g :: g in s.windows && SameUrl(s.windows[g].actualUrl, url) ==> s.windows[g] in found)
  }

  ghost predicate Launched(s: Sys, id: string) {
    exists g :: g in s.launched && g < |s.grants| && s.grants[g] == Grant(id, OpenPhase)
  }

  /** The transport reported the change before anyone publishes it directly. */
  ghost predicate Reported(s: Sys, id: string) {
    && id in s.t.ops
    && if s.t.ops[id].kind.CloseKind?
       then s.t.ops[id].prior.Some? ==> NoLive(s, s.t.ops[id].prior.value.actualUrl)
       else Launched(s, id)
  }

  ghost predicate Seen(s: Sys, id: string, obs: Observation) {
    exists k :: 0 <= k < |s.seen| && s.seen[k] == Sighting(id, obs.oldMatches, Some(obs.newMatches))
  }

  ghost predicate Enabled(s: Sys, a: Action) {
    match a
    case ArmStep(op) => FreshlyPlanned(op) && FreshTag(s.t, op)
    case CompleteStep(id, _, _, _) => Reported(s, id)
    case ReconcileStep(id, obs, _) => obs.complete && !obs.failed ==> Seen(s, id, obs)
    case Launch(g, w) =>
      && g < |s.grants| && s.grants[g].phase.OpenPhase? && g !in s.launched && s.grants[g].op in s.t.ops
      && SameUrl(w.actualUrl, s.t.ops[s.grants[g].op].expectedUrl)
    case Vanish(g) => g in s.windows
    case LookOld(id, found) =>
      && id in s.t.ops
      && if s.t.ops[id].prior.None? then found == [] else Honest(s, s.t.ops[id].prior.value.actualUrl, found)
    case LookNew(k, found) =>
      && k < |s.seen| && s.seen[k].newMatches.None? && s.seen[k].op in s.t.ops
      && if s.t.ops[s.seen[k].op].expectedUrl == "" then found == []
         else Honest(s, s.t.ops[s.seen[k].op].expectedUrl, found)
    case _ => true
  }

  /** A transaction that raises leaves the tables as they were. */
  function After(t: Tables, r: Result<Tables, Refusal>): Tables { if r.Ok? then r.value else t }

  function Granted(s: Sys, r: Result<Tables, Refusal>, grant: Grant): Sys {
    if r.Ok? then s.(t := r.value, grants := s.grants + [grant]) else s
  }

  ghost function Apply(s: Sys, a: Action): Sys
    requires Enabled(s, a)
  {
    match a
    case Roster(workers, tasks) => s.(t := s.t.(workers := workers, tasks := tasks))
    case ArmStep(op) => s.(t := After(s.t, Arm(s.t, op)))
    case GrantClose(id, now) => Granted(s, AuthorizeClose(s.t, id, now), Grant(id, ClosePhase))
    case GrantOpen(id, now) => Granted(s, AuthorizeOpen(s.t, id, now), Grant(id, OpenPhase))
    case FailStep(id, now) => s.(t := After(s.t, Fail(s.t, id, now)))
    case CompleteStep(id, binding, now, outcome) => s.(t := After(s.t, Complete(s.t, id, binding, now, outcome)))
    case ReconcileStep(id, obs, now) => s.(t := After(s.t, Reconcile(s.t, id, obs, now)))
    case Launch(g, w) => s.(launched := s.launched + {g}, windows := s.windows[g := w])
    case Vanish(g) => s.(windows := s.windows - {g})
    case LookOld(id, found) => s.(seen := s.seen + [Sighting(id, found, None)])
    case LookNew(k, found) => s.(seen := s.seen[k := s.seen[k].(newMatches := Some(found))])
  }

  ghost predicate Legal(acts: seq<Action>)
    decreases |acts|, 0
  {
    acts == [] || (Legal(acts[..|acts| - 1]) && Enabled(Exec(acts[..|acts| - 1]), acts[|acts| - 1]))
  }

  ghost function Exec(acts: seq<Action>): Sys
    requires Legal(acts)
    decreases |acts|, 1
  {
    if acts == [] then Init() else Apply(Exec(acts[..|acts| - 1]), acts[|acts| - 1])
  }

  // ---- The fence ----

  function SlotOf(prior: Option<SlotBinding>): map<string, SlotBinding> {
    if prior.None? then map[] else map[prior.value.slotId := prior.value]
  }

  /** What an operation row keeps from the moment it is armed. */
  predicate WellKept(op: Operation) {
    && KeepsSlotId(op)
    && (op.kind.OpenKind? <==> op.prior.None?)
    && (op.kind.CloseKind? <==> op.expectedUrl == "")
    && (op.state.ReconcileRequired? ==>
          op.resume.Some? && Unresolved(op.resume.value) && !op.resume.value.ReconcileRequired?)
    && (op.kind.OpenKind? ==> !Effective(op).CloseSubmitted? && !Effective(op).ReadyToOpen?)
    && (op.kind.CloseKind? ==> !Effective(op).OpenSubmitted? && !Effective(op).ReadyToOpen?)
  }

  ghost predicate Rows(t: Tables) {
    && (forall id :: id in t.ops ==> t.ops[id].id == id && WellKept(t.ops[id]))
    && (forall a, b :: a in t.ops && b in t.ops && Unresolved(t.ops[a].state) && Unresolved(t.ops[b].state) ==> a == b)
  }

  /** At most one slot row, and while an operation is unresolved exactly the snapshot it was armed with. */
  ghost predicate Slots(t: Tables) {
    && t.slots == SlotOf(Current(t.slots))
    && (forall id :: id in t.ops && Unresolved(t.ops[id].state) ==> t.slots == SlotOf(t.ops[id].prior))
  }

  ghost predicate Fenced(t: Tables) { Rows(t) && Slots(t) }

  lemma CurrentOf(prior: Option<SlotBinding>)
    ensures Current(SlotOf(prior)) == prior && |SlotOf(prior)| <= 1
  {
    if prior.Some? {
      OnlyRow(SlotOf(prior), prior.value.slotId);
    }
  }

  /** Rewriting one row keeps the fence if the row keeps its shape and does not come back to life. */
  lemma RewriteKeepsFence(t: Tables, op: Operation)
    requires Fenced(t) && op.id in t.ops && WellKept(op) && op.prior == t.ops[op.id].prior
    requires Unresolved(op.state) ==> Unresolved(t.ops[op.id].state)
    ensures Fenced(SaveOp(t, op))
  {
  }

  lemma ArmKeepsFence(t: Tables, op: Operation)
    requires Fenced(t) && FreshlyPlanned(op)
    ensures Fenced(After(t, Arm(t, op)))
  {
    CurrentOf(op.prior);
    if Arm(t, op).Ok? {
      assert t.slots == SlotOf(op.prior);
    }
  }

  lemma SettlingFreesSlots(t: Tables, op: Operation, slots: map<string, SlotBinding>)
    requires Rows(t) && op.id in t.ops && WellKept(op) && Unresolved(t.ops[op.id].state) && !Unresolved(op.state)
    requires slots == SlotOf(Current(slots))
    ensures Fenced(SaveOp(t.(slots := slots), op))
  {
  }

  /** The snapshot check of a completion never fails on a fenced table. */
  lemma SlotIsAccepted(t: Tables, id: string)
    requires Slots(t) && id in t.ops && Unresolved(t.ops[id].state)
    requires (t.ops[id].kind.OpenKind? <==> t.ops[id].prior.None?)
    ensures SlotRefusal(t.slots, t.ops[id]).None?
  {
    CurrentOf(t.ops[id].prior);
  }

  lemma PublishedSlots(slots: map<string, SlotBinding>, op: Operation, binding: Option<SlotBinding>)
    requires slots == SlotOf(op.prior) && KeepsSlotId(op) && (op.kind.OpenKind? <==> op.prior.None?)
    requires BindingRefusal(op, binding).None?
    ensures Published(slots, op, binding) == SlotOf(binding) && SlotOf(binding) == SlotOf(Current(SlotOf(binding)))
  {
    CurrentOf(binding);
    assert Published(slots, op, binding) == SlotOf(binding);
  }

  lemma CompleteLockedKeepsFence(
    t: Tables, id: string, binding: Option<SlotBinding>, ts: int, outcome: Option<ReconcileOutcome>, reconciled: bool)
    requires Fenced(t) && id in t.ops && Unresolved(t.ops[id].state)
    ensures Fenced(After(t, CompleteLocked(t, t.ops[id], binding, ts, outcome, reconciled)))
    ensures BindingRefusal(t.ops[id], binding).None? ==>
      CompleteLocked(t, t.ops[id], binding, ts, outcome, reconciled).Ok?
  {
    var op := t.ops[id];
    SlotIsAccepted(t, id);
    if BindingRefusal(op, binding).None? {
      PublishedSlots(t.slots, op, binding);
      SettlingFreesSlots(t, CompletedOp(op, ts, outcome, reconciled), SlotOf(binding));
    }
  }

  lemma AdoptionFits(op: Operation, obs: Observation, now: int)
    requires WellKept(op) && Unresolved(op.state) && Decide(op, obs, now).next.Completed?
    ensures BindingRefusal(op, Decide(op, obs, now).adopt).None?
  {
  }

  lemma ReconcileKeepsFence(t: Tables, id: string, obs: Observation, now: int)
    requires Fenced(t)
    ensures Fenced(After(t, Reconcile(t, id, obs, now)))
  {
    if id in t.ops && Unresolved(t.ops[id].state) {
      var d := Decide(t.ops[id], obs, now);
      if d.next.Completed? {
        CompleteLockedKeepsFence(t, id, d.adopt, Max(t.ops[id].updatedAt, obs.observedAt), Some(d.outcome), true);
      } else {
        RewriteKeepsFence(t, Reconciled(t.ops[id], obs, d));
      }
    }
  }

  lemma BindKeepsFence(t: Tables, b: SlotBinding, ttl: int)
    requires Fenced(t)
    ensures Fenced(After(t, Bind(t, b, ttl)))
  {
    var r := Bind(t, b, ttl);
    if r.Ok? {
      assert r.value.slots == SlotOf(Some(r.value.slots[b.slotId]));
      CurrentOf(Some(r.value.slots[b.slotId]));
    }
  }

  lemma ClearKeepsFence(t: Tables, slotId: string)
    requires Fenced(t)
    ensures Fenced(After(t, Clear(t, slotId)))
  {
    var r := Clear(t, slotId);
    if r.Ok? {
      var current := Current(t.slots);
      CurrentOf(None);
      assert r.value.slots == SlotOf(if current.Some? && current.value.slotId != slotId then current else None);
    }
  }

  // ---- Every transaction of the registry, the direct ones included ----

  /** A transaction by whoever calls it, with whatever arguments; arming gets a freshly planned operation. */
  datatype RegistryCall =
    | Assign(workers: map<string, Worker>, tasks: set<string>)
    | ArmOp(op: Operation)
    | CloseAuthority(id: string, now: int)
    | OpenAuthority(id: string, now: int)
    | FailOp(id: string, now: int)
    | CompleteOp(id: string, binding: Option<SlotBinding>, now: int, outcome: Option<ReconcileOutcome>)
    | ReconcileOp(id: string, obs: Observation, now: int)
    | BindOp(b: SlotBinding, ttl: int)
    | ClearOp(slotId: string)

  ghost function Transact(t: Tables, x: RegistryCall): Tables {
    match x
    case Assign(workers, tasks) => t.(workers := workers, tasks := tasks)
    case ArmOp(op) => After(t, Arm(t, op))
    case CloseAuthority(id, now) => After(t, AuthorizeClose(t, id, now))
    case OpenAuthority(id, now) => After(t, AuthorizeOpen(t, id, now))
    case FailOp(id, now) => After(t, Fail(t, id, now))
    case CompleteOp(id, binding, now, outcome) => After(t, Complete(t, id, binding, now, outcome))
    case ReconcileOp(id, obs, now) => After(t, Reconcile(t, id, obs, now))
    case BindOp(b, ttl) => After(t, Bind(t, b, ttl))
    case ClearOp(slotId) => After(t, Clear(t, slotId))
  }

  ghost function TransactAll(t: Tables, xs: seq<RegistryCall>): Tables {
    if xs == [] then t else Transact(TransactAll(t, xs[..|xs| - 1]), xs[|xs| - 1])
  }

  lemma CloseAuthorityKeepsFence(t: Tables, id: string, now: int)
    requires Fenced(t)
    ensures Fenced(After(t, AuthorizeClose(t, id, now)))
  {
    if AuthorizeClose(t, id, now).Ok? {
      RewriteKeepsFence(t, t.ops[id].(state := CloseSubmitted, updatedAt := now));
    }
  }

  lemma OpenAuthorityKeepsFence(t: Tables, id: string, now: int)
    requires Fenced(t)
    ensures Fenced(After(t, AuthorizeOpen(t, id, now)))
  {
    if AuthorizeOpen(t, id, now).Ok? {
      RewriteKeepsFence(t, t.ops[id].(state := OpenSubmitted, resume := None, updatedAt := now));
    }
  }

  lemma FailKeepsFence(t: Tables, id: string, now: int)
    requires Fenced(t)
    ensures Fenced(After(t, Fail(t, id, now)))
  {
    if Fail(t, id, now).Ok? {
      RewriteKeepsFence(t, t.ops[id].(state := Failed, updatedAt := now));
    }
  }

  lemma CompleteIsLocked(t: Tables, id: string, binding: Option<SlotBinding>, now: int,
                         outcome: Option<ReconcileOutcome>)
    ensures
      || After(t, Complete(t, id, binding, now, outcome)) == t
      || (&& id in t.ops && Unresolved(t.ops[id].state)
          && Complete(t, id, binding, now, outcome) == CompleteLocked(t, t.ops[id], binding, now, outcome, false))
  {
  }

  lemma CompleteKeepsFence(t: Tables, id: string, binding: Option<SlotBinding>, now: int,
                           outcome: Option<ReconcileOutcome>)
    requires Fenced(t)
    ensures Fenced(After(t, Complete(t, id, binding, now, outcome)))
  {
    CompleteIsLocked(t, id, binding, now, outcome);
    if id in t.ops && Unresolved(t.ops[id].state) {
      CompleteLockedKeepsFence(t, id, binding, now, outcome, false);
    }
  }

  lemma CallKeepsFence(t: Tables, x: RegistryCall)
    requires Fenced(t) && (x.ArmOp? ==> FreshlyPlanned(x.op))
    ensures Fenced(Transact(t, x))
  {
    match x
    case ArmOp(op) => ArmKeepsFence(t, op);
    case CloseAuthority(id, now) => CloseAuthorityKeepsFence(t, id, now);
    case OpenAuthority(id, now) => OpenAuthorityKeepsFence(t, id, now);
    case FailOp(id, now) => FailKeepsFence(t, id, now);
    case CompleteOp(id, binding, now, outcome) => CompleteKeepsFence(t, id, binding, now, outcome);
    case ReconcileOp(id, obs, now) => ReconcileKeepsFence(t, id, obs, now);
    case BindOp(b, ttl) => BindKeepsFence(t, b, ttl);
    case ClearOp(slotId) => ClearKeepsFence(t, slotId);
    case Assign(_, _) =>
  }

  /** From any fenced tables, no sequence of transactions with any evidence ever breaks the fence. */
  lemma {:induction false} CallsKeepFence(t: Tables, xs: seq<RegistryCall>)
    requires Fenced(t) && forall k :: 0 <= k < |xs| && xs[k].ArmOp? ==> FreshlyPlanned(xs[k].op)
    ensures Fenced(TransactAll(t, xs))
  {
    if xs != [] {
      CallsKeepFence(t, xs[..|xs| - 1]);
      CallKeepsFence(TransactAll(t, xs[..|xs| - 1]), xs[|xs| - 1]);
    }
  }

  lemma EmptyIsFenced()
    ensures Fenced(Tables(map[], map[], map[], {}))
  {
    CurrentOf(None);
  }

  // ---- Runs ----

  lemma StepKeepsFence(s: Sys, a: Action)
    requires Fenced(s.t) && Enabled(s, a)
    ensures Fenced(Apply(s, a).t)
  {
    match a
    case ArmStep(op) => ArmKeepsFence(s.t, op);
    case GrantClose(id, now) => CloseAuthorityKeepsFence(s.t, id, now);
    case GrantOpen(id, now) => OpenAuthorityKeepsFence(s.t, id, now);
    case FailStep(id, now) => FailKeepsFence(s.t, id, now);
    case ReconcileStep(id, obs, now) => ReconcileKeepsFence(s.t, id, obs, now);
    case CompleteStep(id, binding, now, outcome) => CompleteKeepsFence(s.t, id, binding, now, outcome);
    case _ =>
  }

  lemma {:induction false} RunKeepsFence(acts: seq<Action>)
    requires Legal(acts)
    ensures Fenced(Exec(acts).t)
    decreases |acts|
  {
    if acts == [] {
      EmptyIsFenced();
    } else {
      RunKeepsFence(acts[..|acts| - 1]);
      StepKeepsFence(Exec(acts[..|acts| - 1]), acts[|acts| - 1]);
    }
  }
}
