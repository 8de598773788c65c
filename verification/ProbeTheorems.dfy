/** What every run of the probe protocol keeps, and the properties that follow. */
module ProbeTheorems {
  import opened Prelude
  import opened ProbeOps
  import opened ProbeRegistry
  import opened ProbeSafety

  // ---- Progress of one operation ----

  /** ARMED < CLOSE_SUBMITTED < READY_TO_OPEN < OPEN_SUBMITTED < COMPLETED, judged on the effective state. */
  function Rank(op: Operation): nat {
    match Effective(op)
    case CloseSubmitted => 1
    case ReadyToOpen => 2
    case OpenSubmitted => 3
    case Completed => 4
    case _ => 0
  }

  /** One row before and after a transaction: its target is fixed, it never moves back, and the end is final. */
  predicate MovesOn(o: Operation, p: Operation) {
    && p.kind == o.kind && p.prior == o.prior && p.expectedUrl == o.expectedUrl
    && Rank(o) <= Rank(p)
    && (!Unresolved(o.state) ==> p == o)
  }

  ghost predicate Evolves(t: Tables, t': Tables) {
    forall id :: id in t.ops ==> id in t'.ops && MovesOn(t.ops[id], t'.ops[id])
  }

  // ---- What one transaction can change ----

  datatype Change =
    | Nothing
    | Added(op: Operation)
    | Rewritten(op: Operation)
    | Published(op: Operation, binding: Option<SlotBinding>)

  ghost predicate Describes(c: Change, t: Tables, t': Tables) {
    match c
    case Nothing => t'.ops == t.ops && t'.slots == t.slots
    case Added(op) =>
      && op.id !in t.ops && FreshlyPlanned(op) && FreshTag(t, op) && (op.prior.Some? ==> t.slots == SlotOf(op.prior))
      && t'.ops == t.ops[op.id := op] && t'.slots == t.slots
    case Rewritten(op) =>
      && op.id in t.ops && Unresolved(t.ops[op.id].state) && MovesOn(t.ops[op.id], op) && !op.state.Completed?
      && t'.ops == t.ops[op.id := op] && t'.slots == t.slots
    case Published(op, binding) =>
      && op.id in t.ops && Unresolved(t.ops[op.id].state) && MovesOn(t.ops[op.id], op) && op.state.Completed?
      && (binding.None? <==> op.kind.CloseKind?)
      && (binding.Some? ==> SameUrl(binding.value.actualUrl, op.expectedUrl))
      && t.slots == SlotOf(op.prior) && t'.slots == SlotOf(binding) && t'.ops == t.ops[op.id := op]
  }

  lemma CompletedMovesOn(op: Operation, ts: int, outcome: Option<ReconcileOutcome>, reconciled: bool)
    requires WellKept(op) && Unresolved(op.state)
    ensures MovesOn(op, CompletedOp(op, ts, outcome, reconciled))
  {
  }

  lemma CompletedTables(
    t: Tables, op: Operation, binding: Option<SlotBinding>, ts: int, outcome: Option<ReconcileOutcome>,
    reconciled: bool)
    requires CompleteLocked(t, op, binding, ts, outcome, reconciled).Ok?
    ensures BindingRefusal(op, binding).None? && (op.kind.CloseKind? ==> binding.None?)
    ensures
      var t' := CompleteLocked(t, op, binding, ts, outcome, reconciled).value;
      && t'.slots == ProbeRegistry.Published(t.slots, op, binding)
      && t'.ops == t.ops[op.id := CompletedOp(op, ts, outcome, reconciled)]
  {
  }

  lemma CompletionIsPublished(
    t: Tables, id: string, binding: Option<SlotBinding>, ts: int, outcome: Option<ReconcileOutcome>, reconciled: bool)
    requires Fenced(t) && id in t.ops && Unresolved(t.ops[id].state)
    requires CompleteLocked(t, t.ops[id], binding, ts, outcome, reconciled).Ok?
    ensures Describes(Published(CompletedOp(t.ops[id], ts, outcome, reconciled), binding), t,
                      CompleteLocked(t, t.ops[id], binding, ts, outcome, reconciled).value)
  {
    var op := t.ops[id];
    CompletedMovesOn(op, ts, outcome, reconciled);
    CompletedTables(t, op, binding, ts, outcome, reconciled);
    assert ProbeRegistry.Published(t.slots, op, binding) == SlotOf(binding);
  }

  lemma ReconcileChanges(t: Tables, id: string, obs: Observation, now: int) returns (c: Change)
    requires Fenced(t)
    ensures Describes(c, t, After(t, Reconcile(t, id, obs, now)))
    ensures c.Added? ==> false
    ensures !c.Nothing? ==> id in t.ops && c.op.id == id && c.op.state == Decide(t.ops[id], obs, now).next
    ensures c.Rewritten? ==> c.op == Reconciled(t.ops[id], obs, Decide(t.ops[id], obs, now))
  {
    c := Nothing;
    if id in t.ops && Unresolved(t.ops[id].state) {
      var op := t.ops[id];
      var d := Decide(op, obs, now);
      if d.next.Completed? {
        var ts := Max(op.updatedAt, obs.observedAt);
        AdoptionFits(op, obs, now);
        CompleteLockedKeepsFence(t, id, d.adopt, ts, Some(d.outcome), true);
        CompletionIsPublished(t, id, d.adopt, ts, Some(d.outcome), true);
        c := Published(CompletedOp(op, ts, Some(d.outcome), true), d.adopt);
      } else {
        DecisionMovesOn(op, obs, now);
        c := Rewritten(Reconciled(op, obs, d));
      }
    }
  }

  lemma DecisionMovesOn(op: Operation, obs: Observation, now: int)
    requires WellKept(op) && Unresolved(op.state) && !Decide(op, obs, now).next.Completed?
    ensures MovesOn(op, Reconciled(op, obs, Decide(op, obs, now)))
  {
  }

  lemma ArmChanges(t: Tables, op: Operation) returns (c: Change)
    requires Fenced(t) && FreshlyPlanned(op) && FreshTag(t, op)
    ensures Describes(c, t, After(t, Arm(t, op))) && (c == Nothing || c == Added(op))
  {
    c := if Arm(t, op).Ok? then Added(op) else Nothing;
  }

  lemma CompleteChanges(
    t: Tables, id: string, binding: Option<SlotBinding>, now: int, outcome: Option<ReconcileOutcome>)
    returns (c: Change)
    requires Fenced(t)
    ensures Describes(c, t, After(t, Complete(t, id, binding, now, outcome)))
    ensures c.Nothing? || (c.Published? && c.op.id == id)
  {
    c := Nothing;
    CompleteIsLocked(t, id, binding, now, outcome);
    if id in t.ops && Unresolved(t.ops[id].state) && After(t, Complete(t, id, binding, now, outcome)) != t {
      CompletionIsPublished(t, id, binding, now, outcome, false);
      c := Published(CompletedOp(t.ops[id], now, outcome, false), binding);
    }
  }

  lemma ChangeOf(s: Sys, a: Action) returns (c: Change)
    requires Fenced(s.t) && Enabled(s, a)
    ensures Describes(c, s.t, Apply(s, a).t)
    ensures c.Added? ==> a.ArmStep?
    ensures c.Rewritten? || c.Published? ==>
      (a.GrantClose? || a.GrantOpen? || a.FailStep? || a.CompleteStep? || a.ReconcileStep?) && a.id == c.op.id
    ensures a.ReconcileStep? && !c.Nothing? ==> c.op.state == Decide(s.t.ops[a.id], a.obs, a.now).next
    ensures a.ReconcileStep? && c.Rewritten? ==>
      c.op == Reconciled(s.t.ops[a.id], a.obs, Decide(s.t.ops[a.id], a.obs, a.now))
    ensures a.CompleteStep? && !c.Nothing? ==> c.Published?
    ensures a.FailStep? && !c.Nothing? ==> s.t.ops[a.id].state.Armed? && c.op.state.Failed?
    ensures a.GrantClose? && !c.Nothing? ==> c.op.state.CloseSubmitted? && s.t.ops[a.id].state.Armed?
    ensures a.GrantOpen? && !c.Nothing? ==> c.op.state.OpenSubmitted? && MayOpen(s.t.ops[a.id])
  {
    c := Nothing;
    match a
    case ArmStep(op) => c := ArmChanges(s.t, op);
    case GrantClose(id, now) =>
      if AuthorizeClose(s.t, id, now).Ok? {
        c := Rewritten(s.t.ops[id].(state := CloseSubmitted, updatedAt := now));
      }
    case GrantOpen(id, now) =>
      if AuthorizeOpen(s.t, id, now).Ok? {
        c := Rewritten(s.t.ops[id].(state := OpenSubmitted, resume := None, updatedAt := now));
      }
    case FailStep(id, now) =>
      if Fail(s.t, id, now).Ok? {
        c := Rewritten(s.t.ops[id].(state := Failed, updatedAt := now));
      }
    case CompleteStep(id, binding, now, outcome) => c := CompleteChanges(s.t, id, binding, now, outcome);
    case ReconcileStep(id, obs, now) => c := ReconcileChanges(s.t, id, obs, now);
    case _ =>
  }

  /** No authorization, observation or completion moves any operation back. */
  lemma EffectiveStateNeverMovesBack(s: Sys, a: Action)
    requires Fenced(s.t) && Enabled(s, a)
    ensures Evolves(s.t, Apply(s, a).t)
  {
    var c := ChangeOf(s, a);
  }

  // ---- Targets ----

  ghost predicate Settled(t: Tables, url: string) {
    exists p :: p in t.ops && t.ops[p].state.Completed? && !t.ops[p].kind.CloseKind?
      && SameUrl(t.ops[p].expectedUrl, url)
  }

  ghost predicate Distinct(t: Tables) {
    forall a, b ::
      (a in t.ops && b in t.ops && !t.ops[a].kind.CloseKind? && !t.ops[b].kind.CloseKind?
       && SameUrl(t.ops[a].expectedUrl, t.ops[b].expectedUrl)) ==> a == b
  }

  ghost predicate Sourced(t: Tables) {
    && (forall x :: x in t.ops && t.ops[x].prior.Some? ==> Settled(t, t.ops[x].prior.value.actualUrl))
    && (forall k :: k in t.slots ==> Settled(t, t.slots[k].actualUrl))
  }

  // ---- Authority ----

  ghost predicate Authorities(s: Sys) {
    && (forall g :: 0 <= g < |s.grants| ==> s.grants[g].op in s.t.ops)
    && (forall g :: 0 <= g < |s.grants| && s.grants[g].phase.OpenPhase? ==>
          3 <= Rank(s.t.ops[s.grants[g].op]) && !s.t.ops[s.grants[g].op].kind.CloseKind?)
    && (forall g :: 0 <= g < |s.grants| && s.grants[g].phase.ClosePhase? ==> 1 <= Rank(s.t.ops[s.grants[g].op]))
    && (forall g, h :: 0 <= g < h < |s.grants| ==> s.grants[g] != s.grants[h])
  }

  /** An operation leaves the unresolved states only after its window, if it was authorised, has been created. */
  ghost predicate Launches(s: Sys) {
    && (forall g :: g in s.launched ==> g < |s.grants| && s.grants[g].phase.OpenPhase?)
    && (forall g :: 0 <= g < |s.grants| && s.grants[g].phase.OpenPhase? && g !in s.launched ==>
          s.grants[g].op in s.t.ops && Unresolved(s.t.ops[s.grants[g].op].state))
  }

  // ---- Windows ----

  ghost predicate Accounted(s: Sys, g: nat) {
    && g in s.launched && g < |s.grants| && s.grants[g].op in s.t.ops
    && var op := s.t.ops[s.grants[g].op];
       && g in s.windows && SameUrl(s.windows[g].actualUrl, op.expectedUrl)
       && (Unresolved(op.state) || exists k :: k in s.t.slots && SameUrl(s.t.slots[k].actualUrl, op.expectedUrl))
  }

  ghost predicate Windows(s: Sys) {
    && (forall g :: g in s.windows ==> Accounted(s, g))
    && (forall id ::
          id in s.t.ops && Unresolved(s.t.ops[id].state) && 2 <= Rank(s.t.ops[id]) && s.t.ops[id].prior.Some? ==>
          NoLive(s, s.t.ops[id].prior.value.actualUrl))
  }

  ghost predicate Sightings(s: Sys) {
    forall k :: 0 <= k < |s.seen| ==>
      && s.seen[k].op in s.t.ops
      && (s.seen[k].oldMatches == [] && s.t.ops[s.seen[k].op].prior.Some? ==>
            NoLive(s, s.t.ops[s.seen[k].op].prior.value.actualUrl))
      && (s.seen[k].newMatches.Some? && s.seen[k].newMatches.value != [] ==> Launched(s, s.seen[k].op))
  }

  ghost predicate Inv(s: Sys) {
    && Fenced(s.t) && Distinct(s.t) && Sourced(s.t) && Authorities(s) && Launches(s) && Windows(s) && Sightings(s)
  }

  // ---- Steps on the tables ----

  predicate TableStep(a: Action) {
    a.Roster? || a.ArmStep? || a.FailStep? || a.CompleteStep? || a.ReconcileStep?
  }

  predicate GrantStep(a: Action) { a.GrantClose? || a.GrantOpen? }

  lemma SettledStays(t: Tables, t': Tables, url: string)
    requires Evolves(t, t') && Settled(t, url)
    ensures Settled(t', url)
  {
    var p :| p in t.ops && t.ops[p].state.Completed? && !t.ops[p].kind.CloseKind? && SameUrl(t.ops[p].expectedUrl, url);
    assert p in t'.ops && t'.ops[p] == t.ops[p];
  }

  lemma ChangeKeepsDistinct(c: Change, t: Tables, t': Tables)
    requires Distinct(t) && Describes(c, t, t')
    ensures Distinct(t')
  {
  }

  lemma ChangeEvolves(c: Change, t: Tables, t': Tables)
    requires Describes(c, t, t')
    ensures Evolves(t, t')
  {
  }

  lemma PriorsStaySettled(c: Change, t: Tables, t': Tables, x: string)
    requires Sourced(t) && Describes(c, t, t') && Evolves(t, t') && x in t'.ops && t'.ops[x].prior.Some?
    ensures Settled(t', t'.ops[x].prior.value.actualUrl)
  {
    var prior := t'.ops[x].prior.value;
    if x !in t.ops {
      assert t.slots[prior.slotId] == prior;
    }
    SettledStays(t, t', prior.actualUrl);
  }

  lemma ChangeKeepsTargets(c: Change, t: Tables, t': Tables)
    requires Distinct(t) && Sourced(t) && Describes(c, t, t')
    ensures Distinct(t') && Sourced(t')
  {
    ChangeKeepsDistinct(c, t, t');
    ChangeEvolves(c, t, t');
    forall x | x in t'.ops && t'.ops[x].prior.Some?
      ensures Settled(t', t'.ops[x].prior.value.actualUrl)
    {
      PriorsStaySettled(c, t, t', x);
    }
    forall k | k in t'.slots
      ensures Settled(t', t'.slots[k].actualUrl)
    {
      if c.Published? {
        assert t'.ops[c.op.id] == c.op;
      } else {
        SettledStays(t, t', t'.slots[k].actualUrl);
      }
    }
  }

  // ---- Steps on authorities, windows and observations ----

  /** What the evidence behind a change of the tables says about the windows. */
  ghost predicate Backed(s: Sys, c: Change) {
    c.Rewritten? || c.Published? ==>
      && c.op.id in s.t.ops
      && (c.Published? && !c.op.kind.CloseKind? ==> Launched(s, c.op.id))
      && (c.Published? && c.op.kind.CloseKind? && c.op.prior.Some? ==> NoLive(s, c.op.prior.value.actualUrl))
      && (c.Published? && c.op.kind.RotateKind? ==> 2 <= Rank(s.t.ops[c.op.id]))
      && (c.Rewritten? && 2 <= Rank(c.op) && c.op.prior.Some? ==>
            2 <= Rank(s.t.ops[c.op.id]) || NoLive(s, c.op.prior.value.actualUrl))
      && (c.Rewritten? && !Unresolved(c.op.state) ==> Rank(s.t.ops[c.op.id]) == 0)
  }

  lemma DecisionIsBacked(s: Sys, id: string, obs: Observation, now: int, c: Change)
    requires Rows(s.t) && Sightings(s) && Enabled(s, ReconcileStep(id, obs, now))
    requires id in s.t.ops && Unresolved(s.t.ops[id].state) && (c.Rewritten? || c.Published?) && c.op.id == id
    requires MovesOn(s.t.ops[id], c.op) && c.op.state == Decide(s.t.ops[id], obs, now).next
    requires c.Rewritten? ==>
      c.op == Reconciled(s.t.ops[id], obs, Decide(s.t.ops[id], obs, now)) && !c.op.state.Completed?
    requires c.Published? ==> c.op.state.Completed?
    ensures Backed(s, c)
  {
    assert WellKept(s.t.ops[id]);
    if !c.op.state.ReconcileRequired? {
      var k :| 0 <= k < |s.seen| && s.seen[k] == Sighting(id, obs.oldMatches, Some(obs.newMatches));
      assert s.seen[k].op == id;
    }
  }

  predicate Transaction(a: Action) { TableStep(a) || GrantStep(a) }

  lemma TransactionIsBacked(s: Sys, a: Action) returns (c: Change)
    requires Fenced(s.t) && Sightings(s) && Enabled(s, a) && Transaction(a)
    ensures Describes(c, s.t, Apply(s, a).t) && Backed(s, c)
    ensures Apply(s, a).windows == s.windows && Apply(s, a).launched == s.launched && Apply(s, a).seen == s.seen
    ensures TableStep(a) ==> Apply(s, a).grants == s.grants
    ensures GrantStep(a) ==> NewGrant(s, Apply(s, a), c)
  {
    c := ChangeOf(s, a);
    if a.ReconcileStep? && !c.Nothing? {
      DecisionIsBacked(s, a.id, a.obs, a.now, c);
    }
  }

  /** A grant goes to an operation that has not come as far as that authority before. */
  ghost predicate NewGrant(s: Sys, s': Sys, c: Change) {
    if c.Nothing? then s'.grants == s.grants
    else
      && c.Rewritten? && c.op.id in s.t.ops && Unresolved(c.op.state)
      && ((s'.grants == s.grants + [Grant(c.op.id, OpenPhase)] && !c.op.kind.CloseKind?
           && Rank(s.t.ops[c.op.id]) < 3 <= Rank(c.op))
          || (s'.grants == s.grants + [Grant(c.op.id, ClosePhase)] && Rank(s.t.ops[c.op.id]) < 1 <= Rank(c.op)))
  }

  lemma ChangeKeepsAuthorities(s: Sys, s': Sys, c: Change)
    requires Authorities(s) && Launches(s) && Describes(c, s.t, s'.t) && Backed(s, c)
    requires s'.launched == s.launched && (s'.grants == s.grants || NewGrant(s, s', c))
    ensures Authorities(s')
  {
    assert forall id :: id in s.t.ops ==> id in s'.t.ops && MovesOn(s.t.ops[id], s'.t.ops[id]);
  }

  lemma ChangeKeepsLaunches(s: Sys, s': Sys, c: Change)
    requires Authorities(s) && Launches(s) && Describes(c, s.t, s'.t) && Backed(s, c)
    requires s'.launched == s.launched && (s'.grants == s.grants || NewGrant(s, s', c))
    ensures Launches(s')
  {
    forall g | 0 <= g < |s'.grants| && s'.grants[g].phase.OpenPhase? && g !in s'.launched
      ensures s'.grants[g].op in s'.t.ops && Unresolved(s'.t.ops[s'.grants[g].op].state)
    {
      if g < |s.grants| {
        assert s'.grants[g] == s.grants[g];
        assert 3 <= Rank(s.t.ops[s.grants[g].op]);
      }
    }
  }

  lemma LaunchedStays(s: Sys, s': Sys, id: string)
    requires Launched(s, id) && s.launched <= s'.launched && s.grants <= s'.grants
    ensures Launched(s', id)
  {
    var g :| g in s.launched && g < |s.grants| && s.grants[g] == Grant(id, OpenPhase);
    assert g in s'.launched && s'.grants[g] == s.grants[g];
  }

  lemma ChangeKeepsSightings(s: Sys, s': Sys, c: Change)
    requires Sightings(s) && Describes(c, s.t, s'.t)
    requires s'.windows == s.windows && s'.launched == s.launched && s'.seen == s.seen && s.grants <= s'.grants
    ensures Sightings(s')
  {
    forall k | 0 <= k < |s'.seen|
      ensures s'.seen[k].newMatches.Some? && s'.seen[k].newMatches.value != [] ==> Launched(s', s'.seen[k].op)
    {
      if Launched(s, s.seen[k].op) {
        LaunchedStays(s, s', s.seen[k].op);
      }
    }
    assert forall url :: NoLive(s, url) ==> NoLive(s', url);
  }

  lemma ChangeKeepsAccounts(s: Sys, s': Sys, c: Change, g: nat)
    requires Rows(s.t) && Windows(s) && Authorities(s) && Launches(s) && Describes(c, s.t, s'.t) && Backed(s, c)
    requires s'.windows == s.windows && s'.launched == s.launched && s.grants <= s'.grants && g in s.windows
    ensures Accounted(s', g)
  {
    assert Accounted(s, g);
    var id := s.grants[g].op;
    assert s'.grants[g].op == id && s'.t.ops[id].expectedUrl == s.t.ops[id].expectedUrl;
    if c.Published? {
      OldWindowIsGone(s, s', c);
      if id == c.op.id {
        assert s.grants[g].phase.OpenPhase?;
        assert s'.t.slots[c.binding.value.slotId] == c.binding.value;
      }
    }
  }

  /** When an operation publishes, no window is left at the target that the slot row still names. */
  lemma OldWindowIsGone(s: Sys, s': Sys, c: Change)
    requires Rows(s.t) && Windows(s) && c.Published? && Describes(c, s.t, s'.t) && Backed(s, c)
    ensures forall k :: k in s.t.slots ==> NoLive(s, s.t.slots[k].actualUrl)
  {
    if c.op.prior.Some? {
      assert WellKept(s.t.ops[c.op.id]);
    }
  }

  lemma ChangeKeepsGone(s: Sys, s': Sys, c: Change, id: string)
    requires Rows(s.t) && Windows(s) && Describes(c, s.t, s'.t) && Backed(s, c) && s'.windows == s.windows
    requires id in s'.t.ops && Unresolved(s'.t.ops[id].state) && 2 <= Rank(s'.t.ops[id]) && s'.t.ops[id].prior.Some?
    ensures NoLive(s', s'.t.ops[id].prior.value.actualUrl)
  {
    var url := s'.t.ops[id].prior.value.actualUrl;
    assert NoLive(s, url);
  }

  lemma ChangeKeepsWindows(s: Sys, s': Sys, c: Change)
    requires Rows(s.t) && Windows(s) && Authorities(s) && Launches(s) && Describes(c, s.t, s'.t) && Backed(s, c)
    requires s'.windows == s.windows && s'.launched == s.launched && s.grants <= s'.grants
    ensures Windows(s')
  {
    forall g | g in s'.windows
      ensures Accounted(s', g)
    {
      ChangeKeepsAccounts(s, s', c, g);
    }
    forall id | id in s'.t.ops && Unresolved(s'.t.ops[id].state) && 2 <= Rank(s'.t.ops[id]) && s'.t.ops[id].prior.Some?
      ensures NoLive(s', s'.t.ops[id].prior.value.actualUrl)
    {
      ChangeKeepsGone(s, s', c, id);
    }
  }

  // ---- The world outside the registry ----

  /** A window still to come carries the tag of an unresolved operation, so it never has a published target. */
  lemma LaunchMissesSettled(s: Sys, g: nat, w: WindowMatch, url: string)
    requires Distinct(s.t) && Authorities(s) && Launches(s) && Enabled(s, Launch(g, w)) && Settled(s.t, url)
    requires NoLive(s, url)
    ensures NoLive(Apply(s, Launch(g, w)), url)
  {
    var id := s.grants[g].op;
    assert Unresolved(s.t.ops[id].state);
    var p :| p in s.t.ops && s.t.ops[p].state.Completed? && !s.t.ops[p].kind.CloseKind?
      && SameUrl(s.t.ops[p].expectedUrl, url);
  }

  ghost predicate KeepsGone(s: Sys, s': Sys) {
    forall url :: Settled(s.t, url) && NoLive(s, url) ==> NoLive(s', url)
  }

  lemma LaunchKeepsWindows(s: Sys, g: nat, w: WindowMatch)
    requires Sourced(s.t) && Launches(s) && Windows(s) && Enabled(s, Launch(g, w))
    requires KeepsGone(s, Apply(s, Launch(g, w)))
    ensures Windows(Apply(s, Launch(g, w))) && Launches(Apply(s, Launch(g, w)))
  {
    var s' := Apply(s, Launch(g, w));
    forall h | h in s'.windows
      ensures Accounted(s', h)
    {
      assert h != g ==> Accounted(s, h);
    }
  }

  lemma LaunchKeepsSightings(s: Sys, g: nat, w: WindowMatch)
    requires Sourced(s.t) && Sightings(s) && Enabled(s, Launch(g, w)) && KeepsGone(s, Apply(s, Launch(g, w)))
    ensures Sightings(Apply(s, Launch(g, w)))
  {
    var s' := Apply(s, Launch(g, w));
    forall id | Launched(s, id)
      ensures Launched(s', id)
    {
      LaunchedStays(s, s', id);
    }
  }

  lemma LaunchKeepsInv(s: Sys, g: nat, w: WindowMatch)
    requires Inv(s) && Enabled(s, Launch(g, w))
    ensures Inv(Apply(s, Launch(g, w)))
  {
    var s' := Apply(s, Launch(g, w));
    forall url | Settled(s.t, url) && NoLive(s, url)
      ensures NoLive(s', url)
    {
      LaunchMissesSettled(s, g, w, url);
    }
    LaunchKeepsWindows(s, g, w);
    LaunchKeepsSightings(s, g, w);
  }

  lemma VanishKeepsWindows(s: Sys, g: nat)
    requires Windows(s) && g in s.windows
    ensures Windows(Apply(s, Vanish(g)))
  {
    var s' := Apply(s, Vanish(g));
    assert forall url :: NoLive(s, url) ==> NoLive(s', url);
    forall h | h in s'.windows
      ensures Accounted(s', h)
    {
      assert Accounted(s, h);
    }
  }

  lemma VanishKeepsSightings(s: Sys, g: nat)
    requires Sightings(s) && g in s.windows
    ensures Sightings(Apply(s, Vanish(g)))
  {
    var s' := Apply(s, Vanish(g));
    assert forall url :: NoLive(s, url) ==> NoLive(s', url);
    assert forall id :: Launched(s, id) ==> Launched(s', id);
  }

  /** Whatever is found under the tag of an operation was created by that operation's authority. */
  lemma FoundWasLaunched(s: Sys, id: string, found: seq<WindowMatch>)
    requires Distinct(s.t) && Authorities(s) && Launches(s) && Windows(s) && Rows(s.t) && id in s.t.ops
    requires s.t.ops[id].expectedUrl != "" && Honest(s, s.t.ops[id].expectedUrl, found) && found != []
    ensures Launched(s, id)
  {
    assert found[0] in found;
    var g :| g in s.windows && s.windows[g] == found[0];
    assert Accounted(s, g);
    assert !s.t.ops[s.grants[g].op].kind.CloseKind? && WellKept(s.t.ops[id]);
    assert SameUrl(s.t.ops[s.grants[g].op].expectedUrl, s.t.ops[id].expectedUrl);
  }

  lemma LookOldKeepsSightings(s: Sys, id: string, found: seq<WindowMatch>)
    requires Sightings(s) && Enabled(s, LookOld(id, found))
    ensures Sightings(Apply(s, LookOld(id, found)))
  {
    var s' := Apply(s, LookOld(id, found));
    assert forall url :: NoLive(s, url) ==> NoLive(s', url);
    assert forall x :: Launched(s, x) ==> Launched(s', x);
  }

  lemma LookNewKeepsSightings(s: Sys, k: nat, found: seq<WindowMatch>)
    requires Sightings(s) && Enabled(s, LookNew(k, found)) && (found != [] ==> Launched(s, s.seen[k].op))
    ensures Sightings(Apply(s, LookNew(k, found)))
  {
    var s' := Apply(s, LookNew(k, found));
    assert forall url :: NoLive(s, url) ==> NoLive(s', url);
    assert forall x :: Launched(s, x) ==> Launched(s', x);
  }

  lemma LookKeepsWindows(s: Sys, a: Action)
    requires Windows(s) && Enabled(s, a) && (a.LookOld? || a.LookNew?)
    ensures Windows(Apply(s, a))
  {
    var s' := Apply(s, a);
    assert forall url :: NoLive(s, url) ==> NoLive(s', url);
    forall h | h in s'.windows
      ensures Accounted(s', h)
    {
      assert Accounted(s, h);
    }
  }

  lemma LookKeepsSightings(s: Sys, a: Action)
    requires Inv(s) && Enabled(s, a) && (a.LookOld? || a.LookNew?)
    ensures Sightings(Apply(s, a))
  {
    if a.LookOld? {
      LookOldKeepsSightings(s, a.id, a.found);
    } else {
      if a.found != [] {
        FoundWasLaunched(s, s.seen[a.sighting].op, a.found);
      }
      LookNewKeepsSightings(s, a.sighting, a.found);
    }
  }

  /** A look writes nothing but what was seen. */
  lemma LookIsPassive(s: Sys, a: Action)
    requires Enabled(s, a) && (a.LookOld? || a.LookNew?)
    ensures Apply(s, a) == s.(seen := Apply(s, a).seen)
  {
  }

  lemma LookKeepsInv(s: Sys, a: Action)
    requires Inv(s) && Enabled(s, a) && (a.LookOld? || a.LookNew?)
    ensures Inv(Apply(s, a))
  {
    LookIsPassive(s, a);
    LookKeepsWindows(s, a);
    LookKeepsSightings(s, a);
  }

  lemma TransactionKeepsInv(s: Sys, a: Action)
    requires Inv(s) && Enabled(s, a) && Transaction(a)
    ensures Inv(Apply(s, a))
  {
    var s' := Apply(s, a);
    var c := TransactionIsBacked(s, a);
    StepKeepsFence(s, a);
    ChangeKeepsTargets(c, s.t, s'.t);
    ChangeKeepsAuthorities(s, s', c);
    ChangeKeepsLaunches(s, s', c);
    ChangeKeepsWindows(s, s', c);
    ChangeKeepsSightings(s, s', c);
  }

  lemma {:induction false} RunKeepsInv(acts: seq<Action>)
    requires Legal(acts)
    ensures Inv(Exec(acts))
    decreases |acts|
  {
    if acts == [] {
      RunKeepsFence(acts);
    } else {
      var s, a := Exec(acts[..|acts| - 1]), acts[|acts| - 1];
      RunKeepsInv(acts[..|acts| - 1]);
      match a
      case Launch(g, w) => LaunchKeepsInv(s, g, w);
      case Vanish(g) =>
        VanishKeepsWindows(s, g);
        VanishKeepsSightings(s, g);
      case LookOld(_, _) => LookKeepsInv(s, a);
      case LookNew(_, _) => LookKeepsInv(s, a);
      case _ => TransactionKeepsInv(s, a);
    }
  }
}
