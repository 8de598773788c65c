/** The properties of the probe protocol that a maintainer relies on, over all runs. */
module ProbeResults {
  import opened Prelude
  import opened ProbeOps
  import opened ProbeRegistry
  import opened ProbeSafety
  import opened ProbeTheorems

  /** The window of an unresolved operation and a published window are never both live. */
  lemma OtherWindowIsElsewhere(s: Sys, g: nat, h: nat)
    requires Fenced(s.t) && Authorities(s) && Launches(s) && Windows(s)
    requires g in s.windows && h in s.windows && g < |s.grants| && s.grants[g].op in s.t.ops
    requires Unresolved(s.t.ops[s.grants[g].op].state)
    ensures h < |s.grants| && s.grants[h].op == s.grants[g].op
  {
    assert Accounted(s, g) && Accounted(s, h);
    var u := s.grants[g].op;
    assert 3 <= Rank(s.t.ops[u]);
    if s.t.ops[u].prior.Some? {
      assert NoLive(s, s.t.ops[u].prior.value.actualUrl);
    }
  }

  /** Two live windows of published operations both sit at the one slot row, so they are one operation's. */
  lemma PublishedWindowsAgree(s: Sys, g: nat, h: nat)
    requires Slots(s.t) && Distinct(s.t) && Authorities(s) && Launches(s) && Accounted(s, g) && Accounted(s, h)
    requires !Unresolved(s.t.ops[s.grants[g].op].state) && !Unresolved(s.t.ops[s.grants[h].op].state)
    ensures s.grants[g].op == s.grants[h].op
  {
    var a, b := s.grants[g].op, s.grants[h].op;
    assert !s.t.ops[a].kind.CloseKind? && !s.t.ops[b].kind.CloseKind?;
    var k :| k in s.t.slots && SameUrl(s.t.slots[k].actualUrl, s.t.ops[a].expectedUrl);
    var l :| l in s.t.slots && SameUrl(s.t.slots[l].actualUrl, s.t.ops[b].expectedUrl);
    assert k == l;
  }

  lemma WindowsAgree(s: Sys, g: nat, h: nat)
    requires Fenced(s.t) && Distinct(s.t) && Authorities(s) && Launches(s) && Windows(s) && g in s.windows
    requires h in s.windows
    ensures g == h
  {
    assert Accounted(s, g) && Accounted(s, h);
    if Unresolved(s.t.ops[s.grants[g].op].state) {
      OtherWindowIsElsewhere(s, g, h);
    } else if Unresolved(s.t.ops[s.grants[h].op].state) {
      OtherWindowIsElsewhere(s, h, g);
    } else {
      PublishedWindowsAgree(s, g, h);
    }
    assert s.grants[g] == s.grants[h];
  }

  /** At most one tagged probe window is live, whatever crashes, stalls or repeats between the steps. */
  lemma OneWindow(acts: seq<Action>, g: nat, h: nat)
    requires Legal(acts) && g in Exec(acts).windows && h in Exec(acts).windows
    ensures g == h
  {
    RunKeepsInv(acts);
    WindowsAgree(Exec(acts), g, h);
  }

  /** No operation is ever granted OPEN, or CLOSE, a second time. */
  lemma AuthorityIsGrantedOnce(acts: seq<Action>, g: nat, h: nat)
    requires Legal(acts) && g < |Exec(acts).grants| && h < |Exec(acts).grants|
    requires Exec(acts).grants[g] == Exec(acts).grants[h]
    ensures g == h
  {
    RunKeepsInv(acts);
  }

  ghost predicate Outstanding(s: Sys, id: string) { id in s.t.ops && Effective(s.t.ops[id]).OpenSubmitted? }

  /** A step either completes an outstanding OPEN or leaves it outstanding, and then grants nothing to anyone. */
  lemma OutstandingStep(s: Sys, a: Action, id: string)
    requires Fenced(s.t) && Enabled(s, a) && Outstanding(s, id)
    ensures id in Apply(s, a).t.ops
    ensures Apply(s, a).t.ops[id].state.Completed? || (Outstanding(Apply(s, a), id) && Apply(s, a).grants == s.grants)
  {
    var c := ChangeOf(s, a);
  }

  lemma CompletedStep(s: Sys, a: Action, id: string)
    requires Fenced(s.t) && Enabled(s, a) && id in s.t.ops && s.t.ops[id].state.Completed?
    ensures id in Apply(s, a).t.ops && Apply(s, a).t.ops[id].state.Completed?
  {
    var c := ChangeOf(s, a);
  }

  /**
   While the outcome of an OPEN is unknown nothing is ever granted again, in any run, crash or not, until
   evidence completes that very operation.
   */
  lemma {:induction false} UnknownOpenIsNeverReplayed(acts: seq<Action>, more: seq<Action>, id: string)
    requires Legal(acts) && Legal(acts + more) && Outstanding(Exec(acts), id)
    ensures id in Exec(acts + more).t.ops
    ensures Exec(acts + more).t.ops[id].state.Completed?
      || (Outstanding(Exec(acts + more), id) && Exec(acts + more).grants == Exec(acts).grants)
    decreases |more|
  {
    if more == [] {
      assert acts + more == acts;
    } else {
      var all := acts + more;
      var mid := acts + more[..|more| - 1];
      assert all[..|all| - 1] == mid;
      UnknownOpenIsNeverReplayed(acts, more[..|more| - 1], id);
      RunKeepsFence(mid);
      if Exec(mid).t.ops[id].state.Completed? {
        CompletedStep(Exec(mid), all[|all| - 1], id);
      } else {
        OutstandingStep(Exec(mid), all[|all| - 1], id);
      }
    }
  }

  // ---- Rotation ----

  predicate BothAbsent(a: Action, id: string) {
    && a.ReconcileStep? && a.id == id && a.obs.observedAt <= a.now
    && a.obs.complete && !a.obs.failed && a.obs.oldMatches == [] && a.obs.newMatches == []
  }

  lemma {:induction false} ReadyWasObserved(acts: seq<Action>, id: string)
    requires Legal(acts) && id in Exec(acts).t.ops && Effective(Exec(acts).t.ops[id]).ReadyToOpen?
    ensures exists i :: 0 <= i < |acts| && BothAbsent(acts[i], id)
    decreases |acts|
  {
    var before, a := acts[..|acts| - 1], acts[|acts| - 1];
    var s := Exec(before);
    RunKeepsFence(before);
    var c := ChangeOf(s, a);
    if id in s.t.ops && Effective(s.t.ops[id]).ReadyToOpen? {
      ReadyWasObserved(before, id);
      var i :| 0 <= i < |before| && BothAbsent(before[i], id);
      assert acts[i] == before[i];
    } else {
      ReadyIsDecided(s, a, c, id);
      assert BothAbsent(acts[|acts| - 1], id);
    }
  }

  lemma ReadyIsDecided(s: Sys, a: Action, c: Change, id: string)
    requires Fenced(s.t) && Enabled(s, a) && Describes(c, s.t, Apply(s, a).t)
    requires c.Rewritten? || c.Published? ==>
      (GrantStep(a) || a.FailStep? || a.CompleteStep? || a.ReconcileStep?) && a.id == c.op.id
    requires a.ReconcileStep? && c.Rewritten? ==>
      c.op == Reconciled(s.t.ops[a.id], a.obs, Decide(s.t.ops[a.id], a.obs, a.now))
    requires a.FailStep? && !c.Nothing? ==> c.op.state.Failed?
    requires a.CompleteStep? && !c.Nothing? ==> c.Published?
    requires a.GrantClose? && !c.Nothing? ==> c.op.state.CloseSubmitted?
    requires a.GrantOpen? && !c.Nothing? ==> c.op.state.OpenSubmitted?
    requires id in Apply(s, a).t.ops && Effective(Apply(s, a).t.ops[id]).ReadyToOpen?
    requires id in s.t.ops ==> !Effective(s.t.ops[id]).ReadyToOpen?
    ensures BothAbsent(a, id)
  {
    assert !c.Nothing? && Apply(s, a).t.ops[id] == c.op && id == c.op.id;
  }

  /** A rotation is granted OPEN only after a complete observation that showed neither target. */
  lemma RotateOpensOnlyAfterAbsence(acts: seq<Action>, id: string, now: int)
    requires Legal(acts) && id in Exec(acts).t.ops && Exec(acts).t.ops[id].kind.RotateKind?
    requires AuthorizeOpen(Exec(acts).t, id, now).Ok?
    ensures exists i :: 0 <= i < |acts| && BothAbsent(acts[i], id)
    ensures Exec(acts).t.ops[id].prior.Some? && NoLive(Exec(acts), Exec(acts).t.ops[id].prior.value.actualUrl)
  {
    var s := Exec(acts);
    ReadyWasObserved(acts, id);
    RunKeepsInv(acts);
    ReadyMeansOldIsGone(s, id);
  }

  lemma ReadyMeansOldIsGone(s: Sys, id: string)
    requires Rows(s.t) && Windows(s) && id in s.t.ops && s.t.ops[id].kind.RotateKind? && s.t.ops[id].state.ReadyToOpen?
    ensures s.t.ops[id].prior.Some? && NoLive(s, s.t.ops[id].prior.value.actualUrl)
  {
    assert WellKept(s.t.ops[id]) && 2 <= Rank(s.t.ops[id]);
  }

  // ---- The fence ----

  /** One slot row at most, one unresolved operation at most, and the slot table is that operation's snapshot. */
  lemma SlotIsTheSnapshot(acts: seq<Action>, id: string)
    requires Legal(acts) && id in Exec(acts).t.ops && Unresolved(Exec(acts).t.ops[id].state)
    ensures |Exec(acts).t.slots| <= 1 && Current(Exec(acts).t.slots) == Exec(acts).t.ops[id].prior
    ensures forall other :: other in Exec(acts).t.ops && Unresolved(Exec(acts).t.ops[other].state) ==> other == id
  {
    RunKeepsFence(acts);
    CurrentOf(Exec(acts).t.ops[id].prior);
  }

  /** Reconciliation of a stored operation never raises, whatever the observation says. */
  lemma ReconcileNeverRaises(acts: seq<Action>, id: string, obs: Observation, now: int)
    requires Legal(acts) && id in Exec(acts).t.ops
    ensures Reconcile(Exec(acts).t, id, obs, now).Ok?
  {
    var t := Exec(acts).t;
    RunKeepsFence(acts);
    if Unresolved(t.ops[id].state) && Decide(t.ops[id], obs, now).next.Completed? {
      var d := Decide(t.ops[id], obs, now);
      AdoptionFits(t.ops[id], obs, now);
      CompleteLockedKeepsFence(t, id, d.adopt, Max(t.ops[id].updatedAt, obs.observedAt), Some(d.outcome), true);
    }
  }

  /**
   Arming never compares the slot id of an operation with its snapshot's.  Completion keeps the
   single-slot shape exactly for operations in which the two agree, as the planned ones do.
   */
  lemma CompletionKeepsOneSlotIff(
    t: Tables, op: Operation, binding: Option<SlotBinding>, ts: int, outcome: Option<ReconcileOutcome>,
    reconciled: bool)
    requires t.slots == SlotOf(op.prior) && op.prior.Some?
    requires CompleteLocked(t, op, binding, ts, outcome, reconciled).Ok?
    ensures
      CompleteLocked(t, op, binding, ts, outcome, reconciled).value.slots == SlotOf(binding)
      <==> op.slotId == op.prior.value.slotId
    ensures !op.kind.CloseKind? ==>
      (|CompleteLocked(t, op, binding, ts, outcome, reconciled).value.slots| <= 1
       <==> op.slotId == op.prior.value.slotId)
  {
    var before, slots := op.prior.value.slotId, CompleteLocked(t, op, binding, ts, outcome, reconciled).value.slots;
    CompletedTables(t, op, binding, ts, outcome, reconciled);
    if op.slotId != before {
      assert before in slots;
      if !op.kind.CloseKind? {
        assert slots.Keys == {before, op.slotId};
      }
    } else {
      assert slots == SlotOf(binding);
      CurrentOf(binding);
    }
  }

  // ---- Repeated observations ----

  ghost predicate SameOutcome(t: Tables, t': Tables, id: string) {
    && id in t.ops && id in t'.ops && t.slots == t'.slots
    && t.ops[id].state == t'.ops[id].state && t.ops[id].resume == t'.ops[id].resume
  }

  lemma DecisionRepeats(op: Operation, obs: Observation, now1: int, now2: int)
    requires WellKept(op) && Unresolved(op.state) && now1 <= now2 && !Decide(op, obs, now1).next.Completed?
    ensures
      var op' := Reconciled(op, obs, Decide(op, obs, now1));
      Unresolved(op'.state) && WellKept(op') && Effective(op') ==
        (if Decide(op, obs, now1).next.ReconcileRequired? then Effective(op) else Decide(op, obs, now1).next)
    ensures
      var op' := Reconciled(op, obs, Decide(op, obs, now1));
      var d := Decide(op', obs, now2);
      if now1 < obs.observedAt <= now2 then d.next == Decide(op, obs, now2).next
      else d.next == Decide(op, obs, now1).next
  {
  }

  /**
   Applying one observation twice is the same as applying it once, unless its timestamp lay in the
   future the first time and not the second, and it says something definite.
   */
  lemma ReconcileIsIdempotentIff(t: Tables, id: string, obs: Observation, now1: int, now2: int)
    requires Fenced(t) && id in t.ops && Unresolved(t.ops[id].state) && now1 <= now2
    ensures
      var once := After(t, Reconcile(t, id, obs, now1));
      var twice := After(once, Reconcile(once, id, obs, now2));
      SameOutcome(once, twice, id)
      <==> (now1 < obs.observedAt <= now2 ==> Decide(t.ops[id], obs, now2).next.ReconcileRequired?)
  {
    var op := t.ops[id];
    var once := After(t, Reconcile(t, id, obs, now1));
    ReconcileKeepsFence(t, id, obs, now1);
    var c := ReconcileChanges(t, id, obs, now1);
    if Decide(op, obs, now1).next.Completed? {
      AdoptionFits(op, obs, now1);
      CompleteLockedKeepsFence(t, id, Decide(op, obs, now1).adopt, Max(op.updatedAt, obs.observedAt),
                               Some(Decide(op, obs, now1).outcome), true);
      assert once.ops[id].state.Completed?;
    } else {
      DecisionRepeats(op, obs, now1, now2);
      var op' := Reconciled(op, obs, Decide(op, obs, now1));
      assert once.ops[id] == op';
      var d := Decide(op', obs, now2);
      if d.next.Completed? {
        AdoptionFits(op', obs, now2);
        CompleteLockedKeepsFence(once, id, d.adopt, Max(op'.updatedAt, obs.observedAt), Some(d.outcome), true);
      }
    }
  }

  /** A concrete armed OPEN and an observation, dated one tick ahead, whose second application undoes the fence. */
  lemma EarlyObservationIsNotIdempotent()
    ensures
      var url := WebUrl("u", "u", Some("c"));
      var op := Operation("o", "n", OpenKind, Armed, "s", "t", "w", url, "k", "u#k", "x", PROBE_SOURCE, None, 0, 0, 1,
                          0, None, None, None);
      var t := Tables(map["o" := op], map[], map[], {});
      var obs := Observation(1, [], [], true, false);
      var once := After(t, Reconcile(t, "o", obs, 0));
      Fenced(t) && !SameOutcome(once, After(once, Reconcile(once, "o", obs, 1)), "o")
  {
    var url := WebUrl("u", "u", Some("c"));
    var op := Operation("o", "n", OpenKind, Armed, "s", "t", "w", url, "k", "u#k", "x", PROBE_SOURCE, None, 0, 0, 1, 0,
                        None, None, None);
    var t := Tables(map["o" := op], map[], map[], {});
    var obs := Observation(1, [], [], true, false);
    CurrentOf(None);
    assert WellKept(op);
    ReconcileIsIdempotentIff(t, "o", obs, 0, 1);
  }
}
