/**
 When the transactions of the probe registry move on, stated by kind, by the state reached and by the two lists of
 matches: every decision, authority and completion is given exactly, so none can be withheld either.
 */
module ProbeProgress {
  import opened Prelude
  import opened ProbeOps
  import opened ProbeRegistry
  import opened ProbeSafety

  /** The operation has come to `st`, and nothing later than a fence has happened to it since. */
  predicate Stands(op: Operation, st: State) {
    op.state == st || (op.state.ReconcileRequired? && op.resume == Some(st))
  }

  /** The observation is complete, without error and not dated ahead. */
  predicate Timely(obs: Observation, now: int) { obs.observedAt <= now && obs.complete && !obs.failed }

  predicate NeitherSeen(obs: Observation) { obs.oldMatches == [] && obs.newMatches == [] }

  /** Exactly the old window is there, with the identity of the snapshot. */
  predicate OnlyOldSeen(op: Operation, obs: Observation) {
    && |obs.oldMatches| == 1 && obs.newMatches == [] && op.prior.Some?
    && var m, prior := obs.oldMatches[0], op.prior.value;
       && m.windowHandle == prior.windowHandle && m.browserPid == prior.browserPid
       && SameUrl(m.actualUrl, prior.actualUrl) && SameChrome(m.chrome, prior.chrome)
  }

  /** Exactly the new window is there, at the tagged address and in the expected browser. */
  predicate OnlyNewSeen(op: Operation, obs: Observation) {
    && |obs.newMatches| == 1 && obs.oldMatches == []
    && var m := obs.newMatches[0];
       && 0 < m.windowHandle && 0 < m.browserPid
       && SameUrl(m.actualUrl, op.expectedUrl) && SameChrome(m.chrome, op.expectedChrome)
  }

  /** The evidence that completes an operation. */
  predicate Completes(op: Operation, obs: Observation, now: int) {
    && Timely(obs, now)
    && if op.kind.CloseKind? then NeitherSeen(obs) else OnlyNewSeen(op, obs) && Stands(op, OpenSubmitted)
  }

  /** The evidence that leaves an operation armed. */
  predicate StaysArmed(op: Operation, obs: Observation, now: int) {
    Timely(obs, now) && Stands(op, Armed) && if op.kind.OpenKind? then NeitherSeen(obs) else OnlyOldSeen(op, obs)
  }

  /** The evidence that lets a rotation open its replacement. */
  predicate BecomesReady(op: Operation, obs: Observation, now: int) {
    && Timely(obs, now) && op.kind.RotateKind? && NeitherSeen(obs)
    && (Stands(op, Armed) || Stands(op, CloseSubmitted) || Stands(op, ReadyToOpen))
  }

  lemma DecisionIff(op: Operation, obs: Observation, now: int)
    requires WellKept(op) && Unresolved(op.state)
    ensures var d := Decide(op, obs, now);
      && (d.next.Completed? <==> Completes(op, obs, now))
      && (d.next.Armed? <==> StaysArmed(op, obs, now))
      && (d.next.ReadyToOpen? <==> BecomesReady(op, obs, now))
      && (d.next.ReconcileRequired? <==>
            !Completes(op, obs, now) && !StaysArmed(op, obs, now) && !BecomesReady(op, obs, now))
  {
  }

  /** What the decision tells the operator is what the registry grants next. */
  lemma DecisionAllowsIff(op: Operation, obs: Observation, now: int)
    requires WellKept(op) && Unresolved(op.state)
    ensures var d := Decide(op, obs, now);
      && (d.mayOpen <==> BecomesReady(op, obs, now) || (StaysArmed(op, obs, now) && op.kind.OpenKind?))
      && (d.mayClose <==> StaysArmed(op, obs, now) && !op.kind.OpenKind?)
  {
  }

  /** The recorded outcome names what was seen. */
  lemma OutcomeIff(op: Operation, obs: Observation, now: int)
    requires WellKept(op) && Unresolved(op.state)
    ensures var d := Decide(op, obs, now);
      && (d.outcome.UnknownObservation? <==> !Timely(obs, now))
      && (d.outcome.MultipleMatches? <==> Timely(obs, now) && (1 < |obs.oldMatches| || 1 < |obs.newMatches|))
      && (d.outcome.ExactTargetAbsent? <==> Timely(obs, now) && NeitherSeen(obs))
      && (d.outcome.ExactUniqueOwnedTargetPresent? <==> Completes(op, obs, now) && !op.kind.CloseKind?)
      && (d.outcome.OldTargetStillPresent? <==>
            Timely(obs, now) && OnlyOldSeen(op, obs) && !op.kind.OpenKind?)
      && (d.outcome.BothOldAndNewPresent? <==>
            && Timely(obs, now) && |obs.oldMatches| == 1 && |obs.newMatches| == 1
            && OnlyOldSeen(op, obs.(newMatches := [])) && OnlyNewSeen(op, obs.(oldMatches := [])))
  {
  }

  lemma CompletionAlwaysFits(t: Tables, id: string, obs: Observation, now: int)
    requires Fenced(t) && id in t.ops && Unresolved(t.ops[id].state) && Completes(t.ops[id], obs, now)
    ensures
      var op, d, ts := t.ops[id], Decide(t.ops[id], obs, now), Max(t.ops[id].updatedAt, obs.observedAt);
      && CompleteLocked(t, op, d.adopt, ts, Some(d.outcome), true).Ok?
      && Reconcile(t, id, obs, now) == CompleteLocked(t, op, d.adopt, ts, Some(d.outcome), true)
      && BindingRefusal(op, d.adopt).None?
  {
    var op, d := t.ops[id], Decide(t.ops[id], obs, now);
    DecisionIff(op, obs, now);
    AdoptionFits(op, obs, now);
    CompleteLockedKeepsFence(t, id, d.adopt, Max(op.updatedAt, obs.observedAt), Some(d.outcome), true);
  }

  /** The slot row that a sighting of the new window gives: the operation's own fields and the window's identity. */
  function SeenBinding(op: Operation, m: WindowMatch, at: int): SlotBinding {
    SlotBinding(op.slotId, op.token, op.workerId, op.target, op.expectedUrl, m.windowHandle, m.browserPid,
                op.expectedChrome, op.source, at, at, at + if 1 <= op.slotTtl then op.slotTtl else 1)
  }

  lemma CompletionAdopts(op: Operation, obs: Observation, now: int)
    requires WellKept(op) && Unresolved(op.state) && Completes(op, obs, now)
    ensures Decide(op, obs, now).adopt ==
      if op.kind.CloseKind? then None else Some(SeenBinding(op, obs.newMatches[0], obs.observedAt))
  {
  }

  /** A completed reconciliation publishes exactly the window that was seen, or clears the slot that was closed. */
  lemma CompletionPublishes(t: Tables, id: string, obs: Observation, now: int)
    requires Fenced(t) && id in t.ops && Unresolved(t.ops[id].state) && Completes(t.ops[id], obs, now)
    ensures
      var op, t' := t.ops[id], After(t, Reconcile(t, id, obs, now));
      && id in t'.ops && t'.ops == t.ops[id := t'.ops[id]] && t'.ops[id].state.Completed? && t'.ops[id].resume.None?
      && t'.slots ==
           if op.kind.CloseKind? then map[] else map[op.slotId := SeenBinding(op, obs.newMatches[0], obs.observedAt)]
  {
    var op, d := t.ops[id], Decide(t.ops[id], obs, now);
    CompletionAlwaysFits(t, id, obs, now);
    CompletionAdopts(op, obs, now);
    PublishedSlots(t.slots, op, d.adopt);
    CompletedTable(t, op, d.adopt, Max(op.updatedAt, obs.observedAt), Some(d.outcome));
  }

  lemma CompletedTable(
    t: Tables, op: Operation, binding: Option<SlotBinding>, ts: int, outcome: Option<ReconcileOutcome>)
    requires CompleteLocked(t, op, binding, ts, outcome, true).Ok?
    ensures
      var t' := CompleteLocked(t, op, binding, ts, outcome, true).value;
      && BindingRefusal(op, binding).None? && t'.slots == Published(t.slots, op, binding)
      && op.id in t'.ops && t'.ops == t.ops[op.id := t'.ops[op.id]]
      && t'.ops[op.id].state.Completed? && t'.ops[op.id].resume.None?
  {
  }

  /**
   Reconciling a stored operation, for every observation: it completes, stays armed or becomes ready exactly on that
   evidence, and is fenced at the state it had reached on any other.
   */
  lemma ReconcileIff(t: Tables, id: string, obs: Observation, now: int)
    requires Fenced(t) && id in t.ops && Unresolved(t.ops[id].state)
    ensures
      var op, r := t.ops[id], Reconcile(t, id, obs, now);
      && r.Ok? && id in r.value.ops
      && var op' := r.value.ops[id];
         && (op'.state.Completed? <==> Completes(op, obs, now))
         && (op'.state.Armed? <==> StaysArmed(op, obs, now))
         && (op'.state.ReadyToOpen? <==> BecomesReady(op, obs, now))
         && (!Completes(op, obs, now) && !StaysArmed(op, obs, now) && !BecomesReady(op, obs, now) ==>
               op'.state.ReconcileRequired?
               && forall st: State :: !st.ReconcileRequired? && Stands(op, st) ==> Stands(op', st))
         && (!Completes(op, obs, now) ==> r.value.slots == t.slots)
         && op'.reconcileAttempts == op.reconcileAttempts + 1
  {
    var op := t.ops[id];
    DecisionIff(op, obs, now);
    if Completes(op, obs, now) {
      CompletionAlwaysFits(t, id, obs, now);
    }
  }

  /**
   After a reconciliation a rotation is granted OPEN exactly when neither target was seen in time and no OPEN went out.
   */
  lemma RotationMayOpenIff(t: Tables, id: string, obs: Observation, now: int, at: int)
    requires Fenced(t) && id in t.ops && Unresolved(t.ops[id].state) && t.ops[id].kind.RotateKind?
    ensures
      var op, t' := t.ops[id], After(t, Reconcile(t, id, obs, now));
      AuthorizeOpen(t', id, at).Ok? <==>
        && obs.observedAt <= now && obs.complete && !obs.failed && obs.oldMatches == [] && obs.newMatches == []
        && (Stands(op, Armed) || Stands(op, CloseSubmitted) || Stands(op, ReadyToOpen))
  {
    ReconcileIff(t, id, obs, now);
    ReconcileKeepsKind(t, id, obs, now);
  }

  lemma ReconcileKeepsKind(t: Tables, id: string, obs: Observation, now: int)
    requires Fenced(t) && id in t.ops && Unresolved(t.ops[id].state)
    ensures id in After(t, Reconcile(t, id, obs, now)).ops
    ensures After(t, Reconcile(t, id, obs, now)).ops[id].kind == t.ops[id].kind
  {
    if Completes(t.ops[id], obs, now) {
      CompletionAlwaysFits(t, id, obs, now);
    } else {
      DecisionIff(t.ops[id], obs, now);
    }
  }

  // ---- Authority ----

  /** CLOSE is granted to armed operations that close something, OPEN to armed OPENs and ready rotations. */
  lemma AuthorityIff(t: Tables, id: string, now: int)
    ensures AuthorizeClose(t, id, now).Ok? <==> id in t.ops && t.ops[id].state.Armed? && !t.ops[id].kind.OpenKind?
    ensures AuthorizeOpen(t, id, now).Ok? <==>
      && id in t.ops
      && ((t.ops[id].kind.OpenKind? && t.ops[id].state.Armed?)
          || (t.ops[id].kind.RotateKind? && t.ops[id].state.ReadyToOpen?))
    ensures AuthorizeClose(t, id, now).Ok? ==>
      AuthorizeClose(t, id, now).value == t.(ops := t.ops[id := t.ops[id].(state := CloseSubmitted, updatedAt := now)])
    ensures AuthorizeOpen(t, id, now).Ok? ==>
      AuthorizeOpen(t, id, now).value
        == t.(ops := t.ops[id := t.ops[id].(state := OpenSubmitted, resume := None, updatedAt := now)])
  {
  }

  /**
   A direct completion of a stored operation succeeds exactly after its authority and with a binding that is its own.
   */
  lemma DirectCompletionIff(
    t: Tables, id: string, binding: Option<SlotBinding>, now: int, outcome: Option<ReconcileOutcome>)
    requires Fenced(t) && id in t.ops && !t.ops[id].state.Completed?
    ensures
      var op := t.ops[id];
      Complete(t, id, binding, now, outcome).Ok? <==>
        if op.kind.CloseKind? then op.state.CloseSubmitted? && binding.None?
        else
          && op.state.OpenSubmitted? && binding.Some?
          && var b := binding.value;
             && b.slotId == op.slotId && b.token == op.token && b.workerId == op.workerId
             && SameUrl(b.target.text, op.target.text) && SameUrl(b.actualUrl, op.expectedUrl)
             && SameChrome(b.chrome, op.expectedChrome) && 0 < b.windowHandle && 0 < b.browserPid
  {
    CompleteIsLocked(t, id, binding, now, outcome);
    if Unresolved(t.ops[id].state) {
      SlotIsAccepted(t, id);
      CompleteLockedKeepsFence(t, id, binding, now, outcome, false);
    }
  }

  /** Arming succeeds exactly for a complete row of a parked worker that nobody has moved, with the table as planned. */
  lemma ArmIff(t: Tables, op: Operation)
    requires Fenced(t)
    ensures Arm(t, op).Ok? <==>
      && op.state.Armed? && !Blank(op.id) && !Blank(op.nonce) && !Blank(op.slotId) && !Blank(op.token)
      && !Blank(op.expectedChrome) && (op.kind.CloseKind? || !Blank(op.expectedUrl))
      && op.taskId in t.tasks && op.workerId in t.workers
      && t.workers[op.workerId].taskId == op.taskId && t.workers[op.workerId].parked
      && SameUrl(t.workers[op.workerId].url.text, op.target.text)
      && (forall x :: x in t.ops ==> !Unresolved(t.ops[x].state) && x != op.id && t.ops[x].nonce != op.nonce)
      && (if op.kind.OpenKind? then op.prior.None? && t.slots == map[]
          else op.prior.Some? && t.slots == map[op.prior.value.slotId := op.prior.value])
    ensures Arm(t, op).Ok? ==> Arm(t, op).value == t.(ops := t.ops[op.id := op])
  {
    CurrentOf(op.prior);
    CurrentOf(None);
    assert |t.slots| <= 1 by { CurrentOf(Current(t.slots)); }
    SlotTableIs(t, op);
  }

  /** A refusal names what is wrong with the row, with its target, or with the binding it is completed with. */
  lemma RefusalsAreRight(t: Tables, op: Operation, binding: Option<SlotBinding>)
    ensures match ArmRefusal(op)
      case Some(NotArmedYet) => !op.state.Armed?
      case Some(MissingIdentity) => Blank(op.id) || Blank(op.nonce)
      case Some(MissingOwner) => Blank(op.slotId) || Blank(op.token)
      case Some(MissingChrome) => Blank(op.expectedChrome)
      case Some(MissingTarget) => Blank(op.expectedUrl) && !op.kind.CloseKind?
      case Some(_) => false
      case None => true
    ensures match TargetRefusal(t, op)
      case Some(UnknownTask) => op.taskId !in t.tasks
      case Some(UnknownWorker) => op.workerId !in t.workers
      case Some(ForeignWorker) => op.workerId in t.workers && t.workers[op.workerId].taskId != op.taskId
      case Some(WorkerNotParked) => op.workerId in t.workers && !t.workers[op.workerId].parked
      case Some(TargetMoved) =>
        op.workerId in t.workers && !SameUrl(t.workers[op.workerId].url.text, op.target.text)
      case Some(_) => false
      case None => true
    ensures match BindingRefusal(op, binding)
      case Some(UnexpectedBinding) => op.kind.CloseKind? && binding.Some?
      case Some(MissingBinding) => !op.kind.CloseKind? && binding.None?
      case Some(WrongBinding) => !op.kind.CloseKind? && binding.Some?
      case Some(_) => false
      case None => op.kind.CloseKind? <==> binding.None?
  {
  }

  lemma SlotTableIs(t: Tables, op: Operation)
    requires Slots(t)
    ensures Current(t.slots).None? <==> t.slots == map[]
    ensures op.prior.Some? ==>
      (Current(t.slots) == op.prior <==> t.slots == map[op.prior.value.slotId := op.prior.value])
  {
    CurrentOf(op.prior);
    CurrentOf(Current(t.slots));
  }
}
