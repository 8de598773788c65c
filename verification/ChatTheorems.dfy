/** The main results about every run of the chat dispatcher. */
module ChatTheorems {
  import opened Prelude
  import opened ChatProtocol
  import opened ChatSafety
  import opened ChatReach

  /**
   Whatever dies and whoever interferes, a job is sent again only after a send proven effect-free and rate-limited.
   */
  lemma SendsAtMostOnce(acts: seq<Action>, k: nat, m: nat)
    requires Legal(acts) && k < m < |Exec(acts).log|
    requires Exec(acts).log[k].SendCalled? && Exec(acts).log[m].SendCalled?
    requires Exec(acts).log[k].job == Exec(acts).log[m].job
    ensures CleanlyRateLimited(Exec(acts).log[k].out)
  {
    RunKeepsInv(acts);
  }

  /**
   A send goes out only for the conversation's oldest unfinished job, behind its durable SUBMITTING row, on
   an open page whose idle timer is off.
   */
  lemma SendIsFenced(acts: seq<Action>, out: SendOutcome)
    requires Legal(acts) && Enabled(Exec(acts), Sending(Send(out)))
    ensures var s := Exec(acts);
      && s.jobs[s.hand.id].state.Submitting? && !OlderUnfinished(s.jobs, s.hand.id)
      && Fresh(s.pages, s.jobs[s.hand.id].key, s.hand.stage.page)
  {
    RunKeepsInv(acts);
  }

  /** Only the oldest unfinished job of a conversation has been touched, and the calls come in row order. */
  lemma HeadOfLine(acts: seq<Action>)
    requires Legal(acts)
    ensures var s := Exec(acts);
      forall j :: 0 <= j < |s.jobs| && !Terminal(s.jobs[j].state) && OlderUnfinished(s.jobs, j) ==>
        s.jobs[j].state.Queued? && s.jobs[j].attempts == 0 && Quiet(s.log, j)
    ensures InRowOrder(Exec(acts).log)
  {
    RunKeepsInv(acts);
    var s := Exec(acts);
    forall j | 0 <= j < |s.jobs| && !Terminal(s.jobs[j].state) && OlderUnfinished(s.jobs, j)
      ensures Untouched(s.jobs, s.log, j)
    {
      var i :| 0 <= i < j && s.jobs[i].key == s.jobs[j].key && !Terminal(s.jobs[i].state);
      assert YoungerUntouched(s.jobs, s.log, s.jobs[i].key, i);
    }
  }

  lemma OnePagePerConversation(acts: seq<Action>, p: PageId, q: PageId)
    requires Legal(acts) && p in Exec(acts).pages && q in Exec(acts).pages
    requires Active(Exec(acts).pages[p]) && Active(Exec(acts).pages[q])
    requires Exec(acts).pages[p].key == Exec(acts).pages[q].key
    ensures p == q
  {
    RunKeepsInv(acts);
  }

  /**
   The owned active pages exceed the largest configured bound only by those now active without having passed the gate.
   */
  lemma WindowBudget(acts: seq<Action>)
    requires Legal(acts)
    ensures |GatedPages(Exec(acts))| <= Exec(acts).peakWindows
    ensures |OwnedActive(Exec(acts).pages)| <=
      Exec(acts).peakWindows + |OwnedActive(Exec(acts).pages) * Exec(acts).ungated|
  {
    RunKeepsInv(acts);
    var s := Exec(acts);
    assert OwnedActive(s.pages) == GatedPages(s) + (OwnedActive(s.pages) * s.ungated);
  }

  // ---- Idle close ----

  lemma ClosesAreTimely(acts: seq<Action>, k: nat)
    requires Legal(acts) && k < |Exec(acts).log| && Exec(acts).log[k].PageCloseCalled?
    ensures CloseTimely(Exec(acts).log, k)
  {
    RunKeepsInv(acts);
  }

  lemma ClosesOncePerEpisode(acts: seq<Action>, k: nat, m: nat)
    requires Legal(acts) && k < m < |Exec(acts).log| && Exec(acts).log[k].PageCloseCalled?
    ensures ClosedOnce(Exec(acts).log, k, m)
  {
    RunKeepsInv(acts);
  }

  /**
   A close is called only on an owned idle page, and every unfinished job of its conversation is one no step has
   touched.
   */
  lemma CloseIsFenced(acts: seq<Action>, now: int, gone: bool)
    requires Legal(acts) && Enabled(Exec(acts), SweepingBy(SweepClose(now, gone)))
    ensures var s := Exec(acts);
      && s.hand.pid in s.pages && s.pages[s.hand.pid].owned && s.pages[s.hand.pid].state.PageIdle?
      && OnlyNewPending(s, s.pages[s.hand.pid].key)
  {
    RunKeepsInv(acts);
  }

  // ---- Frozen conversations ----

  /** The oldest unfinished job may have been sent, and no page of the conversation is left to observe it on. */
  ghost predicate Frozen(s: Sys, key: string, h: nat) {
    && h < |s.jobs| && s.jobs[h].key == key
    && (s.jobs[h].state.Submitted? || s.jobs[h].state.ReconcileRequired?)
    && (forall i :: 0 <= i < h && s.jobs[i].key == key ==> Terminal(s.jobs[i].state))
    && NoActive(s.pages, key)
  }

  /** The part of the invariant that keeps a conversation frozen. */
  ghost predicate Core(s: Sys) { Drains(s) && Tickets(s) && Heads(s) && Pages(s) }

  /** A frozen conversation is only ever in hand to be looked up, by the frozen job itself. */
  lemma FrozenHand(s: Sys, key: string, h: nat)
    requires Core(s) && Frozen(s, key, h)
    ensures s.hand.Work? && s.hand.seen.key == key ==> s.hand.id == h && s.hand.stage.Watch?
    ensures (s.hand.Closing? || s.hand.CloseReplied?) ==> s.hand.row.key != key
  {
  }

  ghost predicate FrozenStill(s: Sys, s': Sys, key: string, h: nat)
    requires h < |s.jobs|
  {
    && Frozen(s', key, h) && s'.jobs[h].attempts == s.jobs[h].attempts
    && |s.log| <= |s'.log| && s'.log[..|s.log|] == s.log
    && forall k :: |s.log| <= k < |s'.log| && JobEvent(s'.log[k]) ==> s'.log[k].key != key
  }

  lemma FrozenWorld(s: Sys, a: WorldStep, key: string, h: nat)
    requires Frozen(s, key, h) && CanWorld(s, a)
    ensures FrozenStill(s, DoWorld(s, a), key, h)
  {}

  lemma FrozenScan(s: Sys, a: ScanStep, key: string, h: nat)
    requires Core(s) && Frozen(s, key, h) && CanScan(s, a)
    ensures FrozenStill(s, DoScan(s, a), key, h)
  {}

  lemma FrozenLook(s: Sys, a: LookStep, key: string, h: nat)
    requires Core(s) && Frozen(s, key, h) && CanLook(s, a)
    ensures FrozenStill(s, DoLook(s, a), key, h)
  {
    FrozenHand(s, key, h);
  }

  lemma FrozenAcquire(s: Sys, a: AcquireStep, key: string, h: nat)
    requires Core(s) && Frozen(s, key, h) && CanAcquire(s, a)
    ensures FrozenStill(s, DoAcquire(s, a), key, h)
  {
    FrozenHand(s, key, h);
  }

  lemma FrozenSend(s: Sys, a: SendStep, key: string, h: nat)
    requires Core(s) && Frozen(s, key, h) && CanSend(s, a)
    ensures FrozenStill(s, DoSend(s, a), key, h)
  {
    FrozenHand(s, key, h);
  }

  lemma FrozenConfirm(s: Sys, a: ConfirmStep, key: string, h: nat)
    requires Core(s) && Frozen(s, key, h) && CanConfirm(s, a)
    ensures FrozenStill(s, DoConfirm(s, a), key, h)
  {
    FrozenHand(s, key, h);
  }

  lemma FrozenSweep(s: Sys, a: SweepStep, key: string, h: nat)
    requires Core(s) && Frozen(s, key, h) && CanSweep(s, a)
    ensures FrozenStill(s, DoSweep(s, a), key, h)
  {
    SweepKeepsPages(s, a);
  }

  lemma FrozenStep(s: Sys, a: Action, key: string, h: nat)
    requires Inv(s) && Frozen(s, key, h) && Enabled(s, a)
    ensures FrozenStill(s, Apply(s, a), key, h)
  {
    match a
    case World(w) => FrozenWorld(s, w, key, h);
    case Scan(c) => FrozenScan(s, c, key, h);
    case Look(l) => FrozenLook(s, l, key, h);
    case Acquiring(g) => FrozenAcquire(s, g, key, h);
    case Sending(d) => FrozenSend(s, d, key, h);
    case Confirming(c) => FrozenConfirm(s, c, key, h);
    case SweepingBy(w) => FrozenSweep(s, w, key, h);
  }

  lemma FrozenTransitive(s: Sys, t: Sys, u: Sys, key: string, h: nat)
    requires h < |s.jobs| && FrozenStill(s, t, key, h) && FrozenStill(t, u, key, h)
    ensures FrozenStill(s, u, key, h)
  {
    assert u.log[..|s.log|] == u.log[..|t.log|][..|s.log|];
    forall k | |s.log| <= k < |u.log| && JobEvent(u.log[k]) ensures u.log[k].key != key {
      if k < |t.log| { assert u.log[k] == u.log[..|t.log|][k]; }
    }
  }

  lemma FrozenFurther(s: Sys, t: Sys, a: Action, key: string, h: nat)
    requires Kept(t) && Enabled(t, a) && h < |s.jobs| && FrozenStill(s, t, key, h)
    ensures Kept(Apply(t, a)) && FrozenStill(s, Apply(t, a), key, h)
  {
    Known(t);
    StepKeepsInv(t, a);
    FrozenStep(t, a, key, h);
    FrozenTransitive(s, t, Apply(t, a), key, h);
  }

  lemma {:induction false} FrozenRun(s: Sys, acts: seq<Action>, key: string, h: nat)
    requires Kept(s) && CanRun(s, acts) && Frozen(s, key, h)
    ensures Kept(RunFrom(s, acts)) && FrozenStill(s, RunFrom(s, acts), key, h)
    decreases |acts|
  {
    if acts != [] {
      var before, a := acts[..|acts| - 1], acts[|acts| - 1];
      FrozenRun(s, before, key, h);
      FrozenFurther(s, RunFrom(s, before), a, key, h);
    }
  }

  /** From a frozen conversation on, no run sends, opens, binds or acknowledges anything for it again. */
  lemma FrozenForever(acts: seq<Action>, more: seq<Action>, key: string, h: nat)
    requires Legal(acts) && Legal(acts + more) && Frozen(Exec(acts), key, h)
    ensures FrozenStill(Exec(acts), Exec(acts + more), key, h)
  {
    RunIsKept(acts);
    ContinuationIsRun(acts, more);
    FrozenRun(Exec(acts), more, key, h);
  }

  /** A window open whose outcome is unknown, or a nonce seen twice, freezes the conversation. */
  lemma AmbiguityFreezes(acts: seq<Action>, a: Action)
    requires Legal(acts) && Enabled(Exec(acts), a) && (a == Acquiring(GiveUp) || a == Confirming(Quarantine))
    ensures var s := Exec(acts); Frozen(Apply(s, a), s.hand.seen.key, s.hand.id)
    ensures var s := Exec(acts);
      && s.hand.id < |s.jobs|
      && Apply(s, a).jobs[s.hand.id].attempts == s.jobs[s.hand.id].attempts
  {
    RunKeepsInv(acts);
  }

  /** An ambiguous open leaves the job unacknowledged, with the attempts it had, in every later state. */
  lemma AmbiguousJobNeverAcknowledged(acts: seq<Action>, a: Action, more: seq<Action>)
    requires Legal(acts) && Enabled(Exec(acts), a) && (a == Acquiring(GiveUp) || a == Confirming(Quarantine))
    requires Legal(acts + [a] + more)
    ensures var s, s', id := Exec(acts), Exec(acts + [a] + more), Exec(acts).hand.id;
      id < |s.jobs| && id < |s'.jobs| && s'.jobs[id].attempts == s.jobs[id].attempts
      && (s'.jobs[id].state.Submitted? || s'.jobs[id].state.ReconcileRequired?)
  {
    AmbiguityFreezes(acts, a);
    RunExtends(acts, a);
    FrozenForever(acts + [a], more, Exec(acts).hand.seen.key, Exec(acts).hand.id);
  }

  // ---- Cancellation ----

  /** The engine still has a snapshot of the job, or is working on it. */
  ghost predicate Held(s: Sys, id: nat) {
    (s.hand.Work? && s.hand.id == id) || HasTicket(s, id)
  }

  lemma CancelledStep(s: Sys, a: Action, id: nat)
    requires Inv(s) && Enabled(s, a) && id < |s.jobs| && s.jobs[id].state.Cancelled?
    requires !(s.hand.Work? && s.hand.id == id)
    ensures id < |Apply(s, a).jobs| && Apply(s, a).jobs[id].state.Cancelled?
  {
    if WorkAction(a) {
      WorkIsOwn(s, a);
    } else if a.SweepingBy? {
      SweepIsOutside(s, a.sweep);
    }
  }

  /** A cancelled job can be revived by the next step exactly when the engine has already taken it in hand. */
  lemma RevivableIffInHand(acts: seq<Action>, id: nat)
    requires Legal(acts) && id < |Exec(acts).jobs| && Exec(acts).jobs[id].state.Cancelled?
    ensures var s := Exec(acts);
      (exists a :: Enabled(s, a) && id < |Apply(s, a).jobs| && !Apply(s, a).jobs[id].state.Cancelled?)
      <==> s.hand.Work? && s.hand.id == id
  {
    RunKeepsInv(acts);
    var s := Exec(acts);
    if s.hand.Work? && s.hand.id == id {
      var a := if s.hand.stage.Paged? then Sending(Arm) else Acquiring(FailAcquire);
      assert Enabled(s, a) && !Apply(s, a).jobs[id].state.Cancelled?;
    } else {
      forall a | Enabled(s, a) ensures id < |Apply(s, a).jobs| ==> Apply(s, a).jobs[id].state.Cancelled? {
        CancelledStep(s, a, id);
      }
    }
  }

  lemma UnheldScan(s: Sys, c: ScanStep, id: nat)
    requires Inv(s) && CanScan(s, c) && id < |s.jobs| && s.jobs[id].state.Cancelled? && !Held(s, id)
    ensures !Held(DoScan(s, c), id)
  {
    if c.BeginPass? {
      EligibleTickets(s.jobs, c.now, c.limit, 0);
    }
  }

  lemma UnheldStep(s: Sys, a: Action, id: nat)
    requires Inv(s) && Enabled(s, a) && id < |s.jobs| && s.jobs[id].state.Cancelled? && !Held(s, id)
    ensures !Held(Apply(s, a), id)
  {
    if WorkAction(a) {
      WorkIsOwn(s, a);
    } else if a.SweepingBy? {
      SweepIsOutside(s, a.sweep);
    } else if a.Scan? {
      UnheldScan(s, a.scan, id);
    }
  }

  lemma {:induction false} UnheldRun(s: Sys, acts: seq<Action>, id: nat)
    requires Kept(s) && CanRun(s, acts) && id < |s.jobs| && s.jobs[id].state.Cancelled? && !Held(s, id)
    ensures var t := RunFrom(s, acts); Kept(t) && id < |t.jobs| && t.jobs[id].state.Cancelled? && !Held(t, id)
    decreases |acts|
  {
    if acts != [] {
      var before, a := acts[..|acts| - 1], acts[|acts| - 1];
      UnheldRun(s, before, id);
      UnheldFurther(RunFrom(s, before), a, id);
    }
  }

  lemma UnheldFurther(s: Sys, a: Action, id: nat)
    requires Kept(s) && Enabled(s, a) && id < |s.jobs| && s.jobs[id].state.Cancelled? && !Held(s, id)
    ensures var t := Apply(s, a); Kept(t) && id < |t.jobs| && t.jobs[id].state.Cancelled? && !Held(t, id)
  {
    Known(s);
    StepKeepsInv(s, a);
    CancelledStep(s, a, id);
    UnheldStep(s, a, id);
  }

  /** A cancel that lands while the engine does not hold the job is final. */
  lemma CancelIsFinalUnlessHeld(acts: seq<Action>, more: seq<Action>, id: nat)
    requires Legal(acts) && Legal(acts + more)
    requires id < |Exec(acts).jobs| && Exec(acts).jobs[id].state.Cancelled? && !Held(Exec(acts), id)
    ensures var s' := Exec(acts + more); id < |s'.jobs| && s'.jobs[id].state.Cancelled? && !Held(s', id)
  {
    RunIsKept(acts);
    ContinuationIsRun(acts, more);
    UnheldRun(Exec(acts), more, id);
  }

  /** With a page in hand the engine sends the job although its row already says CANCELLED. */
  lemma HeldCancelIsSent(acts: seq<Action>, out: SendOutcome)
    requires Legal(acts) && Exec(acts).hand.Work? && Exec(acts).hand.stage.Paged?
    ensures var more := acts + [Sending(Arm)] + [Sending(Send(out))]; var id := Exec(acts).hand.id;
      && id < |Exec(acts).jobs| && Legal(more) && Exec(more).log != []
      && Exec(more).log[|Exec(more).log| - 1] ==
           SendCalled(id, Exec(acts).hand.seen.key, Exec(acts).hand.stage.page, out)
  {
    RunKeepsInv(acts);
    RunExtends(acts, Sending(Arm));
    RunExtends(acts + [Sending(Arm)], Sending(Send(out)));
  }
}
