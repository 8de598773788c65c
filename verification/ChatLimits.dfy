/** How far the dispatcher's promises go: what cannot happen any more in any run, and runs in which it does happen. */
module ChatLimits {
  import opened Prelude
  import opened ChatProtocol
  import opened ChatSafety
  import opened ChatTheorems
  import opened ChatReach

  // ---- Duplicated deliveries ----

  ghost predicate CanBeAcknowledged(s: Sys, id: nat) {
    exists t :: Reach(s, t) && id < |t.jobs| && t.jobs[id].state.Acknowledged?
  }

  predicate MaybeSent(st: JobState) { st.Submitted? || st.ReconcileRequired? }

  lemma MaybeSentIsHead(s: Sys, id: nat)
    requires Inv(s) && id < |s.jobs| && (MaybeSent(s.jobs[id].state) || s.jobs[id].state.Opening?)
    ensures !OlderUnfinished(s.jobs, id)
    ensures forall i :: 0 <= i < id && s.jobs[i].key == s.jobs[id].key ==> Terminal(s.jobs[i].state)
  {
  }

  lemma AcknowledgedAgain(s: Sys, id: nat)
    requires Kept(s) && id < |s.jobs| && MaybeSent(s.jobs[id].state) && !NoActive(s.pages, s.jobs[id].key)
    ensures CanBeAcknowledged(s, id)
  {
    var pid :| pid in s.pages && ActiveFor(s.pages, s.jobs[id].key, pid);
    Known(s);
    MaybeSentIsHead(s, id);
    var t := TakeAgain(s, id);
    KnownHand(t);
    t := Go(s, t, Look(Watching(pid)));
    t := Go(s, t, Confirming(Acknowledge(0, AckResult(true, 1, Some(false)))));
    assert t.jobs[id].state.Acknowledged?;
  }

  lemma FrozenReach(acts: seq<Action>, key: string, h: nat, t: Sys)
    requires Legal(acts) && Frozen(Exec(acts), key, h) && Reach(Exec(acts), t)
    ensures FrozenStill(Exec(acts), t, key, h)
  {
    ReachIsContinuation(acts, t);
    var more :| Legal(acts + more) && Exec(acts + more) == t;
    FrozenForever(acts, more, key, h);
  }

  /** A job that may have been sent can still be acknowledged exactly as long as its conversation has an active page. */
  lemma AcknowledgeableIffPaged(acts: seq<Action>, id: nat)
    requires Legal(acts) && id < |Exec(acts).jobs| && MaybeSent(Exec(acts).jobs[id].state)
    ensures CanBeAcknowledged(Exec(acts), id) <==> !NoActive(Exec(acts).pages, Exec(acts).jobs[id].key)
  {
    RunKeepsInv(acts);
    var s := Exec(acts);
    if NoActive(s.pages, s.jobs[id].key) {
      MaybeSentIsHead(s, id);
      forall t | Reach(s, t) ensures id < |t.jobs| && !t.jobs[id].state.Acknowledged? {
        FrozenReach(acts, s.jobs[id].key, id, t);
      }
    } else {
      AcknowledgedAgain(s, id);
    }
  }

  lemma AfterDuplicate(s: Sys, a: Action)
    requires Inv(s) && s.hand.Work? && s.hand.stage.Duplicated? && Enabled(s, a)
    ensures var t, id := Apply(s, a), s.hand.id;
      && id < |s.jobs| && id < |t.jobs| && t.jobs[id].state.ReconcileRequired? && t.jobs[id].key == s.jobs[id].key
      && (NoActive(t.pages, t.jobs[id].key) <==> a == Confirming(Quarantine))
  {
    assert StagePage(s.pages, s.hand.seen.key, s.hand.stage);
    if a != Confirming(Quarantine) {
      assert a.World?;
      assert ActiveFor(Apply(s, a).pages, s.hand.seen.key, s.hand.stage.page);
    }
  }

  /**
   After a nonce was seen twice the job is past acknowledging exactly from the write of the page row on.  Until then
   the row alone says RECONCILE_REQUIRED, and a death of the engine leaves it to be acknowledged after all.
   */
  lemma DuplicateIsFinalIff(acts: seq<Action>, a: Action)
    requires Legal(acts) && Exec(acts).hand.Work? && Exec(acts).hand.stage.Duplicated? && Enabled(Exec(acts), a)
    ensures CanBeAcknowledged(Apply(Exec(acts), a), Exec(acts).hand.id) <==> a != Confirming(Quarantine)
  {
    RunKeepsInv(acts);
    AfterDuplicate(Exec(acts), a);
    RunExtends(acts, a);
    AcknowledgeableIffPaged(acts + [a], Exec(acts).hand.id);
  }

  // ---- Opens of unknown outcome ----

  predicate SendOf(e: Event, id: nat) { e.SendCalled? && e.job == id }

  ghost predicate CanBeSent(s: Sys, id: nat) {
    exists t, k :: Reach(s, t) && |s.log| <= k < |t.log| && SendOf(t.log[k], id)
  }

  /** From here on the job is not sent: it is over and let go, frozen, or cancelled under an open of unknown outcome. */
  ghost predicate PastSending(s: Sys, id: nat) {
    && id < |s.jobs|
    && (|| (Terminal(s.jobs[id].state) && !Held(s, id))
        || Frozen(s, s.jobs[id].key, id)
        || (s.hand.Work? && s.hand.id == id && s.hand.stage.Unresolved? && s.jobs[id].state.Cancelled?))
  }

  ghost predicate NotSent(s: Sys, t: Sys, id: nat) {
    && |s.log| <= |t.log| && t.log[..|s.log|] == s.log
    && forall k :: |s.log| <= k < |t.log| ==> !SendOf(t.log[k], id)
  }

  lemma TerminalStep(s: Sys, a: Action, id: nat)
    requires Tickets(s) && Enabled(s, a) && id < |s.jobs| && Terminal(s.jobs[id].state) && !Held(s, id)
    ensures id < |Apply(s, a).jobs| && Apply(s, a).jobs[id].state == s.jobs[id].state && !Held(Apply(s, a), id)
    ensures NotSent(s, Apply(s, a), id)
  {
    if WorkAction(a) {
      WorkIsOwn(s, a);
    } else if a.SweepingBy? {
      SweepIsOutside(s, a.sweep);
    } else if a.Scan? && a.scan.BeginPass? {
      EligibleTickets(s.jobs, a.scan.now, a.scan.limit, 0);
    }
  }

  lemma UnresolvedStep(s: Sys, a: Action)
    requires Inv(s) && Enabled(s, a) && s.hand.Work? && s.hand.stage.Unresolved? && s.hand.id < |s.jobs|
    requires s.jobs[s.hand.id].state.Cancelled?
    ensures PastSending(Apply(s, a), s.hand.id) && NotSent(s, Apply(s, a), s.hand.id)
  {
    var t, id := Apply(s, a), s.hand.id;
    if a == Acquiring(GiveUp) {
      assert Frozen(t, s.jobs[id].key, id);
    } else if a == Acquiring(FailAcquire) || a == World(Die) {
      assert !Held(t, id);
    } else {
      assert a.World? && t.hand == s.hand;
    }
  }

  lemma FrozenIsNotSent(s: Sys, t: Sys, id: nat)
    requires id < |s.jobs| && FrozenStill(s, t, s.jobs[id].key, id) && Fifo(t)
    ensures PastSending(t, id) && NotSent(s, t, id)
  {}

  lemma PastSendingStep(s: Sys, a: Action, id: nat)
    requires Inv(s) && Enabled(s, a) && PastSending(s, id)
    ensures PastSending(Apply(s, a), id) && NotSent(s, Apply(s, a), id)
  {
    if Terminal(s.jobs[id].state) && !Held(s, id) {
      TerminalStep(s, a, id);
    } else if Frozen(s, s.jobs[id].key, id) {
      FrozenStep(s, a, s.jobs[id].key, id);
      StepKeepsInv(s, a);
      FrozenIsNotSent(s, Apply(s, a), id);
    } else {
      UnresolvedStep(s, a);
    }
  }

  lemma {:induction false} PastSendingRun(s: Sys, acts: seq<Action>, id: nat)
    requires Kept(s) && CanRun(s, acts) && PastSending(s, id)
    ensures Kept(RunFrom(s, acts)) && PastSending(RunFrom(s, acts), id) && NotSent(s, RunFrom(s, acts), id)
    decreases |acts|
  {
    if acts != [] {
      var before, a := acts[..|acts| - 1], acts[|acts| - 1];
      PastSendingRun(s, before, id);
      PastSendingMore(s, RunFrom(s, before), a, id);
    }
  }

  lemma PastSendingMore(s: Sys, t: Sys, a: Action, id: nat)
    requires Kept(t) && Enabled(t, a) && PastSending(t, id) && NotSent(s, t, id)
    ensures Kept(Apply(t, a)) && PastSending(Apply(t, a), id) && NotSent(s, Apply(t, a), id)
  {
    Known(t);
    StepKeepsInv(t, a);
    PastSendingStep(t, a, id);
    NotSentTransitive(s, t, Apply(t, a), id);
  }

  lemma NotSentTransitive(s: Sys, t: Sys, u: Sys, id: nat)
    requires NotSent(s, t, id) && NotSent(t, u, id)
    ensures NotSent(s, u, id)
  {
    assert u.log[..|s.log|] == u.log[..|t.log|][..|s.log|];
    forall k | |s.log| <= k < |u.log| ensures !SendOf(u.log[k], id) {
      if k < |t.log| { assert u.log[k] == u.log[..|t.log|][k]; }
    }
  }

  /** A job whose row says OPENING is adopted by the next worker and sent. */
  lemma OpeningCanBeSent(s: Sys, id: nat)
    requires Kept(s) && id < |s.jobs| && s.jobs[id].state.Opening?
    ensures CanBeSent(s, id)
  {
    Known(s);
    MaybeSentIsHead(s, id);
    var t := TakeAgain(s, id);
    KnownHand(t);
    var key := s.jobs[id].key;
    if NoActive(t.pages, key) {
      t := Go(s, t, Acquiring(Adopt(PageIdentity(PageId(0, 0), Url("", None), false))));
      t := Go(s, t, Acquiring(Upsert));
      t := Go(s, t, Acquiring(WriteBound));
    } else {
      var pid :| pid in t.pages && ActiveFor(t.pages, key, pid);
      t := Go(s, t, Look(Reuse(pid)));
    }
    t := Go(s, t, Sending(Arm));
    t := Go(s, t, Sending(Send(SendRaised)));
    assert SendOf(t.log[|t.log| - 1], id);
  }

  lemma AfterUnknownOpen(s: Sys, a: Action)
    requires Inv(s) && s.hand.Work? && s.hand.stage.Unresolved? && Enabled(s, a)
    ensures var t, id := Apply(s, a), s.hand.id;
      id < |t.jobs| && (t.jobs[id].state.Opening? || PastSending(t, id))
  {
    var t, id := Apply(s, a), s.hand.id;
    if a == Acquiring(GiveUp) {
      assert Frozen(t, s.jobs[id].key, id);
    } else if a == Acquiring(FailAcquire) || a == World(Die) {
      assert !Held(t, id);
    } else {
      assert a.World? && t.hand == s.hand;
    }
  }

  /**
   After an open of unknown outcome the job can be sent exactly as long as its row says OPENING: neither
   the second write nor a failure nor a cancel has overwritten it.
   */
  lemma UnknownOpenSendableIff(acts: seq<Action>, a: Action)
    requires Legal(acts) && Exec(acts).hand.Work? && Exec(acts).hand.stage.Unresolved? && Enabled(Exec(acts), a)
    ensures var t, id := Apply(Exec(acts), a), Exec(acts).hand.id;
      id < |t.jobs| && (CanBeSent(t, id) <==> t.jobs[id].state.Opening?)
  {
    RunKeepsInv(acts);
    var s := Exec(acts);
    var t, id := Apply(s, a), s.hand.id;
    AfterUnknownOpen(s, a);
    StepKeepsInv(s, a);
    if t.jobs[id].state.Opening? {
      OpeningCanBeSent(t, id);
    } else {
      forall u, k | Reach(t, u) && |t.log| <= k < |u.log| ensures !SendOf(u.log[k], id) {
        var more := RunTo(t, u);
        PastSendingRun(t, more, id);
      }
    }
  }

  // ---- Cancelled jobs that come back ----

  /** The engine can still make the job terminal within this pass. */
  ghost predicate CanFinish(s: Sys, h: nat)
    requires h < |s.jobs|
  {
    || (s.hand.Work? && s.hand.id == h && !Doomed(s))
    || (HasTicket(s, h) && !NoActive(s.pages, s.jobs[h].key))
  }

  ghost predicate Blocked(s: Sys, h: nat) {
    h < |s.jobs| && !Terminal(s.jobs[h].state) && !Cancellable(s.jobs[h].state) && !CanFinish(s, h)
  }

  /** Every older unfinished job of the conversation can be cancelled or finished within this pass. */
  ghost predicate Clearable(s: Sys, id: nat)
    requires id < |s.jobs|
  {
    forall h :: 0 <= h < id && s.jobs[h].key == s.jobs[id].key ==> !Blocked(s, h)
  }

  ghost predicate Revivable(s: Sys, id: nat)
    requires id < |s.jobs|
  {
    (s.hand.Work? && s.hand.id == id) || (HasTicket(s, id) && Clearable(s, id))
  }

  ghost predicate CanComeBack(s: Sys, id: nat) {
    exists t :: Reach(s, t) && id < |t.jobs| && !t.jobs[id].state.Cancelled?
  }

  /** While a job blocks its conversation, whatever else is in hand belongs to another one. */
  lemma BlockedHand(s: Sys, h: nat)
    requires Core(s) && Blocked(s, h) && s.hand.Work? && s.hand.id != h
    ensures s.hand.seen.key != s.jobs[h].key
  {
    assert YoungerUntouched(s.jobs, s.log, s.hand.seen.key, s.hand.id);
  }

  lemma BlockedScan(s: Sys, a: ScanStep, h: nat)
    requires Core(s) && Blocked(s, h) && Todo(s.hand) != [] && CanScan(s, a)
    ensures Blocked(DoScan(s, a), h)
  {
    var t := DoScan(s, a);
    if a.Take? {
      assert TicketOk(s.jobs, s.hand.todo[0]);
      assert s.hand.todo[0] == Todo(s.hand)[0];
    }
    forall k | 0 <= k < |Todo(t.hand)| ensures exists m :: 0 <= m < |Todo(s.hand)| && Todo(s.hand)[m] == Todo(t.hand)[k]
    {
      if a.Release? {
        assert Todo(s.hand)[k] == Todo(t.hand)[k];
      } else {
        assert Todo(s.hand)[k + 1] == Todo(t.hand)[k];
      }
    }
  }

  lemma BlockedOther(s: Sys, a: Action, h: nat)
    requires Core(s) && Blocked(s, h) && s.hand.Work? && s.hand.id != h && Enabled(s, a) && WorkAction(a)
    ensures Blocked(Apply(s, a), h)
  {
    WorkIsOwn(s, a);
    BlockedHand(s, h);
  }

  lemma BlockedOwn(s: Sys, a: Action, h: nat)
    requires Core(s) && Blocked(s, h) && s.hand.Work? && s.hand.id == h && Enabled(s, a) && WorkAction(a)
    ensures Blocked(Apply(s, a), h)
  {
    WorkIsOwn(s, a);
  }

  lemma BlockedStep(s: Sys, a: Action, h: nat)
    requires Core(s) && Blocked(s, h) && Todo(s.hand) != [] && Enabled(s, a)
    ensures Blocked(Apply(s, a), h)
  {
    if a.Scan? {
      BlockedScan(s, a.scan, h);
    } else if WorkAction(a) && s.hand.id == h {
      BlockedOwn(s, a, h);
    } else if WorkAction(a) {
      BlockedOther(s, a, h);
    }
  }

  /** A cancelled job that cannot be revived now cannot be revived later. */
  ghost predicate Final(s: Sys, id: nat) {
    id < |s.jobs| && s.jobs[id].state.Cancelled? && !Revivable(s, id)
  }

  lemma FinalStep(s: Sys, a: Action, id: nat)
    requires Inv(s) && Final(s, id) && Enabled(s, a)
    ensures Final(Apply(s, a), id)
  {
    var t := Apply(s, a);
    CancelledStep(s, a, id);
    if !HasTicket(s, id) {
      UnheldStep(s, a, id);
    } else {
      var h :| 0 <= h < id && s.jobs[h].key == s.jobs[id].key && Blocked(s, h);
      BlockedStep(s, a, h);
      RowsKeepDispatch(s, a, h);
      RowsKeepDispatch(s, a, id);
      BlockedIsNotTaken(s, a, h, id);
    }
  }

  lemma BlockedIsNotTaken(s: Sys, a: Action, h: nat, id: nat)
    requires Tickets(s) && Enabled(s, a) && h < id < |s.jobs| && s.jobs[h].key == s.jobs[id].key
    requires !Terminal(s.jobs[h].state)
    requires !(s.hand.Work? && s.hand.id == id)
    ensures !(Apply(s, a).hand.Work? && Apply(s, a).hand.id == id)
  {
    if WorkAction(a) {
      WorkIsOwn(s, a);
    }
  }

  lemma {:induction false} FinalRun(s: Sys, acts: seq<Action>, id: nat)
    requires Kept(s) && CanRun(s, acts) && Final(s, id)
    ensures Kept(RunFrom(s, acts)) && Final(RunFrom(s, acts), id)
    decreases |acts|
  {
    if acts != [] {
      var before, a := acts[..|acts| - 1], acts[|acts| - 1];
      FinalRun(s, before, id);
      Known(RunFrom(s, before));
      StepKeepsInv(RunFrom(s, before), a);
      FinalStep(RunFrom(s, before), a, id);
    }
  }

  /** The ticket of a cancelled job is next, and nothing older of its conversation is unfinished. */
  lemma ReviveNext(s: Sys, id: nat)
    requires Kept(s) && id < |s.jobs| && s.jobs[id].state.Cancelled? && !OlderUnfinished(s.jobs, id)
    requires s.hand.Scanning? && s.hand.todo != [] && s.hand.todo[0].id == id
    ensures CanComeBack(s, id)
  {
    Known(s);
    assert TicketOk(s.jobs, s.hand.todo[0]);
    var t := Step(s, Scan(Take));
    t := Go(s, t, Acquiring(FailAcquire));
    assert t.jobs[id].state.Failed?;
  }

  lemma ComesBackVia(s: Sys, t: Sys, id: nat)
    requires Reach(s, t) && CanComeBack(t, id)
    ensures CanComeBack(s, id)
  {
    var u :| Reach(t, u) && id < |u.jobs| && !u.jobs[id].state.Cancelled?;
    ReachTrans(s, t, u);
  }

  /** The engine is between jobs, still lists the cancelled one, and can finish all older ones of its conversation. */
  ghost predicate Pending(s: Sys, id: nat) {
    && id < |s.jobs| && s.jobs[id].state.Cancelled? && s.hand.Scanning? && HasTicket(s, id)
    && forall h :: 0 <= h < id && s.jobs[h].key == s.jobs[id].key && !Terminal(s.jobs[h].state) ==>
         !Cancellable(s.jobs[h].state) && HasTicket(s, h) && !NoActive(s.pages, s.jobs[h].key)
  }

  /** Of the unfinished jobs of one conversation only the oldest can be past cancelling. */
  lemma PendingHead(s: Sys, id: nat, h: nat)
    requires Heads(s) && Pending(s, id) && h < id && s.jobs[h].key == s.jobs[id].key && !Terminal(s.jobs[h].state)
    ensures !OlderUnfinished(s.jobs, h)
    ensures forall j :: h < j < |s.jobs| && s.jobs[j].key == s.jobs[h].key ==>
      s.jobs[j].state.Queued? || s.jobs[j].state.Cancelled?
    ensures forall j :: h < j < id && s.jobs[j].key == s.jobs[h].key ==> Terminal(s.jobs[j].state)
  {
    assert YoungerUntouched(s.jobs, s.log, s.jobs[h].key, h);
    forall j | h < j < |s.jobs| && s.jobs[j].key == s.jobs[h].key
      ensures s.jobs[j].state.Queued? || s.jobs[j].state.Cancelled?
    {
      assert Untouched(s.jobs, s.log, j);
    }
  }

  lemma TicketStays(s: Sys, u: Sys, id: nat)
    requires s.hand.Scanning? && s.hand.todo != [] && u.hand == Scanning(s.hand.todo[1..])
    requires HasTicket(s, id) && s.hand.todo[0].id != id
    ensures HasTicket(u, id)
  {
    var k :| 0 <= k < |Todo(s.hand)| && Todo(s.hand)[k].id == id;
    assert Todo(u.hand)[k - 1].id == id;
  }

  lemma PendingSkips(s: Sys, id: nat) returns (u: Sys)
    requires Kept(s) && Pending(s, id) && s.hand.todo != [] && s.hand.todo[0].id != id
    requires s.hand.todo[0].id < |s.jobs| && OlderUnfinished(s.jobs, s.hand.todo[0].id)
    ensures Reach(s, u) && Kept(u) && Pending(u, id) && |u.hand.todo| < |s.hand.todo|
  {
    u := Step(s, Scan(Skip(0)));
    Known(s);
    TicketStays(s, u, id);
    forall h | 0 <= h < id && s.jobs[h].key == s.jobs[id].key && !Terminal(s.jobs[h].state) ensures HasTicket(u, h) {
      PendingHead(s, id, h);
      TicketStays(s, u, h);
    }
  }

  lemma PendingTakes(s: Sys, id: nat) returns (u: Sys)
    requires Kept(s) && Pending(s, id) && s.hand.todo != [] && s.hand.todo[0].id != id
    requires s.hand.todo[0].id < |s.jobs| && !OlderUnfinished(s.jobs, s.hand.todo[0].id)
    ensures Reach(s, u) && Kept(u) && Pending(u, id) && |u.hand.todo| < |s.hand.todo|
  {
    var v := Step(s, Scan(Take));
    u := FinishHand(v);
    ReachTrans(s, v, u);
    Known(s);
    assert TicketOk(s.jobs, s.hand.todo[0]);
    TicketStays(s, u, id);
    forall h | 0 <= h < id && u.jobs[h].key == u.jobs[id].key && !Terminal(u.jobs[h].state)
      ensures !Cancellable(u.jobs[h].state) && HasTicket(u, h) && !NoActive(u.pages, u.jobs[h].key)
    {
      PendingTaken(s, v, u, id, h);
    }
  }

  /** Taking and finishing a ticket leaves the older jobs of the conversation as they were. */
  lemma PendingTaken(s: Sys, v: Sys, u: Sys, id: nat, h: nat)
    requires Heads(s) && Tickets(s) && Pending(s, id) && CanScan(s, Take) && v == DoScan(s, Take) && Finishes(v, u)
    requires h < id && u.jobs[h].key == u.jobs[id].key && !Terminal(u.jobs[h].state)
    ensures !Cancellable(u.jobs[h].state) && HasTicket(u, h) && !NoActive(u.pages, u.jobs[h].key)
  {
    assert TicketOk(s.jobs, s.hand.todo[0]);
    TakenIsDone(s, v, u, id);
    PendingHead(s, id, h);
    TicketStays(s, u, h);
    if v.hand.seen.key != s.jobs[h].key {
      var p :| p in s.pages && ActiveFor(s.pages, s.jobs[h].key, p);
      assert ActiveFor(u.pages, s.jobs[h].key, p);
    }
  }

  /** A ticket of the conversation that is taken is either over already or finished now. */
  lemma TakenIsDone(s: Sys, v: Sys, u: Sys, id: nat)
    requires Heads(s) && Tickets(s) && Pending(s, id) && CanScan(s, Take) && v == DoScan(s, Take) && Finishes(v, u)
    ensures v.hand.id < id && s.jobs[v.hand.id].key == s.jobs[id].key ==> Terminal(u.jobs[v.hand.id].state)
  {
    assert TicketOk(s.jobs, s.hand.todo[0]);
  }

  lemma {:induction false} PendingComesBack(s: Sys, id: nat)
    requires Kept(s) && Pending(s, id)
    ensures CanComeBack(s, id)
    decreases |s.hand.todo|
  {
    var k :| 0 <= k < |Todo(s.hand)| && Todo(s.hand)[k].id == id;
    Known(s);
    assert TicketOk(s.jobs, s.hand.todo[0]);
    if s.hand.todo[0].id == id {
      forall h | 0 <= h < id && s.jobs[h].key == s.jobs[id].key ensures Terminal(s.jobs[h].state) {
        assert !HasTicket(s, h);
      }
      ReviveNext(s, id);
    } else {
      var u;
      if OlderUnfinished(s.jobs, s.hand.todo[0].id) {
        u := PendingSkips(s, id);
      } else {
        u := PendingTakes(s, id);
      }
      PendingComesBack(u, id);
      ComesBackVia(s, u, id);
    }
  }

  lemma ScanComesBack(s: Sys, id: nat)
    requires Kept(s) && id < |s.jobs| && s.jobs[id].state.Cancelled? && s.hand.Scanning?
    requires HasTicket(s, id) && Clearable(s, id)
    ensures CanComeBack(s, id)
  {
    var t := CancelUpTo(s, s.jobs[id].key, id);
    assert Todo(t.hand) == Todo(s.hand);
    forall h | HasTicket(s, h) ensures HasTicket(t, h) {
      var k :| 0 <= k < |Todo(s.hand)| && Todo(s.hand)[k].id == h;
      assert Todo(t.hand)[k].id == h;
    }
    PendingComesBack(t, id);
    ComesBackVia(s, t, id);
  }

  /** Putting down what is in hand leaves a clearable conversation clearable. */
  lemma HandStaysClearable(s: Sys, u: Sys, id: nat, h: nat)
    requires Core(s) && s.hand.Work? && Finishes(s, u) && HasTicket(s, id) && Clearable(s, id)
    requires h < id < |s.jobs| && s.jobs[h].key == s.jobs[id].key
    ensures !Blocked(u, h)
  {
    assert !Blocked(s, h);
    var k :| 0 <= k < |Todo(s.hand)| && Todo(s.hand)[k].id == id;
    assert s.hand.id < id;
    if h == s.hand.id {
      HandIsClearable(s, h);
    } else if !Terminal(s.jobs[h].state) && !Cancellable(s.jobs[h].state) {
      assert HasTicket(s, h);
      var m :| 0 <= m < |Todo(s.hand)| && Todo(s.hand)[m].id == h;
      assert Todo(u.hand)[m].id == h;
      var p :| p in s.pages && ActiveFor(s.pages, s.jobs[h].key, p);
      assert ActiveFor(u.pages, s.jobs[h].key, p);
    }
  }

  lemma HandIsClearable(s: Sys, h: nat)
    requires Tickets(s) && s.hand.Work? && h == s.hand.id && !Blocked(s, h)
    ensures !Doomed(s)
  {
  }

  lemma TicketComesBack(s: Sys, id: nat)
    requires Kept(s) && id < |s.jobs| && s.jobs[id].state.Cancelled? && HasTicket(s, id) && Clearable(s, id)
    ensures CanComeBack(s, id)
  {
    if s.hand.Work? {
      Known(s);
      var u := FinishHand(s);
      var k :| 0 <= k < |Todo(s.hand)| && Todo(s.hand)[k].id == id;
      assert Todo(u.hand)[k].id == id;
      forall h | 0 <= h < id && u.jobs[h].key == u.jobs[id].key ensures !Blocked(u, h) {
        HandStaysClearable(s, u, id, h);
      }
      ScanComesBack(u, id);
      ComesBackVia(s, u, id);
    } else {
      ScanComesBack(s, id);
    }
  }

  lemma InHandComesBack(s: Sys)
    requires Kept(s) && s.hand.Work? && s.hand.id < |s.jobs| && s.jobs[s.hand.id].state.Cancelled?
    ensures CanComeBack(s, s.hand.id)
  {
    KnownHand(s);
    var t := Step(s, if s.hand.stage.Paged? then Sending(Arm) else Acquiring(FailAcquire));
    assert !t.jobs[s.hand.id].state.Cancelled?;
  }

  /**
   A cancelled job can come back in some run exactly when the engine has it in hand, or still lists it and can
   finish or see cancelled every older unfinished job of its conversation before it gets there.
   */
  lemma ComesBackIffRevivable(acts: seq<Action>, id: nat)
    requires Legal(acts) && id < |Exec(acts).jobs| && Exec(acts).jobs[id].state.Cancelled?
    ensures CanComeBack(Exec(acts), id) <==> Revivable(Exec(acts), id)
  {
    var s := Exec(acts);
    RunKeepsInv(acts);
    if s.hand.Work? && s.hand.id == id {
      InHandComesBack(s);
    } else if Revivable(s, id) {
      TicketComesBack(s, id);
    } else {
      forall t | Reach(s, t) ensures id < |t.jobs| && t.jobs[id].state.Cancelled? {
        var more := RunTo(s, t);
        FinalRun(s, more, id);
      }
    }
  }
}
