/** What every run of the child-spawn protocol keeps, and the at-most-once properties that follow. */
module SpawnSafety {
  import opened Prelude
  import opened SpawnProtocol

  predicate HoldsAttempt(h: Hand) { !h.Idle? }

  /** The operator is between the write that authorises the first send and the end of that send's handling. */
  predicate Prompting(h: Hand) {
    h.Sending? || h.Replied? || h.Cooled? || h.Waiting? || h.SecondArmed? || h.SecondReplied? || h.Confirming?
  }

  /** The first send has been called and was not clean. */
  predicate PastSend(h: Hand) { h.Waiting? || h.SecondArmed? || h.SecondReplied? || h.Confirming? }

  predicate SentState(st: SpawnState) { st.PromptSubmitted? || st.ReconcileRequired? || st.Completed? }

  // ---- Rows ----

  /** Every attempt but the last one of a child has failed, so at most one can ever have sent anything. */
  ghost predicate OnlyLastLives(s: Sys) {
    forall i, j :: 0 <= i < j < |s.attempts| && s.attempts[i].child == s.attempts[j].child ==>
      s.attempts[i].state.Failed?
  }

  /** A completed attempt has adopted its child's worker. */
  ghost predicate CompletedIsAdopted(s: Sys) {
    && (forall i :: 0 <= i < |s.attempts| && s.attempts[i].state.Completed? ==> s.attempts[i].child in s.adopted)
    && (s.hand.Adopted? && s.hand.attempt < |s.attempts| ==> s.attempts[s.hand.attempt].child in s.adopted)
  }

  ghost predicate Lineage(s: Sys) { OnlyLastLives(s) && CompletedIsAdopted(s) }

  /** The state of a row says whether it can have a window, and once a window is bound it stays. */
  ghost predicate Bindings(s: Sys) {
    forall i :: 0 <= i < |s.attempts| ==>
      match s.attempts[i].state
      case Armed => s.attempts[i].window.None?
      case WindowOpenSubmitted => s.attempts[i].window.None?
      case Failed => s.attempts[i].window.None?
      case ReconcileRequired => true
      case _ => s.attempts[i].window.Some?
  }

  ghost predicate InHand(s: Sys) {
    HoldsAttempt(s.hand) ==>
      && s.hand.attempt < |s.attempts|
      && (s.hand.Opening? || s.hand.Opened? ==> s.attempts[s.hand.attempt].state.WindowOpenSubmitted?)
      && (Prompting(s.hand) ==> s.attempts[s.hand.attempt].state.PromptSubmitted?)
      && (s.hand.Sending? || s.hand.Replied? ==> !Cooling(s, s.hand.at))
      && (s.hand.Adopted? ==> s.attempts[s.hand.attempt].window.Some? && !s.attempts[s.hand.attempt].state.Completed?)
  }

  // ---- The log ----

  predicate SendOf(e: Event, id: nat) { e.SendCalled? && e.attempt == id }

  predicate UncleanSend(e: Event, id: nat) { SendOf(e, id) && !Clean(e.result) }

  predicate SubmittedSend(e: Event, id: nat) { UncleanSend(e, id) && e.result.SendReturned? && e.result.submitted }

  ghost predicate Sent(log: seq<Event>, id: nat) { exists i :: 0 <= i < |log| && SendOf(log[i], id) }

  ghost predicate SentUncleanly(log: seq<Event>, id: nat) { exists i :: 0 <= i < |log| && UncleanSend(log[i], id) }

  ghost predicate Submitted(log: seq<Event>, id: nat) { exists i :: 0 <= i < |log| && SubmittedSend(log[i], id) }

  lemma LogExtends(log: seq<Event>, e: Event)
    ensures forall id :: Sent(log + [e], id) <==> Sent(log, id) || SendOf(e, id)
    ensures forall id :: SentUncleanly(log + [e], id) <==> SentUncleanly(log, id) || UncleanSend(e, id)
    ensures forall id :: Submitted(log + [e], id) <==> Submitted(log, id) || SubmittedSend(e, id)
  {
    var more := log + [e];
    assert more[|log|] == e;
    assert forall i :: 0 <= i < |log| ==> more[i] == log[i];
  }

  /** An attempt with a send that was not clean has its window and never returns to the states before the send. */
  ghost predicate Sends(s: Sys) {
    && (forall id: nat :: Sent(s.log, id) ==>
          id < |s.attempts| && !s.attempts[id].state.Failed? && s.attempts[id].window.Some?)
    && (forall id: nat :: SentUncleanly(s.log, id) ==> id < |s.attempts| && SentState(s.attempts[id].state))
    && (s.hand.Sending? || s.hand.Cooled? || (s.hand.Replied? && Clean(s.hand.reply)) ==>
          !SentUncleanly(s.log, s.hand.attempt))
  }

  /** Of two first sends for one child, the earlier was clean. */
  ghost predicate CleanUntilLast(s: Sys) {
    forall i, j :: 0 <= i < j < |s.log| && s.log[i].SendCalled? && s.log[j].SendCalled? ==>
      s.log[i].attempt < |s.attempts| && s.log[j].attempt < |s.attempts|
      && (s.attempts[s.log[i].attempt].child == s.attempts[s.log[j].attempt].child ==> Clean(s.log[i].result))
  }

  /** The flag is set before the second call, only after a first send that was submitted, and never cleared. */
  ghost predicate Seconds(s: Sys) {
    && (forall id :: 0 <= id < |s.attempts| && s.attempts[id].secondSendUsed ==> Submitted(s.log, id))
    && (PastSend(s.hand) ==> Submitted(s.log, s.hand.attempt))
    && (s.hand.Replied? && SubmittedSend(SendCalled(s.hand.attempt, s.hand.at, s.hand.reply), s.hand.attempt) ==>
          Submitted(s.log, s.hand.attempt))
    && ((s.hand.Sending? || s.hand.Replied? || s.hand.Cooled? || s.hand.Waiting?) && s.hand.attempt < |s.attempts| ==>
          !s.attempts[s.hand.attempt].secondSendUsed)
  }

  ghost predicate SecondCalls(s: Sys) {
    && (forall id: nat :: SecondSendCalled(id) in s.log ==> id < |s.attempts| && s.attempts[id].secondSendUsed)
    && (s.hand.SecondArmed? ==> SecondSendCalled(s.hand.attempt) !in s.log)
    && (s.hand.SecondArmed? && s.hand.attempt < |s.attempts| ==> s.attempts[s.hand.attempt].secondSendUsed)
    && (forall i, j :: 0 <= i < j < |s.log| && s.log[i].SecondSendCalled? ==> s.log[i] != s.log[j])
  }

  ghost predicate SecondsFollow(s: Sys) {
    forall j :: 0 <= j < |s.log| && s.log[j].SecondSendCalled? ==> Submitted(s.log[..j], s.log[j].attempt)
  }

  ghost predicate Opens(s: Sys) {
    && (forall i :: 0 <= i < |s.log| && s.log[i].OpenCalled? ==>
          s.log[i].attempt < |s.attempts| && !s.attempts[s.log[i].attempt].state.Armed?)
    && (s.hand.Opening? ==> forall i :: 0 <= i < |s.log| ==> s.log[i] != OpenCalled(s.hand.attempt))
  }

  ghost predicate OpenedOnce(s: Sys) {
    forall i, j :: 0 <= i < j < |s.log| && s.log[i].OpenCalled? ==> s.log[i] != s.log[j]
  }

  /** Every recorded cooldown end is at or before the one in force, and no later send starts before it. */
  ghost predicate Cooldowns(s: Sys) {
    && (forall i :: 0 <= i < |s.log| && s.log[i].CooldownSet? ==>
          s.cooldown.Some? && s.log[i].until <= s.cooldown.value)
    && (forall i, j :: 0 <= i < j < |s.log| && s.log[i].CooldownSet? && s.log[j].SendCalled? ==>
          s.log[i].until <= s.log[j].at)
  }

  ghost predicate Inv(s: Sys) {
    && Lineage(s) && Bindings(s) && InHand(s) && Sends(s) && CleanUntilLast(s) && Seconds(s) && SecondCalls(s)
    && SecondsFollow(s) && Opens(s) && OpenedOnce(s) && Cooldowns(s)
  }

  lemma StepKeepsOnlyLast(s: Sys, a: Action)
    requires Lineage(s) && InHand(s) && Enabled(s, a)
    ensures OnlyLastLives(Apply(s, a))
  {
  }

  lemma StepKeepsLineage(s: Sys, a: Action)
    requires Lineage(s) && InHand(s) && Enabled(s, a)
    ensures Lineage(Apply(s, a))
  {
    StepKeepsOnlyLast(s, a);
    StepKeepsAdopted(s, a);
  }

  lemma StepKeepsAdopted(s: Sys, a: Action)
    requires CompletedIsAdopted(s) && InHand(s) && Enabled(s, a)
    ensures CompletedIsAdopted(Apply(s, a))
  {
  }

  lemma StepKeepsBindings(s: Sys, a: Action)
    requires Bindings(s) && InHand(s) && Enabled(s, a)
    ensures Bindings(Apply(s, a))
  {
  }

  lemma StepKeepsInHand(s: Sys, a: Action)
    requires Bindings(s) && InHand(s) && Enabled(s, a)
    ensures InHand(Apply(s, a))
  {
  }

  lemma StepKeepsOpens(s: Sys, a: Action)
    requires Opens(s) && InHand(s) && Enabled(s, a)
    ensures Opens(Apply(s, a))
  {
  }

  lemma StepKeepsOpenedOnce(s: Sys, a: Action)
    requires Opens(s) && OpenedOnce(s) && Enabled(s, a)
    ensures OpenedOnce(Apply(s, a))
  {
    StepExtendsLog(s, a);
  }

  lemma StepKeepsCooldowns(s: Sys, a: Action)
    requires Cooldowns(s) && InHand(s) && Enabled(s, a)
    ensures Cooldowns(Apply(s, a))
  {
  }

  predicate Calls(a: Action) { a.CallOpen? || a.CallSend? || a.CallSecond? || a.Cool? }

  lemma StepExtendsLog(s: Sys, a: Action)
    requires Enabled(s, a)
    ensures !Calls(a) ==> Apply(s, a).log == s.log
    ensures Calls(a) ==> |Apply(s, a).log| == |s.log| + 1 && Apply(s, a).log == s.log + [Apply(s, a).log[|s.log|]]
    ensures Calls(a) ==> (Apply(s, a).log[|s.log|].SendCalled? <==> a.CallSend?)
    ensures a.CallSend? ==> Apply(s, a).log[|s.log|] == SendCalled(s.hand.attempt, s.hand.at, a.reply)
    ensures Calls(a) && Apply(s, a).log[|s.log|].SecondSendCalled? ==>
      s.hand.SecondArmed? && Apply(s, a).log[|s.log|].attempt == s.hand.attempt
    ensures |s.attempts| <= |Apply(s, a).attempts|
    ensures forall x :: 0 <= x < |s.attempts| ==> Apply(s, a).attempts[x].child == s.attempts[x].child
  {
  }

  lemma StepKeepsSends(s: Sys, a: Action)
    requires Bindings(s) && InHand(s) && Sends(s) && Seconds(s) && Enabled(s, a)
    ensures Sends(Apply(s, a))
  {
    StepExtendsLog(s, a);
    if Calls(a) {
      LogExtends(s.log, Apply(s, a).log[|s.log|]);
    }
  }

  lemma StepKeepsCleanUntilLast(s: Sys, a: Action)
    requires Lineage(s) && InHand(s) && Sends(s) && CleanUntilLast(s) && Enabled(s, a)
    ensures CleanUntilLast(Apply(s, a))
  {
    var s' := Apply(s, a);
    StepExtendsLog(s, a);
    if a.CallSend? {
      forall i | 0 <= i < |s.log| && s.log[i].SendCalled?
        ensures s.log[i].attempt < |s.attempts|
        ensures s.attempts[s.log[i].attempt].child == s.attempts[s.hand.attempt].child ==> Clean(s.log[i].result)
      {
        assert SendOf(s.log[i], s.log[i].attempt);
        assert Sent(s.log, s.log[i].attempt);
        if s.log[i].attempt == s.hand.attempt {
          assert !UncleanSend(s.log[i], s.hand.attempt);
        }
      }
    }
  }

  lemma StepKeepsSeconds(s: Sys, a: Action)
    requires InHand(s) && Sends(s) && Seconds(s) && Enabled(s, a)
    ensures Seconds(Apply(s, a))
  {
    StepExtendsLog(s, a);
    if Calls(a) {
      LogExtends(s.log, Apply(s, a).log[|s.log|]);
    }
    SubmittedIsUnclean(s.log);
  }

  lemma SubmittedIsUnclean(log: seq<Event>)
    ensures forall id :: Submitted(log, id) ==> SentUncleanly(log, id) && Sent(log, id)
  {
  }

  lemma StepKeepsSecondCalls(s: Sys, a: Action)
    requires InHand(s) && SecondCalls(s) && Enabled(s, a)
    ensures SecondCalls(Apply(s, a))
  {
  }

  lemma StepKeepsSecondsFollow(s: Sys, a: Action)
    requires SecondsFollow(s) && Seconds(s) && Enabled(s, a)
    ensures SecondsFollow(Apply(s, a))
  {
    var s' := Apply(s, a);
    StepExtendsLog(s, a);
    forall j | 0 <= j < |s'.log| && s'.log[j].SecondSendCalled?
      ensures Submitted(s'.log[..j], s'.log[j].attempt)
    {
      assert s'.log[..j] == s.log[..j];
      if j == |s.log| {
        assert s.log[..j] == s.log;
      }
    }
  }

  lemma {:induction false} RunKeepsInv(acts: seq<Action>)
    requires Legal(acts)
    ensures Inv(Exec(acts))
    decreases |acts|
  {
    if acts != [] {
      var s, a := Exec(acts[..|acts| - 1]), acts[|acts| - 1];
      RunKeepsInv(acts[..|acts| - 1]);
      StepKeepsInv(s, a);
    }
  }

  lemma StepKeepsInv(s: Sys, a: Action)
    requires Inv(s) && Enabled(s, a)
    ensures Inv(Apply(s, a))
  {
    StepKeepsLineage(s, a);
    StepKeepsBindings(s, a);
    StepKeepsInHand(s, a);
    StepKeepsSends(s, a);
    StepKeepsCleanUntilLast(s, a);
    StepKeepsSeconds(s, a);
    StepKeepsSecondCalls(s, a);
    StepKeepsSecondsFollow(s, a);
    StepKeepsOpens(s, a);
    StepKeepsOpenedOnce(s, a);
    StepKeepsCooldowns(s, a);
  }

  // ---- At most once ----

  /**
   Over all attempts of one child, a first send that may have had an effect is the last first send: every
   further one follows only a send proven effect-free.
   */
  lemma FirstSendAtMostOnce(acts: seq<Action>, i: nat, j: nat)
    requires Legal(acts) && i < j < |Exec(acts).log| && Exec(acts).log[i].SendCalled? && Exec(acts).log[j].SendCalled?
    ensures Exec(acts).log[i].attempt < |Exec(acts).attempts| && Exec(acts).log[j].attempt < |Exec(acts).attempts|
    ensures Exec(acts).attempts[Exec(acts).log[i].attempt].child == Exec(acts).attempts[Exec(acts).log[j].attempt].child
      ==> Clean(Exec(acts).log[i].result)
  {
    RunKeepsInv(acts);
  }

  /** A second-stage send follows a submitted first send of the same attempt. */
  lemma SecondFollowsFirst(acts: seq<Action>, j: nat)
    requires Legal(acts) && j < |Exec(acts).log| && Exec(acts).log[j].SecondSendCalled?
    ensures exists i :: 0 <= i < j && SubmittedSend(Exec(acts).log[i], Exec(acts).log[j].attempt)
  {
    var log := Exec(acts).log;
    RunKeepsInv(acts);
    var i :| 0 <= i < |log[..j]| && SubmittedSend(log[..j][i], log[j].attempt);
    assert SubmittedSend(log[i], log[j].attempt);
  }

  /** Over all attempts of one child there is at most one second-stage send. */
  lemma SecondSendAtMostOnce(acts: seq<Action>, i: nat, j: nat)
    requires Legal(acts) && i < |Exec(acts).log| && j < |Exec(acts).log|
    requires Exec(acts).log[i].SecondSendCalled? && Exec(acts).log[j].SecondSendCalled?
    ensures Exec(acts).log[i].attempt < |Exec(acts).attempts| && Exec(acts).log[j].attempt < |Exec(acts).attempts|
    ensures
      var s := Exec(acts);
      s.attempts[s.log[i].attempt].child == s.attempts[s.log[j].attempt].child ==> i == j
  {
    var s := Exec(acts);
    RunKeepsInv(acts);
    assert SecondSendCalled(s.log[i].attempt) in s.log && SecondSendCalled(s.log[j].attempt) in s.log;
    SubmittedIsUnclean(s.log);
  }

  /** The test of the second-send flag never stops anyone: whoever gets there has not used it. */
  lemma SecondSendTestAlwaysPasses(acts: seq<Action>)
    requires Legal(acts) && Exec(acts).hand.Waiting?
    ensures Enabled(Exec(acts), SubmitSecond)
  {
    RunKeepsInv(acts);
  }

  lemma OneOpenPerAttempt(acts: seq<Action>, i: nat, j: nat)
    requires Legal(acts) && i < j < |Exec(acts).log| && Exec(acts).log[i].OpenCalled? && Exec(acts).log[j].OpenCalled?
    ensures Exec(acts).log[i].attempt != Exec(acts).log[j].attempt
  {
    RunKeepsInv(acts);
  }

  /** No first send of any child starts before the end of a cooldown recorded earlier. */
  lemma CooldownHolds(acts: seq<Action>, i: nat, j: nat)
    requires Legal(acts) && i < j < |Exec(acts).log| && Exec(acts).log[i].CooldownSet? && Exec(acts).log[j].SendCalled?
    ensures Exec(acts).log[i].until <= Exec(acts).log[j].at
  {
    RunKeepsInv(acts);
  }

  lemma StepKeepsWindow(s: Sys, a: Action, id: nat)
    requires Bindings(s) && InHand(s) && Enabled(s, a) && id < |s.attempts| && s.attempts[id].window.Some?
    ensures id < |Apply(s, a).attempts| && Apply(s, a).attempts[id].window == s.attempts[id].window
  {
  }

  /** Once bound, an attempt keeps its window: neither an open nor a reconciliation ever rebinds it. */
  lemma {:induction false} BoundWindowIsForever(acts: seq<Action>, more: seq<Action>, id: nat)
    requires Legal(acts) && Legal(acts + more) && id < |Exec(acts).attempts| && Exec(acts).attempts[id].window.Some?
    ensures id < |Exec(acts + more).attempts| && Exec(acts + more).attempts[id].window == Exec(acts).attempts[id].window
    decreases |more|
  {
    if more == [] {
      assert acts + more == acts;
    } else {
      var all := acts + more;
      assert all[..|all| - 1] == acts + more[..|more| - 1];
      BoundWindowIsForever(acts, more[..|more| - 1], id);
      RunKeepsInv(acts + more[..|more| - 1]);
      StepKeepsWindow(Exec(all[..|all| - 1]), all[|all| - 1], id);
    }
  }

  /** Publishing an adopted conversation is refused exactly when the attempt still stands at WINDOW_BOUND. */
  lemma PublishRefusedIffBound(acts: seq<Action>)
    requires Legal(acts) && Exec(acts).hand.Adopted?
    ensures Exec(acts).hand.attempt < |Exec(acts).attempts|
    ensures !Enabled(Exec(acts), Publish) <==> Exec(acts).attempts[Exec(acts).hand.attempt].state.WindowBound?
  {
    RunKeepsInv(acts);
  }

  /**
   Reconciling any attempt at WINDOW_BOUND whose window shows a conversation of its project adopts the
   worker and then raises: the row is left at WINDOW_BOUND, unresolved, for a child that has a worker.
   */
  lemma BoundReconcileAdoptsAndRaises(acts: seq<Action>, id: nat, url: PageUrl)
    requires Legal(acts) && Exec(acts).hand.Idle? && id < |Exec(acts).attempts|
    requires Exec(acts).attempts[id].state.WindowBound? && InProject(Some(url), Exec(acts).attempts[id])
    ensures Enabled(Exec(acts), Adopt(id, url)) && !Enabled(Apply(Exec(acts), Adopt(id, url)), Publish)
    ensures
      var s, s' := Exec(acts), Apply(Apply(Exec(acts), Adopt(id, url)), Crash);
      s'.attempts == s.attempts && s'.hand.Idle? && s.attempts[id].child in s'.adopted
  {
    RunKeepsInv(acts);
  }
}
