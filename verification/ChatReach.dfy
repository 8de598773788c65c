/** What the engine and its environment can bring about from a given state of the chat dispatcher. */
module ChatReach {
  import opened Prelude
  import opened ChatProtocol
  import opened ChatSafety

  // ---- Runs from a state ----

  ghost predicate CanRun(s: Sys, acts: seq<Action>)
    decreases |acts|, 0
  {
    acts == [] || (CanRun(s, acts[..|acts| - 1]) && Enabled(RunFrom(s, acts[..|acts| - 1]), acts[|acts| - 1]))
  }

  ghost function RunFrom(s: Sys, acts: seq<Action>): Sys
    requires CanRun(s, acts)
    decreases |acts|, 1
  {
    if acts == [] then s else Apply(RunFrom(s, acts[..|acts| - 1]), acts[|acts| - 1])
  }

  predicate Marked(s: Sys) { true }

  /**
   Some run leads from `s` to `t`.  The outer quantifier is there to be instantiated by hand (`RunTo`): a
   proof that only carries this fact along then never unfolds the run.
   */
  ghost predicate Reach(s: Sys, t: Sys) {
    forall u {:trigger Marked(u)} :: Marked(u) && u == t ==> exists acts :: CanRun(s, acts) && RunFrom(s, acts) == u
  }

  lemma RunTo(s: Sys, t: Sys) returns (acts: seq<Action>)
    requires Reach(s, t)
    ensures CanRun(s, acts) && RunFrom(s, acts) == t
  {
    assert Marked(t);
    acts :| CanRun(s, acts) && RunFrom(s, acts) == t;
  }

  lemma ReachBy(s: Sys, acts: seq<Action>)
    requires CanRun(s, acts)
    ensures Reach(s, RunFrom(s, acts))
  {
  }

  /** A run goes on exactly as a run from its last state does. */
  lemma {:induction false} ContinuationIsRun(acts: seq<Action>, more: seq<Action>)
    requires Legal(acts)
    ensures Legal(acts + more) <==> CanRun(Exec(acts), more)
    ensures Legal(acts + more) ==> Exec(acts + more) == RunFrom(Exec(acts), more)
    decreases |more|
  {
    if more == [] {
      assert acts + more == acts;
    } else {
      ContinuationIsRun(acts, more[..|more| - 1]);
      assert (acts + more)[..|acts + more| - 1] == acts + more[..|more| - 1];
    }
  }

  /** So what a reachable state can reach is what the continuations of its run lead to. */
  lemma ReachIsContinuation(acts: seq<Action>, t: Sys)
    requires Legal(acts)
    ensures Reach(Exec(acts), t) <==> exists more :: Legal(acts + more) && Exec(acts + more) == t
  {
    if Reach(Exec(acts), t) {
      var more := RunTo(Exec(acts), t);
      ContinuationIsRun(acts, more);
      assert Legal(acts + more) && Exec(acts + more) == t;
    }
    forall more | Legal(acts + more) && Exec(acts + more) == t
      ensures Reach(Exec(acts), t)
    {
      ContinuationIsRun(acts, more);
      ReachBy(Exec(acts), more);
    }
  }

  lemma ReachSelf(s: Sys)
    ensures Reach(s, s)
  {
    ReachBy(s, []);
  }

  lemma ReachStep(s: Sys, t: Sys, a: Action)
    requires Reach(s, t) && Enabled(t, a)
    ensures Reach(s, Apply(t, a))
  {
    var acts := RunTo(s, t);
    var more := acts + [a];
    assert more[..|more| - 1] == acts;
    ReachBy(s, more);
  }

  lemma {:induction false} ReachAlong(s: Sys, t: Sys, acts: seq<Action>)
    requires Reach(s, t) && CanRun(t, acts)
    ensures Reach(s, RunFrom(t, acts))
    decreases |acts|
  {
    if acts != [] {
      ReachAlong(s, t, acts[..|acts| - 1]);
      ReachStep(s, RunFrom(t, acts[..|acts| - 1]), acts[|acts| - 1]);
    }
  }

  lemma ReachTrans(s: Sys, t: Sys, u: Sys)
    requires Reach(s, t) && Reach(t, u)
    ensures Reach(s, u)
  {
    var acts := RunTo(t, u);
    ReachAlong(s, t, acts);
  }

  lemma {:induction false} RunKeeps(s: Sys, acts: seq<Action>)
    requires Inv(s) && CanRun(s, acts)
    ensures Inv(RunFrom(s, acts))
    decreases |acts|
  {
    if acts != [] {
      RunKeeps(s, acts[..|acts| - 1]);
      StepKeepsInv(RunFrom(s, acts[..|acts| - 1]), acts[|acts| - 1]);
    }
  }

  /** The invariant, to be instantiated by hand (`Known`): a proof that only carries it along never unfolds it. */
  ghost predicate Kept(s: Sys) {
    forall u {:trigger Marked(u)} :: Marked(u) && u == s ==> Inv(u)
  }

  lemma Known(s: Sys)
    requires Kept(s)
    ensures Inv(s)
  {
    assert Marked(s);
  }

  lemma RunIsKept(acts: seq<Action>)
    requires Legal(acts)
    ensures Kept(Exec(acts))
  {
    RunKeepsInv(acts);
  }

  lemma EmptyIsKept()
    ensures Kept(Init())
  {
    EmptyInv(Init());
  }

  /** What the invariant says of the job in hand. */
  lemma KnownHand(s: Sys)
    requires Kept(s) && s.hand.Work?
    ensures s.hand.id < |s.jobs| && s.jobs[s.hand.id].key == s.hand.seen.key
    ensures StageOk(s.jobs[s.hand.id].state, s.hand.stage) && StagePage(s.pages, s.hand.seen.key, s.hand.stage)
  {
    Known(s);
  }

  lemma Go(s: Sys, t: Sys, a: Action) returns (u: Sys)
    requires Reach(s, t) && Kept(t) && Enabled(t, a)
    ensures u == Apply(t, a) && Reach(s, u) && Kept(u)
  {
    u := Apply(t, a);
    ReachStep(s, t, a);
    Known(t);
    StepKeepsInv(t, a);
  }

  lemma Step(s: Sys, a: Action) returns (t: Sys)
    requires Kept(s) && Enabled(s, a)
    ensures t == Apply(s, a) && Reach(s, t) && Kept(t)
  {
    ReachSelf(s);
    t := Go(s, s, a);
  }

  // ---- Finishing what is in hand ----

  /** A step that leaves other jobs alone, and the active pages of other conversations active. */
  ghost predicate Minds(s: Sys, t: Sys)
    requires s.hand.Work?
  {
    && |t.jobs| == |s.jobs|
    && (forall j :: 0 <= j < |s.jobs| ==> t.jobs[j].key == s.jobs[j].key)
    && (forall j :: 0 <= j < |s.jobs| && j != s.hand.id ==> t.jobs[j].state == s.jobs[j].state)
    && (forall key, p :: key != s.hand.seen.key && ActiveFor(s.pages, key, p) ==> ActiveFor(t.pages, key, p))
  }

  /** Nothing the engine can still do with the job in hand makes it terminal within this pass. */
  ghost predicate Doomed(s: Sys)
    requires s.hand.Work?
  {
    match s.hand.stage
    case Replied(_, out) => PossiblyEffective(out)
    case Watch => NoActive(s.pages, s.hand.seen.key)
    case Duplicated(_) => true
    case _ => false
  }

  /** The engine has put the job down, and it is terminal unless it was doomed. */
  ghost predicate Finishes(s: Sys, t: Sys)
    requires s.hand.Work?
  {
    && Reach(s, t) && Kept(t) && Minds(s, t) && t.hand == Scanning(s.hand.rest)
    && (!Doomed(s) && s.hand.id < |s.jobs| ==> Terminal(t.jobs[s.hand.id].state))
    && (AcquiringStage(s.hand.stage) ==> t.pages == s.pages)
  }

  /** One more step before finishing. */
  lemma AfterStep(s: Sys, u: Sys, t: Sys)
    requires s.hand.Work? && Reach(s, u) && Minds(s, u) && u.hand.Work? && u.hand == s.hand.(stage := u.hand.stage)
    requires Finishes(u, t) && (Doomed(u) ==> Doomed(s)) && !AcquiringStage(s.hand.stage)
    ensures Finishes(s, t)
  {
    ReachTrans(s, u, t);
  }

  lemma FinishAcquiring(s: Sys) returns (t: Sys)
    requires Kept(s) && s.hand.Work? && AcquiringStage(s.hand.stage)
    ensures Finishes(s, t)
  {
    KnownHand(s);
    t := Step(s, Acquiring(FailAcquire));
  }

  lemma FinishReplied(s: Sys) returns (t: Sys)
    requires Kept(s) && s.hand.Work? && s.hand.stage.Replied?
    ensures Finishes(s, t)
  {
    KnownHand(s);
    t := Step(s, Sending(Settle(0, 0, None)));
    if t.jobs[s.hand.id].state.RetryWait? {
      t := Go(s, t, World(Cancel(s.hand.id)));
    }
  }

  lemma FinishArmed(s: Sys) returns (t: Sys)
    requires Kept(s) && s.hand.Work? && s.hand.stage.Armed?
    ensures Finishes(s, t)
  {
    KnownHand(s);
    var u := Step(s, Sending(Send(SendReturned(false, false, false))));
    t := FinishReplied(u);
    AfterStep(s, u, t);
  }

  lemma FinishPaged(s: Sys) returns (t: Sys)
    requires Kept(s) && s.hand.Work? && s.hand.stage.Paged?
    ensures Finishes(s, t)
  {
    KnownHand(s);
    var u := Step(s, Sending(Arm));
    t := FinishArmed(u);
    AfterStep(s, u, t);
  }

  lemma FinishDrained(s: Sys) returns (t: Sys)
    requires Kept(s) && s.hand.Work? && s.hand.stage.Drained?
    ensures Finishes(s, t)
  {
    KnownHand(s);
    t := Step(s, Confirming(RestAfterAck(0, 1)));
  }

  lemma FinishAcked(s: Sys) returns (t: Sys)
    requires Kept(s) && s.hand.Work? && s.hand.stage.Acked?
    ensures Finishes(s, t)
  {
    KnownHand(s);
    if PendingFor(s.jobs, s.hand.seen.key) {
      t := Step(s, Scan(Release));
    } else {
      var u := Step(s, Confirming(Drain));
      t := FinishDrained(u);
      AfterStep(s, u, t);
    }
  }

  lemma FinishWatched(s: Sys) returns (t: Sys)
    requires Kept(s) && s.hand.Work? && s.hand.stage.Watched?
    ensures Finishes(s, t)
  {
    KnownHand(s);
    var u := Step(s, Confirming(Acknowledge(0, AckResult(true, 1, Some(false)))));
    t := FinishAcked(u);
    AfterStep(s, u, t);
  }

  lemma FinishWatch(s: Sys) returns (t: Sys)
    requires Kept(s) && s.hand.Work? && s.hand.stage.Watch?
    ensures Finishes(s, t)
  {
    KnownHand(s);
    if NoActive(s.pages, s.hand.seen.key) {
      t := Step(s, Scan(Release));
    } else {
      var pid :| pid in s.pages && ActiveFor(s.pages, s.hand.seen.key, pid);
      var u := Step(s, Look(Watching(pid)));
      t := FinishWatched(u);
      AfterStep(s, u, t);
    }
  }

  lemma FinishDuplicated(s: Sys) returns (t: Sys)
    requires Kept(s) && s.hand.Work? && s.hand.stage.Duplicated?
    ensures Finishes(s, t)
  {
    KnownHand(s);
    t := Step(s, Confirming(Quarantine));
  }

  /** Whatever the engine has in hand, some run puts it down, and finishes it unless it is doomed. */
  lemma FinishHand(s: Sys) returns (t: Sys)
    requires Kept(s) && s.hand.Work?
    ensures Finishes(s, t)
  {
    match s.hand.stage
    case Paged(_) => t := FinishPaged(s);
    case Armed(_) => t := FinishArmed(s);
    case Replied(_, _) => t := FinishReplied(s);
    case Watch => t := FinishWatch(s);
    case Watched(_) => t := FinishWatched(s);
    case Duplicated(_) => t := FinishDuplicated(s);
    case Acked(_) => t := FinishAcked(s);
    case Drained(_) => t := FinishDrained(s);
    case _ => t := FinishAcquiring(s);
  }

  // ---- Cancelling ----

  /** The rows of `jobs` with the first `n` of conversation `key` cancelled as far as they can be. */
  ghost predicate CancelledUpTo(jobs: seq<Job>, jobs': seq<Job>, key: string, n: nat) {
    && |jobs'| == |jobs|
    && forall j :: 0 <= j < |jobs| ==>
         jobs'[j] ==
           if j < n && jobs[j].key == key && Cancellable(jobs[j].state) then jobs[j].(state := Cancelled)
           else jobs[j]
  }

  lemma {:induction false} CancelUpTo(s: Sys, key: string, n: nat) returns (t: Sys)
    requires Kept(s) && n <= |s.jobs|
    ensures Reach(s, t) && Kept(t) && CancelledUpTo(s.jobs, t.jobs, key, n)
    ensures t.hand == s.hand && t.pages == s.pages && t.log == s.log && t.maxWindows == s.maxWindows
    decreases n
  {
    if n == 0 {
      ReachSelf(s);
      t := s;
    } else {
      t := CancelUpTo(s, key, n - 1);
      if t.jobs[n - 1].key == key && Cancellable(t.jobs[n - 1].state) {
        t := Go(s, t, World(Cancel(n - 1)));
      }
    }
  }

  // ---- Passing over tickets without a trace in pages and calls ----

  function Ids(todo: seq<Ticket>): set<nat> { set k | 0 <= k < |todo| :: todo[k].id }

  /** Only the rows in `ids` may differ, and no terminal row has been reopened. */
  ghost predicate Spares(s: Sys, t: Sys, ids: set<nat>) {
    && t.pages == s.pages && t.log == s.log && |t.jobs| == |s.jobs| && t.maxWindows == s.maxWindows
    && (forall j :: 0 <= j < |s.jobs| && j !in ids ==> t.jobs[j] == s.jobs[j])
    && (forall j :: 0 <= j < |s.jobs| ==> t.jobs[j].key == s.jobs[j].key)
    && (forall j :: 0 <= j < |s.jobs| && Terminal(s.jobs[j].state) ==> Terminal(t.jobs[j].state))
  }

  lemma PutDown(s: Sys) returns (t: Sys)
    requires Kept(s) && s.hand.Work? && (s.hand.stage.Acquire? || s.hand.stage.Watch?)
    ensures Reach(s, t) && Kept(t) && t.hand == Scanning(s.hand.rest)
    ensures Spares(s, t, {s.hand.id})
  {
    KnownHand(s);
    if s.hand.stage.Acquire? {
      t := Step(s, Acquiring(FailAcquire));
    } else if NoActive(s.pages, s.hand.seen.key) {
      t := Step(s, Scan(Release));
    } else {
      var pid :| pid in s.pages && ActiveFor(s.pages, s.hand.seen.key, pid);
      var u := Step(s, Look(Watching(pid)));
      t := Go(s, u, Confirming(Inconclusive(Some(AckResult(false, 0, None)))));
    }
  }

  lemma PassOver(s: Sys) returns (t: Sys)
    requires Kept(s) && s.hand.Scanning? && s.hand.todo != []
    ensures Reach(s, t) && Kept(t) && t.hand == Scanning(s.hand.todo[1..]) && Spares(s, t, {s.hand.todo[0].id})
  {
    Known(s);
    assert TicketOk(s.jobs, s.hand.todo[0]);
    if OlderUnfinished(s.jobs, s.hand.todo[0].id) {
      t := Step(s, Scan(Skip(0)));
    } else {
      var u := Step(s, Scan(Take));
      t := PutDown(u);
      ReachTrans(s, u, t);
    }
  }

  /** The engine can get to any place in its snapshot without a call and without touching a page row. */
  lemma {:induction false} PassTo(s: Sys, k: nat) returns (t: Sys)
    requires Kept(s) && s.hand.Scanning? && k <= |s.hand.todo|
    ensures Reach(s, t) && Kept(t) && t.hand == Scanning(s.hand.todo[k..]) && Spares(s, t, Ids(s.hand.todo[..k]))
    decreases k
  {
    if k == 0 {
      ReachSelf(s);
      t := s;
    } else {
      var u := PassTo(s, k - 1);
      t := PassOver(u);
      ReachTrans(s, u, t);
      ListedFurther(s, u, t, s.hand.todo, k);
    }
  }

  lemma ListedFurther(s: Sys, u: Sys, t: Sys, todo: seq<Ticket>, k: nat)
    requires 0 < k <= |todo| && Spares(s, u, Ids(todo[..k - 1])) && Spares(u, t, {todo[k - 1].id})
    ensures Spares(s, t, Ids(todo[..k]))
  {
    assert todo[..k][k - 1].id in Ids(todo[..k]);
    forall x | x in Ids(todo[..k - 1]) ensures x in Ids(todo[..k]) {
      var m :| 0 <= m < k - 1 && todo[..k - 1][m].id == x;
      assert todo[..k][m] == todo[..k - 1][m];
    }
  }

  // ---- The next pass ----

  /** A pass that is long enough lists every eligible row that is due. */
  lemma {:induction false} Listed(jobs: seq<Job>, now: int, limit: nat, from: nat, id: nat) returns (k: nat)
    requires from <= id < |jobs| && |jobs| - from <= limit && Eligible(jobs[id].state) && jobs[id].nextAttemptAt <= now
    ensures k < |EligibleFrom(jobs, now, limit, from)|
    ensures EligibleFrom(jobs, now, limit, from)[k] == Ticket(id, jobs[id])
    decreases id - from
  {
    if from == id {
      k := 0;
    } else if Eligible(jobs[from].state) && jobs[from].nextAttemptAt <= now {
      k := Listed(jobs, now, limit - 1, from + 1, id);
      k := k + 1;
    } else {
      k := Listed(jobs, now, limit, from + 1, id);
    }
  }

  /** The engine dies, is started again, and scans. */
  lemma Restart(s: Sys, max: nat, now: int, limit: nat) returns (t: Sys)
    requires Kept(s)
    ensures Reach(s, t) && Kept(t) && t.jobs == s.jobs && t.pages == s.pages && t.log == s.log + [EngineDied]
    ensures t.hand == Scanning(EligibleFrom(s.jobs, now, limit, 0)) && t.maxWindows == max
  {
    t := Step(s, World(Die));
    t := Go(s, t, World(Boot(max)));
    t := Go(s, t, Scan(BeginPass(now, limit)));
  }

  /** After a death a job at the head of its conversation can be taken in hand again, its page as it was. */
  lemma TakeAgain(s: Sys, id: nat) returns (t: Sys)
    requires Kept(s) && id < |s.jobs| && Eligible(s.jobs[id].state) && !OlderUnfinished(s.jobs, id)
    ensures Reach(s, t) && Kept(t) && t.pages == s.pages && t.log == s.log + [EngineDied]
    ensures t.hand.Work? && t.hand.id == id && t.hand.seen == s.jobs[id]
    ensures t.hand.stage == if Acquirable(s.jobs[id].state) then Acquire else Watch
  {
    var u := Restart(s, 1, s.jobs[id].nextAttemptAt, |s.jobs|);
    var k := Listed(s.jobs, s.jobs[id].nextAttemptAt, |s.jobs|, 0, id);
    var v := PassTo(u, k);
    ReachTrans(s, u, v);
    assert v.hand.todo[0] == Ticket(id, s.jobs[id]);
    t := Go(s, v, Scan(Take));
  }
}
