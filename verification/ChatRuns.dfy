/** Complete runs of the chat dispatcher in which its promises run out. */
module ChatRuns {
  import opened Prelude
  import opened ChatProtocol
  import opened ChatSafety
  import opened ChatReach
  import opened ChatLimits

  // ---- The second close call of an idle episode ----

  lemma {:induction false} Listing(ids: set<PageId>) returns (order: seq<PageId>)
    ensures forall pid :: pid in order <==> pid in ids
    ensures forall i, j :: 0 <= i < j < |order| ==> order[i] != order[j]
    decreases |ids|
  {
    if ids == {} {
      order := [];
    } else {
      var pid :| pid in ids;
      var rest := Listing(ids - {pid});
      order := [pid] + rest;
    }
  }

  /** Between passes, with nothing pending for it, an owned idle page that is due can be closed first. */
  lemma CloseFirst(s: Sys, pid: PageId, now: int, gone: bool) returns (t: Sys)
    requires Kept(s) && s.hand == Scanning([]) && pid in s.pages && !PendingFor(s.jobs, s.pages[pid].key)
    requires s.pages[pid].owned && s.pages[pid].state.PageIdle?
    requires s.pages[pid].closeAfter.Some? && s.pages[pid].closeAfter.value <= now
    ensures Reach(s, t) && t.log == s.log + [PageCloseCalled(pid, now)]
  {
    var rest := Listing(set p | p in s.pages && !s.pages[p].state.PageClosed? && p != pid);
    var order := [pid] + rest;
    forall i | 0 <= i < |order| ensures order[i] in s.pages && !s.pages[order[i]].state.PageClosed? {
      assert order[i] in order;
      assert i > 0 ==> order[i] in rest;
    }
    forall i, j | 0 <= i < j < |order| ensures order[i] != order[j] {
      assert order[j] == rest[j - 1] && rest[j - 1] in rest;
    }
    t := Step(s, SweepingBy(BeginSweep(order)));
    assert t.hand.snap[0] == (pid, s.pages[pid]);
    t := Go(s, t, SweepingBy(SweepCheck));
    t := Go(s, t, SweepingBy(SweepClose(now, gone)));
  }

  /** Only jobs that no step has touched are pending while a close is in flight, so all of them can be cancelled. */
  lemma NothingPending(s: Sys, t: Sys)
    requires Drains(s) && s.hand.CloseReplied? && CancelledUpTo(s.jobs, t.jobs, s.hand.row.key, |s.jobs|)
    ensures !PendingFor(t.jobs, s.hand.row.key)
  {
    forall i | 0 <= i < |t.jobs| && t.jobs[i].key == s.hand.row.key ensures Terminal(t.jobs[i].state) {
      assert t.jobs[i].key == s.jobs[i].key;
    }
  }

  lemma CloseRepeats(s: Sys, max: nat, due: int, limit: nat, now: int, gone: bool) returns (t: Sys)
    requires Kept(s) && s.hand.CloseReplied?
    requires s.hand.row.closeAfter.Some? && s.hand.row.closeAfter.value <= now
    ensures Reach(s, t) && t.log == s.log + [EngineDied] + [PageCloseCalled(s.hand.pid, now)]
  {
    Known(s);
    var pid, key := s.hand.pid, s.hand.row.key;
    var u := CancelUpTo(s, key, |s.jobs|);
    NothingPending(s, u);
    var v := Restart(u, max, due, limit);
    ReachTrans(s, u, v);
    var w := PassTo(v, |v.hand.todo|);
    ReachTrans(s, v, w);
    t := CloseFirst(w, pid, now, gone);
    ReachTrans(s, w, t);
  }

  /**
   The exact gap: from every state between a close call and the write of its row, a death of the engine can be
   followed by a second close call of the same idle episode, whatever else is queued or open.
   */
  lemma CrashRepeatsClose(acts: seq<Action>, max: nat, due: int, limit: nat, now: int, gone: bool) returns (t: Sys)
    requires Legal(acts) && Exec(acts).hand.CloseReplied?
    requires forall at :: PageCloseCalled(Exec(acts).hand.pid, at) in Exec(acts).log ==> at <= now
    ensures var log, pid := Exec(acts).log, Exec(acts).hand.pid; var k := |log| - 1;
      && k >= 0 && Reach(Exec(acts), t) && t.log == log + [EngineDied] + [PageCloseCalled(pid, now)]
      && t.log[k].PageCloseCalled? && t.log[k].page == pid
      && LastEpisode(t.log[..k], pid) == LastEpisode(t.log[..k + 2], pid)
  {
    RunIsKept(acts);
    DueInFlight(Exec(acts));
    assert Exec(acts).log[|Exec(acts).log| - 1] in Exec(acts).log;
    t := CloseRepeats(Exec(acts), max, due, limit, now, gone);
    SameEpisode(Exec(acts).log, Exec(acts).hand.pid, now);
  }

  lemma DueInFlight(s: Sys)
    requires Kept(s)
    ensures CloseInFlight(s.log, s.hand)
  {
    Known(s);
  }

  lemma SameEpisode(log: seq<Event>, pid: PageId, now: int)
    requires log != [] && !EpisodeEvent(log[|log| - 1], pid)
    ensures var more, k := log + [EngineDied] + [PageCloseCalled(pid, now)], |log| - 1;
      more[k] == log[k] && LastEpisode(more[..k], pid) == LastEpisode(more[..k + 2], pid)
  {
    var more, k := log + [EngineDied] + [PageCloseCalled(pid, now)], |log| - 1;
    assert more[..k + 2] == log + [EngineDied];
    assert more[..k] == log[..k] && log == log[..k] + [log[k]];
    EpisodeAppend(log, EngineDied, pid);
    EpisodeAppend(log[..k], log[k], pid);
  }

  // ---- From empty tables ----

  /** A job as it is enqueued, with an address or a project to open. */
  predicate Submittable(job: Job) {
    job.state.Queued? && job.attempts == 0 && (job.url.Some? || job.project.Some?)
  }

  lemma OneTicket(job: Job, now: int)
    requires Eligible(job.state) && job.nextAttemptAt <= now
    ensures EligibleFrom([job], now, 200, 0) == [Ticket(0, job)]
  {
    var jobs := [job];
    assert EligibleFrom(jobs, now, 199, 1) == [];
    assert EligibleFrom(jobs, now, 200, 0) == [Ticket(0, jobs[0])] + EligibleFrom(jobs, now, 199, 1);
  }

  lemma Enqueued(job: Job) returns (s: Sys)
    requires Submittable(job)
    ensures Reach(Init(), s) && Kept(s) && s.hand.Off? && s.jobs == [job] && s.pages == map[] && s.log == []
  {
    EmptyIsKept();
    s := Step(Init(), World(Enqueue(job, Conversation(job.url, job.project))));
    assert s.jobs == [] + [job];
  }

  lemma Snapshotted(job: Job) returns (s: Sys)
    requires Submittable(job)
    ensures Reach(Init(), s) && Kept(s) && s.hand == Scanning([Ticket(0, job)]) && s.jobs == [job]
    ensures s.pages == map[] && s.log == [] && s.maxWindows == 1
  {
    s := Enqueued(job);
    s := Go(Init(), s, World(Boot(1)));
    OneTicket(job, job.nextAttemptAt);
    s := Go(Init(), s, Scan(BeginPass(job.nextAttemptAt, 200)));
  }

  /** The engine has the only job in hand, without a page. */
  ghost predicate Alone(s: Sys, seen: Job, g: Stage) {
    && Kept(s) && |s.jobs| == 1 && s.maxWindows == 1 && s.pages == map[] && s.hand == Work(0, seen, [], g)
    && Submittable(seen)
  }

  lemma Opened(s: Sys, seen: Job, ident: PageIdentity) returns (t: Sys)
    requires Alone(s, seen, Acquire)
    ensures Reach(s, t) && Kept(t) && |t.jobs| == 1 && t.jobs[0].nextAttemptAt == s.jobs[0].nextAttemptAt
    ensures t.hand == Work(0, seen, [], Upserted(ident.id))
    ensures t.pages == map[ident.id := Page(seen.key, ident.url, ident.owned, PageOpen, None, None)]
    ensures t.log == s.log + [WindowOpenCalled(0, seen.key), PageReopened(ident.id)]
  {
    assert OwnedActive(s.pages) == {};
    t := Step(s, Acquiring(Authorize));
    t := Go(s, t, Acquiring(OpenWindow(Some(ident))));
    t := Go(s, t, Acquiring(Upsert));
  }

  lemma Delivered(s: Sys, seen: Job, pid: PageId, out: SendOutcome) returns (t: Sys)
    requires Kept(s) && |s.jobs| == 1 && s.hand == Work(0, seen, [], Upserted(pid))
    ensures Reach(s, t) && Kept(t) && |t.jobs| == 1 && t.pages == s.pages
    ensures t.hand == Work(0, seen, [], Replied(pid, out))
    ensures t.log == s.log + [SendCalled(0, seen.key, pid, out)]
  {
    t := Step(s, Acquiring(WriteBound));
    t := Go(s, t, Sending(Arm));
    t := Go(s, t, Sending(Send(out)));
  }

  /** Every job can be cancelled after the engine has listed it and be opened a window for and sent all the same. */
  lemma CancelledJobIsSent(job: Job, ident: PageIdentity, out: SendOutcome) returns (s: Sys, t: Sys)
    requires Submittable(job)
    ensures Reach(Init(), s) && s.jobs == [job.(state := Cancelled)] && s.log == [] && Reach(s, t)
    ensures t.log ==
      [WindowOpenCalled(0, job.key), PageReopened(ident.id), SendCalled(0, job.key, ident.id, out)]
  {
    s := Snapshotted(job);
    s := Go(Init(), s, World(Cancel(0)));
    var u := Step(s, Scan(Take));
    var v := Opened(u, job, ident);
    ReachTrans(s, u, v);
    t := Delivered(v, job, ident.id, out);
    ReachTrans(s, v, t);
  }

  /** An open of unknown outcome, followed by a death before the second row is written, and a send after all. */
  lemma UnknownOpenIsSent(job: Job) returns (s: Sys)
    requires Submittable(job)
    ensures Reach(Init(), s) && s.log == [WindowOpenCalled(0, job.key)]
    ensures s.hand == Work(0, job, [], Unresolved) && CanBeSent(s, 0)
  {
    s := Snapshotted(job);
    s := Go(Init(), s, Scan(Take));
    assert OwnedActive(s.pages) == {};
    s := Go(Init(), s, Acquiring(Authorize));
    s := Go(Init(), s, Acquiring(OpenWindow(None)));
    OpeningCanBeSent(s, 0);
  }

  lemma MaybeDelivered(job: Job, ident: PageIdentity) returns (s: Sys)
    requires Submittable(job)
    ensures Reach(Init(), s) && Kept(s) && |s.jobs| == 1 && s.jobs[0].state.ReconcileRequired?
    ensures ActiveFor(s.pages, s.jobs[0].key, ident.id)
  {
    var r := Snapshotted(job);
    r := Go(Init(), r, Scan(Take));
    var u := Opened(r, job, ident);
    ReachTrans(Init(), r, u);
    s := Delivered(u, job, ident.id, SendRaised);
    ReachTrans(Init(), u, s);
    KnownHand(s);
    s := Go(Init(), s, Sending(Settle(0, 0, None)));
  }

  /** A nonce seen twice, and an acknowledgement of the same job after all. */
  lemma DuplicateIsAcknowledged(job: Job, ident: PageIdentity) returns (s: Sys)
    requires Submittable(job)
    ensures Reach(Init(), s) && s.hand.Work? && s.hand.id == 0 && s.hand.stage == Duplicated(ident.id)
    ensures CanBeAcknowledged(s, 0)
  {
    var r := MaybeDelivered(job, ident);
    s := TakeAgain(r, 0);
    ReachTrans(Init(), r, s);
    KnownHand(s);
    s := Go(Init(), s, Look(Watching(ident.id)));
    s := Go(Init(), s, Confirming(Duplicate(AckResult(true, 2, None))));
    AcknowledgedAgain(s, 0);
  }

  /** The window of a job is open, the job itself has failed, and the pass is over. */
  lemma Emptied(job: Job, ident: PageIdentity) returns (s: Sys)
    requires Submittable(job)
    ensures Reach(Init(), s) && Kept(s) && s.hand == Scanning([]) && |s.jobs| == 1 && Terminal(s.jobs[0].state)
    ensures s.pages == map[ident.id := Page(job.key, ident.url, ident.owned, PageOpen, None, None)]
    ensures s.log == [WindowOpenCalled(0, job.key), PageReopened(ident.id)]
  {
    var r := Snapshotted(job);
    r := Go(Init(), r, Scan(Take));
    s := Opened(r, job, ident);
    ReachTrans(Init(), r, s);
    s := Go(Init(), s, Acquiring(FailAcquire));
  }

  lemma Swept(s: Sys, pid: PageId, row: Page) returns (t: Sys)
    requires Kept(s) && s.hand == Scanning([]) && |s.jobs| == 1 && Terminal(s.jobs[0].state)
    requires s.pages == map[pid := row] && row.owned && !row.state.PageClosed?
    ensures Reach(s, t) && Kept(t) && t.hand == Closing(pid, row, [])
    ensures t.jobs == s.jobs && t.pages == s.pages && t.log == s.log
  {
    t := Step(s, SweepingBy(BeginSweep([pid])));
    assert t.hand.snap == [(pid, row)];
    t := Go(s, t, SweepingBy(SweepCheck));
  }

  lemma Idled(job: Job, ident: PageIdentity) returns (s: Sys)
    requires Submittable(job) && ident.owned
    ensures Reach(Init(), s) && Kept(s) && s.hand == Scanning([]) && |s.jobs| == 1 && Terminal(s.jobs[0].state)
    ensures s.pages == map[ident.id := Page(job.key, ident.url, true, PageIdle, Some(0), Some(1))]
    ensures s.log == [WindowOpenCalled(0, job.key), PageReopened(ident.id), PageIdled(ident.id, 0, 1)]
  {
    var r := Emptied(job, ident);
    s := Swept(r, ident.id, r.pages[ident.id]);
    ReachTrans(Init(), r, s);
    s := Go(Init(), s, SweepingBy(SweepIdle(0, 1)));
    s := Go(Init(), s, SweepingBy(EndPass));
    assert EligibleFrom(s.jobs, 0, 200, 0) == EligibleFrom(s.jobs, 0, 200, 1) == [];
    s := Go(Init(), s, Scan(BeginPass(0, 200)));
  }

  /** A page closed twice in one idle episode, from empty tables. */
  lemma PageIsClosedTwice(job: Job, ident: PageIdentity, gone: bool) returns (t: Sys)
    requires Submittable(job) && ident.owned
    ensures Reach(Init(), t)
    ensures t.log ==
      [WindowOpenCalled(0, job.key), PageReopened(ident.id), PageIdled(ident.id, 0, 1),
       PageCloseCalled(ident.id, 1), EngineDied, PageCloseCalled(ident.id, 1)]
  {
    var r := Idled(job, ident);
    var s := Swept(r, ident.id, r.pages[ident.id]);
    ReachTrans(Init(), r, s);
    s := Go(Init(), s, SweepingBy(SweepClose(1, gone)));
    t := CloseRepeats(s, 1, 0, 200, 1, gone);
    ReachTrans(Init(), s, t);
  }
}
