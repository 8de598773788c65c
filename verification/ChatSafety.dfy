/** What every run of the chat dispatcher keeps, and what follows for the external calls it makes. */
module ChatSafety {
  import opened Prelude
  import opened ChatProtocol

  ghost function Todo(h: Hand): seq<Ticket> {
    if h.Scanning? then h.todo else if h.Work? then h.rest else []
  }

  /** The engine's snapshot still lists the job. */
  ghost predicate HasTicket(s: Sys, id: nat) {
    exists k :: 0 <= k < |Todo(s.hand)| && Todo(s.hand)[k].id == id
  }

  // ---- Tickets: what the engine's stale snapshots still say about the rows ----

  predicate TicketOk(jobs: seq<Job>, t: Ticket) {
    && t.id < |jobs| && jobs[t.id].key == t.seen.key
    && Eligible(t.seen.state)
    && (jobs[t.id].state == t.seen.state || (jobs[t.id].state.Cancelled? && Cancellable(t.seen.state)))
  }

  predicate Unsent(st: JobState) { Acquirable(st) || st.Cancelled? }

  predicate StageOk(st: JobState, g: Stage) {
    match g
    case Authorized | Unresolved => st.Opening? || st.Cancelled?
    case Acquire | Located(_, _) | Upserted(_) | Paged(_) => Unsent(st)
    case Armed(_) | Replied(_, _) => st.Submitting?
    case Watch | Watched(_) => st.Submitted? || st.ReconcileRequired?
    case Duplicated(_) => st.ReconcileRequired?
    case Acked(_) | Drained(_) => st.Acknowledged?
  }

  ghost predicate TicketsOk(jobs: seq<Job>, todo: seq<Ticket>) {
    && (forall k :: 0 <= k < |todo| ==> TicketOk(jobs, todo[k]))
    && (forall k, m :: 0 <= k < m < |todo| ==> todo[k].id < todo[m].id)
  }

  ghost predicate Tickets(s: Sys) {
    && TicketsOk(s.jobs, Todo(s.hand))
    && (s.hand.Work? ==>
          && s.hand.id < |s.jobs| && s.jobs[s.hand.id].key == s.hand.seen.key
          && (forall k :: 0 <= k < |s.hand.rest| ==> s.hand.id < s.hand.rest[k].id)
          && StageOk(s.jobs[s.hand.id].state, s.hand.stage))
  }

  lemma EligibleTickets(jobs: seq<Job>, now: int, limit: nat, from: nat)
    requires from <= |jobs|
    ensures TicketsOk(jobs, EligibleFrom(jobs, now, limit, from))
    ensures forall k :: 0 <= k < |EligibleFrom(jobs, now, limit, from)| ==>
      from <= EligibleFrom(jobs, now, limit, from)[k].id
    ensures forall k :: 0 <= k < |EligibleFrom(jobs, now, limit, from)| ==>
      jobs[EligibleFrom(jobs, now, limit, from)[k].id] == EligibleFrom(jobs, now, limit, from)[k].seen
    decreases |jobs| - from
  {
    if from < |jobs| && limit > 0 {
      if Eligible(jobs[from].state) && jobs[from].nextAttemptAt <= now {
        EligibleTickets(jobs, now, limit - 1, from + 1);
      } else {
        EligibleTickets(jobs, now, limit, from + 1);
      }
    }
  }

  /** Unfinished, not reserved, and its time has come. */
  predicate Due(j: Job, now: int) {
    && (j.state.Queued? || j.state.Opening? || j.state.WindowBound? || j.state.Submitting? || j.state.Submitted?
        || j.state.ReconcileRequired? || j.state.RetryWait?)
    && j.nextAttemptAt <= now
  }

  predicate Listed(r: seq<Ticket>, i: nat) { exists k :: 0 <= k < |r| && r[k].id == i }

  /** The tickets are due rows at or after `from`, as they are and in row order. */
  predicate ListsOnlyDue(jobs: seq<Job>, now: int, from: nat, r: seq<Ticket>) {
    && (forall k :: 0 <= k < |r| ==> from <= r[k].id < |jobs| && r[k].seen == jobs[r[k].id] && Due(r[k].seen, now))
    && (forall k, m :: 0 <= k < m < |r| ==> r[k].id < r[m].id)
  }

  /** Only a full list leaves out a due row, and only one after all that it lists. */
  predicate ListsDue(jobs: seq<Job>, now: int, limit: nat, from: nat, r: seq<Ticket>) {
    && |r| <= limit
    && forall i :: from <= i < |jobs| && Due(jobs[i], now) && !Listed(r, i) ==>
         |r| == limit && forall k :: 0 <= k < |r| ==> r[k].id < i
  }

  /** The snapshot of a pass lists the first due rows, as they are and in row order, up to its limit and no other. */
  lemma {:induction false} SnapshotIsExact(jobs: seq<Job>, now: int, limit: nat, from: nat)
    requires from <= |jobs|
    ensures ListsOnlyDue(jobs, now, from, EligibleFrom(jobs, now, limit, from))
    ensures ListsDue(jobs, now, limit, from, EligibleFrom(jobs, now, limit, from))
    decreases |jobs| - from
  {
    if from < |jobs| && limit > 0 {
      if Due(jobs[from], now) {
        SnapshotIsExact(jobs, now, limit - 1, from + 1);
        var rest := EligibleFrom(jobs, now, limit - 1, from + 1);
        PrependDue(jobs, now, limit, from, rest);
        assert EligibleFrom(jobs, now, limit, from) == [Ticket(from, jobs[from])] + rest;
      } else {
        SnapshotIsExact(jobs, now, limit, from + 1);
      }
    }
  }

  lemma ListedMore(first: Ticket, rest: seq<Ticket>, i: nat)
    ensures Listed([first] + rest, i) <==> i == first.id || Listed(rest, i)
  {
    var r := [first] + rest;
    assert r[0] == first && forall k :: 0 <= k < |rest| ==> rest[k] == r[k + 1];
  }

  lemma PrependDue(jobs: seq<Job>, now: int, limit: nat, from: nat, rest: seq<Ticket>)
    requires from < |jobs| && 0 < limit && Due(jobs[from], now)
    requires ListsOnlyDue(jobs, now, from + 1, rest) && ListsDue(jobs, now, limit - 1, from + 1, rest)
    ensures ListsOnlyDue(jobs, now, from, [Ticket(from, jobs[from])] + rest)
    ensures ListsDue(jobs, now, limit, from, [Ticket(from, jobs[from])] + rest)
  {
    var r := [Ticket(from, jobs[from])] + rest;
    forall i | from <= i < |jobs| && Due(jobs[i], now) && !Listed(r, i)
      ensures |r| == limit && forall k :: 0 <= k < |r| ==> r[k].id < i
    {
      ListedMore(Ticket(from, jobs[from]), rest, i);
      assert forall k :: 0 < k < |r| ==> r[k] == rest[k - 1];
    }
  }

  // ---- Head of line: younger jobs of a conversation have not been touched ----

  ghost predicate Quiet(log: seq<Event>, j: nat) {
    forall k :: 0 <= k < |log| && JobEvent(log[k]) ==> log[k].job != j
  }

  ghost predicate Untouched(jobs: seq<Job>, log: seq<Event>, j: nat)
    requires j < |jobs|
  {
    jobs[j].attempts == 0 && (jobs[j].state.Queued? || jobs[j].state.Cancelled?) && Quiet(log, j)
  }

  /** Every job of `key` younger than `id` is untouched. */
  ghost predicate YoungerUntouched(jobs: seq<Job>, log: seq<Event>, key: string, id: nat) {
    forall j :: id < j < |jobs| && jobs[j].key == key ==> Untouched(jobs, log, j)
  }

  ghost predicate Heads(s: Sys) {
    && (forall i :: 0 <= i < |s.jobs| && !Terminal(s.jobs[i].state) ==>
          YoungerUntouched(s.jobs, s.log, s.jobs[i].key, i))
    && (forall k :: 0 <= k < |Todo(s.hand)| ==>
          YoungerUntouched(s.jobs, s.log, Todo(s.hand)[k].seen.key, Todo(s.hand)[k].id))
    && (s.hand.Work? ==>
          && YoungerUntouched(s.jobs, s.log, s.hand.seen.key, s.hand.id)
          && forall i :: 0 <= i < s.hand.id && i < |s.jobs| && s.jobs[i].key == s.hand.seen.key ==>
               Terminal(s.jobs[i].state))
  }

  // ---- Sends ----

  /** Of the sends of one job, all but the last were proven effect-free and rate-limited. */
  ghost predicate AtMostOnce(log: seq<Event>) {
    forall k, m :: 0 <= k < m < |log| && log[k].SendCalled? && log[m].SendCalled? && log[k].job == log[m].job ==>
      CleanlyRateLimited(log[k].out)
  }

  predicate Spent(st: JobState) {
    st.Submitting? || st.Submitted? || st.ReconcileRequired? || st.Acknowledged? || st.Failed?
  }

  predicate SpentInHand(h: Hand, id: nat, out: SendOutcome) {
    h.Work? && h.id == id ==> !h.stage.Armed? && (h.stage.Replied? ==> h.stage.out == out)
  }

  ghost predicate Sends(s: Sys) {
    && AtMostOnce(s.log)
    && (s.hand.Work? && (s.hand.stage.Armed? || s.hand.stage.Replied?) && s.hand.id < |s.jobs| ==>
          s.jobs[s.hand.id].attempts > 0)
    && forall k :: 0 <= k < |s.log| && s.log[k].SendCalled? ==>
         && s.log[k].job < |s.jobs|
         && s.jobs[s.log[k].job].attempts > 0
         && (!CleanlyRateLimited(s.log[k].out) ==>
               Spent(s.jobs[s.log[k].job].state) && SpentInHand(s.hand, s.log[k].job, s.log[k].out))
  }

  // ---- FIFO ----

  /** The calls made for one conversation come in row order of their jobs. */
  ghost predicate InRowOrder(log: seq<Event>) {
    forall k, m :: 0 <= k < m < |log| && JobEvent(log[k]) && JobEvent(log[m]) && log[k].key == log[m].key ==>
      log[k].job <= log[m].job
  }

  ghost predicate Fifo(s: Sys) {
    && InRowOrder(s.log)
    && forall k :: 0 <= k < |s.log| && JobEvent(s.log[k]) ==>
         s.log[k].job < |s.jobs| && s.jobs[s.log[k].job].key == s.log[k].key
  }

  // ---- Pages ----

  ghost predicate UniquePages(pages: map<PageId, Page>) {
    forall p, q :: p in pages && q in pages && Active(pages[p]) && Active(pages[q]) && pages[p].key == pages[q].key ==>
      p == q
  }

  ghost predicate Fresh(pages: map<PageId, Page>, key: string, pid: PageId) {
    ActiveFor(pages, key, pid) && pages[pid].state.PageOpen? && pages[pid].closeAfter.None?
  }

  ghost predicate StagePage(pages: map<PageId, Page>, key: string, g: Stage) {
    match g
    case Acquire | Watch => true
    case Authorized | Unresolved | Located(_, _) => NoActive(pages, key)
    case Upserted(p) => Fresh(pages, key, p)
    case Paged(p) => Fresh(pages, key, p)
    case Armed(p) => Fresh(pages, key, p)
    case Replied(p, _) => ActiveFor(pages, key, p)
    case Watched(p) => ActiveFor(pages, key, p)
    case Duplicated(p) => ActiveFor(pages, key, p)
    case Acked(p) => ActiveFor(pages, key, p)
    case Drained(p) => ActiveFor(pages, key, p)
  }

  /** The rows of a sweep snapshot are still the rows of the table, and each page is listed once. */
  ghost predicate SnapFresh(pages: map<PageId, Page>, snap: seq<(PageId, Page)>) {
    && (forall k :: 0 <= k < |snap| ==> snap[k].0 in pages && pages[snap[k].0] == snap[k].1)
    && (forall k, m :: 0 <= k < m < |snap| ==> snap[k].0 != snap[m].0)
  }

  ghost predicate Pages(s: Sys) {
    && UniquePages(s.pages)
    && (s.hand.Work? ==> StagePage(s.pages, s.hand.seen.key, s.hand.stage))
    && (s.hand.Sweeping? || s.hand.Closing? || s.hand.CloseReplied? ==> SnapFresh(s.pages, s.hand.snap))
    && (s.hand.Closing? || s.hand.CloseReplied? ==>
          && s.hand.pid in s.pages && s.pages[s.hand.pid] == s.hand.row
          && s.hand.row.owned && (s.hand.CloseReplied? ==> s.hand.row.state.PageIdle?)
          && forall k :: 0 <= k < |s.hand.snap| ==> s.hand.snap[k].0 != s.hand.pid)
  }

  /** No row becomes active, and an active row keeps its conversation and its owner. */
  ghost predicate Tame(pages: map<PageId, Page>, pages': map<PageId, Page>) {
    forall p :: p in pages' && Active(pages'[p]) ==>
      p in pages && Active(pages[p]) && pages'[p].key == pages[p].key && pages'[p].owned == pages[p].owned
  }

  /** The owned active pages whose activity passed the window gate. */
  function GatedPages(s: Sys): set<PageId> {
    set pid | pid in s.pages && s.pages[pid].owned && Active(s.pages[pid]) && pid !in s.ungated
  }

  lemma TameBudget(pages: map<PageId, Page>, pages': map<PageId, Page>)
    requires Tame(pages, pages')
    ensures OwnedActive(pages') <= OwnedActive(pages)
  {
  }

  lemma UpsertBudget(s: Sys, id: PageId, row: Page, gated: bool)
    ensures
      var s' := s.(pages := s.pages[id := row], ungated := UngatedAfter(s, id, row, gated));
      if gated then |OwnedActive(s'.pages)| <= |OwnedActive(s.pages)| + 1
      else |GatedPages(s')| <= |GatedPages(s)|
  {
    var s' := s.(pages := s.pages[id := row], ungated := UngatedAfter(s, id, row, gated));
    if gated {
      SubsetSize(OwnedActive(s'.pages), OwnedActive(s.pages) + {id});
    } else {
      SubsetSize(GatedPages(s'), GatedPages(s));
    }
  }

  ghost predicate Budget(s: Sys) {
    && s.maxWindows <= s.peakWindows
    && |GatedPages(s)| <= s.peakWindows
    && (s.hand.Work? && (s.hand.stage.Authorized? || (s.hand.stage.Located? && s.hand.stage.gated)) ==>
          |OwnedActive(s.pages)| < s.maxWindows)
  }

  // ---- Names ----

  ghost predicate Names(s: Sys) {
    && (forall i, j :: 0 <= i < j < |s.jobs| && s.jobs[i].dispatchKey.Some? ==>
          s.jobs[i].dispatchKey != s.jobs[j].dispatchKey)
    && (forall k, m :: k in s.convs && m in s.convs && s.convs[k].url.Some? && s.convs[k].url == s.convs[m].url ==>
          k == m)
    && (forall i :: 0 <= i < |s.jobs| ==> s.jobs[i].key in s.convs)
  }

  // ---- Idle episodes ----

  predicate EpisodeEvent(e: Event, pid: PageId) { (e.PageIdled? || e.PageReopened?) && e.page == pid }

  /** Position of the event that began the page's current idle episode, or that ended its last one. */
  function LastEpisode(log: seq<Event>, pid: PageId): (r: Option<nat>)
    ensures r.Some? ==> r.value < |log| && EpisodeEvent(log[r.value], pid)
  {
    if log == [] then None
    else if EpisodeEvent(log[|log| - 1], pid) then Some(|log| - 1)
    else LastEpisode(log[..|log| - 1], pid)
  }

  lemma EpisodeAppend(log: seq<Event>, e: Event, pid: PageId)
    ensures LastEpisode(log + [e], pid) == if EpisodeEvent(e, pid) then Some(|log|) else LastEpisode(log, pid)
  {
    assert (log + [e])[..|log|] == log;
  }

  /** Nothing but a death of the engine can follow a close call whose outcome was not written. */
  ghost predicate CloseInterrupted(log: seq<Event>, hand: Hand, k: nat)
    requires k < |log| && log[k].PageCloseCalled?
  {
    (k + 1 < |log| && log[k + 1].EngineDied?) || (k + 1 == |log| && hand.CloseReplied? && hand.pid == log[k].page)
  }

  ghost predicate IdleRowOk(s: Sys, pid: PageId)
    requires pid in s.pages
  {
    s.pages[pid].state.PageIdle? && s.pages[pid].closeAfter.Some? ==>
      var i := LastEpisode(s.log, pid);
      && i.Some? && s.log[i.value].PageIdled?
      && s.pages[pid].closeAfter.value == s.log[i.value].since + Max(1, s.log[i.value].grace)
      && forall k :: i.value < k < |s.log| && s.log[k].PageCloseCalled? && s.log[k].page == pid ==>
           CloseInterrupted(s.log, s.hand, k)
  }

  /** The close call at `k` comes at least the grace after the page's current idle episode began. */
  ghost predicate CloseTimely(log: seq<Event>, k: nat)
    requires k < |log| && log[k].PageCloseCalled?
  {
    var i := LastEpisode(log[..k], log[k].page);
    i.Some? && log[i.value].PageIdled? && log[i.value].since + Max(1, log[i.value].grace) <= log[k].at
  }

  /** A second close call in one idle episode happens only when the engine died right after the first. */
  ghost predicate ClosedOnce(log: seq<Event>, k: nat, m: nat)
    requires k < m < |log| && log[k].PageCloseCalled?
  {
    log[m].PageCloseCalled? && log[m].page == log[k].page
      && LastEpisode(log[..k], log[k].page) == LastEpisode(log[..m], log[k].page) ==>
    log[k + 1].EngineDied?
  }

  ghost predicate Closes(log: seq<Event>) {
    && (forall k :: 0 <= k < |log| && log[k].PageCloseCalled? ==> CloseTimely(log, k))
    && (forall k, m :: 0 <= k < m < |log| && log[k].PageCloseCalled? ==> ClosedOnce(log, k, m))
  }

  /** While the outcome of a close is not written the close call is the last event, and it was due. */
  ghost predicate CloseInFlight(log: seq<Event>, hand: Hand) {
    hand.CloseReplied? ==>
      && log != [] && log[|log| - 1].PageCloseCalled? && log[|log| - 1].page == hand.pid
      && hand.row.closeAfter.Some? && hand.row.closeAfter.value <= log[|log| - 1].at
  }

  ghost predicate Idle(s: Sys) {
    Closes(s.log) && CloseInFlight(s.log, s.hand) && forall pid :: pid in s.pages ==> IdleRowOk(s, pid)
  }

  /** Unfinished jobs of a conversation can only have been enqueued since its queue was seen drained. */
  ghost predicate OnlyNewPending(s: Sys, key: string) {
    forall i :: 0 <= i < |s.jobs| && s.jobs[i].key == key && !Terminal(s.jobs[i].state) ==> Untouched(s.jobs, s.log, i)
  }

  ghost predicate Drains(s: Sys) {
    && (s.hand.Closing? || s.hand.CloseReplied? ==> OnlyNewPending(s, s.hand.row.key))
    && (s.hand.Work? && s.hand.stage.Drained? ==> OnlyNewPending(s, s.hand.seen.key))
  }

  ghost predicate Inv(s: Sys) {
    Drains(s) && Tickets(s) && Heads(s) && Sends(s) && Fifo(s) && Pages(s) && Budget(s) && Names(s) && Idle(s)
  }

  // ---- Every step keeps the invariant ----

  /** The columns of a job row that no step rewrites. */
  predicate SameDispatchRow(j: Job, j': Job) {
    j'.key == j.key && j'.dispatchKey == j.dispatchKey && j'.prompt == j.prompt && j'.project == j.project
  }

  /** What a step on one job may change: that job's row, and events about that job or about pages. */
  ghost predicate OnlyOwn(s: Sys, s': Sys) {
    && s.hand.Work? && |s'.jobs| == |s.jobs|
    && (forall j :: 0 <= j < |s.jobs| && j != s.hand.id ==>
          s'.jobs[j].state == s.jobs[j].state && s'.jobs[j].attempts == s.jobs[j].attempts)
    && (forall j :: 0 <= j < |s.jobs| ==> SameDispatchRow(s.jobs[j], s'.jobs[j]))
    && |s.log| <= |s'.log| <= |s.log| + 1 && s'.log[..|s.log|] == s.log
    && (|s.log| < |s'.log| && JobEvent(s'.log[|s.log|]) ==>
          s'.log[|s.log|].job == s.hand.id && s'.log[|s.log|].key == s.hand.seen.key)
    && (s'.hand == Scanning(s.hand.rest) || (s'.hand.Work? && s'.hand == s.hand.(stage := s'.hand.stage)))
  }

  predicate HandFits(s: Sys) {
    s.hand.Work? ==> s.hand.id < |s.jobs| && StageOk(s.jobs[s.hand.id].state, s.hand.stage)
  }

  lemma OwnKeepsTickets(s: Sys, s': Sys)
    requires Tickets(s) && OnlyOwn(s, s') && HandFits(s')
    ensures Tickets(s')
  {}

  lemma OwnKeepsHeads(s: Sys, s': Sys)
    requires Tickets(s) && Heads(s) && OnlyOwn(s, s')
    ensures Heads(s')
  {
    forall key, id | s.hand.id <= id && YoungerUntouched(s.jobs, s.log, key, id)
      ensures YoungerUntouched(s'.jobs, s'.log, key, id)
    {
    }
    forall i | 0 <= i < |s'.jobs| && !Terminal(s'.jobs[i].state)
      ensures YoungerUntouched(s'.jobs, s'.log, s'.jobs[i].key, i)
    {
      if i < s.hand.id && s.jobs[i].key != s.hand.seen.key {
        assert YoungerUntouched(s.jobs, s.log, s.jobs[i].key, i);
      }
    }
  }

  lemma OwnKeepsFifo(s: Sys, s': Sys)
    requires Tickets(s) && Heads(s) && Fifo(s) && OnlyOwn(s, s')
    ensures Fifo(s')
  {
    forall k | 0 <= k < |s.log| && JobEvent(s.log[k]) && s.log[k].key == s.hand.seen.key
      ensures s.log[k].job <= s.hand.id
    {
    }
    forall k | 0 <= k < |s.log|
      ensures s'.log[k] == s.log[k]
    {
      assert s'.log[k] == s'.log[..|s.log|][k];
    }
  }

  lemma WorldKeepsTickets(s: Sys, a: WorldStep)
    requires Tickets(s) && CanWorld(s, a)
    ensures Tickets(DoWorld(s, a))
  {}
  lemma ScanKeepsTickets(s: Sys, a: ScanStep)
    requires Tickets(s) && CanScan(s, a)
    ensures Tickets(DoScan(s, a))
  {
    if a.BeginPass? {
      EligibleTickets(s.jobs, a.now, a.limit, 0);
    }
  }
  lemma LookIsOwn(s: Sys, a: LookStep)
    requires Tickets(s) && CanLook(s, a)
    ensures OnlyOwn(s, DoLook(s, a)) && HandFits(DoLook(s, a))
  {}
  lemma AcquireIsOwn(s: Sys, a: AcquireStep)
    requires Tickets(s) && CanAcquire(s, a)
    ensures OnlyOwn(s, DoAcquire(s, a)) && HandFits(DoAcquire(s, a))
  {}
  lemma SendIsOwn(s: Sys, a: SendStep)
    requires Tickets(s) && CanSend(s, a)
    ensures OnlyOwn(s, DoSend(s, a)) && HandFits(DoSend(s, a))
  {}
  lemma ConfirmIsOwn(s: Sys, a: ConfirmStep)
    requires Tickets(s) && CanConfirm(s, a)
    ensures OnlyOwn(s, DoConfirm(s, a)) && HandFits(DoConfirm(s, a))
  {}

  predicate WorkAction(a: Action) { a.Look? || a.Acquiring? || a.Sending? || a.Confirming? }

  lemma WorkIsOwn(s: Sys, a: Action)
    requires Tickets(s) && Enabled(s, a) && WorkAction(a)
    ensures OnlyOwn(s, Apply(s, a))
  {
    match a
    case Look(l) => LookIsOwn(s, l);
    case Acquiring(g) => AcquireIsOwn(s, g);
    case Sending(d) => SendIsOwn(s, d);
    case Confirming(c) => ConfirmIsOwn(s, c);
  }

  lemma WorldKeepsHeads(s: Sys, a: WorldStep)
    requires Tickets(s) && Heads(s) && Fifo(s) && CanWorld(s, a)
    ensures Heads(DoWorld(s, a))
  {}

  lemma WorldKeepsFifo(s: Sys, a: WorldStep)
    requires Fifo(s) && CanWorld(s, a)
    ensures Fifo(DoWorld(s, a))
  {}

  lemma WorldKeepsOrder(s: Sys, a: WorldStep)
    requires Tickets(s) && Heads(s) && Fifo(s) && CanWorld(s, a)
    ensures Heads(DoWorld(s, a)) && Fifo(DoWorld(s, a))
  {
    WorldKeepsHeads(s, a);
    WorldKeepsFifo(s, a);
  }

  lemma ScanKeepsOrder(s: Sys, a: ScanStep)
    requires Tickets(s) && Heads(s) && Fifo(s) && CanScan(s, a)
    ensures Heads(DoScan(s, a)) && Fifo(DoScan(s, a))
  {
    if a.BeginPass? {
      EligibleTickets(s.jobs, a.now, a.limit, 0);
    }
  }

  lemma WorldKeepsSends(s: Sys, a: WorldStep)
    requires Tickets(s) && Sends(s) && CanWorld(s, a)
    ensures Sends(DoWorld(s, a))
  {}
  lemma ScanKeepsSends(s: Sys, a: ScanStep)
    requires Tickets(s) && Sends(s) && CanScan(s, a)
    ensures Sends(DoScan(s, a))
  {}
  lemma LookKeepsSends(s: Sys, a: LookStep)
    requires Tickets(s) && Sends(s) && CanLook(s, a)
    ensures Sends(DoLook(s, a))
  {}
  lemma AcquireKeepsSends(s: Sys, a: AcquireStep)
    requires Tickets(s) && Sends(s) && CanAcquire(s, a)
    ensures Sends(DoAcquire(s, a))
  {}
  lemma SendKeepsSends(s: Sys, a: SendStep)
    requires Tickets(s) && Sends(s) && CanSend(s, a)
    ensures Sends(DoSend(s, a))
  {}
  lemma ConfirmKeepsSends(s: Sys, a: ConfirmStep)
    requires Tickets(s) && Sends(s) && CanConfirm(s, a)
    ensures Sends(DoConfirm(s, a))
  {}

  lemma LookKeepsPages(s: Sys, a: LookStep)
    requires Pages(s) && CanLook(s, a)
    ensures Pages(DoLook(s, a)) && Tame(s.pages, DoLook(s, a).pages)
  {}
  lemma AcquireKeepsPages(s: Sys, a: AcquireStep)
    requires Pages(s) && CanAcquire(s, a)
    ensures Pages(DoAcquire(s, a))
  {}
  lemma SendKeepsPages(s: Sys, a: SendStep)
    requires Pages(s) && CanSend(s, a)
    ensures Pages(DoSend(s, a)) && Tame(s.pages, DoSend(s, a).pages)
  {}
  lemma ConfirmKeepsPages(s: Sys, a: ConfirmStep)
    requires Pages(s) && CanConfirm(s, a)
    ensures Pages(DoConfirm(s, a)) && Tame(s.pages, DoConfirm(s, a).pages)
  {}
  lemma SweepKeepsPages(s: Sys, a: SweepStep)
    requires Pages(s) && CanSweep(s, a)
    ensures Pages(DoSweep(s, a)) && Tame(s.pages, DoSweep(s, a).pages)
  {
    if a.SweepSkip? || a.SweepCheck? {
      assert s.hand.snap[0] == s.hand.snap[0];
    }
  }

  lemma AcquireKeepsBudget(s: Sys, a: AcquireStep)
    requires Budget(s) && CanAcquire(s, a)
    ensures Budget(DoAcquire(s, a))
  {
    if a.Upsert? {
      var ident, s' := s.hand.stage.ident, DoAcquire(s, a);
      UpsertBudget(s, ident.id, UpsertRow(s.pages, s.hand.seen.key, ident), s.hand.stage.gated);
      SubsetSize(GatedPages(s'), OwnedActive(s'.pages));
    }
  }

  // ---- Idle episodes over the steps ----

  lemma ClosesAppend(log: seq<Event>, e: Event)
    requires Closes(log)
    requires e.PageCloseCalled? ==>
      var i := LastEpisode(log, e.page);
      && i.Some? && log[i.value].PageIdled? && log[i.value].since + Max(1, log[i.value].grace) <= e.at
      && forall k :: i.value < k < |log| && log[k].PageCloseCalled? && log[k].page == e.page ==>
           k + 1 < |log| && log[k + 1].EngineDied?
    ensures Closes(log + [e])
  {
    var more := log + [e];
    forall k | 0 <= k < |log| ensures more[..k] == log[..k] {}
    assert more[..|log|] == log;
    forall k, m | 0 <= k < m < |more| && more[k].PageCloseCalled?
      ensures ClosedOnce(more, k, m)
    {
      if m < |log| {
        assert ClosedOnce(log, k, m);
      } else if e.PageCloseCalled? && e.page == log[k].page {
        assert LastEpisode(log[..k], e.page).Some? ==> LastEpisode(log[..k], e.page).value < k;
      }
    }
    forall k | 0 <= k < |more| && more[k].PageCloseCalled? ensures CloseTimely(more, k) {
      if k < |log| { assert CloseTimely(log, k); }
    }
  }

  /** Steps that write at most one page row and one event, and do not touch the close call in flight. */
  lemma IdleFrame(s: Sys, s': Sys, e: Event)
    requires Idle(s) && !s.hand.CloseReplied? && !s'.hand.CloseReplied? && !e.PageCloseCalled?
    requires s'.log == s.log + [e]
    requires forall p :: p in s'.pages && s'.pages[p].state.PageIdle? && s'.pages[p].closeAfter.Some? ==>
      if EpisodeEvent(e, p) then e.PageIdled? && s'.pages[p].closeAfter.value == e.since + Max(1, e.grace)
      else p in s.pages && s.pages[p] == s'.pages[p]
    ensures Idle(s')
  {
    ClosesAppend(s.log, e);
    forall pid | pid in s'.pages ensures IdleRowOk(s', pid) {
      EpisodeAppend(s.log, e, pid);
    }
  }

  /** Steps that write no event. */
  lemma IdleQuiet(s: Sys, s': Sys)
    requires Idle(s) && s'.log == s.log
    requires s'.hand == s.hand || (!s.hand.CloseReplied? && !s'.hand.CloseReplied?)
    requires forall p :: p in s'.pages && s'.pages[p].state.PageIdle? && s'.pages[p].closeAfter.Some? ==>
      p in s.pages && s.pages[p] == s'.pages[p]
    ensures Idle(s')
  {
    forall pid | pid in s'.pages ensures IdleRowOk(s', pid) {
      assert pid in s.pages ==> IdleRowOk(s, pid);
    }
  }

  lemma WorldKeepsIdle(s: Sys, a: WorldStep)
    requires Idle(s) && CanWorld(s, a)
    ensures Idle(DoWorld(s, a))
  {
    var s' := DoWorld(s, a);
    if a.Die? {
      ClosesAppend(s.log, EngineDied);
      forall pid | pid in s'.pages ensures IdleRowOk(s', pid) {
        EpisodeAppend(s.log, EngineDied, pid);
        assert IdleRowOk(s, pid);
      }
    } else {
      IdleQuiet(s, s');
    }
  }

  lemma WorkKeepsIdle(s: Sys, s': Sys)
    requires Idle(s) && s.hand.Work? && !s'.hand.CloseReplied?
    requires |s.log| <= |s'.log| <= |s.log| + 1 && s'.log[..|s.log|] == s.log
    requires |s.log| < |s'.log| ==> !s'.log[|s.log|].PageCloseCalled?
    requires forall p :: p in s'.pages && s'.pages[p].state.PageIdle? && s'.pages[p].closeAfter.Some? ==>
      if |s.log| < |s'.log| && EpisodeEvent(s'.log[|s.log|], p) then
        s'.log[|s.log|].PageIdled?
        && s'.pages[p].closeAfter.value == s'.log[|s.log|].since + Max(1, s'.log[|s.log|].grace)
      else p in s.pages && s.pages[p] == s'.pages[p]
    ensures Idle(s')
  {
    if |s.log| < |s'.log| {
      assert s'.log == s.log + [s'.log[|s.log|]];
      IdleFrame(s, s', s'.log[|s.log|]);
    } else {
      assert s'.log == s.log;
      IdleQuiet(s, s');
    }
  }

  lemma SweepCloseKeepsIdle(s: Sys, now: int, gone: bool)
    requires Idle(s) && Pages(s) && CanSweep(s, SweepClose(now, gone))
    ensures Idle(DoSweep(s, SweepClose(now, gone)))
  {
    var s' := DoSweep(s, SweepClose(now, gone));
    var e := PageCloseCalled(s.hand.pid, now);
    assert IdleRowOk(s, s.hand.pid);
    ClosesAppend(s.log, e);
    forall pid | pid in s'.pages ensures IdleRowOk(s', pid) {
      assert IdleRowOk(s, pid);
      SweepCloseKeepsRow(s, now, gone, pid);
    }
  }

  lemma SweepCloseKeepsRow(s: Sys, now: int, gone: bool, pid: PageId)
    requires Pages(s) && CanSweep(s, SweepClose(now, gone)) && pid in s.pages && IdleRowOk(s, pid)
    ensures pid in DoSweep(s, SweepClose(now, gone)).pages && IdleRowOk(DoSweep(s, SweepClose(now, gone)), pid)
  {
    EpisodeAppend(s.log, PageCloseCalled(s.hand.pid, now), pid);
  }

  lemma SweepKeepsIdle(s: Sys, a: SweepStep)
    requires Idle(s) && Pages(s) && CanSweep(s, a)
    ensures Idle(DoSweep(s, a))
  {
    var s' := DoSweep(s, a);
    match a
    case SweepIdle(now, grace) => IdleFrame(s, s', s'.log[|s.log|]);
    case SweepClose(now, gone) => SweepCloseKeepsIdle(s, now, gone);
    case SweepMark =>
      forall pid | pid in s'.pages ensures IdleRowOk(s', pid) {
        assert IdleRowOk(s, pid);
      }
    case _ => IdleQuiet(s, s');
  }

  // ---- The invariant over all steps ----

  lemma WorldKeepsRest(s: Sys, a: WorldStep)
    requires Inv(s) && CanWorld(s, a)
    ensures Pages(DoWorld(s, a)) && Budget(DoWorld(s, a)) && Names(DoWorld(s, a))
  {}

  lemma WorldKeepsDrains(s: Sys, a: WorldStep)
    requires Drains(s) && Fifo(s) && CanWorld(s, a)
    ensures Drains(DoWorld(s, a))
  {
    var s' := DoWorld(s, a);
    forall key | OnlyNewPending(s, key) ensures OnlyNewPending(s', key) {
      if a.Enqueue? && a.job.key == key {
        assert Untouched(s'.jobs, s'.log, |s.jobs|);
      }
    }
  }

  lemma ScanKeepsRest(s: Sys, a: ScanStep)
    requires Inv(s) && CanScan(s, a)
    ensures Pages(DoScan(s, a)) && Budget(DoScan(s, a)) && Names(DoScan(s, a)) && Idle(DoScan(s, a))
  {
    IdleQuiet(s, DoScan(s, a));
  }

  lemma OwnKeepsNames(s: Sys, s': Sys)
    requires Names(s) && OnlyOwn(s, s') && s'.convs == s.convs
    ensures Names(s')
  {}

  lemma BindKeepsNames(s: Sys, url: Url)
    requires Names(s) && Tickets(s) && CanSend(s, Bind(url))
    ensures Names(DoSend(s, Bind(url)))
  {}

  lemma TameKeepsBudget(s: Sys, s': Sys)
    requires Budget(s) && Tame(s.pages, s'.pages)
    requires s'.maxWindows == s.maxWindows && s'.peakWindows == s.peakWindows && s'.ungated == s.ungated
    requires s'.hand.Work? && (s'.hand.stage.Authorized? || s'.hand.stage.Located?) ==> s'.hand == s.hand
    ensures Budget(s')
  {
    TameBudget(s.pages, s'.pages);
    SubsetSize(OwnedActive(s'.pages), OwnedActive(s.pages));
    SubsetSize(GatedPages(s'), GatedPages(s));
  }

  lemma LookKeepsOrder(s: Sys, a: LookStep)
    requires Tickets(s) && Heads(s) && Fifo(s) && Names(s) && CanLook(s, a)
    ensures Tickets(DoLook(s, a)) && Heads(DoLook(s, a)) && Fifo(DoLook(s, a)) && Names(DoLook(s, a))
  {
    var s' := DoLook(s, a);
    LookIsOwn(s, a);
    OwnKeepsTickets(s, s');
    OwnKeepsHeads(s, s');
    OwnKeepsFifo(s, s');
    OwnKeepsNames(s, s');
  }

  lemma LookKeepsRest(s: Sys, a: LookStep)
    requires Pages(s) && Budget(s) && Idle(s) && Drains(s) && CanLook(s, a)
    ensures Budget(DoLook(s, a)) && Idle(DoLook(s, a)) && Drains(DoLook(s, a))
  {
    LookKeepsPages(s, a);
    TameKeepsBudget(s, DoLook(s, a));
    WorkKeepsIdle(s, DoLook(s, a));
  }

  lemma LookKeepsInv(s: Sys, a: LookStep)
    requires Inv(s) && CanLook(s, a)
    ensures Inv(DoLook(s, a))
  {
    LookKeepsOrder(s, a);
    LookKeepsSends(s, a);
    LookKeepsPages(s, a);
    LookKeepsRest(s, a);
  }

  lemma AcquireKeepsInv(s: Sys, a: AcquireStep)
    requires Inv(s) && CanAcquire(s, a)
    ensures Inv(DoAcquire(s, a))
  {
    var s' := DoAcquire(s, a);
    AcquireIsOwn(s, a);
    OwnKeepsTickets(s, s');
    OwnKeepsHeads(s, s');
    OwnKeepsFifo(s, s');
    AcquireKeepsSends(s, a);
    AcquireKeepsPages(s, a);
    AcquireKeepsBudget(s, a);
    OwnKeepsNames(s, s');
    WorkKeepsIdle(s, s');
  }

  lemma SendKeepsInv(s: Sys, a: SendStep)
    requires Inv(s) && CanSend(s, a)
    ensures Inv(DoSend(s, a))
  {
    var s' := DoSend(s, a);
    SendIsOwn(s, a);
    OwnKeepsTickets(s, s');
    OwnKeepsHeads(s, s');
    OwnKeepsFifo(s, s');
    SendKeepsSends(s, a);
    SendKeepsPages(s, a);
    TameKeepsBudget(s, s');
    if a.Bind? {
      BindKeepsNames(s, a.url);
    } else {
      OwnKeepsNames(s, s');
    }
    WorkKeepsIdle(s, s');
  }

  lemma ConfirmKeepsRest(s: Sys, a: ConfirmStep)
    requires Tickets(s) && Idle(s) && Drains(s) && CanConfirm(s, a)
    ensures Idle(DoConfirm(s, a)) && Drains(DoConfirm(s, a))
  {
    ConfirmIsOwn(s, a);
    WorkKeepsIdle(s, DoConfirm(s, a));
  }

  lemma ConfirmKeepsInv(s: Sys, a: ConfirmStep)
    requires Inv(s) && CanConfirm(s, a)
    ensures Inv(DoConfirm(s, a))
  {
    var s' := DoConfirm(s, a);
    ConfirmIsOwn(s, a);
    OwnKeepsTickets(s, s');
    OwnKeepsHeads(s, s');
    OwnKeepsFifo(s, s');
    ConfirmKeepsSends(s, a);
    ConfirmKeepsPages(s, a);
    TameKeepsBudget(s, s');
    OwnKeepsNames(s, s');
    ConfirmKeepsRest(s, a);
  }

  /** A step outside the scan: no job row changes and no event is about a job. */
  ghost predicate OutsideScan(s: Sys, s': Sys) {
    && s'.jobs == s.jobs && s'.convs == s.convs && Todo(s'.hand) == [] && !s'.hand.Work?
    && |s.log| <= |s'.log| <= |s.log| + 1 && s'.log[..|s.log|] == s.log
    && (|s.log| < |s'.log| ==> !JobEvent(s'.log[|s.log|]))
  }

  lemma OutsideKeepsOrder(s: Sys, s': Sys)
    requires Tickets(s) && Heads(s) && Fifo(s) && Names(s) && OutsideScan(s, s')
    ensures Tickets(s') && Heads(s') && Fifo(s') && Names(s')
  {
    forall i | 0 <= i < |s'.jobs| && !Terminal(s'.jobs[i].state)
      ensures YoungerUntouched(s'.jobs, s'.log, s'.jobs[i].key, i)
    {
      assert YoungerUntouched(s.jobs, s.log, s.jobs[i].key, i);
    }
  }

  lemma OutsideKeepsSends(s: Sys, s': Sys)
    requires Sends(s) && OutsideScan(s, s')
    ensures Sends(s')
  {}

  lemma SweepIsOutside(s: Sys, a: SweepStep)
    requires CanSweep(s, a)
    ensures OutsideScan(s, DoSweep(s, a))
  {}

  lemma SweepKeepsDrains(s: Sys, a: SweepStep)
    requires Drains(s) && CanSweep(s, a)
    ensures Drains(DoSweep(s, a))
  {}

  lemma SweepKeepsBudget(s: Sys, a: SweepStep)
    requires Budget(s) && Pages(s) && CanSweep(s, a)
    ensures Budget(DoSweep(s, a))
  {
    SweepKeepsPages(s, a);
    TameKeepsBudget(s, DoSweep(s, a));
  }

  lemma SweepKeepsInv(s: Sys, a: SweepStep)
    requires Inv(s) && CanSweep(s, a)
    ensures Inv(DoSweep(s, a))
  {
    SweepIsOutside(s, a);
    OutsideKeepsOrder(s, DoSweep(s, a));
    OutsideKeepsSends(s, DoSweep(s, a));
    SweepKeepsPages(s, a);
    SweepKeepsBudget(s, a);
    SweepKeepsIdle(s, a);
    SweepKeepsDrains(s, a);
  }

  lemma WorldKeepsInv(s: Sys, a: WorldStep)
    requires Inv(s) && CanWorld(s, a)
    ensures Inv(DoWorld(s, a))
  {
    WorldKeepsTickets(s, a);
    WorldKeepsOrder(s, a);
    WorldKeepsSends(s, a);
    WorldKeepsRest(s, a);
    WorldKeepsIdle(s, a);
    WorldKeepsDrains(s, a);
  }

  lemma ScanKeepsInv(s: Sys, a: ScanStep)
    requires Inv(s) && CanScan(s, a)
    ensures Inv(DoScan(s, a))
  {
    ScanKeepsTickets(s, a);
    ScanKeepsOrder(s, a);
    ScanKeepsSends(s, a);
    ScanKeepsRest(s, a);
  }

  lemma StepKeepsInv(s: Sys, a: Action)
    requires Inv(s) && Enabled(s, a)
    ensures Inv(Apply(s, a))
  {
    match a
    case World(w) => WorldKeepsInv(s, w);
    case Scan(c) => ScanKeepsInv(s, c);
    case Look(l) => LookKeepsInv(s, l);
    case Acquiring(g) => AcquireKeepsInv(s, g);
    case Sending(d) => SendKeepsInv(s, d);
    case Confirming(c) => ConfirmKeepsInv(s, c);
    case SweepingBy(w) => SweepKeepsInv(s, w);
  }

  lemma EmptyInv(s: Sys)
    requires s.jobs == [] && s.pages == map[] && s.convs == map[] && s.hand.Off? && s.log == []
    requires s.maxWindows <= s.peakWindows
    ensures Inv(s)
  {
    assert OwnedActive(s.pages) == {};
  }

  lemma {:induction false} RunKeepsInv(acts: seq<Action>)
    requires Legal(acts)
    ensures Inv(Exec(acts))
    decreases |acts|
  {
    if acts == [] {
      EmptyInv(Init());
    } else {
      RunKeepsInv(acts[..|acts| - 1]);
      StepKeepsInv(Exec(acts[..|acts| - 1]), acts[|acts| - 1]);
    }
  }

  lemma RowsKeepDispatch(s: Sys, a: Action, i: nat)
    requires Tickets(s) && Enabled(s, a) && i < |s.jobs|
    ensures i < |Apply(s, a).jobs| && SameDispatchRow(s.jobs[i], Apply(s, a).jobs[i])
  {
    if WorkAction(a) {
      WorkIsOwn(s, a);
    } else if a.SweepingBy? {
      SweepIsOutside(s, a.sweep);
    }
  }

  lemma {:induction false} RunKeepsDispatch(acts: seq<Action>, more: seq<Action>, i: nat)
    requires Legal(acts) && Legal(acts + more) && i < |Exec(acts).jobs|
    ensures i < |Exec(acts + more).jobs| && SameDispatchRow(Exec(acts).jobs[i], Exec(acts + more).jobs[i])
    decreases |more|
  {
    if more == [] {
      assert acts + more == acts;
    } else {
      var mid := acts + more[..|more| - 1];
      assert (acts + more)[..|acts + more| - 1] == mid;
      RunKeepsDispatch(acts, more[..|more| - 1], i);
      RunKeepsInv(mid);
      RowsKeepDispatch(Exec(mid), more[|more| - 1], i);
    }
  }
}
