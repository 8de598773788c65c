/**
 The dispatcher engine, statement for statement: one pass over the queue, then one over the idle pages.

 Before every read of the tables, write and browser call the engine yields, so that other processes may
 enqueue and cancel there and the process may die there.  Each method keeps the store `Valid`: the writes
 and calls it makes are, in order, steps of the protocol.

 `heard` records every call with its arguments and its answer.  The contracts say what each answer must
 lead to, in the tables' own fields, and that a worker never ends but by a kill, by an answer that
 raised, or by a conversation URL that another key owns.
 */
module ChatEngine {
  import opened Prelude
  import opened ChatProtocol
  import opened ChatSafety
  import opened ChatStore

  const PASS_LIMIT := 200

  datatype SendReply = SendReply(out: SendOutcome, url: Option<Url>)

  datatype Lookup = Known(pid: PageId) | Unknown | LookupRaised
  datatype Acquired = OnPage(pid: PageId) | Waits | AcquireRaised

  /** What a look at a job that may have been sent has come to. */
  datatype Seen = NoPage | NoAddress(pid: PageId) | Evidence(pid: PageId, ack: AckResult)

  datatype Answer =
    | Killed
    | Conflict(taken: Url)
    | Time(now: int)
    | Address(page: PageId, address: Reply<Option<Url>>)
    | Found(at: Url, found: Reply<Option<PageIdentity>>)
    | Recovered(home: ProjectUrl, owner: nat, found: Reply<Option<PageIdentity>>)
    | Opened(target: Option<Url>, project: Option<ProjectUrl>, owner: nat, window: Reply<PageIdentity>)
    | Sent(existing: bool, job: nat, page: PageId, sent: SendReply)
    | Observed(job: nat, page: PageId, ack: Reply<AckResult>)
    | Closed(page: PageId, gone: Reply<bool>)

  /** Nothing but these ends a worker in the middle of a pass. */
  predicate Fatal(a: Answer) {
    match a
    case Killed => true
    case Conflict(_) => true
    case Address(_, address) => address.Raised?
    case Observed(_, _, ack) => ack.Raised?
    case Closed(_, gone) => gone.Raised?
    case _ => false
  }

  ghost predicate Ends(before: seq<Answer>, after: seq<Answer>) {
    before < after && Fatal(after[|after| - 1])
  }

  ghost predicate EndsKilled(before: seq<Answer>, after: seq<Answer>) {
    before < after && after[|after| - 1].Killed?
  }

  // ---- What each answer must lead to ----

  /** Other processes may have cancelled the job; nothing else has happened to its row. */
  predicate Held(jobs: seq<Job>, jobs': seq<Job>, id: nat) {
    && id < |jobs| <= |jobs'|
    && (jobs'[id] == jobs[id] || (Cancellable(jobs[id].state) && jobs'[id] == jobs[id].(state := Cancelled)))
  }

  /**
   The conversation's page is still its page if its window shows the job's conversation, or if the job
   has no URL yet and a project to start in; a window that is gone, or shows anything else, loses it.
   */
  predicate Looked(
    job: Job, pages: map<PageId, Page>, pages': map<PageId, Page>, before: seq<Answer>, after: seq<Answer>, r: Lookup)
  {
    if after == before then r.Unknown? && pages' == pages
    else
      && |after| == |before| + 1 && before <= after && after[|before|].Address?
      && var pid := after[|before|].page;
      && pid in pages && pages[pid].key == job.key && (pages[pid].state.PageOpen? || pages[pid].state.PageIdle?)
      && match after[|before|].address
         case Raised => r.LookupRaised? && pages' == pages
         case Returned(None) =>
           r.Unknown? && pages' == pages[pid := pages[pid].(state := PageClosed, closeAfter := None)]
         case Returned(Some(url)) =>
           if job.url.Some? && url.conversationId == job.url.value.conversationId then
             && r == Known(pid)
             && pages' == if url == pages[pid].url then pages
                          else pages[pid := Page(job.key, url, pages[pid].owned, PageOpen, None, None)]
           else if job.url.None? && job.project.Some? then r == Known(pid) && pages' == pages
           else r.Unknown? && pages' == pages[pid := pages[pid].(state := PageAmbiguous, closeAfter := None)]
  }

  /** The window is the conversation's page from now on; a page that was ever owned stays owned. */
  predicate Added(pages: map<PageId, Page>, pages': map<PageId, Page>, key: string, ident: PageIdentity) {
    pages' == pages[ident.id :=
      Page(key, ident.url, ident.owned || (ident.id in pages && pages[ident.id].owned), PageOpen, None, None)]
  }

  /** A window was located: the job is bound to it. */
  predicate Binds(
    t: Ticket, ident: PageIdentity, pages: map<PageId, Page>, pages': map<PageId, Page>, jobs': seq<Job>, r: Acquired)
  {
    r == OnPage(ident.id) && Added(pages, pages', t.seen.key, ident) && t.id < |jobs'| && jobs'[t.id].state.WindowBound?
  }

  /** No window was located and none may be opened: only evidence can settle the job now. */
  predicate Shelves(t: Ticket, pages: map<PageId, Page>, pages': map<PageId, Page>, jobs': seq<Job>, r: Acquired) {
    r.Waits? && pages' == pages && t.id < |jobs'| && jobs'[t.id].state.ReconcileRequired?
  }

  /** The answer of the one open. */
  predicate Launched(
    t: Ticket, n: nat, after: seq<Answer>, pages: map<PageId, Page>, pages': map<PageId, Page>, jobs': seq<Job>,
    r: Acquired)
  {
    && |after| == n + 1 && after[n].Opened? && after[n].target == t.seen.url && after[n].project == t.seen.project
    && after[n].owner == t.id
    && match after[n].window
       case Raised => Shelves(t, pages, pages', jobs', r)
       case Returned(ident) => Binds(t, ident, pages, pages', jobs', r)
  }

  ghost predicate Full(maxWindows: nat, pages: map<PageId, Page>) {
    maxWindows <= |set p | p in pages && pages[p].owned && (pages[p].state.PageOpen? || pages[p].state.PageIdle?)|
  }

  lemma FullIsOwnedActive(maxWindows: nat, pages: map<PageId, Page>)
    ensures Full(maxWindows, pages) <==> maxWindows <= |OwnedActive(pages)|
  {
    assert OwnedActive(pages)
      == set p | p in pages && pages[p].owned && (pages[p].state.PageOpen? || pages[p].state.PageIdle?);
  }

  /** One open, unless the budget of windows is spent: then the job just waits. */
  ghost predicate OpensOnce(
    t: Ticket, maxWindows: nat, n: nat, after: seq<Answer>, pages: map<PageId, Page>, pages': map<PageId, Page>,
    jobs: seq<Job>, jobs': seq<Job>, r: Acquired)
  {
    if Full(maxWindows, pages) then |after| == n && r.Waits? && pages' == pages && jobs' == jobs
    else Launched(t, n, after, pages, pages', jobs', r)
  }

  predicate LookupFails(jobs: seq<Job>, jobs': seq<Job>, pages: map<PageId, Page>, pages': map<PageId, Page>,
                        r: Acquired) {
    r.AcquireRaised? && jobs' == jobs && pages' == pages
  }

  /**
   A job without a page.  If it stands at OPENING an open may have happened: its window is looked for
   and never opened again, and one found by its URL counts as borrowed.  Else an existing window of its
   conversation is taken, or one is opened.
   */
  ghost predicate Acquires(
    t: Ticket, maxWindows: nat, before: seq<Answer>, after: seq<Answer>, pages: map<PageId, Page>,
    pages': map<PageId, Page>, jobs: seq<Job>, jobs': seq<Job>, r: Acquired)
  {
    && before <= after && var n := |before|;
    if t.seen.state.Opening? then
      if t.seen.url.None? && t.seen.project.None? then after == before && Shelves(t, pages, pages', jobs', r)
      else
        && |after| == n + 1
        && (if t.seen.url.Some? then after[n].Found? && after[n].at == t.seen.url.value
            else after[n].Recovered? && after[n].home == t.seen.project.value && after[n].owner == t.id)
        && match after[n].found
           case Raised => LookupFails(jobs, jobs', pages, pages', r)
           case Returned(None) => Shelves(t, pages, pages', jobs', r)
           case Returned(Some(ident)) =>
             Binds(t, if t.seen.url.Some? then ident.(owned := false) else ident, pages, pages', jobs', r)
    else if t.seen.url.Some? then
      && n < |after| && after[n].Found? && after[n].at == t.seen.url.value
      && match after[n].found
         case Raised => |after| == n + 1 && LookupFails(jobs, jobs', pages, pages', r)
         case Returned(None) => OpensOnce(t, maxWindows, n + 1, after, pages, pages', jobs, jobs', r)
         case Returned(Some(ident)) => |after| == n + 1 && Binds(t, ident, pages, pages', jobs', r)
    else if t.seen.project.None? then after == before && LookupFails(jobs, jobs', pages, pages', r)
    else OpensOnce(t, maxWindows, n, after, pages, pages', jobs, jobs', r)
  }

  /** The page the conversation has is taken, its idle timer cancelled; only without one a page is acquired. */
  ghost predicate PageEnsured(
    t: Ticket, maxWindows: nat, before: seq<Answer>, after: seq<Answer>, pages: map<PageId, Page>,
    pages': map<PageId, Page>, jobs: seq<Job>, jobs': seq<Job>, r: Acquired)
  {
    exists known: Lookup, seen: seq<Answer>, mid: map<PageId, Page>, rows: seq<Job> ::
      && Looked(t.seen, pages, mid, before, seen, known) && Held(jobs, rows, t.id)
      && match known
         case LookupRaised => after == seen && LookupFails(rows, jobs', mid, pages', r)
         case Unknown => Acquires(t, maxWindows, seen, after, mid, pages', rows, jobs', r)
         case Known(pid) =>
           && after == seen && r == OnPage(pid) && pid in mid && Held(jobs, jobs', t.id)
           && pages' == mid[pid := mid[pid].(state := PageOpen, idleSince := None, closeAfter := None)]
  }

  /** The row of a delivered job: what the flags of the one send allow, and nothing else. */
  predicate Delivered(before: Job, after: Job, sent: SendReply, now: int, cooldown: int) {
    && after == before.(state := after.state, attempts := before.attempts + 1, url := after.url,
                        submittedAt := after.submittedAt, nextAttemptAt := after.nextAttemptAt)
    && (after.state.Submitted? <==> sent.out.SendReturned? && sent.out.submitted)
    && (after.state.ReconcileRequired? <==>
          sent.out.SendRaised? || (!sent.out.submitted && sent.out.sideEffectPossible))
    && (after.state.RetryWait? <==>
          sent.out.SendReturned? && !sent.out.submitted && !sent.out.sideEffectPossible && sent.out.rateLimited)
    && (after.state.Failed? <==>
          sent.out.SendReturned? && !sent.out.submitted && !sent.out.sideEffectPossible && !sent.out.rateLimited)
    && after.nextAttemptAt == (if after.state.RetryWait? then now + cooldown else before.nextAttemptAt)
    && after.submittedAt == (if after.state.Submitted? then Some(now) else before.submittedAt)
    && after.url == if sent.url.Some? && (after.state.Submitted? || before.url.None?) then sent.url else before.url
  }

  /** One reading of the clock and one send, to the page acquired for the job. */
  predicate SentOnce(
    id: nat, pid: PageId, before: seq<Answer>, after: seq<Answer>, row: Job, row': Job, cooldown: int, sent: SendReply)
  {
    && |after| == |before| + 2 && before <= after && after[|before|].Time?
    && after[|before| + 1] == Sent(row.url.Some?, id, pid, sent)
    && Delivered(row, row', sent, after[|before|].now, cooldown)
  }

  /** One nonce in a page that no longer generates is the acknowledgement; two nonces are a duplicate delivery. */
  predicate Concludes(row: Job, row': Job, page: Page, page': Page, ack: AckResult, now: Option<int>) {
    if ack.observed && ack.nonces == 1 && ack.generating == Some(false) then
      now.Some? && row' == row.(state := Acknowledged, acknowledgedAt := now)
    else
      && now.None?
      && if ack.observed && 1 < ack.nonces then
           row' == row.(state := ReconcileRequired) && page' == page.(state := PageAmbiguous, closeAfter := None)
         else row' == row && page' == page
  }

  /** Unfinished: in none of the three final states. */
  predicate Pending(jobs: seq<Job>, key: string) {
    exists i :: 0 <= i < |jobs| && jobs[i].key == key
      && !jobs[i].state.Acknowledged? && !jobs[i].state.Failed? && !jobs[i].state.Cancelled?
  }

  lemma PendingIsPendingFor(jobs: seq<Job>, key: string)
    ensures Pending(jobs, key) <==> PendingFor(jobs, key)
  {
  }

  /** The page rests: its timer runs from when its rest began, and only an owned page is ever to be closed. */
  predicate Rests(page: Page, page': Page, grace: int, now: int) {
    && page' == Page(page.key, page.url, page.owned, PageIdle, page'.idleSince, page'.closeAfter)
    && page'.idleSince == Some(if page.state.PageIdle? && page.idleSince.Some? then page.idleSince.value else now)
    && page'.closeAfter ==
         if page.owned then Some(page'.idleSince.value + if 1 < grace then grace else 1) else None
  }

  /** What one pass does with a page, once nothing of its conversation is pending and the page is owned. */
  predicate Swept(
    pid: PageId, page: Page, page': Page, before: seq<Answer>, after: seq<Answer>, now: int, idleClose: int)
  {
    if page.state.PageOpen? then after == before && Rests(page, page', idleClose, now)
    else if page.state.PageIdle? && page.closeAfter.Some? && page.closeAfter.value <= now then
      && |after| == |before| + 1 && before <= after && after[|before|].Closed? && after[|before|].page == pid
      && after[|before|].gone.Returned?
      && page' == page.(state := if after[|before|].gone.value then PageClosed else PageAmbiguous, closeAfter := None)
    else after == before && page' == page
  }

  /** The page shows another address now, and no timer of it runs. */
  predicate Retargeted(pages: map<PageId, Page>, pages': map<PageId, Page>, pid: PageId, key: string, url: Url) {
    pid in pages && pages' == pages[pid := Page(key, url, pages[pid].owned, PageOpen, None, None)]
  }

  predicate MaybeSent(st: JobState) { st.Submitted? || st.ReconcileRequired? }

  /** The window of the page shows no conversation. */
  predicate NoConversation(a: Answer, pid: PageId) {
    && a.Address? && a.page == pid && a.address.Returned?
    && (a.address.value.None? || a.address.value.value.conversationId.None?)
  }

  /** The row of a job after its page was observed; a job without a URL counts as submitted by then. */
  predicate Resolves(job: Job, row: Job, row': Job, ack: AckResult) {
    && row' == row.(state := row'.state, url := row'.url, submittedAt := row'.submittedAt,
                    acknowledgedAt := row'.acknowledgedAt)
    && (row'.url != row.url || row'.submittedAt != row.submittedAt ==> job.url.None?)
    && (job.url.None? ==> row'.url.Some? && row'.submittedAt.Some?)
    && if ack.observed && ack.nonces == 1 && ack.generating == Some(false) then
         row'.state.Acknowledged? && row'.acknowledgedAt.Some?
       else
         && row'.acknowledgedAt == row.acknowledgedAt
         && row'.state == if ack.observed && 1 < ack.nonces then ReconcileRequired
                          else if job.url.None? then Submitted else row.state
  }

  /** What a look at a job that may have been sent leaves behind. */
  ghost predicate Settles(
    id: nat, job: Job, before: seq<Answer>, after: seq<Answer>, row: Job, pages': map<PageId, Page>, jobs': seq<Job>,
    log: seq<Event>, log': seq<Event>, seen: Seen)
  {
    && id < |jobs'| && before <= after && log <= log'
    && match seen
       case NoPage => NoActive(pages', job.key) && jobs'[id] == row
       case NoAddress(pid) =>
         job.url.None? && jobs'[id] == row && before < after && NoConversation(after[|after| - 1], pid)
       case Evidence(pid, ack) =>
         && Observed(id, pid, Returned(ack)) in after[|before|..] && Resolves(job, row, jobs'[id], ack)
         && pid in pages' && (ack.observed && 1 < ack.nonces ==> pages'[pid].state.PageAmbiguous?)
         && (jobs'[id].state.Acknowledged? ==>
               && JobAcknowledged(id, job.key) in log'[|log|..]
               && (pages'[pid].state.PageIdle? || Pending(jobs', job.key)))
  }

  /** What follows once a page was acquired, or not. */
  ghost predicate Proceeds(
    t: Ticket, cooldown: int, acquired: Acquired, before: seq<Answer>, after: seq<Answer>, jobs: seq<Job>,
    jobs': seq<Job>, moved: bool)
  {
    && t.id < |jobs| && t.id < |jobs'|
    && match acquired
       case AcquireRaised => moved && after == before && jobs'[t.id].state.Failed?
       case Waits => !moved && after == before && jobs' == jobs
       case OnPage(pid) =>
         moved && exists sent :: SentOnce(t.id, pid, before, after, jobs[t.id], jobs'[t.id], cooldown, sent)
  }

  /** A job that was waiting to be sent: it got a page and was sent once, or it waits, or acquiring a page failed. */
  ghost predicate Delivers(
    t: Ticket, maxWindows: nat, cooldown: int, before: seq<Answer>, after: seq<Answer>, pages: map<PageId, Page>,
    jobs: seq<Job>, jobs': seq<Job>, moved: bool)
  {
    exists mid: seq<Answer>, pages1: map<PageId, Page>, rows: seq<Job>, acquired: Acquired ::
      && PageEnsured(t, maxWindows, before, mid, pages, pages1, jobs, rows, acquired)
      && Proceeds(t, cooldown, acquired, mid, after, rows, jobs', moved)
  }

  /** A job whose send may have happened: SUBMITTING first becomes RECONCILE_REQUIRED, then its page is looked at. */
  ghost predicate Revisits(
    t: Ticket, before: seq<Answer>, after: seq<Answer>, pages': map<PageId, Page>, jobs: seq<Job>, jobs': seq<Job>,
    log: seq<Event>, log': seq<Event>, moved: bool)
  {
    && t.id < |jobs| && t.id < |jobs'|
    && var row := if t.seen.state.Submitting? then jobs[t.id].(state := ReconcileRequired) else jobs[t.id];
       var job := if t.seen.state.Submitting? then row else t.seen;
    && (exists seen :: Settles(t.id, job, before, after, row, pages', jobs', log, log', seen))
    && (moved <==> t.seen.state.Submitting? || jobs'[t.id].state != t.seen.state)
  }

  /** An older job of the conversation is in none of the three final states. */
  predicate Behind(jobs: seq<Job>, id: nat) {
    exists i :: 0 <= i < id && i < |jobs| && id < |jobs| && jobs[i].key == jobs[id].key
      && !jobs[i].state.Acknowledged? && !jobs[i].state.Failed? && !jobs[i].state.Cancelled?
  }

  /** The job is passed over: it is behind another one, or its cooldown has not run out. */
  predicate Passed(t: Ticket, jobs': seq<Job>, before: seq<Answer>, after: seq<Answer>) {
    || (after == before && Behind(jobs', t.id))
    || (t.seen.state.RetryWait? && |after| == |before| + 1 && before <= after && after[|before|].Time?
        && after[|before|].now < t.seen.nextAttemptAt)
  }

  /** The job is not passed over; the clock is read only for a job that was rate limited. */
  predicate Starts(t: Ticket, jobs: seq<Job>, before: seq<Answer>, start: seq<Answer>) {
    && !Behind(jobs, t.id)
    && if t.seen.state.RetryWait? then
         |start| == |before| + 1 && before <= start && start[|before|].Time?
           && t.seen.nextAttemptAt <= start[|before|].now
       else start == before
  }

  /** What is done with a job that is not passed over. */
  ghost predicate Handles(
    t: Ticket, maxWindows: nat, cooldown: int, before: seq<Answer>, after: seq<Answer>, pages: map<PageId, Page>,
    pages': map<PageId, Page>, jobs: seq<Job>, jobs': seq<Job>, log: seq<Event>, log': seq<Event>, moved: bool)
  {
    if t.seen.state.Submitting? || t.seen.state.Submitted? || t.seen.state.ReconcileRequired? then
      !Behind(jobs, t.id) && Revisits(t, before, after, pages', jobs, jobs', log, log', moved)
    else
      exists start :: Starts(t, jobs, before, start)
        && Delivers(t, maxWindows, cooldown, start, after, pages, jobs, jobs', moved)
  }

  /** One job's turn. */
  ghost predicate Advances(
    t: Ticket, maxWindows: nat, cooldown: int, before: seq<Answer>, after: seq<Answer>, pages: map<PageId, Page>,
    pages': map<PageId, Page>, jobs: seq<Job>, jobs': seq<Job>, log: seq<Event>, log': seq<Event>, moved: bool)
  {
    || (!moved && Passed(t, jobs', before, after))
    || exists rows: seq<Job> :: Held(jobs, rows, t.id)
         && Handles(t, maxWindows, cooldown, before, after, pages, pages', rows, jobs', log, log', moved)
  }

  lemma BehindIsOlderUnfinished(jobs: seq<Job>, id: nat)
    requires id < |jobs|
    ensures Behind(jobs, id) <==> OlderUnfinished(jobs, id)
  {
  }

  lemma SweepsOnePage(
    pages0: map<PageId, Page>, pages1: map<PageId, Page>, pages: map<PageId, Page>, pid: PageId,
    before: seq<Answer>, after: seq<Answer>, now: int, idleClose: int)
    requires SweptAll(pages0, pages1, now, idleClose) && pid in pages0 && pid in pages1 && pages1[pid] == pages0[pid]
    requires pages0[pid].owned && pid in pages && pages == pages1[pid := pages[pid]]
    requires Swept(pid, pages0[pid], pages[pid], before, after, now, idleClose)
    ensures SweptAll(pages0, pages, now, idleClose)
  {
  }

  lemma LosingLeavesNone(pages: map<PageId, Page>, key: string, pid: PageId, row: Page)
    requires !Active(row) && forall p :: ActiveFor(pages, key, p) ==> p == pid
    ensures NoActive(pages[pid := row], key)
  {
    var pages' := pages[pid := row];
    forall p | p in pages'
      ensures !ActiveFor(pages', key, p)
    {
      if p != pid {
        assert !ActiveFor(pages, key, p);
      }
    }
  }

  lemma SettlesLater(
    id: nat, job: Job, heard0: seq<Answer>, heard1: seq<Answer>, heard: seq<Answer>, row: Job,
    pages: map<PageId, Page>, jobs: seq<Job>, log0: seq<Event>, log1: seq<Event>, log: seq<Event>, seen: Seen)
    requires heard0 <= heard1 && log0 <= log1
    requires Settles(id, job, heard1, heard, row, pages, jobs, log1, log, seen)
    ensures Settles(id, job, heard0, heard, row, pages, jobs, log0, log, seen)
  {
    assert heard[|heard0|..] == heard[|heard0|..|heard1|] + heard[|heard1|..];
    assert log[|log0|..] == log[|log0|..|log1|] + log[|log1|..];
  }

  /** A job without a URL counts as submitted once its window shows a conversation. */
  predicate Presumed(job: Job, row0: Job, row1: Job) {
    if job.url.Some? then row1 == row0
    else
      && row1.url.Some? && row1.submittedAt.Some?
      && row1 == row0.(state := Submitted, url := row1.url, submittedAt := row1.submittedAt)
  }

  lemma EvidenceSettles(
    id: nat, job: Job, pid: PageId, heard1: seq<Answer>, heard: seq<Answer>, row0: Job, row1: Job, page1: Page,
    pages: map<PageId, Page>, jobs: seq<Job>, log1: seq<Event>, log: seq<Event>, ack: AckResult)
    requires heard1 + [Observed(id, pid, Returned(ack))] <= heard && log1 <= log && id < |jobs| && pid in pages
    requires Presumed(job, row0, row1) && MaybeSent(row0.state)
    requires exists now :: Concludes(row1, jobs[id], page1, pages[pid], ack, now)
    requires jobs[id].state.Acknowledged? ==>
      && log1 + [JobAcknowledged(id, job.key)] <= log
      && (pages[pid].state.PageIdle? || Pending(jobs, job.key))
    ensures Settles(id, job, heard1, heard, row0, pages, jobs, log1, log, Evidence(pid, ack))
  {
    assert heard[|heard1|..][0] == Observed(id, pid, Returned(ack));
    if jobs[id].state.Acknowledged? {
      assert log[|log1|..][0] == JobAcknowledged(id, job.key);
    }
  }

  lemma EnsuredBy(
    t: Ticket, maxWindows: nat, heard0: seq<Answer>, heard1: seq<Answer>, heard: seq<Answer>, pages0: map<PageId, Page>,
    pages1: map<PageId, Page>, pages: map<PageId, Page>, jobs0: seq<Job>, jobs1: seq<Job>, jobs: seq<Job>,
    known: Lookup,
    r: Acquired)
    requires Looked(t.seen, pages0, pages1, heard0, heard1, known) && Held(jobs0, jobs1, t.id)
    requires match known
      case LookupRaised => heard == heard1 && LookupFails(jobs1, jobs, pages1, pages, r)
      case Unknown => Acquires(t, maxWindows, heard1, heard, pages1, pages, jobs1, jobs, r)
      case Known(pid) =>
        && heard == heard1 && r == OnPage(pid) && pid in pages1 && Held(jobs0, jobs, t.id)
        && pages == pages1[pid := pages1[pid].(state := PageOpen, idleSince := None, closeAfter := None)]
    ensures PageEnsured(t, maxWindows, heard0, heard, pages0, pages, jobs0, jobs, r)
  {
  }

  /** A pass over the pages changes a page only in these ways. */
  predicate SweptAll(pages: map<PageId, Page>, pages': map<PageId, Page>, now: int, idleClose: int) {
    && pages'.Keys == pages.Keys
    && forall pid :: pid in pages ==>
         || pages'[pid] == pages[pid]
         || (pages[pid].owned && pages[pid].state.PageOpen? && Rests(pages[pid], pages'[pid], idleClose, now))
         || (pages[pid].owned && pages[pid].state.PageIdle? && pages[pid].closeAfter.Some?
             && pages[pid].closeAfter.value <= now
             && (pages'[pid] == pages[pid].(state := PageClosed, closeAfter := None)
                 || pages'[pid] == pages[pid].(state := PageAmbiguous, closeAfter := None)))
  }

  class ChatDispatchEngine {
    const store: ChatDispatchStore
    const maxWindows: nat
    const idleClose: int
    const cooldown: int
    ghost var heard: seq<Answer>

    constructor (store: ChatDispatchStore, maxWindows: int, idleClose: int, cooldown: int)
      ensures this.store == store && heard == []
      ensures this.maxWindows == if maxWindows < 1 then 1 else if 16 < maxWindows then 16 else maxWindows
      ensures this.idleClose == (if 1 < idleClose then idleClose else 1)
      ensures this.cooldown == if 1 < cooldown then cooldown else 1
    {
      this.store, heard := store, [];
      this.maxWindows := Max(1, Min(maxWindows, 16));
      this.idleClose, this.cooldown := Max(1, idleClose), Max(1, cooldown);
    }

    // ---- What lies outside: any answer is possible ----

    /** Other processes take their turn; then this one may be killed. */
    method Yield() returns (o: Outcome<()>)
      requires store.Valid()
      modifies store, this`heard
      ensures store.Valid() && old(store.history) <= store.history
      ensures o.Alive? ==> Interfered(old(store.sys), store.sys) && heard == old(heard)
      ensures o.Dead? ==> store.sys.hand.Off? && heard == old(heard) + [Killed]
    {
      o := store.Yield();
      if o.Dead? {
        heard := heard + [Killed];
      }
    }

    method Clock() returns (now: int)
      modifies this`heard
      ensures heard == old(heard) + [Time(now)]
    {
      now := *;
      heard := heard + [Time(now)];
    }

    method CurrentUrl(page: PageId) returns (r: Reply<Option<Url>>)
      modifies this`heard
      ensures heard == old(heard) + [Address(page, r)]
    {
      r := *;
      heard := heard + [Address(page, r)];
    }

    method FindExisting(url: Url) returns (r: Reply<Option<PageIdentity>>)
      modifies this`heard
      ensures heard == old(heard) + [Found(url, r)]
    {
      r := *;
      heard := heard + [Found(url, r)];
    }

    method RecoverNew(project: ProjectUrl, owner: nat) returns (r: Reply<Option<PageIdentity>>)
      modifies this`heard
      ensures heard == old(heard) + [Recovered(project, owner, r)]
    {
      r := *;
      heard := heard + [Recovered(project, owner, r)];
    }

    method OpenPage(target: Option<Url>, project: Option<ProjectUrl>, owner: nat) returns (r: Reply<PageIdentity>)
      modifies this`heard
      ensures heard == old(heard) + [Opened(target, project, owner, r)]
    {
      r := *;
      heard := heard + [Opened(target, project, owner, r)];
    }

    method SendPrompt(existing: bool, job: nat, page: PageId) returns (r: SendReply)
      modifies this`heard
      ensures r.out.SendRaised? ==> r.url.None?
      ensures heard == old(heard) + [Sent(existing, job, page, r)]
    {
      r := *;
      if r.out.SendRaised? {
        r := SendReply(SendRaised, None);
      }
      heard := heard + [Sent(existing, job, page, r)];
    }

    method ObserveAck(job: nat, page: PageId) returns (r: Reply<AckResult>)
      modifies this`heard
      ensures heard == old(heard) + [Observed(job, page, r)]
    {
      r := *;
      heard := heard + [Observed(job, page, r)];
    }

    method ClosePage(page: PageId) returns (r: Reply<bool>)
      modifies this`heard
      ensures heard == old(heard) + [Closed(page, r)]
    {
      r := *;
      heard := heard + [Closed(page, r)];
    }

    // ---- Where the engine stands ----

    /** The engine holds `job`'s row (or an older snapshot of it) at stage `g`. */
    ghost predicate At(job: Job, g: Stage)
      reads store
    {
      && store.Valid() && store.sys.maxWindows == maxWindows
      && store.sys.hand.Work? && store.sys.hand.stage == g && store.sys.hand.seen.key == job.key
      && store.sys.hand.id < |store.jobs| && store.jobs[store.sys.hand.id].key == job.key
    }

    /** The hand has changed its stage only. */
    twostate predicate SameHand() reads store {
      store.sys.hand.Work? && old(store.sys.hand).Work?
        && store.sys.hand == old(store.sys.hand).(stage := store.sys.hand.stage)
    }

    ghost predicate Halted() reads store { store.Valid() && store.sys.hand.Off? }

    /** The scan goes on with the tickets after the one in hand. */
    ghost predicate Moved(rest: seq<Ticket>) reads store {
      store.Valid() && store.sys.maxWindows == maxWindows && store.sys.hand == Scanning(rest)
    }

    // ---- Acquiring a page ----

    /** Looks up the conversation's page and checks the identity of its window. */
    method Page(job: Job) returns (r: Outcome<Lookup>)
      requires At(job, Acquire) || At(job, Watch)
      modifies store, this`heard
      ensures old(store.history) <= store.history
      ensures r.Dead? ==> Halted() && EndsKilled(old(heard), heard)
      ensures r.Alive? ==> At(job, old(store.sys.hand).stage) && store.sys.hand == old(store.sys.hand)
      ensures r.Alive? ==> match r.value
        case Known(pid) => ActiveFor(store.pages, job.key, pid)
        case Unknown => NoActive(store.pages, job.key)
        case LookupRaised => true
      ensures r.Alive? ==> Looked(job, old(store.pages), store.pages, old(heard), heard, r.value)
      ensures r.Alive? ==> Held(old(store.jobs), store.jobs, store.sys.hand.id)
      ensures r.Alive? ==> old(store.sys.log) <= store.sys.log
    {
      var _ :- Yield();
      var found := store.PageForConversation(job.key);
      if found.None? {
        return Alive(Unknown);
      }
      r := Inspect(job, found.value);
    }

    /** Reads the address in the window of the conversation's page. */
    method Inspect(job: Job, pid: PageId) returns (r: Outcome<Lookup>)
      requires At(job, Acquire) || At(job, Watch)
      requires ActiveFor(store.pages, job.key, pid) && forall p :: ActiveFor(store.pages, job.key, p) ==> p == pid
      modifies store, this`heard
      ensures old(store.history) <= store.history
      ensures r.Dead? ==> Halted() && EndsKilled(old(heard), heard)
      ensures r.Alive? ==> At(job, old(store.sys.hand).stage) && store.sys.hand == old(store.sys.hand)
      ensures r.Alive? ==> match r.value
        case Known(p) => ActiveFor(store.pages, job.key, p)
        case Unknown => NoActive(store.pages, job.key)
        case LookupRaised => true
      ensures r.Alive? ==> Looked(job, old(store.pages), store.pages, old(heard), heard, r.value)
      ensures r.Alive? ==> Held(old(store.jobs), store.jobs, store.sys.hand.id)
      ensures r.Alive? ==> old(store.sys.log) <= store.sys.log
    {
      var current := CurrentUrl(pid);
      var _ :- Yield();
      if current.Raised? {
        return Alive(LookupRaised);
      }
      match PageVerdict(job, store.pages[pid], current.value)
      case WindowGone =>
        LosePage(job, pid, current.value);
        return Alive(Unknown);
      case Navigated(url) =>
        store.WritePage(pid, RetargetRow(store.pages[pid], url), Look(Touch(pid, job, current.value)));
        return Alive(Known(pid));
      case SamePage =>
        return Alive(Known(pid));
      case IdentityChanged =>
        LosePage(job, pid, current.value);
        return Alive(Unknown);
    }

    /** The window is gone, or shows something else: quarantined in that case. */
    method LosePage(job: Job, pid: PageId, current: Option<Url>)
      requires At(job, Acquire) || At(job, Watch)
      requires ActiveFor(store.pages, job.key, pid) && forall p :: ActiveFor(store.pages, job.key, p) ==> p == pid
      requires var v := PageVerdict(job, store.pages[pid], current); v.WindowGone? || v.IdentityChanged?
      modifies store
      ensures old(store.history) <= store.history
      ensures At(job, old(store.sys.hand).stage) && store.sys.hand == old(store.sys.hand)
      ensures NoActive(store.pages, job.key) && store.jobs == old(store.jobs) && store.sys.log == old(store.sys.log)
      ensures store.pages == old(store.pages)[pid :=
        old(store.pages)[pid].(state := if current.None? then PageClosed else PageAmbiguous, closeAfter := None)]
    {
      var row := ClosedRow(store.pages[pid], current.Some?);
      LosingLeavesNone(store.pages, job.key, pid, row);
      store.WritePage(pid, row, Look(Lose(pid, job, current)));
    }

    /** Returns the page to send on, or none when the job has to wait or its window is unresolved. */
    method EnsurePage(t: Ticket) returns (r: Outcome<Acquired>)
      requires At(t.seen, Acquire) && store.sys.hand.id == t.id && store.sys.hand.seen == t.seen
      modifies store, this`heard
      ensures old(store.history) <= store.history
      ensures r.Dead? ==> Halted() && EndsKilled(old(heard), heard)
      ensures r.Alive? ==> match r.value
        case OnPage(pid) => At(t.seen, Paged(pid)) && ActiveFor(store.pages, t.seen.key, pid) && SameHand()
        case Waits => Moved(old(store.sys.hand.rest))
        case AcquireRaised => At(t.seen, Acquire) && SameHand()
      ensures r.Alive? ==>
        PageEnsured(t, maxWindows, old(heard), heard, old(store.pages), store.pages, old(store.jobs), store.jobs,
                    r.value)
    {
      ghost var pages0, jobs0, heard0 := store.pages, store.jobs, heard;
      var known :- Page(t.seen);
      ghost var pages1, jobs1, heard1 := store.pages, store.jobs, heard;
      match known
      case LookupRaised =>
        r := Alive(AcquireRaised);
      case Known(pid) =>
        var _ :- Yield();
        store.WritePage(pid, OpenRow(store.pages[pid]), Look(Reuse(pid)));
        r := Alive(OnPage(pid));
      case Unknown =>
        r := AcquirePage(t);
        if r.Dead? {
          return;
        }
      EnsuredBy(t, maxWindows, heard0, heard1, heard, pages0, pages1, store.pages, jobs0, jobs1, store.jobs, known,
                r.value);
    }

    /** A job whose conversation has no page. */
    method AcquirePage(t: Ticket) returns (r: Outcome<Acquired>)
      requires At(t.seen, Acquire) && store.sys.hand.id == t.id && store.sys.hand.seen == t.seen
      requires NoActive(store.pages, t.seen.key)
      modifies store, this`heard
      ensures old(store.history) <= store.history
      ensures r.Dead? ==> Halted() && EndsKilled(old(heard), heard)
      ensures r.Alive? ==> match r.value
        case OnPage(pid) => At(t.seen, Paged(pid)) && ActiveFor(store.pages, t.seen.key, pid) && SameHand()
        case Waits => Moved(old(store.sys.hand.rest))
        case AcquireRaised => At(t.seen, Acquire) && SameHand()
      ensures r.Alive? ==>
        Acquires(t, maxWindows, old(heard), heard, old(store.pages), store.pages, old(store.jobs), store.jobs, r.value)
    {
      if t.seen.state.Opening? {
        r := ReopenNothing(t);
      } else if t.seen.url.Some? {
        var found := FindExisting(t.seen.url.value);
        if found.Raised? {
          return Alive(AcquireRaised);
        }
        if found.value.Some? {
          r := AdoptWindow(t, found.value.value);
        } else {
          r := OpenOnce(t);
        }
      } else if t.seen.project.None? {
        return Alive(AcquireRaised);
      } else {
        r := OpenOnce(t);
      }
    }

    /** After a crash an open is never repeated: the engine only looks for the window it may have opened. */
    method ReopenNothing(t: Ticket) returns (r: Outcome<Acquired>)
      requires At(t.seen, Acquire) && store.sys.hand.id == t.id && store.sys.hand.seen == t.seen
      requires NoActive(store.pages, t.seen.key) && t.seen.state.Opening?
      modifies store, this`heard
      ensures old(store.history) <= store.history
      ensures r.Dead? ==> Halted() && EndsKilled(old(heard), heard)
      ensures r.Alive? ==> match r.value
        case OnPage(pid) => At(t.seen, Paged(pid)) && ActiveFor(store.pages, t.seen.key, pid) && SameHand()
        case Waits => Moved(old(store.sys.hand.rest))
        case AcquireRaised => At(t.seen, Acquire) && SameHand()
      ensures r.Alive? ==>
        Acquires(t, maxWindows, old(heard), heard, old(store.pages), store.pages, old(store.jobs), store.jobs, r.value)
    {
      var found := Recover(t);
      if found.Raised? {
        return Alive(AcquireRaised);
      }
      if found.value.None? {
        var _ :- Yield();
        store.WriteJob(t.id, store.jobs[t.id].(state := ReconcileRequired), Acquiring(GiveUp));
        return Alive(Waits);
      }
      r := AdoptWindow(t, found.value.value);
    }

    method Recover(t: Ticket) returns (r: Reply<Option<PageIdentity>>)
      modifies this`heard
      ensures r.Returned? && r.value.Some? ==> t.seen.url.Some? ==> !r.value.value.owned
      ensures if t.seen.url.Some? then
          exists f :: heard == old(heard) + [Found(t.seen.url.value, f)]
            && r == if f.Returned? && f.value.Some? then Returned(Some(f.value.value.(owned := false))) else f
        else if t.seen.project.Some? then heard == old(heard) + [Recovered(t.seen.project.value, t.id, r)]
        else heard == old(heard) && r == Returned(None)
    {
      if t.seen.url.Some? {
        r := FindExisting(t.seen.url.value);
        if r.Returned? && r.value.Some? {
          r := Returned(Some(r.value.value.(owned := false)));
        }
      } else if t.seen.project.Some? {
        r := RecoverNew(t.seen.project.value, t.id);
      } else {
        r := Returned(None);
      }
    }

    method AdoptWindow(t: Ticket, ident: PageIdentity) returns (r: Outcome<Acquired>)
      requires At(t.seen, Acquire) && store.sys.hand.id == t.id && store.sys.hand.seen == t.seen
      requires NoActive(store.pages, t.seen.key) && (t.seen.state.Opening? || t.seen.url.Some?)
      requires t.seen.state.Opening? && t.seen.url.Some? ==> !ident.owned
      modifies store, this`heard
      ensures old(store.history) <= store.history
      ensures r.Dead? ==> Halted() && EndsKilled(old(heard), heard)
      ensures r.Alive? ==> At(t.seen, Paged(ident.id)) && ActiveFor(store.pages, t.seen.key, ident.id) && SameHand()
      ensures r.Alive? ==>
        Binds(t, ident, old(store.pages), store.pages, store.jobs, r.value) && heard == old(heard)
    {
      store.Note(Acquiring(Adopt(ident)));
      var _ :- AddPage(t, ident);
      return Alive(OnPage(ident.id));
    }

    /** Opens a window behind a durable OPENING row, if the window budget allows one more. */
    method OpenOnce(t: Ticket) returns (r: Outcome<Acquired>)
      requires At(t.seen, Acquire) && store.sys.hand.id == t.id && store.sys.hand.seen == t.seen
      requires NoActive(store.pages, t.seen.key) && !t.seen.state.Opening? && (t.seen.url.Some? || t.seen.project.Some?)
      modifies store, this`heard
      ensures old(store.history) <= store.history
      ensures r.Dead? ==> Halted() && EndsKilled(old(heard), heard)
      ensures r.Alive? ==> match r.value
        case OnPage(pid) => At(t.seen, Paged(pid)) && ActiveFor(store.pages, t.seen.key, pid) && SameHand()
        case Waits => Moved(old(store.sys.hand.rest))
        case AcquireRaised => false
      ensures r.Alive? ==> old(heard) <= heard && OpensOnce(
        t, maxWindows, |old(heard)|, heard, old(store.pages), store.pages, old(store.jobs), store.jobs, r.value)
    {
      FullIsOwnedActive(maxWindows, store.pages);
      if maxWindows <= |OwnedActive(store.pages)| {
        store.Note(Scan(Release));
        return Alive(Waits);
      }
      var _ :- Yield();
      store.WriteJob(t.id, store.jobs[t.id].(state := Opening), Acquiring(Authorize));
      r := Launch(t);
    }

    method Launch(t: Ticket) returns (r: Outcome<Acquired>)
      requires At(t.seen, Authorized) && store.sys.hand.id == t.id
      modifies store, this`heard
      ensures old(store.history) <= store.history
      ensures r.Dead? ==> Halted() && EndsKilled(old(heard), heard)
      ensures r.Alive? ==> match r.value
        case OnPage(pid) => At(t.seen, Paged(pid)) && ActiveFor(store.pages, t.seen.key, pid) && SameHand()
        case Waits => Moved(old(store.sys.hand.rest))
        case AcquireRaised => false
      ensures r.Alive? ==>
        old(heard) <= heard && Launched(t, |old(heard)|, heard, old(store.pages), store.pages, store.jobs, r.value)
    {
      var _ :- Yield();
      var launched := OpenPage(t.seen.url, t.seen.project, t.id);
      if launched.Raised? {
        store.Note(Acquiring(OpenWindow(None)));
        var _ :- Yield();
        store.WriteJob(t.id, store.jobs[t.id].(state := ReconcileRequired), Acquiring(GiveUp));
        return Alive(Waits);
      }
      store.Note(Acquiring(OpenWindow(Some(launched.value))));
      var _ :- AddPage(t, launched.value);
      return Alive(OnPage(launched.value.id));
    }

    /** Records the located window as the conversation's page and the job as bound to it. */
    method AddPage(t: Ticket, ident: PageIdentity) returns (r: Outcome<()>)
      requires store.sys.hand.Work? && store.sys.hand.stage.Located? && store.sys.hand.stage.ident == ident
      requires At(t.seen, store.sys.hand.stage) && store.sys.hand.id == t.id
      modifies store, this`heard
      ensures old(store.history) <= store.history
      ensures r.Dead? ==> Halted() && EndsKilled(old(heard), heard)
      ensures r.Alive? ==> At(t.seen, Paged(ident.id)) && ActiveFor(store.pages, t.seen.key, ident.id) && SameHand()
      ensures r.Alive? ==>
        heard == old(heard) && Binds(t, ident, old(store.pages), store.pages, store.jobs, OnPage(ident.id))
    {
      var _ :- Yield();
      store.WritePage(ident.id, UpsertRow(store.pages, t.seen.key, ident), Acquiring(Upsert));
      var _ :- Yield();
      store.WriteJob(t.id, store.jobs[t.id].(state := WindowBound), Acquiring(WriteBound));
      return Alive(());
    }

    // ---- Sending ----

    /** Sends the job once, behind a durable SUBMITTING row. */
    method Submit(id: nat, pid: PageId, job: Job) returns (r: Outcome<SendReply>)
      requires At(job, Paged(pid)) && store.sys.hand.id == id && ActiveFor(store.pages, job.key, pid)
      modifies store, this`heard
      ensures old(store.history) <= store.history
      ensures r.Dead? ==> Halted() && Ends(old(heard), heard)
      ensures r.Alive? ==> Moved(old(store.sys.hand.rest)) && id < |store.jobs|
      ensures r.Alive? ==>
        SentOnce(id, pid, old(heard), heard, old(store.jobs[id]), store.jobs[id], cooldown, r.value)
      ensures r.Alive? ==>
        store.sys.log == old(store.sys.log) + [SendCalled(id, job.key, pid, r.value.out)]
                         + if r.value.url.Some? then [ConversationBound(id, job.key), PageReopened(pid)] else []
    {
      var now := Clock();
      var existing :- ArmSend(id, pid, job);
      var reply := SendPrompt(existing, id, pid);
      store.Note(Sending(Send(reply.out)));
      var _ :- Settle(id, pid, job, now, reply);
      return Alive(reply);
    }

    /** Writes the SUBMITTING row; the answer says whether the job has a conversation URL. */
    method ArmSend(id: nat, pid: PageId, job: Job) returns (r: Outcome<bool>)
      requires At(job, Paged(pid)) && store.sys.hand.id == id && ActiveFor(store.pages, job.key, pid)
      modifies store, this`heard
      ensures old(store.history) <= store.history
      ensures r.Dead? ==> Halted() && EndsKilled(old(heard), heard)
      ensures r.Alive? ==> At(job, Armed(pid)) && ActiveFor(store.pages, job.key, pid) && SameHand()
      ensures r.Alive? ==> heard == old(heard) && store.sys.log == old(store.sys.log)
      ensures r.Alive? ==> r.value == old(store.jobs[id].url.Some?)
      ensures r.Alive? ==>
        store.jobs[id] == old(store.jobs[id]).(state := Submitting, attempts := old(store.jobs[id].attempts) + 1)
    {
      var _ :- Yield();
      var row := store.jobs[id].(state := Submitting, attempts := store.jobs[id].attempts + 1);
      store.WriteJob(id, row, Sending(Arm));
      var _ :- Yield();
      return Alive(row.url.Some?);
    }

    /** Writes what the answer of a send call demands. */
    method Settle(id: nat, pid: PageId, job: Job, now: int, reply: SendReply) returns (r: Outcome<()>)
      requires At(job, Replied(pid, reply.out)) && store.sys.hand.id == id && ActiveFor(store.pages, job.key, pid)
      requires store.jobs[id].state.Submitting? && store.jobs[id].attempts > 0
      modifies store, this`heard
      ensures old(store.history) <= store.history
      ensures r.Dead? ==> Halted() && Ends(old(heard), heard)
      ensures r.Alive? ==> Moved(old(store.sys.hand.rest)) && id < |store.jobs| && heard == old(heard)
      ensures r.Alive? ==> Delivered(
        old(store.jobs[id]).(attempts := old(store.jobs[id]).attempts - 1), store.jobs[id], reply, now, cooldown)
      ensures r.Alive? ==>
        store.sys.log == old(store.sys.log)
                         + if reply.url.Some? then [ConversationBound(id, job.key), PageReopened(pid)] else []
    {
      if reply.url.Some? {
        var _ :- Rebind(job.key, pid, reply.url.value);
      }
      var _ :- Yield();
      store.WriteJob(id, SettledJob(store.jobs[id], reply.out, now, cooldown, reply.url),
                     Sending(ChatProtocol.Settle(now, cooldown, reply.url)));
      return Alive(());
    }

    /** Binds the conversation and its page to the URL the browser reports; a conflicting owner ends the worker. */
    method Rebind(key: string, pid: PageId, url: Url) returns (r: Outcome<()>)
      requires store.Valid() && store.sys.maxWindows == maxWindows && store.sys.hand.Work?
      requires store.sys.hand.id < |store.jobs|
      requires store.sys.hand.seen.key == key && store.jobs[store.sys.hand.id].key == key
      requires store.sys.hand.stage.Replied? || store.sys.hand.stage.Watched?
      requires store.sys.hand.stage.page == pid && ActiveFor(store.pages, key, pid)
      modifies store, this`heard
      ensures old(store.history) <= store.history
      ensures r.Dead? ==> Halted() && Ends(old(heard), heard)
      ensures r.Dead? && !EndsKilled(old(heard), heard) ==>
        && heard == old(heard) + [Conflict(url)]
        && exists k :: k in store.convs && k != key && store.convs[k].url == Some(url)
      ensures r.Alive? ==>
        && store.Valid() && store.sys.maxWindows == maxWindows
        && store.sys.hand == old(store.sys.hand) && |old(store.jobs)| <= |store.jobs|
        && store.jobs[store.sys.hand.id].key == key && ActiveFor(store.pages, key, pid) && heard == old(heard)
      ensures r.Alive? ==>
        store.sys.log == old(store.sys.log) + [ConversationBound(store.sys.hand.id, key), PageReopened(pid)]
      ensures r.Alive? ==> Retargeted(old(store.pages), store.pages, pid, key, url)
      ensures r.Alive? && !Cancellable(old(store.jobs[store.sys.hand.id].state)) ==>
        var was := old(store.jobs[store.sys.hand.id]);
        store.jobs[store.sys.hand.id] == if was.url.None? then was.(url := Some(url)) else was
    {
      var _ :- Yield();
      var bound := store.BindConversation(key, url, Sending(Bind(url)));
      if bound.Err? {
        heard := heard + [Conflict(url)];
        store.Exit();
        return Dead;
      }
      r := RetargetPage(key, pid, url);
    }

    method RetargetPage(key: string, pid: PageId, url: Url) returns (r: Outcome<()>)
      requires store.Valid() && store.sys.maxWindows == maxWindows && store.sys.hand.Work?
      requires store.sys.hand.id < |store.jobs|
      requires store.sys.hand.stage.Replied? || store.sys.hand.stage.Watched?
      requires store.sys.hand.stage.page == pid && ActiveFor(store.pages, key, pid)
      modifies store, this`heard
      ensures old(store.history) <= store.history
      ensures r.Dead? ==> Halted() && EndsKilled(old(heard), heard)
      ensures r.Alive? ==>
        && store.Valid() && store.sys.maxWindows == maxWindows && heard == old(heard)
        && store.sys.hand == old(store.sys.hand) && Held(old(store.jobs), store.jobs, store.sys.hand.id)
        && ActiveFor(store.pages, key, pid) && store.sys.log == old(store.sys.log) + [PageReopened(pid)]
      ensures r.Alive? ==> Retargeted(old(store.pages), store.pages, pid, key, url)
    {
      var _ :- Yield();
      store.WritePage(pid, RetargetRow(store.pages[pid], url), Sending(Retarget(url)));
      return Alive(());
    }

    // ---- Reconciling ----

    /** Looks for evidence of a send that may have happened; it never sends. */
    method Reconcile(id: nat, job: Job) returns (r: Outcome<Seen>)
      requires At(job, Watch) && store.sys.hand.id == id && MaybeSent(store.jobs[id].state)
      requires job.url.None? ==> store.sys.hand.seen.url.None? || store.jobs[id].url.None?
      modifies store, this`heard
      ensures old(store.history) <= store.history
      ensures r.Dead? ==> Halted() && Ends(old(heard), heard)
      ensures r.Alive? ==> Moved(old(store.sys.hand.rest))
      ensures r.Alive? ==> Settles(
        id, job, old(heard), heard, old(store.jobs[id]), store.pages, store.jobs, old(store.sys.log), store.sys.log,
        r.value)
    {
      ghost var heard0, log0, row0 := heard, store.sys.log, store.jobs[id];
      var known :- Page(job);
      match known
      case LookupRaised =>
        store.Exit();
        return Dead;
      case Unknown =>
        store.Note(Scan(Release));
        return Alive(NoPage);
      case Known(pid) =>
        ghost var heard1, log1 := heard, store.sys.log;
        r := Consult(id, job, pid);
        if r.Alive? {
          SettlesLater(id, job, heard0, heard1, heard, row0, store.pages, store.jobs, log0, log1, store.sys.log,
                       r.value);
        }
    }

    /** Looks at the page the conversation has. */
    method Consult(id: nat, job: Job, pid: PageId) returns (r: Outcome<Seen>)
      requires At(job, Watch) && store.sys.hand.id == id && MaybeSent(store.jobs[id].state)
      requires job.url.None? ==> store.sys.hand.seen.url.None? || store.jobs[id].url.None?
      requires ActiveFor(store.pages, job.key, pid)
      modifies store, this`heard
      ensures old(store.history) <= store.history && old(heard) <= heard
      ensures r.Dead? ==> Halted() && Ends(old(heard), heard)
      ensures r.Alive? ==> Moved(old(store.sys.hand.rest))
      ensures r.Alive? ==> Settles(
        id, job, old(heard), heard, old(store.jobs[id]), store.pages, store.jobs, old(store.sys.log), store.sys.log,
        r.value)
    {
      store.Note(Look(Watching(pid)));
      if job.url.None? {
        r := ConsultNew(id, job, pid);
      } else {
        r := Gather(id, job, pid, store.jobs[id]);
      }
    }

    /** Looks at the page of a conversation that has no URL yet. */
    method ConsultNew(id: nat, job: Job, pid: PageId) returns (r: Outcome<Seen>)
      requires At(job, Watched(pid)) && store.sys.hand.id == id && MaybeSent(store.jobs[id].state)
      requires job.url.None? && (store.sys.hand.seen.url.None? || store.jobs[id].url.None?)
      requires ActiveFor(store.pages, job.key, pid)
      modifies store, this`heard
      ensures old(store.history) <= store.history && old(heard) <= heard
      ensures r.Dead? ==> Halted() && Ends(old(heard), heard)
      ensures r.Alive? ==> Moved(old(store.sys.hand.rest))
      ensures r.Alive? ==> Settles(
        id, job, old(heard), heard, old(store.jobs[id]), store.pages, store.jobs, old(store.sys.log), store.sys.log,
        r.value)
    {
      ghost var heard0, log0, row0 := heard, store.sys.log, store.jobs[id];
      var settled :- AdoptConversation(id, job, pid);
      if !settled {
        store.Note(Confirming(Inconclusive(None)));
        return Alive(NoAddress(pid));
      }
      ghost var heard1, log1 := heard, store.sys.log;
      r := Gather(id, job, pid, row0);
      if r.Alive? {
        SettlesLater(id, job, heard0, heard1, heard, row0, store.pages, store.jobs, log0, log1, store.sys.log, r.value);
      }
    }

    /** Observes the page; `row0` is the row as it was before the job counted as submitted. */
    method Gather(id: nat, job: Job, pid: PageId, ghost row0: Job) returns (r: Outcome<Seen>)
      requires At(job, Watched(pid)) && store.sys.hand.id == id && MaybeSent(store.jobs[id].state)
      requires ActiveFor(store.pages, job.key, pid) && MaybeSent(row0.state)
      requires Presumed(job, row0, store.jobs[id])
      modifies store, this`heard
      ensures old(store.history) <= store.history && old(heard) <= heard
      ensures r.Dead? ==> Halted() && Ends(old(heard), heard)
      ensures r.Alive? ==> Moved(old(store.sys.hand.rest))
      ensures r.Alive? ==> Settles(
        id, job, old(heard), heard, row0, store.pages, store.jobs, old(store.sys.log), store.sys.log, r.value)
    {
      ghost var heard1, log1, row1, page1 := heard, store.sys.log, store.jobs[id], store.pages[pid];
      var ack :- Observe(id, job, pid);
      EvidenceSettles(id, job, pid, heard1, heard, row0, row1, page1, store.pages, store.jobs, log1, store.sys.log,
                      ack);
      return Alive(Evidence(pid, ack));
    }

    /** A new conversation that has reached its URL counts as submitted. */
    method AdoptConversation(id: nat, job: Job, pid: PageId) returns (r: Outcome<bool>)
      requires At(job, Watched(pid)) && store.sys.hand.id == id && ActiveFor(store.pages, job.key, pid)
      requires MaybeSent(store.jobs[id].state)
      modifies store, this`heard
      ensures old(store.history) <= store.history
      ensures r.Dead? ==> Halted() && Ends(old(heard), heard)
      ensures r.Alive? ==> At(job, Watched(pid)) && ActiveFor(store.pages, job.key, pid) && SameHand()
      ensures r.Alive? && !r.value ==>
        && store.jobs[id] == old(store.jobs[id]) && store.pages == old(store.pages)
        && old(heard) < heard && NoConversation(heard[|heard| - 1], pid)
      ensures r.Alive? && r.value ==> exists url: Url, now: int ::
        && url.conversationId.Some? && heard == old(heard) + [Address(pid, Returned(Some(url))), Time(now)]
        && store.jobs[id] == old(store.jobs[id]).(
             state := Submitted, url := Some(url),
             submittedAt := if job.submittedAt.Some? then job.submittedAt else Some(now))
        && Retargeted(old(store.pages), store.pages, pid, job.key, url)
      ensures r.Alive? ==> old(store.sys.log) <= store.sys.log
    {
      var current := CurrentUrl(pid);
      if current.Raised? {
        store.Exit();
        return Dead;
      }
      if current.value.None? || current.value.value.conversationId.None? {
        return Alive(false);
      }
      var url := current.value.value;
      var now := Clock();
      var at := if job.submittedAt.Some? then job.submittedAt.value else now;
      var _ :- Rebind(job.key, pid, url);
      var _ :- WriteSubmitted(id, job, pid, url, at);
      return Alive(true);
    }

    method WriteSubmitted(id: nat, job: Job, pid: PageId, url: Url, at: int) returns (r: Outcome<()>)
      requires At(job, Watched(pid)) && store.sys.hand.id == id && MaybeSent(store.jobs[id].state)
      modifies store, this`heard
      ensures old(store.history) <= store.history
      ensures r.Dead? ==> Halted() && EndsKilled(old(heard), heard)
      ensures r.Alive? ==> At(job, Watched(pid)) && SameHand() && heard == old(heard)
      ensures r.Alive? ==> store.pages == old(store.pages) && store.sys.log == old(store.sys.log)
      ensures r.Alive? ==>
        store.jobs[id] == old(store.jobs[id]).(state := Submitted, url := Some(url), submittedAt := Some(at))
    {
      var _ :- Yield();
      store.WriteJob(id, store.jobs[id].(state := Submitted, url := Some(url), submittedAt := Some(at)),
                     Confirming(LateSubmit(url, at)));
      return Alive(());
    }

    method Observe(id: nat, job: Job, pid: PageId) returns (r: Outcome<AckResult>)
      requires At(job, Watched(pid)) && store.sys.hand.id == id && ActiveFor(store.pages, job.key, pid)
      requires MaybeSent(store.jobs[id].state)
      modifies store, this`heard
      ensures old(store.history) <= store.history
      ensures r.Dead? ==> Halted() && Ends(old(heard), heard)
      ensures r.Alive? ==> Moved(old(store.sys.hand.rest)) && id < |store.jobs| && pid in store.pages
      ensures r.Alive? ==> old(heard) + [Observed(id, pid, Returned(r.value))] <= heard
      ensures r.Alive? ==> exists now :: Concludes(
        old(store.jobs[id]), store.jobs[id], old(store.pages)[pid], store.pages[pid], r.value, now)
      ensures r.Alive? ==> old(store.sys.log) <= store.sys.log
      ensures r.Alive? && store.jobs[id].state.Acknowledged? ==>
        && old(store.sys.log) + [JobAcknowledged(id, job.key)] <= store.sys.log
        && (store.pages[pid].state.PageIdle? || Pending(store.jobs, job.key))
    {
      var ack := ObserveAck(id, pid);
      var _ :- Yield();
      if ack.Raised? {
        store.Exit();
        return Dead;
      }
      var _ :- Conclude(id, job, pid, ack.value);
      return Alive(ack.value);
    }

    /** Writes what the observation of a page demands. */
    method Conclude(id: nat, job: Job, pid: PageId, ack: AckResult) returns (r: Outcome<()>)
      requires At(job, Watched(pid)) && store.sys.hand.id == id && ActiveFor(store.pages, job.key, pid)
      requires MaybeSent(store.jobs[id].state)
      modifies store, this`heard
      ensures old(store.history) <= store.history
      ensures r.Dead? ==> Halted() && EndsKilled(old(heard), heard)
      ensures r.Alive? ==> Moved(old(store.sys.hand.rest)) && id < |store.jobs| && pid in store.pages
      ensures r.Alive? ==> heard == old(heard) || (|heard| == |old(heard)| + 1 && heard[|old(heard)|].Time?)
      ensures r.Alive? ==> old(heard) <= heard && Concludes(
        old(store.jobs[id]), store.jobs[id], old(store.pages)[pid], store.pages[pid], ack,
        if heard == old(heard) then None else Some(heard[|old(heard)|].now))
      ensures r.Alive? ==> old(store.sys.log) <= store.sys.log
      ensures r.Alive? && store.jobs[id].state.Acknowledged? ==>
        && old(store.sys.log) + [JobAcknowledged(id, job.key)] <= store.sys.log
        && (store.pages[pid].state.PageIdle? || Pending(store.jobs, job.key))
    {
      if ack.observed && ack.nonces > 1 {
        r := QuarantinePage(id, job, pid, ack);
      } else if ack.observed && ack.nonces == 1 && ack.generating == Some(false) {
        r := Finish(id, job, pid, ack);
      } else {
        store.Note(Confirming(Inconclusive(Some(ack))));
        return Alive(());
      }
    }

    /** A duplicate delivery is for a human to review. */
    method QuarantinePage(id: nat, job: Job, pid: PageId, ack: AckResult) returns (r: Outcome<()>)
      requires At(job, Watched(pid)) && store.sys.hand.id == id && ActiveFor(store.pages, job.key, pid)
      requires DuplicateDelivery(ack)
      modifies store, this`heard
      ensures old(store.history) <= store.history
      ensures r.Dead? ==> Halted() && EndsKilled(old(heard), heard)
      ensures r.Alive? ==> Moved(old(store.sys.hand.rest)) && heard == old(heard) && id < |store.jobs|
      ensures r.Alive? ==> store.jobs[id] == old(store.jobs[id]).(state := ReconcileRequired)
      ensures r.Alive? ==> store.sys.log == old(store.sys.log)
      ensures r.Alive? ==> store.pages == old(store.pages)[pid :=
        old(store.pages)[pid].(state := PageAmbiguous, closeAfter := None)]
    {
      store.WriteJob(id, store.jobs[id].(state := ReconcileRequired), Confirming(Duplicate(ack)));
      var _ :- Yield();
      store.WritePage(pid, ClosedRow(store.pages[pid], true), Confirming(Quarantine));
      return Alive(());
    }

    /** Acknowledges the job; the page goes idle only if the conversation has nothing left to do. */
    method Finish(id: nat, job: Job, pid: PageId, ack: AckResult) returns (r: Outcome<()>)
      requires At(job, Watched(pid)) && store.sys.hand.id == id && ActiveFor(store.pages, job.key, pid)
      requires DeliveredOnce(ack)
      modifies store, this`heard
      ensures old(store.history) <= store.history
      ensures r.Dead? ==> Halted() && EndsKilled(old(heard), heard)
      ensures r.Alive? ==> Moved(old(store.sys.hand.rest)) && id < |store.jobs| && pid in store.pages
      ensures r.Alive? ==> exists now ::
        && heard == old(heard) + [Time(now)]
        && store.jobs[id] == old(store.jobs[id]).(state := Acknowledged, acknowledgedAt := Some(now))
        && (Rests(old(store.pages)[pid], store.pages[pid], job.idleClose, now)
            || (store.pages == old(store.pages) && Pending(store.jobs, job.key)))
      ensures r.Alive? ==> old(store.sys.log) + [JobAcknowledged(id, job.key)] <= store.sys.log
    {
      var now := Clock();
      store.WriteJob(id, store.jobs[id].(state := Acknowledged, acknowledgedAt := Some(now)),
                     Confirming(Acknowledge(now, ack)));
      var _ :- Rest(id, job, pid, now);
      return Alive(());
    }

    method Rest(id: nat, job: Job, pid: PageId, now: int) returns (r: Outcome<()>)
      requires At(job, Stage.Acked(pid)) && store.sys.hand.id == id && pid in store.pages
      requires store.jobs[id].state.Acknowledged?
      modifies store, this`heard
      ensures old(store.history) <= store.history
      ensures r.Dead? ==> Halted() && EndsKilled(old(heard), heard)
      ensures r.Alive? ==> Moved(old(store.sys.hand.rest)) && id < |store.jobs| && pid in store.pages
      ensures r.Alive? ==> store.jobs[id] == old(store.jobs[id]) && heard == old(heard)
      ensures r.Alive? ==> old(store.sys.log) <= store.sys.log
      ensures r.Alive? ==>
        || Rests(old(store.pages)[pid], store.pages[pid], job.idleClose, now)
        || (store.pages == old(store.pages) && Pending(store.jobs, job.key))
    {
      var _ :- Yield();
      PendingIsPendingFor(store.jobs, job.key);
      if PendingFor(store.jobs, job.key) {
        store.Note(Scan(Release));
        return Alive(());
      }
      store.Note(Confirming(Drain));
      var _ :- Yield();
      store.WritePage(pid, IdleRow(store.pages[pid], job.idleClose, now), Confirming(RestAfterAck(now, job.idleClose)));
      return Alive(());
    }

    // ---- One pass ----

    /** One pass: every eligible job in row order, then every page that may have gone idle. */
    method RunOnce() returns (r: Outcome<bool>, ghost moves: seq<bool>)
      requires store.Valid() && store.sys.maxWindows == maxWindows && store.sys.hand.Ready?
      modifies store, this`heard
      ensures old(store.history) <= store.history
      ensures r.Dead? ==> Halted() && Ends(old(heard), heard)
      ensures r.Alive? ==> store.Valid() && store.sys.maxWindows == maxWindows && store.sys.hand.Ready?
      ensures r.Alive? ==>
        |old(store.history)| < |store.history| && store.history[|store.history| - 1] == SweepingBy(EndPass)
      ensures r.Alive? ==>
        && old(heard) < heard && heard[|old(heard)|].Time?
        && Scan(BeginPass(heard[|old(heard)|].now, PASS_LIMIT)) in store.history[|old(store.history)|..]
      ensures r.Alive? ==> (r.value <==> true in moves)
    {
      var now := Clock();
      r, moves := ScanQueue(now);
      if r.Alive? {
        var swept := CloseIdlePages();
        if swept.Dead? {
          r := Dead;
        }
      }
    }

    /** Takes a snapshot of the jobs that are due by `now` and advances one after the other. */
    method ScanQueue(now: int) returns (r: Outcome<bool>, ghost moves: seq<bool>)
      requires store.Valid() && store.sys.maxWindows == maxWindows && store.sys.hand.Ready?
      modifies store, this`heard
      ensures old(store.history) <= store.history && old(heard) <= heard
      ensures r.Dead? ==> Halted() && Ends(old(heard), heard)
      ensures r.Alive? ==> Moved([]) && (r.value <==> true in moves)
      ensures r.Alive? ==> Scan(BeginPass(now, PASS_LIMIT)) in store.history[|old(store.history)|..]
    {
      var progressed := false;
      moves := [];
      var alive := Yield();
      if alive.Dead? {
        return Dead, moves;
      }
      var todo := EligibleFrom(store.jobs, now, PASS_LIMIT, 0);
      store.Note(Scan(BeginPass(now, PASS_LIMIT)));
      ghost var begun := store.history;
      while todo != []
        invariant Moved(todo) && begun <= store.history && old(heard) <= heard && (progressed <==> true in moves)
        decreases |todo|
      {
        var moved := Advance(todo[0]);
        if moved.Dead? {
          return Dead, moves;
        }
        progressed, moves := progressed || moved.value, moves + [moved.value];
        todo := todo[1..];
      }
      assert store.history[|old(store.history)|..][|begun| - 1 - |old(store.history)|] ==
        Scan(BeginPass(now, PASS_LIMIT));
      return Alive(progressed), moves;
    }

    /** Advances the next job of the snapshot by at most one send. */
    method Advance(t: Ticket) returns (r: Outcome<bool>)
      requires store.Valid() && store.sys.maxWindows == maxWindows
      requires store.sys.hand.Scanning? && store.sys.hand.todo != [] && store.sys.hand.todo[0] == t
      modifies store, this`heard
      ensures old(store.history) <= store.history && old(heard) <= heard
      ensures r.Dead? ==> Halted() && Ends(old(heard), heard)
      ensures r.Alive? ==> Moved(old(store.sys.hand.todo)[1..])
      ensures r.Alive? ==> Advances(
        t, maxWindows, cooldown, old(heard), heard, old(store.pages), store.pages, old(store.jobs), store.jobs,
        old(store.sys.log), store.sys.log, r.value)
    {
      store.HasTicket();
      var _ :- Yield();
      store.HasTicket();
      ghost var rows := store.jobs;
      r := Handle(t);
      assert Held(old(store.jobs), rows, t.id);
    }

    /** Never sends past an older unfinished job of the conversation. */
    method Handle(t: Ticket) returns (r: Outcome<bool>)
      requires store.Valid() && store.sys.maxWindows == maxWindows && TicketOk(store.jobs, t)
      requires store.sys.hand.Scanning? && store.sys.hand.todo != [] && store.sys.hand.todo[0] == t
      modifies store, this`heard
      ensures old(store.history) <= store.history && old(heard) <= heard
      ensures r.Dead? ==> Halted() && Ends(old(heard), heard)
      ensures r.Alive? ==> Moved(old(store.sys.hand.todo)[1..])
      ensures r.Alive? ==>
        || (!r.value && Passed(t, store.jobs, old(heard), heard))
        || Handles(t, maxWindows, cooldown, old(heard), heard, old(store.pages), store.pages, old(store.jobs),
                   store.jobs, old(store.sys.log), store.sys.log, r.value)
    {
      BehindIsOlderUnfinished(store.jobs, t.id);
      if OlderUnfinished(store.jobs, t.id) {
        store.Note(Scan(Skip(0)));
        return Alive(false);
      }
      if t.seen.state.Submitting? || t.seen.state.Submitted? || t.seen.state.ReconcileRequired? {
        r := Revisit(t);
      } else {
        r := DeliverIfDue(t);
      }
    }

    /** A job that was rate limited waits for its cooldown to run out. */
    method DeliverIfDue(t: Ticket) returns (r: Outcome<bool>)
      requires store.Valid() && store.sys.maxWindows == maxWindows
      requires store.sys.hand.Scanning? && store.sys.hand.todo != [] && store.sys.hand.todo[0] == t
      requires TicketOk(store.jobs, t) && !OlderUnfinished(store.jobs, t.id)
      requires !t.seen.state.Submitting? && !t.seen.state.Submitted? && !t.seen.state.ReconcileRequired?
      modifies store, this`heard
      ensures old(store.history) <= store.history && old(heard) <= heard
      ensures r.Dead? ==> Halted() && Ends(old(heard), heard)
      ensures r.Alive? ==> Moved(old(store.sys.hand.todo)[1..])
      ensures r.Alive? ==>
        || (!r.value && Passed(t, store.jobs, old(heard), heard))
        || exists start :: Starts(t, old(store.jobs), old(heard), start)
             && Delivers(t, maxWindows, cooldown, start, heard, old(store.pages), old(store.jobs), store.jobs, r.value)
    {
      BehindIsOlderUnfinished(store.jobs, t.id);
      if t.seen.state.RetryWait? {
        var at := Clock();
        if at < t.seen.nextAttemptAt {
          store.Note(Scan(Skip(at)));
          return Alive(false);
        }
      }
      ghost var start := heard;
      store.Note(Scan(Take));
      r := Deliver(t);
    }

    /** A job whose send may have happened: a worker that finds SUBMITTING cannot know, so it never sends again. */
    method Revisit(t: Ticket) returns (r: Outcome<bool>)
      requires store.Valid() && store.sys.maxWindows == maxWindows
      requires store.sys.hand.Scanning? && store.sys.hand.todo != [] && store.sys.hand.todo[0] == t
      requires TicketOk(store.jobs, t) && !OlderUnfinished(store.jobs, t.id)
      requires t.seen.state.Submitting? || t.seen.state.Submitted? || t.seen.state.ReconcileRequired?
      modifies store, this`heard
      ensures old(store.history) <= store.history
      ensures r.Dead? ==> Halted() && Ends(old(heard), heard)
      ensures r.Alive? ==> Moved(old(store.sys.hand.todo)[1..])
      ensures r.Alive? ==> Revisits(
        t, old(heard), heard, store.pages, old(store.jobs), store.jobs, old(store.sys.log), store.sys.log, r.value)
    {
      if t.seen.state.Submitting? {
        store.WriteJob(t.id, store.jobs[t.id].(state := ReconcileRequired), Scan(Take));
        var _ :- Reconcile(t.id, store.jobs[t.id]);
        return Alive(true);
      }
      store.Note(Scan(Take));
      var _ :- Reconcile(t.id, t.seen);
      return Alive(store.jobs[t.id].state != t.seen.state);
    }

    method Deliver(t: Ticket) returns (r: Outcome<bool>)
      requires At(t.seen, Acquire) && store.sys.hand.id == t.id && store.sys.hand.seen == t.seen
      modifies store, this`heard
      ensures old(store.history) <= store.history && old(heard) <= heard
      ensures r.Dead? ==> Halted() && Ends(old(heard), heard)
      ensures r.Alive? ==> Moved(old(store.sys.hand.rest))
      ensures r.Alive? ==> Delivers(
        t, maxWindows, cooldown, old(heard), heard, old(store.pages), old(store.jobs), store.jobs, r.value)
    {
      var acquired :- EnsurePage(t);
      ghost var heard1, pages1, jobs1 := heard, store.pages, store.jobs;
      r := Proceed(t, acquired);
      assert PageEnsured(
        t, maxWindows, old(heard), heard1, old(store.pages), pages1, old(store.jobs), jobs1, acquired);
    }

    /** Sends on the page that was acquired; a job for which none could be acquired has failed. */
    method Proceed(t: Ticket, acquired: Acquired) returns (r: Outcome<bool>)
      requires match acquired
        case OnPage(pid) => At(t.seen, Paged(pid)) && ActiveFor(store.pages, t.seen.key, pid)
        case Waits => store.sys.hand.Scanning? && Moved(store.sys.hand.todo) && t.id < |store.jobs|
        case AcquireRaised => At(t.seen, Acquire)
      requires !acquired.Waits? ==> store.sys.hand.id == t.id
      modifies store, this`heard
      ensures old(store.history) <= store.history && old(heard) <= heard
      ensures r.Dead? ==> Halted() && Ends(old(heard), heard)
      ensures r.Alive? ==>
        Moved(if acquired.Waits? then old(store.sys.hand.todo) else old(store.sys.hand.rest))
      ensures r.Alive? ==>
        Proceeds(t, cooldown, acquired, old(heard), heard, old(store.jobs), store.jobs, r.value)
    {
      match acquired
      case AcquireRaised =>
        var _ :- FailJob(t);
        return Alive(true);
      case Waits =>
        return Alive(false);
      case OnPage(pid) =>
        var _ :- Submit(t.id, pid, t.seen);
        return Alive(true);
    }

    method FailJob(t: Ticket) returns (r: Outcome<()>)
      requires At(t.seen, Acquire) && store.sys.hand.id == t.id
      modifies store, this`heard
      ensures old(store.history) <= store.history
      ensures r.Dead? ==> Halted() && EndsKilled(old(heard), heard)
      ensures r.Alive? ==> Moved(old(store.sys.hand.rest)) && heard == old(heard) && t.id < |store.jobs|
      ensures r.Alive? ==> store.jobs[t.id].state.Failed?
    {
      var _ :- Yield();
      store.WriteJob(t.id, store.jobs[t.id].(state := Failed), Acquiring(FailAcquire));
      return Alive(());
    }

    /** Every page that is not closed, once; none changes but those whose timer starts or has run out by `now`. */
    method CloseIdlePages() returns (r: Outcome<()>)
      requires Moved([])
      modifies store, this`heard
      ensures old(store.history) <= store.history
      ensures r.Dead? ==> Halted() && Ends(old(heard), heard)
      ensures r.Alive? ==> store.Valid() && store.sys.maxWindows == maxWindows && store.sys.hand.Ready?
      ensures r.Alive? ==>
        |old(store.history)| < |store.history| && store.history[|store.history| - 1] == SweepingBy(EndPass)
      ensures r.Alive? ==>
        && old(heard) < heard && heard[|old(heard)|].Time?
        && SweptAll(old(store.pages), store.pages, heard[|old(heard)|].now, idleClose)
    {
      var now := Clock();
      var order := store.ListPages();
      var rows := store.pages;
      store.Note(SweepingBy(BeginSweep(order)));
      var k := 0;
      while k < |order|
        invariant old(store.history) <= store.history && old(heard) + [Time(now)] <= heard
        invariant SweptTo(rows, order, k, now)
      {
        var _ :- SweepNext(rows, order, k, now);
        k := k + 1;
      }
      store.Note(SweepingBy(EndPass));
      return Alive(());
    }

    /** The pass has come as far as the first `k` pages of its list. */
    ghost predicate SweptTo(rows: map<PageId, Page>, order: seq<PageId>, k: nat, now: int) reads store {
      && store.Valid() && store.sys.maxWindows == maxWindows && k <= |order|
      && (forall i :: 0 <= i < |order| ==> order[i] in rows)
      && (forall i, j :: 0 <= i < j < |order| ==> order[i] != order[j])
      && store.sys.hand == Sweeping(Snapshot(rows, order)[k..]) && SweptAll(rows, store.pages, now, idleClose)
      && forall i :: k <= i < |order| ==> order[i] in store.pages && store.pages[order[i]] == rows[order[i]]
    }

    method SweepNext(rows: map<PageId, Page>, order: seq<PageId>, k: nat, now: int) returns (r: Outcome<()>)
      requires SweptTo(rows, order, k, now) && k < |order|
      modifies store, this`heard
      ensures old(store.history) <= store.history && old(heard) <= heard
      ensures r.Dead? ==> Halted() && Ends(old(heard), heard)
      ensures r.Alive? ==> SweptTo(rows, order, k + 1, now)
    {
      ghost var snap, mid, before := Snapshot(rows, order), store.pages, heard;
      assert snap[k..][0] == snap[k] && snap[k..][1..] == snap[k + 1..];
      var _ :- CloseIfIdle(order[k], rows[order[k]], now);
      if store.pages != mid {
        SweepsOnePage(rows, mid, store.pages, order[k], before, heard, now, idleClose);
      }
      return Alive(());
    }

    /** Starts the idle timer of an owned page, or closes it once the timer has run out. */
    method CloseIfIdle(pid: PageId, page: Page, now: int) returns (r: Outcome<()>)
      requires store.Valid() && store.sys.maxWindows == maxWindows && pid in store.pages && store.pages[pid] == page
      requires store.sys.hand.Sweeping? && store.sys.hand.snap != [] && store.sys.hand.snap[0] == (pid, page)
      modifies store, this`heard
      ensures old(store.history) <= store.history && old(heard) <= heard
      ensures r.Dead? ==> Halted() && Ends(old(heard), heard)
      ensures r.Alive? ==> store.Valid() && store.sys.maxWindows == maxWindows
      ensures r.Alive? ==> store.sys.hand == Sweeping(old(store.sys.hand.snap)[1..])
      ensures r.Alive? ==>
        || (store.pages == old(store.pages) && heard == old(heard) && (!page.owned || Pending(store.jobs, page.key)))
        || (page.owned && pid in store.pages && store.pages == old(store.pages)[pid := store.pages[pid]]
            && Swept(pid, page, store.pages[pid], old(heard), heard, now, idleClose))
    {
      var _ :- Yield();
      PendingIsPendingFor(store.jobs, page.key);
      if !page.owned || PendingFor(store.jobs, page.key) {
        store.Note(SweepingBy(SweepSkip));
        return Alive(());
      }
      store.Note(SweepingBy(SweepCheck));
      var _ :- Yield();
      if page.state.PageOpen? {
        StartTimer(pid, page, now);
        return Alive(());
      }
      if !page.state.PageIdle? || page.closeAfter.None? || now < page.closeAfter.value {
        store.Note(SweepingBy(SweepSpare(now)));
        return Alive(());
      }
      r := CloseDue(pid, page, now);
    }

    method StartTimer(pid: PageId, page: Page, now: int)
      requires store.Valid() && pid in store.pages && store.pages[pid] == page
      requires store.sys.hand.Closing? && store.sys.hand.pid == pid && store.sys.hand.row == page
      requires page.state.PageOpen?
      modifies store
      ensures store.Valid() && old(store.history) <= store.history && store.sys.maxWindows == old(store.sys.maxWindows)
      ensures store.sys.hand == Sweeping(old(store.sys.hand.snap))
      ensures pid in store.pages && store.pages == old(store.pages)[pid := store.pages[pid]]
      ensures Rests(page, store.pages[pid], idleClose, now)
    {
      store.WritePage(pid, IdleRow(store.pages[pid], idleClose, now), SweepingBy(SweepIdle(now, idleClose)));
    }

    /** Calls for the close of a page whose timer has run out; a page not proven gone is never tried again. */
    method CloseDue(pid: PageId, page: Page, now: int) returns (r: Outcome<()>)
      requires store.Valid() && store.sys.maxWindows == maxWindows && pid in store.pages && store.pages[pid] == page
      requires store.sys.hand.Closing? && store.sys.hand.pid == pid && store.sys.hand.row == page
      requires page.state.PageIdle? && page.closeAfter.Some? && page.closeAfter.value <= now
      modifies store, this`heard
      ensures old(store.history) <= store.history && old(heard) <= heard
      ensures r.Dead? ==> Halted() && Ends(old(heard), heard)
      ensures r.Alive? ==> store.Valid() && store.sys.maxWindows == maxWindows
      ensures r.Alive? ==> store.sys.hand == Sweeping(old(store.sys.hand.snap))
      ensures r.Alive? ==>
        && pid in store.pages && store.pages == old(store.pages)[pid := store.pages[pid]]
        && Swept(pid, page, store.pages[pid], old(heard), heard, now, idleClose)
    {
      var closed := ClosePage(pid);
      store.Note(SweepingBy(SweepClose(now, closed.Returned? && closed.value)));
      if closed.Raised? {
        store.Exit();
        return Dead;
      }
      var _ :- Yield();
      store.WritePage(pid, ClosedRow(store.pages[pid], !closed.value), SweepingBy(SweepMark));
      return Alive(());
    }
  }

  /**
   One worker process: passes until it decides to leave, is killed, or an exception ends it.  When it
   leaves is not part of the model, so `passes` is arbitrary.
   */
  method RunWorker(store: ChatDispatchStore, maxWindows: int, idleClose: int, cooldown: int, passes: nat)
    requires store.Valid() && store.sys.hand.Off?
    modifies store
    ensures store.Valid() && store.sys.hand.Off? && old(store.history) <= store.history
    ensures AtMostOnce(store.sys.log) && InRowOrder(store.sys.log) && UniquePages(store.pages)
  {
    var engine := new ChatDispatchEngine(store, maxWindows, idleClose, cooldown);
    store.Note(World(Boot(engine.maxWindows)));
    var left, alive := passes, true;
    while alive && 0 < left
      invariant store.Valid() && old(store.history) <= store.history
      invariant
        if alive then store.sys.hand.Ready? && store.sys.maxWindows == engine.maxWindows
        else store.sys.hand.Off?
    {
      var pass, _ := engine.RunOnce();
      alive, left := pass.Alive?, left - 1;
    }
    if alive {
      store.Exit();
    }
    store.HasInv();
  }
}
