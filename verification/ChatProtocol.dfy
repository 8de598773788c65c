/**
 The durable tables of the chat dispatcher and its engine as a step machine.

 One `Action` is one durable write, one browser call or one read of the tables that the engine acts
 on later.  Other processes may enqueue or cancel between any two actions, and the engine may die
 between any two of them; only the tables survive.  `hand` is what the engine holds in local
 variables, so it is lost on a death.  `log` records the external calls and is never read by an action.
 */
module ChatProtocol {
  import opened Prelude

  /** URLs arrive parsed: the identifiers are what the URL parsers of the source extract, if anything. */
  datatype Url = Url(text: string, conversationId: Option<string>)
  datatype ProjectUrl = ProjectUrl(text: string, projectId: Option<string>)

  datatype JobState =
    | Queued | Claimed | Opening | WindowBound | Submitting | Submitted
    | ReconcileRequired | RetryWait | Acknowledged | Failed | Cancelled

  predicate Terminal(st: JobState) { st.Acknowledged? || st.Failed? || st.Cancelled? }

  /** States a new page may still be acquired from: no send of the job can have had an effect. */
  predicate Acquirable(st: JobState) { st.Queued? || st.Opening? || st.WindowBound? || st.RetryWait? }

  predicate Eligible(st: JobState) { !Terminal(st) && !st.Claimed? }

  predicate Cancellable(st: JobState) {
    !Terminal(st) && !st.Submitting? && !st.ReconcileRequired? && !st.Submitted?
  }

  datatype Job = Job(
    dispatchKey: Option<string>, key: string, url: Option<Url>, project: Option<ProjectUrl>, prompt: string,
    state: JobState, nextAttemptAt: int, attempts: nat, idleClose: int,
    submittedAt: Option<int>, acknowledgedAt: Option<int>)

  datatype PageState = PageOpen | PageIdle | PageClosed | PageAmbiguous

  datatype PageId = PageId(windowHandle: int, browserPid: int)

  datatype Page = Page(
    key: string, url: Url, owned: bool, state: PageState, idleSince: Option<int>, closeAfter: Option<int>)

  datatype PageIdentity = PageIdentity(id: PageId, url: Url, owned: bool)

  datatype Conversation = Conversation(url: Option<Url>, project: Option<ProjectUrl>)

  predicate Active(p: Page) { p.state.PageOpen? || p.state.PageIdle? }

  /** What the engine concludes from the address it reads in the window of a known page. */
  datatype Verdict = WindowGone | IdentityChanged | SamePage | Navigated(url: Url)

  function PageVerdict(job: Job, page: Page, current: Option<Url>): Verdict {
    if current.None? then WindowGone
    else if job.url.Some? && current.value.conversationId == job.url.value.conversationId then
      if current.value != page.url then Navigated(current.value) else SamePage
    else if job.url.None? && job.project.Some? then SamePage
    else IdentityChanged
  }

  // ---- Rows written by the page updates ----

  function OpenRow(p: Page): Page { p.(state := PageOpen, idleSince := None, closeAfter := None) }

  function RetargetRow(p: Page, url: Url): Page { OpenRow(p).(url := url) }

  function IdleStart(p: Page, now: int): int {
    if p.state.PageIdle? && p.idleSince.Some? then p.idleSince.value else now
  }

  function IdleRow(p: Page, grace: int, now: int): Page {
    var since := IdleStart(p, now);
    p.(state := PageIdle, idleSince := Some(since),
       closeAfter := if p.owned then Some(since + Max(1, grace)) else None)
  }

  function ClosedRow(p: Page, ambiguous: bool): Page {
    p.(state := if ambiguous then PageAmbiguous else PageClosed, closeAfter := None)
  }

  /** Ownership is sticky: a row that was ever owned stays owned. */
  function UpsertRow(pages: map<PageId, Page>, key: string, ident: PageIdentity): Page {
    var sticky := ident.id in pages && pages[ident.id].owned;
    Page(key, ident.url, sticky || ident.owned, PageOpen, None, None)
  }

  // ---- Queries ----

  ghost predicate ActiveFor(pages: map<PageId, Page>, key: string, pid: PageId) {
    pid in pages && Active(pages[pid]) && pages[pid].key == key
  }

  ghost predicate NoActive(pages: map<PageId, Page>, key: string) {
    forall pid :: pid in pages ==> !ActiveFor(pages, key, pid)
  }

  function OwnedActive(pages: map<PageId, Page>): set<PageId> {
    set pid | pid in pages && pages[pid].owned && Active(pages[pid])
  }

  predicate OlderUnfinished(jobs: seq<Job>, id: nat) requires id < |jobs| {
    exists i :: 0 <= i < id && jobs[i].key == jobs[id].key && !Terminal(jobs[i].state)
  }

  predicate PendingFor(jobs: seq<Job>, key: string) {
    exists i :: 0 <= i < |jobs| && jobs[i].key == key && !Terminal(jobs[i].state)
  }

  datatype Ticket = Ticket(id: nat, seen: Job)

  /** The FIFO snapshot of one pass: row order is the position in `jobs`. */
  function EligibleFrom(jobs: seq<Job>, now: int, limit: nat, from: nat): (r: seq<Ticket>)
    requires from <= |jobs|
    decreases |jobs| - from
  {
    if from == |jobs| || limit == 0 then []
    else if Eligible(jobs[from].state) && jobs[from].nextAttemptAt <= now then
      [Ticket(from, jobs[from])] + EligibleFrom(jobs, now, limit - 1, from + 1)
    else EligibleFrom(jobs, now, limit, from + 1)
  }

  ghost predicate UrlFree(convs: map<string, Conversation>, key: string, url: Url) {
    forall k :: k in convs && k != key ==> convs[k].url != Some(url)
  }

  function BindUrls(jobs: seq<Job>, key: string, url: Url): (r: seq<Job>)
    ensures |r| == |jobs|
    ensures forall i :: 0 <= i < |jobs| ==>
      r[i] == if jobs[i].key == key && jobs[i].url.None? then jobs[i].(url := Some(url)) else jobs[i]
  {
    seq(|jobs|, i requires 0 <= i < |jobs| =>
      if jobs[i].key == key && jobs[i].url.None? then jobs[i].(url := Some(url)) else jobs[i])
  }

  function BindConv(convs: map<string, Conversation>, key: string, url: Url): map<string, Conversation> {
    if key in convs then convs[key := convs[key].(url := Some(url))] else convs
  }

  function SetState(jobs: seq<Job>, id: nat, st: JobState): seq<Job>
    requires id < |jobs|
  {
    jobs[id := jobs[id].(state := st)]
  }

  // ---- External calls ----

  /** `SendRaised` is any exception out of the send call. */
  datatype SendOutcome =
    | SendRaised
    | SendReturned(submitted: bool, sideEffectPossible: bool, rateLimited: bool)

  predicate PossiblyEffective(o: SendOutcome) { o.SendRaised? || o.submitted || o.sideEffectPossible }

  /** Proven effect-free, and rejected only because of the rate limit. */
  predicate CleanlyRateLimited(o: SendOutcome) { !PossiblyEffective(o) && o.rateLimited }

  datatype Event =
    | WindowOpenCalled(job: nat, key: string)
    | SendCalled(job: nat, key: string, page: PageId, out: SendOutcome)
    | ConversationBound(job: nat, key: string)
    | JobAcknowledged(job: nat, key: string)
    | PageIdled(page: PageId, since: int, grace: int)
    | PageReopened(page: PageId)
    | PageCloseCalled(page: PageId, at: int)
    | EngineDied

  predicate JobEvent(e: Event) {
    e.WindowOpenCalled? || e.SendCalled? || e.ConversationBound? || e.JobAcknowledged?
  }

  datatype AckResult = AckResult(observed: bool, nonces: nat, generating: Option<bool>)

  predicate DuplicateDelivery(a: AckResult) { a.observed && a.nonces > 1 }
  predicate DeliveredOnce(a: AckResult) { a.observed && a.nonces == 1 && a.generating == Some(false) }

  // ---- Engine ----

  datatype Stage =
    | Acquire
    | Authorized
    | Unresolved
    | Located(ident: PageIdentity, gated: bool)
    | Upserted(page: PageId)
    | Paged(page: PageId)
    | Armed(page: PageId)
    | Replied(page: PageId, out: SendOutcome)
    | Watch
    | Watched(page: PageId)
    | Duplicated(page: PageId)
    | Acked(page: PageId)
    | Drained(page: PageId)

  datatype Hand =
    | Off
    | Ready
    | Scanning(todo: seq<Ticket>)
    | Work(id: nat, seen: Job, rest: seq<Ticket>, stage: Stage)
    | Sweeping(snap: seq<(PageId, Page)>)
    | Closing(pid: PageId, row: Page, snap: seq<(PageId, Page)>)
    | CloseReplied(pid: PageId, row: Page, snap: seq<(PageId, Page)>, gone: bool)

  datatype Sys = Sys(
    jobs: seq<Job>, pages: map<PageId, Page>, convs: map<string, Conversation>,
    hand: Hand, log: seq<Event>, maxWindows: nat, peakWindows: nat, ungated: set<PageId>)

  function Init(): Sys { Sys([], map[], map[], Off, [], 0, 0, {}) }

  predicate AcquiringStage(g: Stage) { g.Acquire? || g.Authorized? || g.Unresolved? || g.Located? || g.Upserted? }

  function At(h: Hand, g: Stage): Hand requires h.Work? { h.(stage := g) }

  // ---- Steps ----

  /** Other processes, and the life of the engine process. */
  datatype WorldStep =
    | Enqueue(job: Job, conv: Conversation)
    | Cancel(id: nat)
    | Boot(max: nat)
    | Die

  ghost predicate CanWorld(s: Sys, a: WorldStep) {
    match a
    case Enqueue(job, conv) =>
      && job.state.Queued? && job.attempts == 0
      && (job.dispatchKey.Some? ==> forall i :: 0 <= i < |s.jobs| ==> s.jobs[i].dispatchKey != job.dispatchKey)
      && (conv.url.Some? ==> UrlFree(s.convs, job.key, conv.url.value))
    case Cancel(id) => id < |s.jobs| && Cancellable(s.jobs[id].state)
    case Boot(max) => s.hand.Off?
    case Die => true
  }

  ghost function DoWorld(s: Sys, a: WorldStep): Sys
    requires CanWorld(s, a)
  {
    match a
    case Enqueue(job, conv) => s.(jobs := s.jobs + [job], convs := s.convs[job.key := conv])
    case Cancel(id) => s.(jobs := SetState(s.jobs, id, Cancelled))
    case Boot(max) => s.(hand := Ready, maxWindows := max, peakWindows := Max(max, s.peakWindows))
    case Die => s.(hand := Off, log := s.log + [EngineDied])
  }

  /** The scan over one FIFO snapshot. */
  datatype ScanStep =
    | BeginPass(now: int, limit: nat)
    | Skip(at: int)
    | Take
    | Release

  ghost predicate CanScan(s: Sys, a: ScanStep) {
    match a
    case BeginPass(_, _) => s.hand.Ready?
    case Skip(at) =>
      && s.hand.Scanning? && s.hand.todo != [] && s.hand.todo[0].id < |s.jobs|
      && (OlderUnfinished(s.jobs, s.hand.todo[0].id)
          || (s.hand.todo[0].seen.state.RetryWait? && at < s.hand.todo[0].seen.nextAttemptAt))
    case Take =>
      && s.hand.Scanning? && s.hand.todo != []
      && s.hand.todo[0].id < |s.jobs| && !OlderUnfinished(s.jobs, s.hand.todo[0].id)
    case Release =>
      && s.hand.Work?
      && match s.hand.stage
         case Acquire =>
           !s.hand.seen.state.Opening? && NoActive(s.pages, s.hand.seen.key) && s.maxWindows <= |OwnedActive(s.pages)|
         case Watch => NoActive(s.pages, s.hand.seen.key)
         case Acked(_) => PendingFor(s.jobs, s.hand.seen.key)
         case _ => false
  }

  ghost function DoScan(s: Sys, a: ScanStep): Sys
    requires CanScan(s, a)
  {
    match a
    case BeginPass(now, limit) => s.(hand := Scanning(EligibleFrom(s.jobs, now, limit, 0)))
    case Skip(_) => s.(hand := Scanning(s.hand.todo[1..]))
    case Take =>
      var t := s.hand.todo[0];
      var jobs := if t.seen.state.Submitting? then SetState(s.jobs, t.id, ReconcileRequired) else s.jobs;
      s.(jobs := jobs,
         hand := Work(t.id, t.seen, s.hand.todo[1..], if Acquirable(t.seen.state) then Acquire else Watch))
    case Release => s.(hand := Scanning(s.hand.rest))
  }

  /** Looking up the page a conversation already has. */
  datatype LookStep =
    | Lose(pid: PageId, job: Job, current: Option<Url>)
    | Touch(pid: PageId, job: Job, current: Option<Url>)
    | Reuse(pid: PageId)
    | Watching(pid: PageId)

  ghost predicate CanLook(s: Sys, a: LookStep) {
    && s.hand.Work? && ActiveFor(s.pages, s.hand.seen.key, a.pid)
    && match a
       case Lose(pid, job, current) =>
         && (s.hand.stage.Acquire? || s.hand.stage.Watch?)
         && (PageVerdict(job, s.pages[pid], current).WindowGone?
             || PageVerdict(job, s.pages[pid], current).IdentityChanged?)
       case Touch(pid, job, current) =>
         (s.hand.stage.Acquire? || s.hand.stage.Watch?) && PageVerdict(job, s.pages[pid], current).Navigated?
       case Reuse(_) => s.hand.stage.Acquire?
       case Watching(_) => s.hand.stage.Watch?
  }

  ghost function DoLook(s: Sys, a: LookStep): Sys
    requires CanLook(s, a)
  {
    match a
    case Lose(pid, job, current) => s.(pages := s.pages[pid := ClosedRow(s.pages[pid], current.Some?)])
    case Touch(pid, job, current) =>
      s.(pages := s.pages[pid := RetargetRow(s.pages[pid], current.value)], log := s.log + [PageReopened(pid)])
    case Reuse(pid) =>
      s.(pages := s.pages[pid := OpenRow(s.pages[pid])], hand := At(s.hand, Paged(pid)),
         log := s.log + [PageReopened(pid)])
    case Watching(pid) => s.(hand := At(s.hand, Watched(pid)))
  }

  /** Acquiring a page that the tables do not have. */
  datatype AcquireStep =
    | Adopt(ident: PageIdentity)
    | Authorize
    | OpenWindow(result: Option<PageIdentity>)
    | GiveUp
    | Upsert
    | WriteBound
    | FailAcquire

  ghost predicate CanAcquire(s: Sys, a: AcquireStep) {
    && s.hand.Work? && s.hand.id < |s.jobs|
    && match a
       case Adopt(ident) =>
         && s.hand.stage.Acquire? && NoActive(s.pages, s.hand.seen.key)
         && (s.hand.seen.state.Opening? || s.hand.seen.url.Some?)
         && (s.hand.seen.state.Opening? && s.hand.seen.url.Some? ==> !ident.owned)
       case Authorize =>
         && s.hand.stage.Acquire? && !s.hand.seen.state.Opening?
         && (s.hand.seen.url.Some? || s.hand.seen.project.Some?)
         && NoActive(s.pages, s.hand.seen.key) && |OwnedActive(s.pages)| < s.maxWindows
       case OpenWindow(_) => s.hand.stage.Authorized?
       case GiveUp =>
         || s.hand.stage.Unresolved?
         || (s.hand.stage.Acquire? && s.hand.seen.state.Opening? && NoActive(s.pages, s.hand.seen.key))
       case Upsert => s.hand.stage.Located?
       case WriteBound => s.hand.stage.Upserted?
       case FailAcquire => AcquiringStage(s.hand.stage)
  }

  /** A page that becomes owned and active without passing the window gate is ungated until the gate readmits it. */
  function UngatedAfter(s: Sys, id: PageId, row: Page, gated: bool): set<PageId> {
    if gated then s.ungated - {id}
    else if row.owned && id !in OwnedActive(s.pages) then s.ungated + {id}
    else s.ungated
  }

  ghost function DoAcquire(s: Sys, a: AcquireStep): Sys
    requires CanAcquire(s, a)
  {
    var h := s.hand;
    match a
    case Adopt(ident) => s.(hand := At(h, Located(ident, false)))
    case Authorize => s.(jobs := SetState(s.jobs, h.id, Opening), hand := At(h, Authorized))
    case OpenWindow(result) =>
      s.(hand := At(h, if result.Some? then Located(result.value, true) else Unresolved),
         log := s.log + [WindowOpenCalled(h.id, h.seen.key)])
    case GiveUp => s.(jobs := SetState(s.jobs, h.id, ReconcileRequired), hand := Scanning(h.rest))
    case Upsert =>
      var ident := h.stage.ident;
      var row := UpsertRow(s.pages, h.seen.key, ident);
      s.(pages := s.pages[ident.id := row], hand := At(h, Upserted(ident.id)),
         log := s.log + [PageReopened(ident.id)], ungated := UngatedAfter(s, ident.id, row, h.stage.gated))
    case WriteBound => s.(jobs := SetState(s.jobs, h.id, WindowBound), hand := At(h, Paged(h.stage.page)))
    case FailAcquire => s.(jobs := SetState(s.jobs, h.id, Failed), hand := Scanning(h.rest))
  }

  /** Sending: the SUBMITTING row is written before the call. */
  datatype SendStep =
    | Arm
    | Send(out: SendOutcome)
    | Bind(url: Url)
    | Retarget(url: Url)
    | Settle(now: int, cooldown: int, reported: Option<Url>)

  ghost predicate CanSend(s: Sys, a: SendStep) {
    && s.hand.Work? && s.hand.id < |s.jobs|
    && match a
       case Arm => s.hand.stage.Paged?
       case Send(_) => s.hand.stage.Armed?
       case Bind(url) => (s.hand.stage.Replied? || s.hand.stage.Watched?) && UrlFree(s.convs, s.hand.seen.key, url)
       case Retarget(_) => (s.hand.stage.Replied? || s.hand.stage.Watched?) && s.hand.stage.page in s.pages
       case Settle(_, _, _) => s.hand.stage.Replied?
  }

  function SettledJob(j: Job, out: SendOutcome, now: int, cooldown: int, reported: Option<Url>): Job {
    if out.SendRaised? then j.(state := ReconcileRequired)
    else if out.submitted then
      j.(state := Submitted, submittedAt := Some(now), url := if reported.Some? then reported else j.url)
    else if out.sideEffectPossible then j.(state := ReconcileRequired)
    else if out.rateLimited then j.(state := RetryWait, nextAttemptAt := now + cooldown)
    else j.(state := Failed)
  }

  ghost function DoSend(s: Sys, a: SendStep): Sys
    requires CanSend(s, a)
  {
    var h := s.hand;
    match a
    case Arm =>
      var j := s.jobs[h.id];
      s.(jobs := s.jobs[h.id := j.(state := Submitting, attempts := j.attempts + 1)],
         hand := At(h, Armed(h.stage.page)))
    case Send(out) =>
      s.(hand := At(h, Replied(h.stage.page, out)), log := s.log + [SendCalled(h.id, h.seen.key, h.stage.page, out)])
    case Bind(url) =>
      s.(jobs := BindUrls(s.jobs, h.seen.key, url), convs := BindConv(s.convs, h.seen.key, url),
         log := s.log + [ConversationBound(h.id, h.seen.key)])
    case Retarget(url) =>
      s.(pages := s.pages[h.stage.page := RetargetRow(s.pages[h.stage.page], url)],
         log := s.log + [PageReopened(h.stage.page)])
    case Settle(now, cooldown, reported) =>
      s.(jobs := s.jobs[h.id := SettledJob(s.jobs[h.id], h.stage.out, now, cooldown, reported)],
         hand := Scanning(h.rest))
  }

  /** Reconciling a job whose send may have happened. */
  datatype ConfirmStep =
    | LateSubmit(url: Url, at: int)
    | Inconclusive(ack: Option<AckResult>)
    | Duplicate(seen: AckResult)
    | Quarantine
    | Acknowledge(now: int, seen: AckResult)
    | Drain
    | RestAfterAck(now: int, grace: int)

  ghost predicate CanConfirm(s: Sys, a: ConfirmStep) {
    && s.hand.Work? && s.hand.id < |s.jobs|
    && match a
       case LateSubmit(_, _) => s.hand.stage.Watched?
       case Inconclusive(ack) =>
         && s.hand.stage.Watched?
         && if ack.Some? then !DuplicateDelivery(ack.value) && !DeliveredOnce(ack.value)
            else s.hand.seen.url.None? || s.jobs[s.hand.id].url.None?
       case Duplicate(ack) => s.hand.stage.Watched? && DuplicateDelivery(ack)
       case Acknowledge(_, ack) => s.hand.stage.Watched? && DeliveredOnce(ack)
       case Quarantine => s.hand.stage.Duplicated? && s.hand.stage.page in s.pages
       case Drain => s.hand.stage.Acked? && !PendingFor(s.jobs, s.hand.seen.key)
       case RestAfterAck(_, _) => s.hand.stage.Drained? && s.hand.stage.page in s.pages
  }

  ghost function DoConfirm(s: Sys, a: ConfirmStep): Sys
    requires CanConfirm(s, a)
  {
    var h := s.hand;
    match a
    case LateSubmit(url, at) =>
      s.(jobs := s.jobs[h.id := s.jobs[h.id].(state := Submitted, url := Some(url), submittedAt := Some(at))])
    case Inconclusive(_) => s.(hand := Scanning(h.rest))
    case Duplicate(_) => s.(jobs := SetState(s.jobs, h.id, ReconcileRequired), hand := At(h, Duplicated(h.stage.page)))
    case Quarantine =>
      s.(pages := s.pages[h.stage.page := ClosedRow(s.pages[h.stage.page], true)], hand := Scanning(h.rest))
    case Acknowledge(now, _) =>
      s.(jobs := s.jobs[h.id := s.jobs[h.id].(state := Acknowledged, acknowledgedAt := Some(now))],
         hand := At(h, Acked(h.stage.page)), log := s.log + [JobAcknowledged(h.id, h.seen.key)])
    case Drain => s.(hand := At(h, Drained(h.stage.page)))
    case RestAfterAck(now, grace) =>
      var p := s.pages[h.stage.page];
      s.(pages := s.pages[h.stage.page := IdleRow(p, grace, now)], hand := Scanning(h.rest),
         log := s.log + [PageIdled(h.stage.page, IdleStart(p, now), grace)])
  }

  /** Closing owned pages whose queue has drained. */
  datatype SweepStep =
    | BeginSweep(order: seq<PageId>)
    | SweepSkip
    | SweepCheck
    | SweepSpare(at: int)
    | SweepIdle(now: int, grace: int)
    | SweepClose(now: int, gone: bool)
    | SweepMark
    | EndPass

  ghost predicate CanSweep(s: Sys, a: SweepStep) {
    match a
    case BeginSweep(order) =>
      && s.hand.Scanning? && s.hand.todo == []
      && (forall i :: 0 <= i < |order| ==> order[i] in s.pages && !s.pages[order[i]].state.PageClosed?)
      && (forall i, j :: 0 <= i < j < |order| ==> order[i] != order[j])
      && (forall pid :: pid in s.pages && !s.pages[pid].state.PageClosed? ==> pid in order)
    case SweepSkip =>
      && s.hand.Sweeping? && s.hand.snap != []
      && (!s.hand.snap[0].1.owned || PendingFor(s.jobs, s.hand.snap[0].1.key))
    case SweepCheck =>
      && s.hand.Sweeping? && s.hand.snap != []
      && s.hand.snap[0].1.owned && !PendingFor(s.jobs, s.hand.snap[0].1.key)
    case SweepSpare(at) =>
      && s.hand.Closing? && !s.hand.row.state.PageOpen?
      && !(s.hand.row.state.PageIdle? && s.hand.row.closeAfter.Some? && s.hand.row.closeAfter.value <= at)
    case SweepIdle(_, _) => s.hand.Closing? && s.hand.row.state.PageOpen? && s.hand.pid in s.pages
    case SweepClose(now, _) =>
      && s.hand.Closing? && s.hand.row.state.PageIdle?
      && s.hand.row.closeAfter.Some? && s.hand.row.closeAfter.value <= now
    case SweepMark => s.hand.CloseReplied? && s.hand.pid in s.pages
    case EndPass => s.hand.Sweeping? && s.hand.snap == []
  }

  function Snapshot(pages: map<PageId, Page>, order: seq<PageId>): (r: seq<(PageId, Page)>)
    requires forall i :: 0 <= i < |order| ==> order[i] in pages
    ensures |r| == |order| && forall i :: 0 <= i < |r| ==> r[i] == (order[i], pages[order[i]])
  {
    seq(|order|, i requires 0 <= i < |order| => (order[i], pages[order[i]]))
  }

  ghost function DoSweep(s: Sys, a: SweepStep): Sys
    requires CanSweep(s, a)
  {
    var h := s.hand;
    match a
    case BeginSweep(order) => s.(hand := Sweeping(Snapshot(s.pages, order)))
    case SweepSkip => s.(hand := Sweeping(h.snap[1..]))
    case SweepCheck => s.(hand := Closing(h.snap[0].0, h.snap[0].1, h.snap[1..]))
    case SweepSpare(_) => s.(hand := Sweeping(h.snap))
    case SweepIdle(now, grace) =>
      var p := s.pages[h.pid];
      s.(pages := s.pages[h.pid := IdleRow(p, grace, now)], hand := Sweeping(h.snap),
         log := s.log + [PageIdled(h.pid, IdleStart(p, now), grace)])
    case SweepClose(now, gone) =>
      s.(hand := CloseReplied(h.pid, h.row, h.snap, gone), log := s.log + [PageCloseCalled(h.pid, now)])
    case SweepMark => s.(pages := s.pages[h.pid := ClosedRow(s.pages[h.pid], !h.gone)], hand := Sweeping(h.snap))
    case EndPass => s.(hand := Ready)
  }

  datatype Action =
    | World(world: WorldStep)
    | Scan(scan: ScanStep)
    | Look(look: LookStep)
    | Acquiring(acquire: AcquireStep)
    | Sending(send: SendStep)
    | Confirming(confirm: ConfirmStep)
    | SweepingBy(sweep: SweepStep)

  ghost predicate Enabled(s: Sys, a: Action) {
    match a
    case World(w) => CanWorld(s, w)
    case Scan(c) => CanScan(s, c)
    case Look(l) => CanLook(s, l)
    case Acquiring(g) => CanAcquire(s, g)
    case Sending(d) => CanSend(s, d)
    case Confirming(c) => CanConfirm(s, c)
    case SweepingBy(w) => CanSweep(s, w)
  }

  ghost function Apply(s: Sys, a: Action): Sys
    requires Enabled(s, a)
  {
    match a
    case World(w) => DoWorld(s, w)
    case Scan(c) => DoScan(s, c)
    case Look(l) => DoLook(s, l)
    case Acquiring(g) => DoAcquire(s, g)
    case Sending(d) => DoSend(s, d)
    case Confirming(c) => DoConfirm(s, c)
    case SweepingBy(w) => DoSweep(s, w)
  }

  // ---- Runs ----

  ghost predicate Legal(acts: seq<Action>)
    decreases |acts|, 0
  {
    acts == [] || (Legal(acts[..|acts| - 1]) && Enabled(Exec(acts[..|acts| - 1]), acts[|acts| - 1]))
  }

  /** The state reached by a run from empty tables. */
  ghost function Exec(acts: seq<Action>): Sys
    requires Legal(acts)
    decreases |acts|, 1
  {
    if acts == [] then Init() else Apply(Exec(acts[..|acts| - 1]), acts[|acts| - 1])
  }

  lemma RunExtends(acts: seq<Action>, a: Action)
    requires Legal(acts) && Enabled(Exec(acts), a)
    ensures Legal(acts + [a]) && Exec(acts + [a]) == Apply(Exec(acts), a)
  {
    var more := acts + [a];
    assert more[..|more| - 1] == acts;
  }

  predicate Pinned(acts: seq<Action>) { true }

  /**
   The run `acts` leads to `s`.  The quantifier is there to be instantiated by hand (`Unroll`): a proof
   that only carries this fact along then never unfolds the run.
   */
  ghost predicate Leads(acts: seq<Action>, s: Sys) {
    forall u {:trigger Pinned(u)} :: Pinned(u) && u == acts ==> Legal(u) && Exec(u) == s
  }

  lemma Unroll(acts: seq<Action>, s: Sys)
    requires Leads(acts, s)
    ensures Legal(acts) && Exec(acts) == s
  {
    assert Pinned(acts);
  }

  lemma LeadsFurther(acts: seq<Action>, s: Sys, a: Action)
    requires Leads(acts, s) && Enabled(s, a)
    ensures Leads(acts + [a], Apply(s, a))
  {
    Unroll(acts, s);
    RunExtends(acts, a);
  }
}
