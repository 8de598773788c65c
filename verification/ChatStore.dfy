/** The queue tables, updated in place, together with the run of the protocol that has produced them. */
module ChatStore {
  import opened Prelude
  import opened ChatProtocol
  import opened ChatSafety

  // ---- Enqueue ----

  datatype Request = Request(
    prompt: string, key: string, url: Option<Url>, project: Option<ProjectUrl>,
    dispatchKey: Option<string>, idleClose: int, now: int)

  datatype Enqueued = Existing(id: nat) | Added(job: Job, conv: Conversation)

  const MAX_PROMPT := 256 * 1024
  const MAX_KEY := 200
  const MAX_DISPATCH_KEY := 240

  predicate Blank(s: string) { forall i :: 0 <= i < |s| ==> s[i] in " \t\r\n" }

  function Utf8Length(s: string): (r: nat)
    ensures |s| <= r <= 4 * |s|
    ensures (forall i :: 0 <= i < |s| ==> s[i] < 0x80 as char) <==> r == |s|
  {
    if s == [] then 0
    else
      var c := s[|s| - 1] as int;
      Utf8Length(s[..|s| - 1]) + if c < 0x80 then 1 else if c < 0x800 then 2 else if c < 0x10000 then 3 else 4
  }

  function Rejection(r: Request): Option<string> {
    if Blank(r.prompt) then Some("prompt must be non-empty")
    else if Utf8Length(r.prompt) > MAX_PROMPT then Some("prompt exceeds 256 KiB")
    else if r.url.Some? && r.url.value.conversationId.None? then Some("not a conversation URL")
    else if r.project.Some? && r.project.value.projectId.None? then Some("not a project URL")
    else if |r.key| > MAX_KEY then Some("conversation_key too long")
    else if r.dispatchKey.Some? && |r.dispatchKey.value| > MAX_DISPATCH_KEY then Some("dispatch_key too long")
    else None
  }

  predicate SameConversation(a: Url, b: Url) { a.conversationId.Some? && a.conversationId == b.conversationId }

  /** A replayed dispatch key names the same dispatch: what the caller repeats must agree with the row. */
  predicate SameDispatch(job: Job, r: Request) {
    && job.prompt == r.prompt
    && (r.key != "" ==> job.key == r.key)
    && (r.url.Some? && job.url.Some? ==> SameConversation(job.url.value, r.url.value))
    && (r.project.Some? && job.project.Some? ==> r.project.value.projectId == job.project.value.projectId)
  }

  function Find(jobs: seq<Job>, dispatchKey: string): (r: Option<nat>)
    ensures r.Some? ==> r.value < |jobs| && jobs[r.value].dispatchKey == Some(dispatchKey)
    ensures r.None? ==> forall i :: 0 <= i < |jobs| ==> jobs[i].dispatchKey != Some(dispatchKey)
  {
    if jobs == [] then None
    else if jobs[|jobs| - 1].dispatchKey == Some(dispatchKey) then Some(|jobs| - 1)
    else Find(jobs[..|jobs| - 1], dispatchKey)
  }

  function ChosenKey(r: Request, uuid: string): string {
    if r.key != "" then r.key
    else if r.url.Some? && r.url.value.conversationId.Some? then "conversation:" + r.url.value.conversationId.value
    else "new:" + uuid
  }

  /** The conversation URL is unique among conversations, as the index on the table demands. */
  predicate UrlTaken(convs: map<string, Conversation>, key: string, url: Url) {
    exists k :: k in convs && k != key && convs[k].url == Some(url)
  }

  function NewRow(jobs: seq<Job>, convs: map<string, Conversation>, r: Request,
                  uuid: string): Result<Enqueued, string> {
    var key := ChosenKey(r, uuid);
    var known := if key in convs then convs[key] else Conversation(None, None);
    var url := if known.url.Some? then known.url else r.url;
    var project := if r.project.Some? then r.project else known.project;
    if known.url.Some? && r.url.Some? && !SameConversation(known.url.value, r.url.value) then
      Err("conversation_key is already bound to a different conversation")
    else if url.None? && project.None? then Err("new conversation dispatch requires project_url")
    else
      var conv := Conversation(url, if known.project.Some? then known.project else project);
      if url.Some? && UrlTaken(convs, key, url.value) then Err("conversation URL is not unique")
      else Ok(Added(
        Job(r.dispatchKey, key, url, project, r.prompt, Queued, r.now, 0, Max(1, r.idleClose), None, None), conv))
  }

  function EnqueueOutcome(jobs: seq<Job>, convs: map<string, Conversation>, r: Request,
                          uuid: string): Result<Enqueued, string> {
    if Rejection(r).Some? then Err(Rejection(r).value)
    else
      var found := if r.dispatchKey.Some? then Find(jobs, r.dispatchKey.value) else None;
      if found.Some? then
        if SameDispatch(jobs[found.value], r) then Ok(Existing(found.value))
        else Err("dispatch_key already exists for a different dispatch")
      else NewRow(jobs, convs, r, uuid)
  }

  // ---- What a request must lead to ----

  /** The name the caller gave, else one made from the conversation, else a new one. */
  predicate NamedBy(r: Request, uuid: string, key: string) {
    if r.key != "" then key == r.key
    else if r.url.Some? && r.url.value.conversationId.Some? then
      key == "conversation:" + r.url.value.conversationId.value
    else key == "new:" + uuid
  }

  ghost predicate Malformed(r: Request) {
    || (forall i :: 0 <= i < |r.prompt| ==>
          r.prompt[i] == ' ' || r.prompt[i] == '\t' || r.prompt[i] == '\r' || r.prompt[i] == '\n')
    || 262144 < Utf8Length(r.prompt) || 200 < |r.key| || (r.dispatchKey.Some? && 240 < |r.dispatchKey.value|)
    || (r.url.Some? && r.url.value.conversationId.None?) || (r.project.Some? && r.project.value.projectId.None?)
  }

  /** The row with this dispatch key is the one the request repeats. */
  predicate Repeats(job: Job, r: Request) {
    && r.dispatchKey.Some? && job.dispatchKey == r.dispatchKey && job.prompt == r.prompt
    && (r.key == "" || job.key == r.key)
    && (r.url.None? || job.url.None?
        || (r.url.value.conversationId.Some? && job.url.value.conversationId == r.url.value.conversationId))
    && (r.project.None? || job.project.None? || job.project.value.projectId == r.project.value.projectId)
  }

  /** The conversation already has another URL, or neither URL nor project is known, or its URL is another's. */
  ghost predicate Unplaceable(r: Request, convs: map<string, Conversation>, key: string) {
    var bound := key in convs && convs[key].url.Some?;
    || (bound && r.url.Some?
        && !(convs[key].url.value.conversationId.Some?
             && convs[key].url.value.conversationId == r.url.value.conversationId))
    || (!bound && r.url.None? && r.project.None? && (key !in convs || convs[key].project.None?))
    || exists k ::
         k in convs && k != key && convs[k].url.Some? && convs[k].url == if bound then convs[key].url else r.url
  }

  ghost predicate Refusable(r: Request, uuid: string, jobs: seq<Job>, convs: map<string, Conversation>) {
    || Malformed(r)
    || if r.dispatchKey.Some? && exists i :: 0 <= i < |jobs| && jobs[i].dispatchKey == r.dispatchKey then
         forall i :: 0 <= i < |jobs| && jobs[i].dispatchKey == r.dispatchKey ==> !Repeats(jobs[i], r)
       else exists key :: NamedBy(r, uuid, key) && Unplaceable(r, convs, key)
  }

  /** The row and the conversation of a request that was accepted; what the conversation knows already stands. */
  ghost predicate Accepts(r: Request, uuid: string, convs: map<string, Conversation>, job: Job, conv: Conversation) {
    && NamedBy(r, uuid, job.key)
    && job == Job(r.dispatchKey, job.key, job.url, job.project, r.prompt, Queued, r.now, 0,
                  if 1 < r.idleClose then r.idleClose else 1, None, None)
    && job.url == (if job.key in convs && convs[job.key].url.Some? then convs[job.key].url else r.url)
    && job.project == (if r.project.Some? || job.key !in convs then r.project else convs[job.key].project)
    && conv.url == job.url
    && conv.project == if job.key in convs && convs[job.key].project.Some? then convs[job.key].project else job.project
  }

  ghost predicate DistinctKeys(jobs: seq<Job>) {
    forall i, j :: 0 <= i < j < |jobs| && jobs[i].dispatchKey.Some? ==> jobs[i].dispatchKey != jobs[j].dispatchKey
  }

  lemma NewRowAccepts(jobs: seq<Job>, convs: map<string, Conversation>, r: Request, uuid: string)
    requires !Malformed(r)
    ensures NewRow(jobs, convs, r, uuid).Err? <==> exists key :: NamedBy(r, uuid, key) && Unplaceable(r, convs, key)
    ensures var row := NewRow(jobs, convs, r, uuid);
      row.Ok? ==> row.value.Added? && Accepts(r, uuid, convs, row.value.job, row.value.conv)
  {
    assert NamedBy(r, uuid, ChosenKey(r, uuid));
  }

  lemma RejectionIffMalformed(r: Request)
    ensures Rejection(r).Some? <==> Malformed(r)
  {
  }

  /** Which requests are refused, repeated or accepted, and as what row. */
  lemma OutcomeIsRight(jobs: seq<Job>, convs: map<string, Conversation>, r: Request, uuid: string)
    requires DistinctKeys(jobs)
    ensures var outcome := EnqueueOutcome(jobs, convs, r, uuid);
      && (outcome.Err? <==> Refusable(r, uuid, jobs, convs))
      && (outcome.Ok? && outcome.value.Existing? ==>
            outcome.value.id < |jobs| && Repeats(jobs[outcome.value.id], r))
      && (outcome.Ok? && outcome.value.Added? ==>
            Accepts(r, uuid, convs, outcome.value.job, outcome.value.conv)
            && (r.dispatchKey.Some? ==> forall i :: 0 <= i < |jobs| ==> jobs[i].dispatchKey != r.dispatchKey))
  {
    RejectionIffMalformed(r);
    if !Malformed(r) {
      NewRowAccepts(jobs, convs, r, uuid);
      if r.dispatchKey.Some? && Find(jobs, r.dispatchKey.value).Some? {
        var id := Find(jobs, r.dispatchKey.value).value;
        assert SameDispatch(jobs[id], r) <==> Repeats(jobs[id], r);
        assert forall i :: 0 <= i < |jobs| && jobs[i].dispatchKey == r.dispatchKey ==> i == id;
      }
    }
  }

  lemma FindUnique(jobs: seq<Job>, dispatchKey: string, id: nat)
    requires id < |jobs| && jobs[id].dispatchKey == Some(dispatchKey)
    requires forall i, j :: 0 <= i < j < |jobs| && jobs[i].dispatchKey.Some? ==>
      jobs[i].dispatchKey != jobs[j].dispatchKey
    ensures Find(jobs, dispatchKey) == Some(id)
  {
    assert Find(jobs, dispatchKey).Some?;
  }

  /**
   At any later time in any run, repeating a request with its dispatch key returns the row it added and
   adds nothing, provided the row does not meanwhile show another conversation than the request names.
   */
  lemma EnqueueReplays(
    acts: seq<Action>, r: Request, uuid: string, job: Job, conv: Conversation, more: seq<Action>, uuid': string)
    requires Legal(acts) && r.dispatchKey.Some?
    requires EnqueueOutcome(Exec(acts).jobs, Exec(acts).convs, r, uuid) == Ok(Added(job, conv))
    requires Legal(acts + [World(Enqueue(job, conv))]) && Legal(acts + [World(Enqueue(job, conv))] + more)
    requires
      var later := Exec(acts + [World(Enqueue(job, conv))] + more).jobs; var id := |Exec(acts).jobs|;
      r.url.Some? && id < |later| && later[id].url.Some? ==> SameConversation(later[id].url.value, r.url.value)
    ensures
      var s' := Exec(acts + [World(Enqueue(job, conv))] + more);
      EnqueueOutcome(s'.jobs, s'.convs, r, uuid') == Ok(Existing(|Exec(acts).jobs|))
  {
    var id, first := |Exec(acts).jobs|, acts + [World(Enqueue(job, conv))];
    assert first[..|first| - 1] == acts;
    assert Exec(first).jobs[id] == job;
    RunKeepsDispatch(first, more, id);
    RowIsFound(first + more, r.dispatchKey.value, id);
    RowAnswers(Exec(acts), r, uuid, Added(job, conv), Exec(first + more), uuid', id);
  }

  lemma RowIsFound(acts: seq<Action>, dispatchKey: string, id: nat)
    requires Legal(acts) && id < |Exec(acts).jobs| && Exec(acts).jobs[id].dispatchKey == Some(dispatchKey)
    ensures Find(Exec(acts).jobs, dispatchKey) == Some(id)
  {
    RunKeepsInv(acts);
    FindUnique(Exec(acts).jobs, dispatchKey, id);
  }

  /** A row that still is what a request added answers that request. */
  lemma RowAnswers(s: Sys, r: Request, uuid: string, added: Enqueued, s': Sys, uuid': string, id: nat)
    requires r.dispatchKey.Some? && EnqueueOutcome(s.jobs, s.convs, r, uuid) == Ok(added) && added.Added?
    requires id < |s'.jobs| && SameDispatchRow(added.job, s'.jobs[id]) && Find(s'.jobs, r.dispatchKey.value) == Some(id)
    requires r.url.Some? && s'.jobs[id].url.Some? ==> SameConversation(s'.jobs[id].url.value, r.url.value)
    ensures EnqueueOutcome(s'.jobs, s'.convs, r, uuid') == Ok(Existing(id))
  {
  }

  // ---- The store ----

  /** What other processes may do to the tables between two steps of the engine. */
  ghost predicate Interfered(s: Sys, s': Sys) {
    && s'.pages == s.pages && s'.hand == s.hand && s'.log == s.log
    && s'.maxWindows == s.maxWindows && |s.jobs| <= |s'.jobs|
    && forall i :: 0 <= i < |s.jobs| ==>
         s'.jobs[i] == s.jobs[i] || (Cancellable(s.jobs[i].state) && s'.jobs[i] == s.jobs[i].(state := Cancelled))
  }

  predicate NotYetSent(st: JobState) { st.Queued? || st.Claimed? || st.Opening? || st.WindowBound? || st.RetryWait? }

  class ChatDispatchStore {
    var jobs: seq<Job>
    var pages: map<PageId, Page>
    var convs: map<string, Conversation>

    /** The run so far, and the protocol state it leads to. */
    ghost var history: seq<Action>
    ghost var sys: Sys

    ghost predicate Recorded() reads this { Leads(history, sys) }

    ghost predicate Valid() reads this {
      Recorded() && sys.jobs == jobs && sys.pages == pages && sys.convs == convs
    }

    constructor ()
      ensures Valid() && history == [] && sys.hand.Off?
    {
      jobs, pages, convs := [], map[], map[];
      history, sys := [], Init();
    }

    ghost method Record(a: Action)
      requires Recorded() && Enabled(sys, a)
      modifies this`history, this`sys
      ensures Recorded() && sys == Apply(old(sys), a) && history == old(history) + [a]
    {
      LeadsFurther(history, sys, a);
      history, sys := history + [a], Apply(sys, a);
    }

    /** A step of the engine that reads the tables or calls the browser, and writes nothing. */
    ghost method Note(a: Action)
      requires Valid() && Enabled(sys, a)
      requires Apply(sys, a).jobs == jobs && Apply(sys, a).pages == pages && Apply(sys, a).convs == convs
      modifies this`history, this`sys
      ensures Valid() && sys == Apply(old(sys), a) && history == old(history) + [a]
    {
      Record(a);
    }

    lemma HasInv()
      requires Valid()
      ensures Inv(sys)
    {
      Unroll(history, sys);
      RunKeepsInv(history);
    }

    lemma HasDistinctKeys()
      requires Valid()
      ensures DistinctKeys(jobs)
    {
      HasInv();
    }

    method WriteJob(id: nat, row: Job, ghost a: Action)
      requires Valid() && id < |jobs| && Enabled(sys, a)
      requires Apply(sys, a).jobs == jobs[id := row] && Apply(sys, a).pages == pages && Apply(sys, a).convs == convs
      modifies this
      ensures Valid() && sys == Apply(old(sys), a) && history == old(history) + [a]
    {
      Record(a);
      jobs := jobs[id := row];
    }

    method WritePage(pid: PageId, row: Page, ghost a: Action)
      requires Valid() && Enabled(sys, a)
      requires Apply(sys, a).jobs == jobs && Apply(sys, a).pages == pages[pid := row] && Apply(sys, a).convs == convs
      modifies this
      ensures Valid() && sys == Apply(old(sys), a) && history == old(history) + [a]
    {
      Record(a);
      pages := pages[pid := row];
    }

    method Enqueue(r: Request, uuid: string) returns (result: Result<nat, string>)
      requires Valid()
      modifies this
      ensures Valid() && Interfered(old(sys), sys) && old(history) <= history
      ensures var outcome := EnqueueOutcome(old(jobs), old(convs), r, uuid);
        match outcome
        case Err(why) => result == Err(why) && jobs == old(jobs) && convs == old(convs)
        case Ok(Existing(id)) => result == Ok(id) && jobs == old(jobs) && convs == old(convs)
        case Ok(Added(job, conv)) =>
          result == Ok(|old(jobs)|) && jobs == old(jobs) + [job] && convs == old(convs)[job.key := conv]
      ensures result.Err? <==> Refusable(r, uuid, old(jobs), old(convs))
      ensures result.Ok? ==> result.value < |jobs|
      ensures result.Ok? && jobs == old(jobs) ==> Repeats(jobs[result.value], r)
      ensures result.Ok? && jobs != old(jobs) ==>
        jobs[result.value].key in convs
        && Accepts(r, uuid, old(convs), jobs[result.value], convs[jobs[result.value].key])
    {
      HasDistinctKeys();
      OutcomeIsRight(jobs, convs, r, uuid);
      var outcome := EnqueueOutcome(jobs, convs, r, uuid);
      match outcome
      case Err(why) => result := Err(why);
      case Ok(Existing(id)) => result := Ok(id);
      case Ok(Added(job, conv)) =>
        Record(World(ChatProtocol.Enqueue(job, conv)));
        jobs, convs := jobs + [job], convs[job.key := conv];
        result := Ok(|jobs| - 1);
    }

    method Cancel(id: nat) returns (result: Result<(), string>)
      requires Valid()
      modifies this
      ensures Valid() && Interfered(old(sys), sys) && old(history) <= history
      ensures result.Ok? <==>
        && id < |old(jobs)| && !old(jobs)[id].state.Submitting? && !old(jobs)[id].state.Submitted?
        && !old(jobs)[id].state.ReconcileRequired?
      ensures
        if id < |old(jobs)| && NotYetSent(old(jobs)[id].state) then
          jobs == old(jobs)[id := old(jobs)[id].(state := Cancelled)]
        else jobs == old(jobs)
    {
      if |jobs| <= id {
        return Err("unknown chat dispatch");
      }
      if Terminal(jobs[id].state) {
        return Ok(());
      }
      if jobs[id].state.Submitting? || jobs[id].state.ReconcileRequired? || jobs[id].state.Submitted? {
        return Err("cannot cancel a dispatch whose external send may already have happened");
      }
      WriteJob(id, jobs[id].(state := Cancelled), World(ChatProtocol.Cancel(id)));
      return Ok(());
    }

    /** Binds the conversation and the jobs that have no URL yet; raises when another key owns the URL. */
    method BindConversation(key: string, url: Url, ghost a: Action) returns (result: Result<(), string>)
      requires Valid() && a == Sending(Bind(url))
      requires sys.hand.Work? && sys.hand.seen.key == key && sys.hand.id < |sys.jobs|
      requires sys.hand.stage.Replied? || sys.hand.stage.Watched?
      modifies this
      ensures result.Ok? <==> !UrlTaken(old(convs), key, url)
      ensures result.Err? ==> Valid() && history == old(history) && sys == old(sys) && convs == old(convs)
      ensures result.Ok? ==> convs.Keys == old(convs).Keys && forall k :: k in convs ==>
        convs[k] == if k == key then old(convs)[k].(url := Some(url)) else old(convs)[k]
      ensures result.Ok? ==>
        Valid() && Enabled(old(sys), a) && sys == Apply(old(sys), a) && history == old(history) + [a]
    {
      if UrlTaken(convs, key, url) {
        return Err("conversation URL is already owned by another key");
      }
      Record(a);
      jobs, convs := BindUrls(jobs, key, url), BindConv(convs, key, url);
      return Ok(());
    }

    /** The one page of a conversation that is OPEN or IDLE, if there is one. */
    method PageForConversation(key: string) returns (r: Option<PageId>)
      requires Valid()
      ensures r.Some? ==> ActiveFor(pages, key, r.value) && forall p :: ActiveFor(pages, key, p) ==> p == r.value
      ensures r.None? ==> NoActive(pages, key)
    {
      HasInv();
      var candidates := set p | p in pages && Active(pages[p]) && pages[p].key == key;
      if candidates == {} {
        r := None;
        forall p | p in pages ensures !ActiveFor(pages, key, p) {
          assert p !in candidates;
        }
      } else {
        var p :| p in candidates;
        r := Some(p);
      }
    }

    /** What the next ticket's stale snapshot still guarantees about its row. */
    lemma HasTicket()
      requires Valid() && sys.hand.Scanning? && sys.hand.todo != []
      ensures TicketOk(jobs, sys.hand.todo[0])
    {
      HasInv();
    }

    lemma HasSweepRow()
      requires Valid() && sys.hand.Closing?
      ensures sys.hand.pid in pages && pages[sys.hand.pid] == sys.hand.row
    {
      HasInv();
    }

    /** Every page that is not CLOSED, once, in some order. */
    method ListPages() returns (order: seq<PageId>)
      requires Valid()
      ensures forall i :: 0 <= i < |order| ==> order[i] in pages && !pages[order[i]].state.PageClosed?
      ensures forall i, j :: 0 <= i < j < |order| ==> order[i] != order[j]
      ensures forall p :: p in pages && !pages[p].state.PageClosed? ==> p in order
    {
      order := [];
      var left := set p | p in pages && !pages[p].state.PageClosed?;
      while left != {}
        invariant forall p :: p in left ==> p in pages && !pages[p].state.PageClosed? && p !in order
        invariant forall i :: 0 <= i < |order| ==> order[i] in pages && !pages[order[i]].state.PageClosed?
        invariant forall i, j :: 0 <= i < j < |order| ==> order[i] != order[j]
        invariant forall p :: p in pages && !pages[p].state.PageClosed? ==> p in left || p in order
        decreases left
      {
        var p :| p in left;
        left := left - {p};
        order := order + [p];
      }
    }

    /** Other processes enqueue and cancel any number of times; then this process may be killed. */
    method Yield() returns (o: Outcome<()>)
      requires Valid()
      modifies this
      ensures Valid() && old(history) <= history
      ensures o.Alive? ==> Interfered(old(sys), sys)
      ensures o.Dead? ==> sys.hand.Off?
    {
      var n: nat := *;
      while n > 0
        invariant Valid() && old(history) <= history && Interfered(old(sys), sys)
      {
        var enqueue: bool := *;
        if enqueue {
          var r: Request := *;
          var uuid: string := *;
          var _ := Enqueue(r, uuid);
        } else {
          var id: nat := *;
          var _ := Cancel(id);
        }
        n := n - 1;
      }
      var killed: bool := *;
      if killed {
        Note(World(Die));
        return Dead;
      }
      return Alive(());
    }

    /** An exception nothing catches ends the worker: what it held is lost like after a kill. */
    method Exit()
      requires Valid()
      modifies this
      ensures Valid() && old(history) <= history && sys.hand.Off?
      ensures jobs == old(jobs) && pages == old(pages) && convs == old(convs)
    {
      Note(World(Die));
    }
  }
}
