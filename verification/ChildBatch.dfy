/**
 One advancement of a batch of child dispatches: it opens at most `maxWindows` pages and recycles the
 pages of children that no longer need them.

 The browser and the spawn commands behind it enter by their durable results; their own steps are
 `SpawnExecutor`.  `calls` records the transport calls, each with the size of the pool when it was made.
 */
module ChildBatch {
  import opened Prelude
  import opened SpawnProtocol
  import opened BatchPool

  // ---- Reusable windows ----

  datatype Source =
    | WorkerSource(child: string, terminal: bool, worker: string, window: WindowId)
    | SpawnSource(child: string, terminal: bool, row: nat, window: WindowId)

  /** The owner of the page has a durable session or is finished, so the page may be taken from it. */
  ghost predicate Usable(b: Batch, children: seq<string>, s: Source) {
    && s.child in children && s.child in b.tasks && s.terminal == b.tasks[s.child].done
    && match s
       case WorkerSource(child, _, worker, window) =>
         && b.tasks[child].worker == Some(worker) && worker in b.bindings && b.bindings[worker] == window
         && Durable(b, child)
       case SpawnSource(child, _, row, window) =>
         && Latest(b, children, row, window) && b.rows[row].child == child && b.tasks[child].done
         && forall c :: c in children ==> !Direct(b, c, window)
  }

  /** The worker's child also holds the page through an unresolved attempt. */
  ghost predicate DoublyOwned(b: Batch, s: Source) { s.WorkerSource? && AttemptHolds(b, s.child, s.window) }

  function IndexOf(children: seq<string>, child: string): (r: nat)
    ensures child in children ==> r < |children| && children[r] == child
    ensures forall i :: 0 <= i < r && i < |children| ==> children[i] != child
  {
    if children == [] || children[0] == child then 0 else 1 + IndexOf(children[1..], child)
  }

  /** Finished children first, then in creation order. */
  function Rank(children: seq<string>, s: Source): nat {
    (if s.terminal then 0 else |children|) + IndexOf(children, s.child)
  }

  ghost predicate Ranked(children: seq<string>, sources: seq<Source>) {
    forall i, j :: 0 <= i < j < |sources| ==> Rank(children, sources[i]) <= Rank(children, sources[j])
  }

  function Insert(children: seq<string>, s: Source, sources: seq<Source>): (r: seq<Source>)
    ensures multiset(r) == multiset(sources) + multiset{s}
  {
    if sources == [] || Rank(children, s) < Rank(children, sources[0]) then [s] + sources
    else
      assert sources == [sources[0]] + sources[1..];
      [sources[0]] + Insert(children, s, sources[1..])
  }

  lemma {:induction false} InsertKeepsRanked(children: seq<string>, s: Source, sources: seq<Source>)
    requires Ranked(children, sources)
    ensures Ranked(children, Insert(children, s, sources))
  {
    if sources == [] || Rank(children, s) < Rank(children, sources[0]) {
    } else {
      var rest := Insert(children, s, sources[1..]);
      InsertKeepsRanked(children, s, sources[1..]);
      assert Insert(children, s, sources) == [sources[0]] + rest;
      forall j | 0 <= j < |rest|
        ensures Rank(children, sources[0]) <= Rank(children, rest[j])
      {
        InsertAdds(children, s, sources[1..], rest[j]);
      }
    }
  }

  lemma InsertAdds(children: seq<string>, s: Source, sources: seq<Source>, x: Source)
    requires x in Insert(children, s, sources)
    ensures x in sources || x == s
  {
    assert x in multiset(Insert(children, s, sources));
  }

  function SortSources(children: seq<string>, sources: seq<Source>): (r: seq<Source>)
    ensures multiset(r) == multiset(sources)
  {
    if sources == [] then []
    else
      assert sources == sources[..|sources| - 1] + [sources[|sources| - 1]];
      Insert(children, sources[|sources| - 1], SortSources(children, sources[..|sources| - 1]))
  }

  /** The sort orders the sources by rank and loses none. */
  lemma {:induction false} SortSourcesSorts(children: seq<string>, sources: seq<Source>)
    ensures Ranked(children, SortSources(children, sources))
    ensures forall x :: x in SortSources(children, sources) <==> x in sources
  {
    if sources != [] {
      SortSourcesSorts(children, sources[..|sources| - 1]);
      InsertKeepsRanked(children, sources[|sources| - 1], SortSources(children, sources[..|sources| - 1]));
    }
    forall x
      ensures x in SortSources(children, sources) <==> x in sources
    {
      assert x in multiset(SortSources(children, sources)) <==> x in multiset(sources);
    }
  }

  function FirstOther(sources: seq<Source>, child: string): (r: Option<Source>)
    ensures r.Some? ==> r.value in sources && r.value.child != child
    ensures r.Some? ==> exists j ::
      0 <= j < |sources| && sources[j] == r.value && forall m :: 0 <= m < j ==> sources[m].child == child
    ensures r.None? ==> forall s :: s in sources ==> s.child == child
  {
    if sources == [] then None
    else if sources[0].child != child then Some(sources[0])
    else
      assert forall j :: 0 <= j < |sources[1..]| ==> sources[1..][j] == sources[j + 1];
      FirstOther(sources[1..], child)
  }

  /**
   Of the pages that other children could give up `s` is the one to take: a finished child's, of the earliest child.
   */
  ghost predicate FirstChoice(b: Batch, children: seq<string>, s: Source, child: string) {
    && Usable(b, children, s) && s.child != child
    && forall o :: Usable(b, children, o) && o.child != child ==>
         (o.terminal ==> s.terminal)
         && (o.terminal == s.terminal ==> IndexOf(children, s.child) <= IndexOf(children, o.child))
  }

  lemma FirstOtherIsFirstChoice(b: Batch, children: seq<string>, sources: seq<Source>, child: string)
    requires forall s :: s in sources <==> Usable(b, children, s)
    requires Ranked(children, sources) && FirstOther(sources, child).Some?
    ensures FirstChoice(b, children, FirstOther(sources, child).value, child)
  {
    forall o | Usable(b, children, o) && o.child != child
      ensures var s := FirstOther(sources, child).value;
        && (o.terminal ==> s.terminal)
        && (o.terminal == s.terminal ==> IndexOf(children, s.child) <= IndexOf(children, o.child))
    {
      FirstOtherIsNoWorse(children, sources, child, o);
    }
  }

  lemma FirstOtherIsNoWorse(children: seq<string>, sources: seq<Source>, child: string, o: Source)
    requires Ranked(children, sources) && FirstOther(sources, child).Some? && o in sources && o.child != child
    requires o.child in children && FirstOther(sources, child).value.child in children
    ensures var s := FirstOther(sources, child).value;
      && (o.terminal ==> s.terminal)
      && (o.terminal == s.terminal ==> IndexOf(children, s.child) <= IndexOf(children, o.child))
  {
    var s := FirstOther(sources, child).value;
    var j :| 0 <= j < |sources| && sources[j] == s && forall m :: 0 <= m < j ==> sources[m].child == child;
    var m :| 0 <= m < |sources| && sources[m] == o;
    assert j <= m && Rank(children, s) <= Rank(children, o);
  }

  // ---- Transport calls ----

  datatype OpenReply = OpenThrew | OpenBound(window: WindowId) | OpenLeftUnknown | OpenDidNothing

  datatype SendReply = SendThrew | SendHeld | SendLeftUnknown | SendDelivered(worker: string, at: int)

  datatype CallKind = OpenNew | Reuse(from: string, durable: bool) | Send | CloseTerminal

  datatype Answer = OpenAnswer(open: OpenReply) | SendAnswer(send: SendReply) | CloseAnswer(gone: bool)

  datatype Call = Call(child: string, kind: CallKind, pool: nat, answer: Answer)

  /** The call may have had an effect nobody knows of, or left a page that is not proven gone. */
  predicate Unclear(call: Call) {
    match call.answer
    case OpenAnswer(open) => open.OpenThrew? || open.OpenLeftUnknown?
    case SendAnswer(send) => send.SendThrew? || send.SendLeftUnknown?
    case CloseAnswer(gone) => !gone
  }

  /** The call did what it was made for. */
  predicate Succeeds(call: Call) {
    match call.answer
    case OpenAnswer(open) => open.OpenBound?
    case SendAnswer(send) => send.SendDelivered?
    case CloseAnswer(gone) => gone
  }

  /** Within the window bound, taking pages only from durable owners, and silent after an ambiguous result. */
  ghost predicate Orderly(calls: seq<Call>, from: nat, bound: nat) {
    forall n :: from <= n < |calls| ==>
      calls[n].pool <= bound && (calls[n].kind.Reuse? ==> calls[n].kind.durable)
        && (Unclear(calls[n]) ==> n == |calls| - 1)
  }

  /** No call so far has left anything ambiguous. */
  ghost predicate Settled(calls: seq<Call>, from: nat) {
    forall n :: from <= n < |calls| ==> !Unclear(calls[n])
  }

  /** What is looked up outside the registry before arming, and before sending. */
  datatype Check = ArmCheck(child: string, refused: bool) | SendCheck(child: string, cooling: bool, promptChanged: bool)

  predicate Refuses(check: Check) {
    match check
    case ArmCheck(_, refused) => refused
    case SendCheck(_, cooling, promptChanged) => cooling || promptChanged
  }

  // ---- What one turn may consist of ----

  /** How one child's turn ends: on to the next child, wait for a page, or stop the batch. */
  datatype Next = Onward | PoolWait | Stop

  /** One look at the cooldown and the prompt, then one send unless either forbids it; it goes on only if delivered. */
  predicate PromptTurn(child: string, checks: seq<Check>, calls: seq<Call>, next: Next) {
    && |checks| == 1 && checks[0].SendCheck? && checks[0].child == child
    && if checks[0].cooling || checks[0].promptChanged then calls == [] && next.Stop?
       else
         && |calls| == 1 && calls[0].child == child && calls[0].kind.Send? && calls[0].answer.SendAnswer?
         && if calls[0].answer.send.SendDelivered? then next.Onward? else next.Stop?
  }

  /** An armed attempt waits for the pool or is opened a page; once it has one it is sent its prompt. */
  predicate AttemptTurn(st: SpawnState, child: string, checks: seq<Check>, calls: seq<Call>, next: Next) {
    if st.WindowBound? then PromptTurn(child, checks, calls, next)
    else if !st.Armed? then checks == [] && calls == [] && next.Onward?
    else if next.PoolWait? then checks == [] && calls == []
    else
      && calls != [] && calls[0].child == child && (calls[0].kind.OpenNew? || calls[0].kind.Reuse?)
      && calls[0].answer.OpenAnswer?
      && if calls[0].answer.open.OpenBound? then PromptTurn(child, checks, calls[1..], next)
         else checks == [] && |calls| == 1 && next.Stop?
  }

  /** A child without an attempt is armed first, unless the evidence outside refuses. */
  predicate ArmTurn(child: string, checks: seq<Check>, calls: seq<Call>, next: Next) {
    && checks != [] && checks[0].ArmCheck? && checks[0].child == child
    && if checks[0].refused then |checks| == 1 && calls == [] && next.Stop?
       else AttemptTurn(Armed, child, checks[1..], calls, next)
  }

  /** One call for a page of the child, or none if the pool is full. */
  predicate PageTurn(child: string, calls: seq<Call>, next: Next) {
    if next.PoolWait? then calls == []
    else
      && |calls| == 1 && calls[0].child == child && (calls[0].kind.OpenNew? || calls[0].kind.Reuse?)
      && calls[0].answer.OpenAnswer? && if calls[0].answer.open.OpenBound? then next.Onward? else next.Stop?
  }

  lemma PageEndsTurn(child: string, checks: seq<Check>, c0: seq<Call>, c: seq<Call>, next: Next)
    requires c0 <= c && PageTurn(child, c[|c0|..], next) && !next.Onward?
    ensures AttemptTurn(Armed, child, checks[|checks|..], c[|c0|..], next)
  {
    assert checks[|checks|..] == [];
  }

  lemma PromptEndsTurn(
    st: SpawnState, child: string, checks: seq<Check>, c0: seq<Call>, c2: seq<Call>, c: seq<Call>, next: Next)
    requires c0 <= c2 <= c && PromptTurn(child, checks, c[|c2|..], next)
    requires if st.Armed? then PageTurn(child, c2[|c0|..], Onward) else st.WindowBound? && c2 == c0
    ensures AttemptTurn(st, child, checks, c[|c0|..], next)
  {
    assert c[|c0|..] == c2[|c0|..] + c[|c2|..];
    if st.Armed? {
      assert c[|c0|..][1..] == c[|c2|..];
    }
  }

  /** The state in which the answer of an open leaves the attempt; `None` is an exception. */
  predicate OpenLeft(call: Call, child: string, st: Option<SpawnState>) {
    && call.child == child && call.answer.OpenAnswer?
    && st == match call.answer.open
       case OpenThrew => None
       case OpenBound(_) => Some(WindowBound)
       case OpenLeftUnknown => Some(ReconcileRequired)
       case OpenDidNothing => Some(Failed)
  }

  /** Something was refused or did not succeed. */
  ghost predicate Hindered(checks: seq<Check>, calls: seq<Call>) {
    (exists k :: 0 <= k < |checks| && Refuses(checks[k])) || (exists k :: 0 <= k < |calls| && !Succeeds(calls[k]))
  }

  /** A prompt was delivered to the child. */
  ghost predicate SentTo(calls: seq<Call>, child: string) {
    exists k :: 0 <= k < |calls| && calls[k].child == child && calls[k].kind.Send? && Succeeds(calls[k])
  }

  lemma PromptTurnHinders(child: string, checks: seq<Check>, calls: seq<Call>, next: Next)
    requires PromptTurn(child, checks, calls, next)
    ensures next.Stop? <==> Hindered(checks, calls)
    ensures next.Onward? ==> SentTo(calls, child)
    ensures !next.PoolWait?
  {
  }

  /** A turn stops the batch exactly if something in it was refused or did not succeed. */
  lemma AttemptTurnHinders(st: SpawnState, child: string, checks: seq<Check>, calls: seq<Call>, next: Next)
    requires AttemptTurn(st, child, checks, calls, next)
    ensures next.Stop? <==> Hindered(checks, calls)
    ensures next.Onward? && (st.Armed? || st.WindowBound?) ==> SentTo(calls, child)
  {
    if st.WindowBound? {
      PromptTurnHinders(child, checks, calls, next);
    } else if st.Armed? && !next.PoolWait? && calls[0].answer.open.OpenBound? {
      PromptTurnHinders(child, checks, calls[1..], next);
      assert calls == [calls[0]] + calls[1..];
      if Hindered(checks, calls[1..]) && !(exists k :: 0 <= k < |checks| && Refuses(checks[k])) {
        var k :| 0 <= k < |calls[1..]| && !Succeeds(calls[1..][k]);
        assert !Succeeds(calls[k + 1]);
      }
      if SentTo(calls[1..], child) {
        var k :| 0 <= k < |calls[1..]| && calls[1..][k].child == child && calls[1..][k].kind.Send?
          && Succeeds(calls[1..][k]);
        assert Succeeds(calls[k + 1]) && calls[k + 1].child == child;
      }
    }
  }

  lemma ArmTurnHinders(child: string, checks: seq<Check>, calls: seq<Call>, next: Next)
    requires ArmTurn(child, checks, calls, next)
    ensures next.Stop? <==> Hindered(checks, calls)
    ensures next.Onward? ==> SentTo(calls, child)
  {
    if !checks[0].refused {
      AttemptTurnHinders(Armed, child, checks[1..], calls, next);
      assert checks == [checks[0]] + checks[1..];
      if exists k :: 0 <= k < |checks[1..]| && Refuses(checks[1..][k]) {
        var k :| 0 <= k < |checks[1..]| && Refuses(checks[1..][k]);
        assert Refuses(checks[k + 1]);
      }
    }
  }

  // ---- What every step keeps ----

  ghost predicate Kept(b0: Batch, b: Batch, children: seq<string>, bound: nat) {
    && Sound(b) && b.tasks.Keys == b0.tasks.Keys
    && (|Pool(b0, children)| <= bound ==> |Pool(b, children)| <= bound)
    && (Exclusive(b0, children) && Healthy(b0, children) ==> Exclusive(b, children) && Healthy(b, children))
  }

  lemma KeptBySmaller(b0: Batch, b: Batch, b': Batch, children: seq<string>, bound: nat)
    requires Kept(b0, b, children, bound) && Sound(b') && b'.tasks.Keys == b.tasks.Keys
    requires Pool(b', children) <= Pool(b, children)
    requires Exclusive(b, children) && Healthy(b, children) ==> Exclusive(b', children) && Healthy(b', children)
    ensures Kept(b0, b', children, bound)
  {
    SubsetSize(Pool(b', children), Pool(b, children));
  }

  lemma SnapshotIsPool(
    b: Batch, children: seq<string>, direct: set<WindowId>, latest: map<WindowId, nat>, windows: set<WindowId>)
    requires forall k :: k in direct <==> exists n :: 0 <= n < |children| && Direct(b, children[n], k)
    requires forall k :: k in latest ==> Latest(b, children, latest[k], k)
    requires forall i: nat, k :: Latest(b, children, i, k) ==> k in latest
    requires Sound(b)
    requires forall k ::
      k in windows <==> k in direct || (k in latest && latest[k] < |b.rows| && Finished(b, b.rows[latest[k]].child))
    ensures windows == Pool(b, children)
  {
    forall k
      ensures k in windows <==> k in Pool(b, children)
    {
      PoolMember(b, children, k);
      if n :| 0 <= n < |children| && Direct(b, children[n], k) {
        assert children[n] in children;
      } else if InPool(b, children, k) {
        var i: nat :| Latest(b, children, i, k) && Finished(b, b.rows[i].child);
        LatestIsUnique(b, children, i, latest[k], k);
      }
    }
  }

  /** A step on row `i` leaves every other row in its state, though it may mark a completed record as taken. */
  ghost predicate StatesKept(before: seq<Row>, after: seq<Row>, i: nat) {
    && i < |before| && |after| == |before|
    && forall j :: 0 <= j < |after| ==>
         after[j].child == before[j].child && (j != i ==> after[j].state == before[j].state)
  }

  /** Tasks only gain workers. */
  ghost predicate TasksOnward(before: map<string, Task>, after: map<string, Task>) {
    && after.Keys == before.Keys
    && forall c :: c in before ==> after[c].done == before[c].done && (before[c].worker.Some? ==> after[c].worker.Some?)
  }

  /** What an unresolved attempt owns is the window its row names. */
  lemma AttemptOwns(b: Batch, child: string, attempt: Option<nat>)
    requires Sound(b)
    requires attempt.Some? ==>
      attempt.value < |b.rows| && b.rows[attempt.value].child == child && Unresolved(b.rows[attempt.value].state)
    requires attempt.None? ==> forall i :: 0 <= i < |b.rows| && b.rows[i].child == child ==>
      !Unresolved(b.rows[i].state)
    ensures forall k :: AttemptHolds(b, child, k) <==> attempt.Some? && b.rows[attempt.value].window == Some(k)
  {
    if attempt.Some? && b.rows[attempt.value].window.Some? {
      assert Holds(b.rows[attempt.value], child, b.rows[attempt.value].window.value);
    }
  }

  /** The newest record of a window that nobody owns directly, left by a finished child. */
  ghost predicate Spare(b: Batch, latest: map<WindowId, nat>, direct: set<WindowId>, s: Source) {
    && s.SpawnSource? && s.window in latest && s.window !in direct && latest[s.window] == s.row
    && s.row < |b.rows| && s.child == b.rows[s.row].child && s.terminal && Finished(b, s.child)
  }

  lemma SpareIffUsable(b: Batch, children: seq<string>, latest: map<WindowId, nat>, direct: set<WindowId>, s: Source)
    requires Sound(b) && s.SpawnSource?
    requires forall k :: k in direct <==> exists n :: 0 <= n < |children| && Direct(b, children[n], k)
    requires forall k :: k in latest ==> Latest(b, children, latest[k], k)
    requires forall i: nat, k :: Latest(b, children, i, k) ==> k in latest
    ensures Spare(b, latest, direct, s) <==> Usable(b, children, s)
  {
    if Spare(b, latest, direct, s) {
      forall c | c in children
        ensures !Direct(b, c, s.window)
      {
        var n :| 0 <= n < |children| && children[n] == c;
      }
    } else if Usable(b, children, s) {
      assert forall n :: 0 <= n < |children| ==> children[n] in children;
      LatestIsUnique(b, children, latest[s.window], s.row, s.window);
    }
  }

  /** The row says that this worker of this child got this window, and that nobody has taken or closed it since. */
  predicate Records(row: Row, child: string, worker: string, k: WindowId) {
    row == Row(child, Completed, Some(k), row.hasConversation, Some(worker), row.updatedAt, row.createdAt, row.idOrder,
               false, false)
  }

  /** A completed conversation's record of a window that nobody has taken or closed. */
  predicate StandsUntaken(row: Row, k: WindowId) {
    row == Row(row.child, Completed, Some(k), true, row.worker, row.updatedAt, row.createdAt, row.idOrder, false, false)
  }

  /** By update, then by creation, then by id. */
  predicate NoOlder(a: Row, c: Row) {
    && a.updatedAt >= c.updatedAt
    && (a.updatedAt == c.updatedAt ==>
          a.createdAt >= c.createdAt && (a.createdAt == c.createdAt ==> a.idOrder >= c.idOrder))
  }

  class BatchRegistry {
    var tasks: map<string, Task>
    var bindings: map<string, WindowId>
    var rows: seq<Row>
    ghost var calls: seq<Call>
    ghost var checks: seq<Check>

    ghost function View(): Batch
      reads this
    {
      Batch(tasks, bindings, rows)
    }

    constructor ()
      ensures View() == Batch(map[], map[], []) && calls == [] && checks == []
    {
      tasks, bindings, rows, calls, checks := map[], map[], [], [], [];
    }

    // ---- What lies outside: any answer is possible ----

    /** A newly opened window has an identity that no row or binding names. */
    method OpenAuthorized(child: string, children: seq<string>) returns (r: OpenReply)
      modifies this`calls
      ensures r.OpenBound? ==> r.window !in Keys(View())
      ensures calls == old(calls) + [Call(child, OpenNew, |Pool(View(), children)|, OpenAnswer(r))]
    {
      r := *;
      if r.OpenBound? && r.window in Keys(Batch(tasks, bindings, rows)) {
        r := OpenThrew;
      }
      calls := calls + [Call(child, OpenNew, |Pool(View(), children)|, OpenAnswer(r))];
    }

    /** Reusing a page returns the source's own identity. */
    method ReuseAuthorized(child: string, source: Source, children: seq<string>) returns (r: OpenReply)
      requires source.child in tasks
      modifies this`calls
      ensures r.OpenBound? ==> r.window == source.window
      ensures calls == old(calls)
        + [Call(child, Reuse(source.child, tasks[source.child].done || tasks[source.child].session),
                |Pool(View(), children)|, OpenAnswer(r))]
    {
      r := *;
      if r.OpenBound? {
        r := OpenBound(source.window);
      }
      calls := calls
        + [Call(child, Reuse(source.child, tasks[source.child].done || tasks[source.child].session),
                |Pool(View(), children)|, OpenAnswer(r))];
    }

    /** Adoption registers a worker id that no other task has. */
    method SendAuthorized(child: string, children: seq<string>) returns (r: SendReply)
      modifies this`calls
      ensures r.SendDelivered? ==> forall c :: c in tasks && c != child ==> tasks[c].worker != Some(r.worker)
      ensures calls == old(calls) + [Call(child, Send, |Pool(View(), children)|, SendAnswer(r))]
    {
      r := *;
      if r.SendDelivered? && exists c :: c in tasks && c != child && tasks[c].worker == Some(r.worker) {
        r := SendThrew;
      }
      calls := calls + [Call(child, Send, |Pool(View(), children)|, SendAnswer(r))];
    }

    method CloseAuthorized(source: Source, children: seq<string>) returns (gone: bool)
      modifies this`calls
      ensures calls == old(calls) + [Call(source.child, CloseTerminal, |Pool(View(), children)|, CloseAnswer(gone))]
    {
      gone := *;
      calls := calls + [Call(source.child, CloseTerminal, |Pool(View(), children)|, CloseAnswer(gone))];
    }

    /** Arming may be refused by evidence from outside. */
    method CheckArm(child: string) returns (refused: bool)
      modifies this`checks
      ensures checks == old(checks) + [ArmCheck(child, refused)]
    {
      refused := *;
      checks := checks + [ArmCheck(child, refused)];
    }

    method CheckSend(child: string) returns (cooling: bool, promptChanged: bool)
      modifies this`checks
      ensures checks == old(checks) + [SendCheck(child, cooling, promptChanged)]
    {
      cooling, promptChanged := *, *;
      checks := checks + [SendCheck(child, cooling, promptChanged)];
    }

    /** An id that no row has, and the time. */
    method DrawId() returns (idOrder: int, at: int)
      ensures forall i :: 0 <= i < |rows| ==> rows[i].idOrder != idOrder
    {
      idOrder, at := *, *;
      var highest := 0;
      var n := 0;
      while n < |rows|
        invariant 0 <= n <= |rows| && forall i :: 0 <= i < n ==> rows[i].idOrder <= highest
      {
        highest := Max(highest, rows[n].idOrder);
        n := n + 1;
      }
      if exists i :: 0 <= i < |rows| && rows[i].idOrder == idOrder {
        idOrder := highest + 1;
      }
    }

    method UnresolvedAttempt(child: string) returns (r: Option<nat>)
      ensures r.Some? ==> r.value < |rows| && rows[r.value].child == child && Unresolved(rows[r.value].state)
      ensures r.None? ==> forall i :: 0 <= i < |rows| && rows[i].child == child ==> !Unresolved(rows[i].state)
    {
      var i := 0;
      while i < |rows|
        invariant 0 <= i <= |rows|
        invariant forall j :: 0 <= j < i && rows[j].child == child ==> !Unresolved(rows[j].state)
      {
        if rows[i].child == child && Unresolved(rows[i].state) {
          return Some(i);
        }
        i := i + 1;
      }
      return None;
    }

    /** The windows one child owns directly, and its worker's page if it may be recycled. */
    method DirectOf(child: string, children: seq<string>)
      returns (windows: set<WindowId>, source: Option<Source>, waits: bool)
      requires Sound(View()) && child in children && child in tasks
      ensures forall k :: k in windows <==> Direct(View(), child, k)
      ensures source.Some? ==> source.value.WorkerSource? && Usable(View(), children, source.value)
      ensures forall s: Source :: s.WorkerSource? && s.child == child && Usable(View(), children, s) ==>
        source == Some(s)
      ensures waits ==> !tasks[child].done && !tasks[child].session
    {
      windows, source, waits := {}, None, false;
      if tasks[child].worker.Some? && tasks[child].worker.value in bindings {
        var worker := tasks[child].worker.value;
        windows := {bindings[worker]};
        if tasks[child].done || tasks[child].session {
          source := Some(WorkerSource(child, tasks[child].done, worker, bindings[worker]));
        } else {
          waits := true;
        }
      }
      var unresolved := UnresolvedAttempt(child);
      if unresolved.Some? && rows[unresolved.value].window.Some? {
        windows := windows + {rows[unresolved.value].window.value};
      }
      AttemptOwns(View(), child, unresolved);
    }

    /** The windows that children own directly, and the workers whose page may be recycled. */
    method DirectSnapshot(children: seq<string>)
      returns (windows: set<WindowId>, reusable: seq<Source>, waiting: seq<string>)
      requires Sound(View()) && forall c :: c in children ==> c in tasks
      ensures forall k :: k in windows <==> exists n :: 0 <= n < |children| && Direct(View(), children[n], k)
      ensures forall s :: s in reusable <==> s.WorkerSource? && Usable(View(), children, s)
      ensures forall c :: c in waiting ==> c in children && !tasks[c].done && !tasks[c].session
    {
      windows, reusable, waiting := {}, [], [];
      var n := 0;
      while n < |children|
        invariant 0 <= n <= |children|
        invariant forall k :: k in windows <==> exists m :: 0 <= m < n && Direct(View(), children[m], k)
        invariant forall s :: s in reusable ==> s.WorkerSource? && Usable(View(), children, s)
        invariant forall m, s: Source ::
          0 <= m < n && s.WorkerSource? && Usable(View(), children, s) && s.child == children[m] ==> s in reusable
        invariant forall c :: c in waiting ==> c in children && !tasks[c].done && !tasks[c].session
      {
        var direct, source, waits := DirectOf(children[n], children);
        windows := windows + direct;
        if source.Some? {
          reusable := reusable + [source.value];
        }
        if waits {
          waiting := waiting + [children[n]];
        }
        n := n + 1;
      }
    }

    /** The newest leftover record of each window. */
    method LatestCompleted(children: seq<string>) returns (latest: map<WindowId, nat>)
      ensures forall k :: k in latest ==> Latest(View(), children, latest[k], k)
      ensures forall i: nat, k :: Latest(View(), children, i, k) ==> k in latest
      ensures forall k :: k in latest ==>
        latest[k] < |rows| && rows[latest[k]].child in children && StandsUntaken(rows[latest[k]], k)
      ensures forall j, k ::
        0 <= j < |rows| && rows[j].child in children && StandsUntaken(rows[j], k) ==>
          k in latest && latest[k] < |rows| && NoOlder(rows[latest[k]], rows[j])
    {
      latest := map[];
      var i := 0;
      while i < |rows|
        invariant 0 <= i <= |rows|
        invariant forall k :: k in latest ==> latest[k] < i && Leftover(rows[latest[k]], children, k)
        invariant forall k, j :: k in latest && 0 <= j < i && Leftover(rows[j], children, k) ==>
          !Newer(rows[j], rows[latest[k]])
        invariant forall k, j :: 0 <= j < i && Leftover(rows[j], children, k) ==> k in latest
      {
        var row := rows[i];
        if row.window.Some? && Leftover(row, children, row.window.value) {
          var k := row.window.value;
          if k !in latest || Newer(row, rows[latest[k]]) {
            latest := latest[k := i];
          }
        }
        i := i + 1;
      }
    }

    /** Adds the windows that finished children left behind and nobody owns directly. */
    method AddLeftovers(children: seq<string>, latest: map<WindowId, nat>, direct: set<WindowId>)
      returns (windows: set<WindowId>, leftovers: seq<Source>)
      requires forall c :: c in children ==> c in tasks
      requires forall k :: k in latest ==> Latest(View(), children, latest[k], k)
      ensures forall k ::
        k in windows <==> k in direct || (k in latest && latest[k] < |rows| && Finished(View(), rows[latest[k]].child))
      ensures forall s :: s in leftovers <==> Spare(View(), latest, direct, s)
    {
      windows, leftovers := direct, [];
      var todo := latest.Keys;
      while todo != {}
        invariant todo <= latest.Keys
        invariant forall k ::
          k in windows <==> k in direct || (k in latest && k !in todo && Finished(View(), rows[latest[k]].child))
        invariant forall s :: s in leftovers <==> Spare(View(), latest, direct, s) && s.window !in todo
        decreases |todo|
      {
        var k :| k in todo;
        todo := todo - {k};
        var child := rows[latest[k]].child;
        if k !in windows && tasks[child].done {
          windows := windows + {k};
          leftovers := leftovers + [SpawnSource(child, true, latest[k], k)];
        }
      }
    }

    /** The pool of windows, and the sources a page may be taken from, best first. */
    method PoolSnapshot(children: seq<string>)
      returns (windows: set<WindowId>, reusable: seq<Source>, waiting: seq<string>)
      requires Sound(View()) && forall c :: c in children ==> c in tasks
      ensures windows == Pool(View(), children)
      ensures forall s :: s in reusable <==> Usable(View(), children, s)
      ensures Ranked(children, reusable)
      ensures forall c :: c in waiting ==> c in children && !tasks[c].done && !tasks[c].session
    {
      var direct, workers, unsettled := DirectSnapshot(children);
      var latest := LatestCompleted(children);
      var leftovers;
      windows, leftovers := AddLeftovers(children, latest, direct);
      SnapshotIsPool(View(), children, direct, latest, windows);
      SortSourcesSorts(children, workers + leftovers);
      reusable, waiting := SortSources(children, workers + leftovers), unsettled;
      forall s: Source | s.SpawnSource?
        ensures s in leftovers <==> Usable(View(), children, s)
      {
        SpareIffUsable(View(), children, latest, direct, s);
      }
    }

    // ---- Opening ----

    /** Moves an unresolved attempt without moving its window. */
    method SetState(i: nat, st: SpawnState, children: seq<string>, bound: nat)
      requires Sound(View()) && i < |rows| && Unresolved(rows[i].state) && Shaped(rows[i].(state := st))
      requires !st.Completed?
      modifies this`rows
      ensures View() == SetRow(old(View()), i, st) && Kept(old(View()), View(), children, bound)
      ensures Pool(View(), children) <= Pool(old(View()), children)
    {
      StateKeeps(View(), i, st, children);
      SubsetSize(Pool(SetRow(View(), i, st), children), Pool(View(), children));
      rows := rows[i := rows[i].(state := st)];
    }

    /** An open that did not return a window: unresolved if it may have had an effect, failed if not. */
    method SettleUnbound(i: nat, reply: OpenReply, children: seq<string>, bound: nat) returns (st: Option<SpawnState>)
      requires Sound(View()) && i < |rows| && rows[i].state.WindowOpenSubmitted? && !reply.OpenBound?
      modifies this`rows
      ensures Kept(old(View()), View(), children, bound) && tasks == old(tasks)
      ensures StatesKept(old(rows), rows, i) && (st.Some? ==> rows[i].state == st.value)
      ensures st == if reply.OpenThrew? then None
        else Some(if reply.OpenLeftUnknown? then ReconcileRequired else Failed)
    {
      if reply.OpenThrew? {
        return None;
      }
      st := Some(if reply.OpenLeftUnknown? then ReconcileRequired else Failed);
      SetState(i, st.value, children, bound);
    }

    ghost predicate Armable(i: nat, children: seq<string>)
      reads this
    {
      && Sound(View()) && i < |rows| && rows[i].state.Armed? && rows[i].child in children && rows[i].child in tasks
      && tasks[rows[i].child].worker.None?
    }

    /** Writes the open authority of an attempt and calls the transport for a new window. */
    method CallOpen(i: nat, children: seq<string>, bound: nat) returns (reply: OpenReply)
      requires Armable(i, children)
      modifies this`rows, this`calls
      ensures View() == SetRow(old(View()), i, WindowOpenSubmitted) && Kept(old(View()), View(), children, bound)
      ensures |Pool(View(), children)| <= |Pool(old(View()), children)|
      ensures reply.OpenBound? ==> reply.window !in Keys(View())
      ensures calls == old(calls) + [Call(rows[i].child, OpenNew, |Pool(View(), children)|, OpenAnswer(reply))]
    {
      ghost var b0 := View();
      SetState(i, WindowOpenSubmitted, children, bound);
      SubsetSize(Pool(View(), children), Pool(b0, children));
      reply := OpenAuthorized(rows[i].child, children);
    }

    method OpenNewWindow(i: nat, children: seq<string>, bound: nat) returns (st: Option<SpawnState>)
      requires Armable(i, children) && |Pool(View(), children)| < bound
      modifies this`rows, this`bindings, this`calls
      ensures Kept(old(View()), View(), children, bound) && tasks == old(tasks)
      ensures StatesKept(old(rows), rows, i) && (st.Some? ==> rows[i].state == st.value)
      ensures st.Some? ==> st.value.WindowBound? || st.value.ReconcileRequired? || st.value.Failed?
      ensures |calls| == |old(calls)| + 1 && old(calls) <= calls
      ensures calls[|old(calls)|].kind == OpenNew && calls[|old(calls)|].pool < bound
      ensures OpenLeft(calls[|old(calls)|], rows[i].child, st)
    {
      ghost var b0 := View();
      var reply := CallOpen(i, children, bound);
      ghost var b1 := View();
      if reply.OpenBound? {
        BindFresh(i, reply.window, children, bound);
        st := Some(WindowBound);
      } else {
        st := SettleUnbound(i, reply, children, bound);
      }
      KeptChains(b0, b1, View(), children, bound);
    }

    /** Binds a window nobody has heard of, for which the pool has room. */
    method BindFresh(i: nat, k: WindowId, children: seq<string>, bound: nat)
      requires Sound(View()) && i < |rows| && rows[i].state.WindowOpenSubmitted?
      requires k !in Keys(View()) && |Pool(View(), children)| < bound
      modifies this`rows
      ensures View() == Put(old(View()), i, BoundRow(old(rows)[i], k)) && Kept(old(View()), View(), children, bound)
    {
      ghost var b := View();
      OwnedIsKnown(b);
      OpenKeeps(b, i, k, children);
      rows := rows[i := BoundRow(rows[i], k)];
      SubsetSize(Pool(View(), children), Pool(b, children) + {k});
    }

    method MarkRecycled(child: string, worker: string, k: WindowId)
      modifies this`rows
      ensures rows == MarkFrom(old(rows), child, worker, k, 0)
      ensures if exists j :: 0 <= j < |old(rows)| && Records(old(rows)[j], child, worker, k) then
          exists j :: 0 <= j < |old(rows)| && Records(old(rows)[j], child, worker, k)
            && rows == old(rows)[j := old(rows)[j].(recycled := true)]
            && forall m :: 0 <= m < j ==> !Records(old(rows)[m], child, worker, k)
        else rows == old(rows)
    {
      var n := 0;
      while n < |rows|
        invariant 0 <= n <= |rows| && rows == old(rows)
        invariant forall m :: 0 <= m < n ==> !Records(rows[m], child, worker, k)
        invariant MarkFrom(rows, child, worker, k, 0) == MarkFrom(rows, child, worker, k, n)
      {
        if RecordOf(rows[n], child, worker, k) {
          rows := rows[n := rows[n].(recycled := true)];
          return;
        }
        n := n + 1;
      }
    }

    /** Writes the open authority of an attempt and calls the transport for another child's page. */
    method CallReuse(i: nat, source: Source, children: seq<string>, bound: nat) returns (reply: OpenReply)
      requires Armable(i, children) && source.child in tasks
      modifies this`rows, this`calls
      ensures View() == SetRow(old(View()), i, WindowOpenSubmitted) && Kept(old(View()), View(), children, bound)
      ensures |Pool(View(), children)| <= |Pool(old(View()), children)|
      ensures calls == old(calls)
        + [Call(rows[i].child, Reuse(source.child, tasks[source.child].done || tasks[source.child].session),
                |Pool(View(), children)|, OpenAnswer(reply))]
    {
      ghost var b0 := View();
      SetState(i, WindowOpenSubmitted, children, bound);
      SubsetSize(Pool(View(), children), Pool(b0, children));
      reply := ReuseAuthorized(rows[i].child, source, children);
    }

    /** Takes over the page of another child, which must be durable or finished. */
    method ReuseWindow(i: nat, source: Source, children: seq<string>, bound: nat) returns (st: Option<SpawnState>)
      requires Armable(i, children) && Usable(View(), children, source) && source.child != rows[i].child
      modifies this`rows, this`bindings, this`calls
      ensures Kept(old(View()), View(), children, bound) && tasks == old(tasks)
      ensures StatesKept(old(rows), rows, i) && (st.Some? ==> rows[i].state == st.value)
      ensures st.Some? ==> st.value.WindowBound? || st.value.ReconcileRequired? || st.value.Failed?
      ensures |calls| == |old(calls)| + 1 && old(calls) <= calls
      ensures calls[|old(calls)|].pool <= |Pool(old(View()), children)|
      ensures calls[|old(calls)|].kind == Reuse(source.child, tasks[source.child].done || tasks[source.child].session)
      ensures OpenLeft(calls[|old(calls)|], rows[i].child, st)
      ensures st == Some(WindowBound) && Exclusive(old(View()), children) ==>
        (Exclusive(View(), children) <==> !DoublyOwned(old(View()), source))
    {
      ghost var b0 := View();
      StillUsable(b0, i, children, source);
      var reply := CallReuse(i, source, children, bound);
      ghost var b := View();
      st := SettleReuse(i, source, reply, children, bound);
      KeptChains(b0, b, View(), children, bound);
    }

    /** What a reuse that was called leaves in the rows. */
    method SettleReuse(i: nat, source: Source, reply: OpenReply, children: seq<string>, bound: nat)
      returns (st: Option<SpawnState>)
      requires Sound(View()) && i < |rows| && rows[i].state.WindowOpenSubmitted?
      requires rows[i].child in children && rows[i].child in tasks && tasks[rows[i].child].worker.None?
      requires Usable(View(), children, source) && source.child != rows[i].child
      modifies this`rows, this`bindings
      ensures Kept(old(View()), View(), children, bound)
      ensures StatesKept(old(rows), rows, i) && (st.Some? ==> rows[i].state == st.value)
      ensures st == match reply
        case OpenThrew => None
        case OpenBound(_) => Some(WindowBound)
        case OpenLeftUnknown => Some(ReconcileRequired)
        case OpenDidNothing => Some(Failed)
      ensures st == Some(WindowBound) && Exclusive(old(View()), children) ==>
        (Exclusive(View(), children) <==> !DoublyOwned(old(View()), source))
    {
      if !reply.OpenBound? {
        st := SettleUnbound(i, reply, children, bound);
        return;
      }
      ghost var b := View();
      TakenOverIsKept(b, i, source, children);
      TakeOver(i, source, children, bound);
      KeptBySmaller(b, b, View(), children, bound);
      return Some(WindowBound);
    }

    /** Binds the page to the attempt and strikes its former owner's claim. */
    method TakeOver(i: nat, source: Source, children: seq<string>, bound: nat)
      requires Sound(View()) && i < |rows| && rows[i].state.WindowOpenSubmitted? && rows[i].child in children
      requires rows[i].child in tasks
      requires tasks[rows[i].child].worker.None? && Usable(View(), children, source) && source.child != rows[i].child
      modifies this`rows, this`bindings
      ensures View() == TakenOver(old(View()), i, source)
    {
      match source
      case WorkerSource(child, _, worker, window) =>
        rows := rows[i := BoundRow(rows[i], window)];
        MarkRecycled(child, worker, window);
        bindings := bindings - {worker};
      case SpawnSource(_, _, row, window) =>
        rows := rows[i := BoundRow(rows[i], window)];
        rows := rows[row := rows[row].(recycled := true)];
    }

    // ---- Sending ----

    /** What a send that was called leaves in the rows. */
    method SettleSend(i: nat, reply: SendReply, children: seq<string>, bound: nat) returns (st: Option<SpawnState>)
      requires Sound(View()) && i < |rows| && rows[i].state.PromptSubmitted? && rows[i].child in children
      requires rows[i].child in tasks
      requires reply.SendDelivered? ==> CanDeliver(View(), i, reply.worker, children)
      modifies this`rows, this`tasks, this`bindings
      ensures Kept(old(View()), View(), children, bound)
      ensures StatesKept(old(rows), rows, i) && (st.Some? ==> rows[i].state == st.value)
      ensures OthersKept(old(tasks), tasks, rows[i].child)
      ensures TasksOnward(old(tasks), tasks)
      ensures st == match reply
        case SendHeld => Some(WindowBound)
        case SendLeftUnknown => Some(ReconcileRequired)
        case SendDelivered(_, _) => Some(Completed)
        case _ => None
      ensures reply.SendDelivered? ==> tasks[rows[i].child].worker == Some(reply.worker)
    {
      match reply
      case SendHeld =>
        st := Some(WindowBound);
        SetState(i, WindowBound, children, bound);
      case SendLeftUnknown =>
        st := Some(ReconcileRequired);
        SetState(i, ReconcileRequired, children, bound);
      case SendDelivered(worker, at) =>
        ghost var b := View();
        var child := rows[i].child;
        DeliverKeeps(b, i, worker, at, children);
        KeptBySmaller(b, b, Delivered(b, i, worker, at), children, bound);
        bindings := bindings[worker := rows[i].window.value];
        tasks := tasks[child := tasks[child].(worker := Some(worker))];
        rows := rows[i := rows[i].(state := Completed, hasConversation := true, worker := Some(worker),
                                   updatedAt := at)];
        st := Some(Completed);
      case _ =>
        st := None;
    }

    /** Writes the send authority of an attempt and calls the transport. */
    method CallSend(i: nat, children: seq<string>, bound: nat) returns (reply: SendReply)
      requires Sound(View()) && i < |rows| && rows[i].state.WindowBound? && rows[i].child in children
      requires rows[i].child in tasks
      modifies this`rows, this`calls
      ensures Kept(old(View()), View(), children, bound) && StatesKept(old(rows), rows, i)
      ensures rows[i].state.PromptSubmitted?
      ensures reply.SendDelivered? ==> CanDeliver(View(), i, reply.worker, children)
      ensures |Pool(View(), children)| <= |Pool(old(View()), children)|
      ensures calls == old(calls) + [Call(rows[i].child, Send, |Pool(View(), children)|, SendAnswer(reply))]
    {
      ghost var b0 := View();
      SetState(i, PromptSubmitted, children, bound);
      SubsetSize(Pool(View(), children), Pool(b0, children));
      reply := SendAuthorized(rows[i].child, children);
    }

    /** Sends one child its prompt; `None` is an exception.  A cooldown, or a changed prompt, makes no call at all. */
    method SendPrompt(i: nat, children: seq<string>, bound: nat) returns (st: Option<SpawnState>)
      requires Sound(View()) && i < |rows| && rows[i].state.WindowBound? && rows[i].child in children
      requires rows[i].child in tasks
      modifies this
      ensures Kept(old(View()), View(), children, bound)
      ensures StatesKept(old(rows), rows, i) && (st.Some? ==> rows[i].state == st.value)
      ensures OthersKept(old(tasks), tasks, rows[i].child)
      ensures TasksOnward(old(tasks), tasks) && (st == Some(Completed) ==> tasks[rows[i].child].worker.Some?)
      ensures |checks| == |old(checks)| + 1 && old(checks) <= checks && old(calls) <= calls
      ensures PromptTurn(rows[i].child, checks[|old(checks)|..], calls[|old(calls)|..],
                         if st == Some(Completed) then Onward else Stop)
      ensures calls == old(calls) ==> View() == old(View())
      ensures calls != old(calls) ==>
        |calls| == |old(calls)| + 1 && calls[|old(calls)|].pool <= |Pool(old(View()), children)|
    {
      ghost var b0 := View();
      var cooling, promptChanged := CheckSend(rows[i].child);
      assert checks[|old(checks)|..] == [SendCheck(rows[i].child, cooling, promptChanged)];
      if cooling {
        return Some(WindowBound);
      }
      if promptChanged {
        return None;
      }
      var reply := CallSend(i, children, bound);
      ghost var b1 := View();
      st := SettleSend(i, reply, children, bound);
      KeptChains(b0, b1, View(), children, bound);
    }

    // ---- The batch ----

    /** Adds an armed row, unless the evidence outside refuses. */
    method ArmChild(child: string, children: seq<string>, bound: nat) returns (armed: Option<nat>)
      requires Sound(View()) && forall i :: 0 <= i < |rows| && rows[i].child == child ==> !Unresolved(rows[i].state)
      modifies this`rows, this`checks
      ensures Kept(old(View()), View(), children, bound)
      ensures checks == old(checks) + [ArmCheck(child, armed.None?)]
      ensures armed.None? ==> rows == old(rows)
      ensures armed.Some? ==>
        |rows| == |old(rows)| + 1 && rows[..|old(rows)|] == old(rows) && armed.value == |old(rows)|
      ensures armed.Some? ==> armed.value < |rows| && rows[armed.value].child == child && rows[armed.value].state.Armed?
      ensures Pool(View(), children) <= Pool(old(View()), children)
    {
      var refused := CheckArm(child);
      if refused {
        return None;
      }
      var idOrder, at := DrawId();
      var row := Row(child, Armed, None, false, None, at, at, idOrder, false, false);
      ArmKeeps(View(), row, children);
      SubsetSize(Pool(View().(rows := rows + [row]), children), Pool(View(), children));
      rows := rows + [row];
      return Some(|rows| - 1);
    }

    /** Gets a page for an armed attempt: a recycled one if there is one, else a new one if the pool has room. */
    method OpenOrReuse(i: nat, children: seq<string>, bound: nat) returns (st: Option<SpawnState>, waits: bool)
      requires Armable(i, children) && forall c :: c in children ==> c in tasks
      modifies this`rows, this`bindings, this`calls
      ensures Kept(old(View()), View(), children, bound) && tasks == old(tasks)
      ensures StatesKept(old(rows), rows, i) && (st.Some? && !waits ==> rows[i].state == st.value)
      ensures waits ==> calls == old(calls) && View() == old(View()) && bound <= |Pool(View(), children)|
      ensures waits ==> forall s :: Usable(View(), children, s) ==> s.child == rows[i].child
      ensures !waits ==> |calls| == |old(calls)| + 1 && old(calls) <= calls
      ensures !waits ==> OpenLeft(calls[|old(calls)|], rows[i].child, st)
      ensures !waits ==>
        match calls[|old(calls)|].kind
        case OpenNew =>
          |Pool(old(View()), children)| < bound && forall s :: Usable(old(View()), children, s) ==>
            s.child == rows[i].child
        case Reuse(from, durable) =>
          durable && exists s: Source :: s.child == from && FirstChoice(old(View()), children, s, rows[i].child)
        case _ => false
      ensures !waits && |Pool(old(View()), children)| <= bound ==> calls[|old(calls)|].pool <= bound
    {
      waits := false;
      var windows, reusable, waiting := PoolSnapshot(children);
      var source := FirstOther(reusable, rows[i].child);
      if source.Some? {
        FirstOtherIsFirstChoice(View(), children, reusable, rows[i].child);
        st := ReuseWindow(i, source.value, children, bound);
      } else if |windows| < bound {
        st := OpenNewWindow(i, children, bound);
      } else {
        return None, true;
      }
    }

    ghost predicate Within(children: seq<string>, bound: nat)
      reads this
    {
      |Pool(View(), children)| <= bound
    }

    /** Gets the page of an armed attempt; `Onward` means the window is bound. */
    method PageFor(i: nat, children: seq<string>, bound: nat) returns (next: Next)
      requires Armable(i, children) && forall c :: c in children ==> c in tasks
      modifies this`rows, this`bindings, this`calls
      ensures Kept(old(View()), View(), children, bound) && tasks == old(tasks)
      ensures StatesKept(old(rows), rows, i) && (next.Onward? ==> rows[i].state.WindowBound?)
      ensures next.PoolWait? ==> View() == old(View()) && rows[i].state.Armed? && bound <= |Pool(View(), children)|
      ensures next.PoolWait? ==> forall s :: Usable(View(), children, s) ==> s.child == rows[i].child
      ensures old(calls) <= calls && PageTurn(rows[i].child, calls[|old(calls)|..], next) && checks == old(checks)
      ensures Turn(old(calls), calls, old(Within(children, bound)), bound, !next.Stop?)
    {
      var st, waits := OpenOrReuse(i, children, bound);
      if waits {
        return PoolWait;
      }
      next := if st == Some(WindowBound) then Onward else Stop;
      OneCall(old(calls), calls, old(Within(children, bound)), bound, next.Onward?);
    }

    /** Delivers the prompt of a bound attempt; `go` means the child is dispatched. */
    method PromptFor(i: nat, children: seq<string>, bound: nat) returns (go: bool)
      requires Sound(View()) && i < |rows| && rows[i].state.WindowBound? && rows[i].child in children
      requires rows[i].child in tasks
      modifies this
      ensures Kept(old(View()), View(), children, bound) && StatesKept(old(rows), rows, i)
      ensures OthersKept(old(tasks), tasks, rows[i].child)
      ensures TasksOnward(old(tasks), tasks) && (go ==> tasks[rows[i].child].worker.Some?)
      ensures old(calls) <= calls && old(checks) <= checks
      ensures PromptTurn(
        rows[i].child, checks[|old(checks)|..], calls[|old(calls)|..], if go then Onward else Stop)
      ensures Turn(old(calls), calls, old(Within(children, bound)), bound, go)
    {
      var st := SendPrompt(i, children, bound);
      go := st == Some(Completed);
      if calls != old(calls) {
        assert calls[|old(calls)|..][0] == calls[|old(calls)|];
        OneCall(old(calls), calls, old(Within(children, bound)), bound, go);
      }
    }

    /** The child's unresolved attempt, or a newly armed one. */
    method AttemptFor(child: string, children: seq<string>, bound: nat) returns (attempt: Option<nat>)
      requires Sound(View())
      modifies this`rows, this`checks
      ensures Kept(old(View()), View(), children, bound) && Progress(old(View()), View(), child)
      ensures Within(children, bound) || !old(Within(children, bound))
      ensures attempt.Some? ==>
        && attempt.value < |rows| && rows[attempt.value].child == child && Unresolved(rows[attempt.value].state)
        && (Unambiguous(old(View()), child) ==> !Ambiguous(rows[attempt.value].state))
      ensures if exists i: nat :: IsAttempt(old(View()), child, i) then
          attempt.Some? && attempt.value < |old(rows)| && rows == old(rows) && checks == old(checks)
        else
          && checks == old(checks) + [ArmCheck(child, attempt.None?)]
          && (attempt.Some? ==> attempt.value < |rows| && rows[attempt.value].state.Armed?)
    {
      ghost var b0 := View();
      attempt := UnresolvedAttempt(child);
      if attempt.None? {
        attempt := ArmChild(child, children, bound);
      } else {
        assert IsAttempt(b0, child, attempt.value);
      }
      AppendProgress(b0, View(), child);
    }

    /** Takes one unresolved attempt as far as it goes. */
    method AdvanceAttempt(i: nat, children: seq<string>, bound: nat) returns (next: Next)
      requires Sound(View()) && i < |rows| && Unresolved(rows[i].state) && rows[i].child in children
      requires rows[i].child in tasks && tasks[rows[i].child].worker.None? && forall c :: c in children ==> c in tasks
      requires !tasks[rows[i].child].done
      modifies this
      ensures Kept(old(View()), View(), children, bound) && Progress(old(View()), View(), old(rows)[i].child)
      ensures Turn(old(calls), calls, old(Within(children, bound)), bound, !next.Stop?)
      ensures old(calls) <= calls && old(checks) <= checks
      ensures AttemptTurn(
        old(rows)[i].state, old(rows)[i].child, checks[|old(checks)|..], calls[|old(calls)|..], next)
      ensures OthersKept(old(tasks), tasks, old(rows)[i].child)
      ensures next.Onward? && !Ambiguous(old(rows)[i].state) ==> Dispatched(View(), old(rows)[i].child)
      ensures next.PoolWait? ==> PoolIsFull(View(), children, bound, old(rows)[i].child)
    {
      ghost var b0, c0, k0 := View(), calls, checks;
      if rows[i].state.Armed? {
        next := PageFor(i, children, bound);
        StepProgress(b0, View(), i);
        if !next.Onward? {
          PageEndsTurn(rows[i].child, k0, c0, calls, next);
          return;
        }
      }
      if rows[i].state.WindowBound? {
        ghost var b2, c2 := View(), calls;
        var go := PromptFor(i, children, bound);
        StepProgress(b2, View(), i);
        KeptChains(b0, b2, View(), children, bound);
        TurnChains(c0, c2, calls, old(Within(children, bound)), bound, go);
        PromptEndsTurn(b0.rows[i].state, rows[i].child, checks[|k0|..], c0, c2, calls, if go then Onward else Stop);
        return if go then Onward else Stop;
      }
      assert checks[|k0|..] == [] && calls[|c0|..] == [];
      return Onward;
    }

    /** One child's turn; the batch goes on to the next child only after `Onward`. */
    method AdvanceChild(child: string, children: seq<string>, bound: nat) returns (next: Next)
      requires Sound(View()) && child in children && forall c :: c in children ==> c in tasks
      modifies this
      ensures Kept(old(View()), View(), children, bound)
      ensures Turn(old(calls), calls, old(Within(children, bound)), bound, !next.Stop?)
      ensures Progress(old(View()), View(), child)
      ensures old(calls) <= calls && old(checks) <= checks
      ensures ChildTurn(old(View()), child, checks[|old(checks)|..], calls[|old(calls)|..], next)
      ensures OthersKept(old(tasks), tasks, child)
      ensures next.Onward? && Unambiguous(old(View()), child) ==> Dispatched(View(), child)
      ensures next.PoolWait? ==> PoolIsFull(View(), children, bound, child)
    {
      if tasks[child].done || tasks[child].worker.Some? {
        return Onward;
      }
      ghost var b0, k0, c0 := View(), checks, calls;
      var attempt := AttemptFor(child, children, bound);
      if attempt.None? {
        assert checks[|k0|..] == [ArmCheck(child, true)];
        return Stop;
      }
      ghost var b1, k1 := View(), checks;
      next := AdvanceAttempt(attempt.value, children, bound);
      KeptChains(b0, b1, View(), children, bound);
      ProgressChains(b0, b1, View(), child);
      AttemptEndsTurn(b0, b1, child, attempt.value, k0, k1, checks, calls[|c0|..], next);
    }

    /** Nothing is begun while any child has an unresolved external result. */
    method Preflight(children: seq<string>, fenced: set<string>, probeUnresolved: bool) returns (clear: bool)
      requires Sound(View())
      ensures clear <==> !MustNotStart(View(), children, fenced, probeUnresolved)
    {
      if probeUnresolved {
        return false;
      }
      var n := 0;
      while n < |children|
        invariant 0 <= n <= |children| && !probeUnresolved
        invariant forall m :: 0 <= m < n ==> children[m] !in fenced && Unambiguous(View(), children[m])
      {
        if children[n] in fenced {
          return false;
        }
        var unresolved := UnresolvedAttempt(children[n]);
        if unresolved.Some? && Ambiguous(rows[unresolved.value].state) {
          return false;
        }
        n := n + 1;
      }
      return true;
    }

    /** Closes the pages of finished children; stops at the first page not proven gone. */
    method CloseTerminalPages(children: seq<string>, bound: nat) returns (go: bool)
      requires Sound(View()) && forall c :: c in children ==> c in tasks
      modifies this`rows, this`bindings, this`calls
      ensures Kept(old(View()), View(), children, bound)
      ensures Pool(View(), children) <= Pool(old(View()), children)
      ensures Turn(old(calls), calls, old(Within(children, bound)), bound, go)
      ensures old(calls) <= calls && OnlyCloses(calls, |old(calls)|)
      ensures go <==> forall n :: |old(calls)| <= n < |calls| ==> Succeeds(calls[n])
      ensures go ==> forall s :: Usable(old(View()), children, s) && s.terminal ==>
        ClosedBy(View(), calls, |old(calls)|, s)
      ensures go ==> forall s :: Usable(View(), children, s) && s.WorkerSource? ==> !s.terminal
    {
      ghost var b0, c0, within := View(), calls, Within(children, bound);
      var windows, reusable, waiting := PoolSnapshot(children);
      var n := 0;
      while n < |reusable|
        invariant 0 <= n <= |reusable|
        invariant Swept(b0, View(), children, c0, calls, within, bound, reusable, n)
      {
        if reusable[n].terminal {
          ghost var c1, b1, within1 := calls, View(), Within(children, bound);
          SweptIsWithin(b0, b1, children, c0, c1, within, bound, reusable, n);
          go := CloseOne(reusable[n], children, bound, b0);
          if !go {
            SweepStops(b0, b1, View(), children, c0, c1, calls, within, within1, bound, reusable, n);
            return;
          }
          SweepsOn(b0, b1, View(), children, c0, c1, calls, within, within1, bound, reusable, n);
        }
        n := n + 1;
      }
      SweepEnds(b0, View(), children, c0, calls, within, bound, reusable);
      return true;
    }

    /** Closes one page; `b0` is the registry as the closing pass found it. */
    method CloseOne(source: Source, children: seq<string>, bound: nat, ghost b0: Batch) returns (gone: bool)
      requires Closing(b0, View(), children) && Usable(b0, children, source)
      modifies this`rows, this`bindings, this`calls
      ensures Closing(b0, View(), children)
      ensures Turn(old(calls), calls, old(Within(children, bound)), bound, gone)
      ensures |calls| == |old(calls)| + 1 && old(calls) <= calls && calls[|old(calls)|].child == source.child
      ensures calls[|old(calls)|].kind == CloseTerminal && calls[|old(calls)|].answer == CloseAnswer(gone)
      ensures Strikes(old(View()), View()) && (gone ==> Struck(View(), source))
    {
      UsableIsInPool(b0, children, source);
      gone := CloseAuthorized(source, children);
      if gone {
        ghost var b1 := View();
        Forget(source, children);
        ClosingGoesOn(b0, b1, View(), children, source.window);
      }
    }

    /** Strikes the claim on a page that is gone. */
    method Forget(source: Source, children: seq<string>)
      requires Sound(View())
      requires source.SpawnSource? ==>
        source.row < |rows| && rows[source.row].state.Completed? && rows[source.row].window == Some(source.window)
      modifies this`rows, this`bindings
      ensures Sound(View()) && Pool(View(), children) <= Pool(old(View()), children) + {source.window}
      ensures Exclusive(old(View()), children) && Healthy(old(View()), children) ==>
        Exclusive(View(), children) && Healthy(View(), children)
      ensures |rows| == |old(rows)| && forall j :: 0 <= j < |rows| ==>
        rows[j] == old(rows)[j].(closed := rows[j].closed)
      ensures Strikes(old(View()), View()) && Struck(View(), source)
    {
      ghost var b := View();
      if source.WorkerSource? {
        bindings := bindings - {source.worker};
      } else {
        rows := rows[source.row := rows[source.row].(closed := true)];
      }
      assert Marked(b, View(), source.window);
      ShrinkKeeps(b, View(), source.window, children);
    }

    /** One advancement of the batch, in the order the children were dispatched. */
    method AdvanceBatch(
      children: seq<string>, maxWindows: int, fenced: set<string>, probeUnresolved: bool, closeTerminal: bool)
      returns (r: Result<Report, string>)
      requires Sound(View()) && forall c :: c in children ==> c in tasks
      modifies this
      ensures r.Ok? <==> 0 < maxWindows <= 16
      ensures r.Err? ==> View() == old(View()) && calls == old(calls)
      ensures r.Ok? ==> Kept(old(View()), View(), children, maxWindows)
      ensures r.Ok? && old(|Pool(View(), children)|) <= maxWindows ==> Orderly(calls, |old(calls)|, maxWindows)
      ensures old(calls) <= calls
      ensures MustNotStart(old(View()), children, fenced, probeUnresolved) ==>
        View() == old(View()) && calls == old(calls) && checks == old(checks)
      ensures r.Ok? && r.value.Advanced? ==> forall c :: c in children ==> Dispatched(View(), c)
      ensures r.Ok? && r.value.Waiting? ==> PoolIsFull(View(), children, maxWindows, r.value.child)
      ensures r.Ok? && !r.value.Stopped? ==> r.value.poolWindows == |Pool(View(), children)|
      ensures old(checks) <= checks
      ensures r.Ok? ==>
        (r.value.Stopped? <==>
          || MustNotStart(old(View()), children, fenced, probeUnresolved)
          || Hindered(checks[|old(checks)|..], calls[|old(calls)|..]))
      ensures r.Ok? && r.value.Advanced? ==>
        forall c :: c in children ==> old(Dispatched(View(), c)) || SentTo(calls[|old(calls)|..], c)
      ensures r.Ok? && r.value.Advanced? && closeTerminal ==>
        forall s :: Usable(View(), children, s) && s.WorkerSource? ==> !s.terminal
    {
      if maxWindows <= 0 || 16 < maxWindows {
        return Err("max_windows must be between 1 and 16");
      }
      ghost var b0, c0, k0 := View(), calls, checks;
      assert calls[|c0|..] == [] && checks[|k0|..] == [];
      var clear := Preflight(children, fenced, probeUnresolved);
      if !clear {
        return Ok(Stopped);
      }
      var n := 0;
      while n < |children|
        invariant 0 <= n <= |children|
        invariant Underway(b0, View(), children, maxWindows, k0, checks, c0, calls, n)
      {
        ghost var b1, c1, k1 := View(), calls, checks;
        var next := AdvanceChild(children[n], children, maxWindows);
        TurnGoesOn(b0, b1, View(), children, maxWindows, k0, k1, checks, c0, c1, calls, n, next);
        if next.Stop? {
          return Ok(Stopped);
        }
        if next.PoolWait? {
          var windows, reusable, waiting := PoolSnapshot(children);
          return Ok(Report.Waiting(children[n], |windows|));
        }
        n := n + 1;
      }
      r := Finish(children, maxWindows, closeTerminal, b0, k0, c0);
    }

    /** Closes the finished children's pages if asked, and if every child is finished or has a worker. */
    method Finish(
      children: seq<string>, bound: nat, closeTerminal: bool, ghost b0: Batch, ghost k0: seq<Check>,
      ghost c0: seq<Call>)
      returns (r: Result<Report, string>)
      requires Sound(View()) && forall c :: c in children ==> c in tasks
      requires Underway(b0, View(), children, bound, k0, checks, c0, calls, |children|)
      modifies this`rows, this`bindings, this`calls
      ensures r.Ok? && !r.value.Waiting? && Kept(b0, View(), children, bound)
      ensures Turn(c0, calls, |Pool(b0, children)| <= bound, bound, r.value.Advanced?)
      ensures r.value.Stopped? <==> Hindered(checks[|k0|..], calls[|c0|..])
      ensures r.value.Advanced? ==> r.value.poolWindows == |Pool(View(), children)|
      ensures r.value.Advanced? ==> forall c :: c in children ==> Dispatched(View(), c)
      ensures r.value.Advanced? ==>
        forall c :: c in children ==> Dispatched(b0, c) || SentTo(calls[|c0|..], c)
      ensures r.value.Advanced? && closeTerminal ==>
        forall s :: Usable(View(), children, s) && s.WorkerSource? ==> !s.terminal
    {
      if closeTerminal && forall c :: c in children ==> tasks[c].done || tasks[c].worker.Some? {
        ghost var b2, c2 := View(), calls;
        var go := CloseTerminalPages(children, bound);
        KeptChains(b0, b2, View(), children, bound);
        TurnChains(c0, c2, calls, |Pool(b0, children)| <= bound, bound, go);
        ClosesAppend(b0, b2, children, k0, checks, c0, c2, calls, go);
        if !go {
          return Ok(Stopped);
        }
      }
      var windows, reusable, waiting := PoolSnapshot(children);
      return Ok(Advanced(|windows|));
    }
  }

  // ---- What the turns of an advancement add up to ----

  /** A probe mutation, or some child, has an external result that is not resolved. */
  ghost predicate MustNotStart(b: Batch, children: seq<string>, fenced: set<string>, probeUnresolved: bool) {
    probeUnresolved || exists c :: c in children && (c in fenced || !Unambiguous(b, c))
  }

  ghost predicate IsAttempt(b: Batch, child: string, i: nat) {
    i < |b.rows| && b.rows[i].child == child && Unresolved(b.rows[i].state)
  }

  /** One child's turn: nothing for a dispatched child, else its attempt's turn, which may have to be armed first. */
  ghost predicate ChildTurn(b: Batch, child: string, checks: seq<Check>, calls: seq<Call>, next: Next) {
    if Dispatched(b, child) then checks == [] && calls == [] && next.Onward?
    else if exists i: nat :: IsAttempt(b, child, i) then
      exists i: nat :: IsAttempt(b, child, i) && AttemptTurn(b.rows[i].state, child, checks, calls, next)
    else ArmTurn(child, checks, calls, next)
  }

  lemma AttemptEndsTurn(
    b0: Batch, b1: Batch, child: string, i: nat, k0: seq<Check>, k1: seq<Check>, k: seq<Check>, calls: seq<Call>,
    next: Next)
    requires !Dispatched(b0, child) && IsAttempt(b1, child, i) && k0 <= k1 <= k
    requires AttemptTurn(b1.rows[i].state, child, k[|k1|..], calls, next)
    requires if exists j: nat :: IsAttempt(b0, child, j) then i < |b0.rows| && b1.rows == b0.rows && k1 == k0
             else k1 == k0 + [ArmCheck(child, false)] && b1.rows[i].state.Armed?
    ensures ChildTurn(b0, child, k[|k0|..], calls, next)
  {
    if exists j: nat :: IsAttempt(b0, child, j) {
      assert IsAttempt(b0, child, i);
    } else {
      assert k[|k0|..][1..] == k[|k1|..];
    }
  }

  lemma ChildTurnHinders(b: Batch, child: string, checks: seq<Check>, calls: seq<Call>, next: Next)
    requires ChildTurn(b, child, checks, calls, next)
    ensures next.Stop? <==> Hindered(checks, calls)
    ensures next.Onward? && !Dispatched(b, child) && Unambiguous(b, child) ==> SentTo(calls, child)
  {
    if Dispatched(b, child) {
    } else if exists i: nat :: IsAttempt(b, child, i) {
      var i: nat :| IsAttempt(b, child, i) && AttemptTurn(b.rows[i].state, child, checks, calls, next);
      AttemptTurnHinders(b.rows[i].state, child, checks, calls, next);
    } else {
      ArmTurnHinders(child, checks, calls, next);
    }
  }

  /** Only the child itself has gained a worker. */
  predicate OthersKept(before: map<string, Task>, after: map<string, Task>, child: string) {
    after.Keys == before.Keys && forall c :: c in before && c != child ==> after[c] == before[c]
  }

  /** So far nothing was refused or failed, and every child dispatched since was sent its prompt. */
  ghost predicate Unhindered(
    b0: Batch, b: Batch, children: seq<string>, k0: seq<Check>, k: seq<Check>, c0: seq<Call>, c: seq<Call>)
  {
    && c0 <= c && k0 <= k && !Hindered(k[|k0|..], c[|c0|..])
    && forall x :: x in children && Dispatched(b, x) ==> Dispatched(b0, x) || SentTo(c[|c0|..], x)
  }

  lemma HinderedAppend(k1: seq<Check>, k2: seq<Check>, c1: seq<Call>, c2: seq<Call>)
    ensures Hindered(k1 + k2, c1 + c2) <==> Hindered(k1, c1) || Hindered(k2, c2)
  {
    if exists n :: 0 <= n < |k1| && Refuses(k1[n]) {
      var n :| 0 <= n < |k1| && Refuses(k1[n]);
      assert Refuses((k1 + k2)[n]);
    }
    if exists n :: 0 <= n < |k2| && Refuses(k2[n]) {
      var n :| 0 <= n < |k2| && Refuses(k2[n]);
      assert Refuses((k1 + k2)[|k1| + n]);
    }
    if exists n :: 0 <= n < |c1| && !Succeeds(c1[n]) {
      var n :| 0 <= n < |c1| && !Succeeds(c1[n]);
      assert !Succeeds((c1 + c2)[n]);
    }
    if exists n :: 0 <= n < |c2| && !Succeeds(c2[n]) {
      var n :| 0 <= n < |c2| && !Succeeds(c2[n]);
      assert !Succeeds((c1 + c2)[|c1| + n]);
    }
  }

  lemma SentToAppend(c1: seq<Call>, c2: seq<Call>, child: string)
    ensures SentTo(c1, child) || SentTo(c2, child) ==> SentTo(c1 + c2, child)
  {
    var c := c1 + c2;
    if SentTo(c1, child) {
      var n :| 0 <= n < |c1| && c1[n].child == child && c1[n].kind.Send? && Succeeds(c1[n]);
      assert c[n] == c1[n];
    } else if SentTo(c2, child) {
      var n :| 0 <= n < |c2| && c2[n].child == child && c2[n].kind.Send? && Succeeds(c2[n]);
      assert c[|c1| + n] == c2[n];
    }
  }

  lemma TurnAccumulates(
    b0: Batch, b1: Batch, b: Batch, children: seq<string>, child: string, k0: seq<Check>, k1: seq<Check>, k: seq<Check>,
    c0: seq<Call>, c1: seq<Call>, c: seq<Call>, next: Next)
    requires Unhindered(b0, b1, children, k0, k1, c0, c1) && c1 <= c && k1 <= k
    requires ChildTurn(b1, child, k[|k1|..], c[|c1|..], next) && OthersKept(b1.tasks, b.tasks, child)
    requires Dispatched(b1, child) || Unambiguous(b1, child)
    requires next.PoolWait? ==> !Dispatched(b, child)
    ensures next.Stop? <==> Hindered(k[|k0|..], c[|c0|..])
    ensures !next.Stop? ==> Unhindered(b0, b, children, k0, k, c0, c)
  {
    ChildTurnHinders(b1, child, k[|k1|..], c[|c1|..], next);
    assert k[|k0|..] == k1[|k0|..] + k[|k1|..];
    assert c[|c0|..] == c1[|c0|..] + c[|c1|..];
    HinderedAppend(k1[|k0|..], k[|k1|..], c1[|c0|..], c[|c1|..]);
    forall x | x in children && Dispatched(b, x) && !next.Stop?
      ensures Dispatched(b0, x) || SentTo(c[|c0|..], x)
    {
      SentToAppend(c1[|c0|..], c[|c1|..], x);
    }
  }

  /** The turns of the first `n` children went through; the calls so far keep the bound if the batch began within it. */
  ghost predicate Underway(
    b0: Batch, b: Batch, children: seq<string>, bound: nat, k0: seq<Check>, k: seq<Check>, c0: seq<Call>, c: seq<Call>,
    n: nat)
  {
    && Kept(b0, b, children, bound) && Turn(c0, c, |Pool(b0, children)| <= bound, bound, true)
    && SoFar(b, children, n) && Unhindered(b0, b, children, k0, k, c0, c)
  }

  lemma TurnGoesOn(
    b0: Batch, b1: Batch, b: Batch, children: seq<string>, bound: nat, k0: seq<Check>, k1: seq<Check>, k: seq<Check>,
    c0: seq<Call>, c1: seq<Call>, c: seq<Call>, n: nat, next: Next)
    requires Underway(b0, b1, children, bound, k0, k1, c0, c1, n) && n < |children|
    requires Kept(b1, b, children, bound) && Turn(c1, c, |Pool(b1, children)| <= bound, bound, !next.Stop?)
    requires c1 <= c && k1 <= k && Progress(b1, b, children[n]) && OthersKept(b1.tasks, b.tasks, children[n])
    requires ChildTurn(b1, children[n], k[|k1|..], c[|c1|..], next)
    requires next.Onward? && Unambiguous(b1, children[n]) ==> Dispatched(b, children[n])
    requires next.PoolWait? ==> !Dispatched(b, children[n])
    ensures Kept(b0, b, children, bound) && Turn(c0, c, |Pool(b0, children)| <= bound, bound, !next.Stop?)
    ensures next.Stop? <==> Hindered(k[|k0|..], c[|c0|..])
    ensures next.Onward? ==> Underway(b0, b, children, bound, k0, k, c0, c, n + 1)
  {
    KeptChains(b0, b1, b, children, bound);
    TurnChains(c0, c1, c, |Pool(b0, children)| <= bound, bound, !next.Stop?);
    TurnAccumulates(b0, b1, b, children, children[n], k0, k1, k, c0, c1, c, next);
    if next.Onward? {
      SoFarExtends(b1, b, children, n);
    }
  }

  ghost predicate OnlyCloses(calls: seq<Call>, from: nat) {
    forall n :: from <= n < |calls| ==> calls[n].kind.CloseTerminal?
  }

  /** Only closes, all of them proven. */
  ghost predicate ClosesOnly(calls: seq<Call>, from: nat) {
    OnlyCloses(calls, from) && forall n :: from <= n < |calls| ==> Succeeds(calls[n])
  }

  /** The page was closed by a call for its owner, and its claim is struck. */
  ghost predicate ClosedBy(b: Batch, calls: seq<Call>, from: nat, s: Source) {
    Struck(b, s) && exists n :: from <= n < |calls| && calls[n].child == s.child && calls[n].answer == CloseAnswer(true)
  }

  ghost predicate ClosedUpTo(b: Batch, calls: seq<Call>, from: nat, sources: seq<Source>, n: nat) {
    n <= |sources| && forall m :: 0 <= m < n && sources[m].terminal ==> ClosedBy(b, calls, from, sources[m])
  }

  lemma ClosesOneMore(b1: Batch, b: Batch, c1: seq<Call>, c: seq<Call>, from: nat, sources: seq<Source>, n: nat)
    requires from <= |c1| && n < |sources| && ClosedUpTo(b1, c1, from, sources, n) && ClosesOnly(c1, from)
    requires Strikes(b1, b) && Struck(b, sources[n]) && |c| == |c1| + 1 && c1 <= c
    requires c[|c1|].child == sources[n].child && c[|c1|].kind.CloseTerminal? && c[|c1|].answer == CloseAnswer(true)
    ensures ClosedUpTo(b, c, from, sources, n + 1) && ClosesOnly(c, from)
  {
    forall m | 0 <= m <= n && sources[m].terminal
      ensures ClosedBy(b, c, from, sources[m])
    {
      if m < n {
        ClosesAccumulate(b1, b, c1, c, from, sources[m]);
      }
    }
  }

  /** Once every finished child's page that was listed is closed, no finished worker's page is left to be taken. */
  lemma NoneLeft(b0: Batch, b: Batch, children: seq<string>, sources: seq<Source>, calls: seq<Call>, from: nat)
    requires forall s :: s in sources <==> Usable(b0, children, s)
    requires ClosedUpTo(b, calls, from, sources, |sources|)
    requires b.tasks == b0.tasks && b.bindings.Keys <= b0.bindings.Keys
    requires forall w :: w in b.bindings ==> b.bindings[w] == b0.bindings[w]
    ensures forall s :: Usable(b0, children, s) && s.terminal ==> ClosedBy(b, calls, from, s)
    ensures forall s :: Usable(b, children, s) && s.WorkerSource? ==> !s.terminal
  {
    forall s | Usable(b0, children, s) && s.terminal
      ensures ClosedBy(b, calls, from, s)
    {
      var m :| 0 <= m < |sources| && sources[m] == s;
    }
    forall s | Usable(b, children, s) && s.WorkerSource?
      ensures !s.terminal
    {
      assert Usable(b0, children, s);
    }
  }

  /** The claim on the page is struck. */
  predicate Struck(b: Batch, s: Source) {
    match s
    case WorkerSource(_, _, worker, _) => worker !in b.bindings
    case SpawnSource(_, _, row, _) => row < |b.rows| && b.rows[row].closed
  }

  /** Claims are only struck, never restored. */
  predicate Strikes(b: Batch, b': Batch) {
    && b'.bindings.Keys <= b.bindings.Keys && (forall w :: w in b'.bindings ==> b'.bindings[w] == b.bindings[w])
    && |b'.rows| == |b.rows|
    && forall j :: 0 <= j < |b.rows| && b.rows[j].closed ==> b'.rows[j].closed
  }

  lemma ClosesAccumulate(b1: Batch, b: Batch, c1: seq<Call>, c: seq<Call>, from: nat, s: Source)
    requires ClosedBy(b1, c1, from, s) && Strikes(b1, b) && c1 <= c
    ensures ClosedBy(b, c, from, s)
  {
    var n :| from <= n < |c1| && c1[n].child == s.child && c1[n].answer == CloseAnswer(true);
    assert c[n] == c1[n];
  }

  lemma ClosesAppend(
    b0: Batch, b: Batch, children: seq<string>, k0: seq<Check>, k: seq<Check>,
    c0: seq<Call>, c2: seq<Call>, c: seq<Call>, go: bool)
    requires Unhindered(b0, b, children, k0, k, c0, c2) && c2 <= c
    requires go <==> forall n :: |c2| <= n < |c| ==> Succeeds(c[n])
    ensures !go <==> Hindered(k[|k0|..], c[|c0|..])
    ensures forall x :: x in children && Dispatched(b, x) ==> Dispatched(b0, x) || SentTo(c[|c0|..], x)
  {
    assert c[|c0|..] == c2[|c0|..] + c[|c2|..];
    assert k[|k0|..] == k[|k0|..] + [];
    HinderedAppend(k[|k0|..], [], c2[|c0|..], c[|c2|..]);
    assert forall n :: |c2| <= n < |c| ==> c[n] == c[|c2|..][n - |c2|];
    if !go {
      var n :| |c2| <= n < |c| && !Succeeds(c[n]);
      assert !Succeeds(c[|c2|..][n - |c2|]);
    }
    forall x | x in children && Dispatched(b, x)
      ensures Dispatched(b0, x) || SentTo(c[|c0|..], x)
    {
      SentToAppend(c2[|c0|..], c[|c2|..], x);
    }
  }

  /** Closing only takes pages away. */
  ghost predicate Closing(b0: Batch, b: Batch, children: seq<string>) {
    && Sound(b) && b.tasks == b0.tasks && Pool(b, children) <= Pool(b0, children)
    && (Exclusive(b0, children) && Healthy(b0, children) ==> Exclusive(b, children) && Healthy(b, children))
    && b.bindings.Keys <= b0.bindings.Keys && (forall w :: w in b.bindings ==> b.bindings[w] == b0.bindings[w])
    && |b.rows| == |b0.rows| && forall j :: 0 <= j < |b.rows| ==> b.rows[j] == b0.rows[j].(closed := b.rows[j].closed)
  }

  lemma ClosingGoesOn(b0: Batch, b1: Batch, b: Batch, children: seq<string>, k: WindowId)
    requires Closing(b0, b1, children) && Sound(b) && b.tasks == b1.tasks && Strikes(b1, b) && k in Pool(b0, children)
    requires Pool(b, children) <= Pool(b1, children) + {k}
    requires Exclusive(b1, children) && Healthy(b1, children) ==> Exclusive(b, children) && Healthy(b, children)
    requires forall j :: 0 <= j < |b.rows| ==> b.rows[j] == b1.rows[j].(closed := b.rows[j].closed)
    ensures Closing(b0, b, children)
  {
  }

  /** The closing pass has come as far as the first `n` listed pages, and every close so far was proven. */
  ghost predicate Swept(
    b0: Batch, b: Batch, children: seq<string>, c0: seq<Call>, c: seq<Call>, within: bool, bound: nat,
    sources: seq<Source>, n: nat)
  {
    && (forall s :: s in sources <==> Usable(b0, children, s)) && (within <==> |Pool(b0, children)| <= bound)
    && Closing(b0, b, children) && Turn(c0, c, within, bound, true)
    && ClosesOnly(c, |c0|) && ClosedUpTo(b, c, |c0|, sources, n)
  }

  lemma SweptIsWithin(
    b0: Batch, b: Batch, children: seq<string>, c0: seq<Call>, c: seq<Call>, within: bool, bound: nat,
    sources: seq<Source>, n: nat)
    requires Swept(b0, b, children, c0, c, within, bound, sources, n)
    ensures within ==> |Pool(b, children)| <= bound
  {
    SubsetSize(Pool(b, children), Pool(b0, children));
  }

  lemma SweepsOn(
    b0: Batch, b1: Batch, b: Batch, children: seq<string>, c0: seq<Call>, c1: seq<Call>, c: seq<Call>,
    within: bool, within1: bool, bound: nat, sources: seq<Source>, n: nat)
    requires Swept(b0, b1, children, c0, c1, within, bound, sources, n) && n < |sources| && (within ==> within1)
    requires Closing(b0, b, children) && Turn(c1, c, within1, bound, true)
    requires Strikes(b1, b) && Struck(b, sources[n]) && |c| == |c1| + 1 && c1 <= c
    requires c[|c1|].child == sources[n].child && c[|c1|].kind.CloseTerminal? && c[|c1|].answer == CloseAnswer(true)
    ensures Swept(b0, b, children, c0, c, within, bound, sources, n + 1)
  {
    TurnChains(c0, c1, c, within, bound, true);
    ClosesOneMore(b1, b, c1, c, |c0|, sources, n);
  }

  lemma SweepStops(
    b0: Batch, b1: Batch, b: Batch, children: seq<string>, c0: seq<Call>, c1: seq<Call>, c: seq<Call>,
    within: bool, within1: bool, bound: nat, sources: seq<Source>, n: nat)
    requires Swept(b0, b1, children, c0, c1, within, bound, sources, n) && (within ==> within1)
    requires Closing(b0, b, children) && Turn(c1, c, within1, bound, false) && |c| == |c1| + 1 && Sound(b0)
    requires c[|c1|].kind.CloseTerminal? && c[|c1|].answer == CloseAnswer(false)
    ensures Turn(c0, c, within, bound, false) && OnlyCloses(c, |c0|) && Kept(b0, b, children, bound)
    ensures exists k :: |c0| <= k < |c| && !Succeeds(c[k])
  {
    TurnChains(c0, c1, c, within, bound, false);
    ClosingIsKept(b0, b, children, bound);
    assert !Succeeds(c[|c1|]);
  }

  lemma ClosingIsKept(b0: Batch, b: Batch, children: seq<string>, bound: nat)
    requires Closing(b0, b, children) && Sound(b0)
    ensures Kept(b0, b, children, bound)
  {
    KeptBySmaller(b0, b0, b, children, bound);
  }

  lemma SweepEnds(
    b0: Batch, b: Batch, children: seq<string>, c0: seq<Call>, c: seq<Call>, within: bool, bound: nat,
    sources: seq<Source>)
    requires Swept(b0, b, children, c0, c, within, bound, sources, |sources|) && Sound(b0)
    ensures Kept(b0, b, children, bound)
    ensures forall s :: Usable(b0, children, s) && s.terminal ==> ClosedBy(b, c, |c0|, s)
    ensures forall s :: Usable(b, children, s) && s.WorkerSource? ==> !s.terminal
  {
    ClosingIsKept(b0, b, children, bound);
    NoneLeft(b0, b, children, sources, c, |c0|);
  }

  /** A child that needs no page any more, or has a worker. */
  predicate Dispatched(b: Batch, child: string) {
    child in b.tasks && (b.tasks[child].done || b.tasks[child].worker.Some?)
  }

  /** A child's turn undispatches nobody and makes no other child ambiguous. */
  ghost predicate Progress(b0: Batch, b: Batch, child: string) {
    && (forall c :: Dispatched(b0, c) ==> Dispatched(b, c))
    && (forall c :: c != child && Unambiguous(b0, c) ==> Unambiguous(b, c))
  }

  lemma StepProgress(b0: Batch, b: Batch, i: nat)
    requires StatesKept(b0.rows, b.rows, i) && TasksOnward(b0.tasks, b.tasks)
    ensures Progress(b0, b, b0.rows[i].child)
  {
  }

  lemma AppendProgress(b0: Batch, b: Batch, child: string)
    requires b.tasks == b0.tasks
    requires b.rows == b0.rows
      || (|b.rows| == |b0.rows| + 1 && b.rows[..|b0.rows|] == b0.rows && b.rows[|b0.rows|].child == child)
    ensures Progress(b0, b, child)
  {
    assert forall j :: 0 <= j < |b0.rows| ==> b.rows[j] == b0.rows[j];
  }

  lemma ProgressChains(b0: Batch, b1: Batch, b: Batch, child: string)
    requires Progress(b0, b1, child) && Progress(b1, b, child)
    ensures Progress(b0, b, child)
  {
  }

  /** The first `n` children are dispatched, and no undispatched child has an ambiguous attempt. */
  ghost predicate SoFar(b: Batch, children: seq<string>, n: nat) {
    && n <= |children|
    && (forall m :: 0 <= m < n ==> Dispatched(b, children[m]))
    && (forall c :: c in children ==> Dispatched(b, c) || Unambiguous(b, c))
  }

  lemma SoFarExtends(b0: Batch, b: Batch, children: seq<string>, n: nat)
    requires n < |children| && SoFar(b0, children, n) && Progress(b0, b, children[n])
    requires Unambiguous(b0, children[n]) ==> Dispatched(b, children[n])
    ensures SoFar(b, children, n + 1)
  {
    assert Dispatched(b, children[n]);
  }

  /** A waiting report is not a stopped one, though it ends the advancement just as well. */
  datatype Report = Stopped | Waiting(child: string, poolWindows: nat) | Advanced(poolWindows: nat)

  /** The child's attempt is armed, the pool has no room for it, and no other child's page may be taken. */
  ghost predicate PoolIsFull(b: Batch, children: seq<string>, bound: nat, child: string) {
    && child in children && !Dispatched(b, child) && bound <= |Pool(b, children)|
    && (exists i :: 0 <= i < |b.rows| && b.rows[i].child == child && b.rows[i].state.Armed?)
    && forall s :: Usable(b, children, s) ==> s.child == child
  }

  ghost predicate Unambiguous(b: Batch, child: string) {
    forall i :: 0 <= i < |b.rows| && b.rows[i].child == child ==> !Ambiguous(b.rows[i].state)
  }

  lemma UsableIsInPool(b: Batch, children: seq<string>, source: Source)
    requires Usable(b, children, source)
    ensures source.window in Pool(b, children)
  {
    PoolMember(b, children, source.window);
    if source.WorkerSource? {
      assert Direct(b, source.child, source.window);
    }
  }

  /**
   What a turn may add to the calls: within the bound if the pool was within it before, only durable
   reuse, and nothing at all after an ambiguous result; a turn that lets the batch go on is not ambiguous.
   */
  ghost predicate Turn(before: seq<Call>, after: seq<Call>, within: bool, bound: nat, go: bool) {
    && before <= after
    && (within ==> Orderly(after, |before|, bound))
    && (go ==> Settled(after, |before|))
  }

  lemma OneCall(before: seq<Call>, after: seq<Call>, within: bool, bound: nat, go: bool)
    requires |after| == |before| + 1 && before <= after
    requires after[|before|].kind.Reuse? ==> after[|before|].kind.durable
    requires within ==> after[|before|].pool <= bound
    requires go ==> !Unclear(after[|before|])
    ensures Turn(before, after, within, bound, go)
  {
  }

  lemma TurnChains(c0: seq<Call>, c1: seq<Call>, c2: seq<Call>, within: bool, bound: nat, go: bool)
    requires Turn(c0, c1, within, bound, true) && Turn(c1, c2, within, bound, go)
    ensures Turn(c0, c2, within, bound, go)
  {
    forall n | |c0| <= n < |c2| && within
      ensures c2[n].pool <= bound && (c2[n].kind.Reuse? ==> c2[n].kind.durable) && (Unclear(c2[n]) ==> n == |c2| - 1)
    {
      if n < |c1| {
        assert c2[n] == c1[n];
      }
    }
    forall n | |c0| <= n < |c2| && go
      ensures !Unclear(c2[n])
    {
      if n < |c1| {
        assert c2[n] == c1[n];
      }
    }
  }

  lemma KeptChains(b0: Batch, b: Batch, b': Batch, children: seq<string>, bound: nat)
    requires Kept(b0, b, children, bound) && Kept(b, b', children, bound)
    ensures Kept(b0, b', children, bound)
  {
  }

  lemma OwnedIsKnown(b: Batch)
    ensures forall c, k :: Direct(b, c, k) ==> k in Keys(b)
  {
    forall c, k | Direct(b, c, k)
      ensures k in Keys(b)
    {
      PoolMember(b, [c], k);
    }
  }

  /** Writing OPEN_SUBMITTED on another child's row leaves a source as it was. */
  lemma StillUsable(b: Batch, i: nat, children: seq<string>, source: Source)
    requires i < |b.rows| && b.rows[i].state.Armed? && Usable(b, children, source)
    ensures Exclusive(b, children) ==> Exclusive(SetRow(b, i, WindowOpenSubmitted), children)
    ensures Usable(SetRow(b, i, WindowOpenSubmitted), children, source)
    ensures DoublyOwned(SetRow(b, i, WindowOpenSubmitted), source) <==> DoublyOwned(b, source)
  {
    StateOwners(b, i, WindowOpenSubmitted);
    assert forall d, l :: Direct(SetRow(b, i, WindowOpenSubmitted), d, l) ==> Direct(b, d, l);
    if DoublyOwned(b, source) {
      var j :| 0 <= j < |b.rows| && Holds(b.rows[j], source.child, source.window);
      assert Holds(SetRow(b, i, WindowOpenSubmitted).rows[j], source.child, source.window);
    }
  }

  /** The page goes to the attempt and its former owner's claim is struck. */
  function TakenOver(b: Batch, i: nat, source: Source): Batch
    requires i < |b.rows|
    requires if source.WorkerSource? then source.worker in b.bindings
             else source.row < |b.rows| && b.rows[source.row].window.Some?
  {
    match source
    case WorkerSource(child, _, worker, _) => TakenFromWorker(b, i, child, worker)
    case SpawnSource(_, _, row, _) => TakenFromSpawn(b, i, row)
  }

  lemma TakenOverIsKept(b: Batch, i: nat, source: Source, children: seq<string>)
    requires Sound(b) && i < |b.rows| && b.rows[i].state.WindowOpenSubmitted? && b.rows[i].child in children
    requires b.rows[i].child in b.tasks && b.tasks[b.rows[i].child].worker.None?
    requires Usable(b, children, source) && source.child != b.rows[i].child
    ensures var b' := TakenOver(b, i, source);
      && Sound(b') && StatesKept(b.rows, b'.rows, i) && b'.rows[i].state.WindowBound? && b'.tasks == b.tasks
      && Pool(b', children) <= Pool(b, children)
      && (Exclusive(b, children) && Healthy(b, children) ==> Exclusive(b', children) && Healthy(b', children))
      && (Exclusive(b, children) ==> (Exclusive(b', children) <==> !DoublyOwned(b, source)))
  {
    match source
    case WorkerSource(child, _, worker, window) =>
      TakeFromWorkerIsKept(b, i, child, worker, children);
      if Exclusive(b, children) {
        TakeFromWorkerExclusiveIff(b, i, child, worker, children);
      }
    case SpawnSource(_, _, row, window) =>
      TakeFromSpawnKeeps(b, i, row, window, children);
  }

  lemma TakeFromWorkerIsKept(b: Batch, i: nat, source: string, worker: string, children: seq<string>)
    requires Sound(b) && i < |b.rows| && b.rows[i].state.WindowOpenSubmitted? && worker in b.bindings
    requires b.rows[i].child in children && source in children && source != b.rows[i].child
    requires Durable(b, source) && b.tasks[source].worker == Some(worker)
    requires b.rows[i].child in b.tasks && b.tasks[b.rows[i].child].worker.None?
    ensures Sound(TakenFromWorker(b, i, source, worker))
    ensures Pool(TakenFromWorker(b, i, source, worker), children) <= Pool(b, children)
    ensures Exclusive(b, children) && Healthy(b, children) ==>
      Exclusive(TakenFromWorker(b, i, source, worker), children)
        && Healthy(TakenFromWorker(b, i, source, worker), children)
  {
    TakeFromWorkerKeepsPool(b, i, source, worker, children);
    if Exclusive(b, children) && Healthy(b, children) {
      assert BoundBy(b, source, b.bindings[worker]);
      TakeFromWorkerExclusiveIff(b, i, source, worker, children);
      TakeFromWorkerKeepsHealthy(b, i, source, worker, children);
    }
  }
}
