/**
 The operator's commands on child-spawn attempts, statement for statement.

 Before every read of the tables and every browser call the operator yields: dispatch rows may change
 there, workers may be adopted there, and the process may die there.  An exception ends the command and
 leaves the tables as they are.  Every command keeps the registry `Valid`: its writes and calls are, in
 order, steps of the protocol.
 */
module SpawnExecutor {
  import opened Prelude
  import opened SpawnProtocol
  import opened SpawnSafety

  // ---- The answers of the browser ----

  datatype Delivery = Delivery(url: Option<PageUrl>, delivered: bool, draftUntouched: bool, sendReady: bool)

  datatype Observed = Observed(window: Option<WindowId>, url: Option<PageUrl>)

  datatype Answer =
    | Killed
    | OfOpen(found: OpenResult)
    | OfSend(result: SendResult)
    | OfConversation(reached: Reply<Option<PageUrl>>)
    | OfDelivery(delivery: Reply<Delivery>)
    | OfSecond(second: Reply<bool>)
    | OfProject(project: Reply<Observed>)
    | OfBoundUrl(bound: Reply<Option<PageUrl>>)

  /** The process was killed, or the call raised. */
  predicate Fatal(a: Answer) {
    match a
    case Killed => true
    case OfOpen(found) => found.OpenRaised?
    case OfSend(result) => result.SendRaised?
    case OfConversation(reached) => reached.Raised?
    case OfDelivery(delivery) => delivery.Raised?
    case OfSecond(second) => second.Raised?
    case OfProject(project) => project.Raised?
    case OfBoundUrl(bound) => bound.Raised?
  }

  ghost predicate Ends(before: seq<Answer>, after: seq<Answer>) { before < after && Fatal(after[|after| - 1]) }

  ghost predicate EndsKilled(before: seq<Answer>, after: seq<Answer>) {
    before < after && after[|after| - 1].Killed?
  }

  // ---- What each answer must lead to ----

  /** The window is a real one, and shows the attempt's own tagged project root. */
  predicate Bindable(a: Attempt, window: WindowId, url: PageUrl) {
    0 < window.handle && 0 < window.pid && url == ProjectRoot(a.projectId, a.token)
  }

  /** The page shows a conversation of the attempt's project. */
  predicate Shows(url: Option<PageUrl>, a: Attempt, conversation: string) {
    url == Some(ConversationPage(a.projectId, conversation))
  }

  /** A prompt is proven delivered only in a conversation of the project. */
  predicate DeliveredTo(d: Delivery, a: Attempt, row: Attempt) {
    d.delivered && row.conversation.Some? && Shows(d.url, a, row.conversation.value)
      && row == a.(state := Completed, conversation := row.conversation, secondSendUsed := row.secondSendUsed)
  }

  predicate NotDelivered(d: Delivery, a: Attempt) {
    !(d.delivered && d.url.Some? && d.url.value.ConversationPage? && d.url.value.projectId == a.projectId)
  }

  /** The untouched draft may be sent once more: in a conversation of the project, ready, and proven undelivered. */
  predicate DraftWaits(d: Delivery, a: Attempt) {
    && d.url.Some? && d.url.value.ConversationPage? && d.url.value.projectId == a.projectId
    && d.draftUntouched && d.sendReady && !d.delivered
  }

  predicate LeftOpen(a: Attempt, row: Attempt) {
    row == a.(state := ReconcileRequired, secondSendUsed := row.secondSendUsed)
  }

  /** What the second send of a draft leads to. */
  predicate SecondTried(a: Attempt, n: nat, after: seq<Answer>, row: Attempt) {
    && n < |after| && after[n].OfSecond? && after[n].second.Returned?
    && if after[n].second.value then
         && |after| == n + 2 && after[n + 1].OfDelivery? && after[n + 1].delivery.Returned?
         && (DeliveredTo(after[n + 1].delivery.value, a, row)
             || (NotDelivered(after[n + 1].delivery.value, a) && LeftOpen(a, row)))
       else |after| == n + 1 && LeftOpen(a, row)
  }

  /**
   What follows a submitted first send: the attempt completes only in a conversation of its project, and,
   where delivery can be observed, only when it was.  The draft is sent again only where it still waits.
   */
  predicate Confirms(a: Attempt, hasDeliveryGate: bool, before: seq<Answer>, after: seq<Answer>, row: Attempt) {
    && before < after && var n := |before|;
    && after[n].OfConversation? && after[n].reached.Returned?
    && var url := after[n].reached.value;
    if url.None? || !url.value.ConversationPage? || url.value.projectId != a.projectId then
      |after| == n + 1 && LeftOpen(a, row)
    else if !hasDeliveryGate then
      |after| == n + 1 && row == a.(state := Completed, conversation := Some(url.value.text))
    else
      && n + 1 < |after| && after[n + 1].OfDelivery? && after[n + 1].delivery.Returned?
      && var d := after[n + 1].delivery.value;
      if DraftWaits(d, a) then SecondTried(a, n + 2, after, row)
      else
        && |after| == n + 2
        && (DeliveredTo(d, a, row) || (NotDelivered(d, a) && LeftOpen(a, row)))
  }

  /** What the answer of a first send leads to; the rate limit is looked at first. */
  predicate SendSettles(
    a: Attempt, result: SendResult, hasDeliveryGate: bool, before: seq<Answer>, after: seq<Answer>, row: Attempt)
  {
    && result.SendReturned?
    && if result.rateLimited || (!result.submitted && !result.sideEffectPossible) then after == before && row == a
       else if !result.submitted then after == before && row == a.(state := ReconcileRequired)
       else Confirms(a, hasDeliveryGate, before, after, row)
  }

  /** Seconds until the next first send of any child: what was asked for, but between 5 and 900. */
  predicate CoolsFor(requested: int, length: int) {
    length == if requested < 5 then 5 else if 900 < requested then 900 else requested
  }

  /** The row that the answer of an open call demands, if its identity is acceptable. */
  function AfterOpen(a: Attempt, found: OpenResult): Attempt
    requires found.OpenReturned?
  {
    if found.window.Some? && found.url.Some? then a.(state := WindowBound, window := found.window)
    else if found.sideEffectPossible then a.(state := ReconcileRequired)
    else a.(state := Failed)
  }

  /** The open returned an identity that is not the attempt's own. */
  predicate Unbindable(a: Attempt, found: OpenResult) {
    found.OpenReturned? && found.window.Some? && found.url.Some? && !Bindable(a, found.window.value, found.url.value)
  }

  predicate Unopened(a: Attempt) { a.state.WindowOpenSubmitted? || (a.state.ReconcileRequired? && a.window.None?) }

  /** The row that one look at the browser demands. */
  predicate AfterReconcile(a: Attempt, seen: Observed, row: Attempt) {
    if a.state.Completed? then row == a
    else if a.state.WindowOpenSubmitted? || (a.state.ReconcileRequired? && a.window.None?) then
      if seen.window.Some? && seen.url.Some? then
        row == a.(state := WindowBound, window := seen.window) && Bindable(a, seen.window.value, seen.url.value)
      else row == a.(state := ReconcileRequired)
    else if a.window.Some? && seen.url.Some? && seen.url.value.ConversationPage?
      && seen.url.value.projectId == a.projectId
    then row == a.(state := Completed, conversation := Some(seen.url.value.text))
    else if a.window.Some? && seen.url == Some(ProjectRoot(a.projectId, a.token)) then row == a
    else row == a.(state := ReconcileRequired)
  }

  predicate OnlyRow(before: seq<Attempt>, after: seq<Attempt>, id: nat) {
    |after| == |before| && forall i :: 0 <= i < |after| && i != id ==> after[i] == before[i]
  }

  /** One prompt command makes at most one first send and at most one second send, in that order. */
  ghost predicate OnePromptPass(before: seq<Event>, after: seq<Event>, id: nat, at: int) {
    || after == before
    || exists result: SendResult, tail: seq<Event> ::
         && after == before + [SendCalled(id, at, result)] + tail
         && (tail == [] || (|tail| == 1 && (tail[0].CooldownSet? || tail == [SecondSendCalled(id)])))
         && (tail != [] && tail[0].CooldownSet? ==> Clean(result))
         && (tail == [SecondSendCalled(id)] ==> !Clean(result))
  }

  class SpawnRegistry {
    var attempts: seq<Attempt>
    var dispatches: map<string, Dispatch>
    var adopted: set<string>
    var cooldown: Option<int>

    /** The run so far, and the protocol state it leads to. */
    ghost var history: seq<Action>
    ghost var sys: Sys
    ghost var heard: seq<Answer>

    ghost predicate Valid()
      reads this
    {
      && Leads(history, sys)
      && sys.attempts == attempts && sys.dispatches == dispatches && sys.adopted == adopted && sys.cooldown == cooldown
    }

    ghost predicate Resting()
      reads this
    {
      Valid() && sys.hand.Idle?
    }

    constructor ()
      ensures Resting() && history == [] && heard == []
    {
      attempts, dispatches, adopted, cooldown := [], map[], {}, None;
      history, sys, heard := [], Init(), [];
    }

    // ---- What lies outside: any answer is possible ----

    method OpenAuthorized(attempt: Attempt) returns (r: OpenResult)
      modifies this`heard
      ensures heard == old(heard) + [OfOpen(r)]
    {
      r := *;
      heard := heard + [OfOpen(r)];
    }

    method SendAuthorized(attempt: Attempt) returns (r: SendResult)
      modifies this`heard
      ensures heard == old(heard) + [OfSend(r)]
    {
      r := *;
      heard := heard + [OfSend(r)];
    }

    method WaitForConversation(attempt: Attempt) returns (r: Reply<Option<PageUrl>>)
      modifies this`heard
      ensures heard == old(heard) + [OfConversation(r)]
    {
      r := *;
      heard := heard + [OfConversation(r)];
    }

    method WaitForDelivery(attempt: Attempt) returns (r: Reply<Delivery>)
      modifies this`heard
      ensures heard == old(heard) + [OfDelivery(r)]
    {
      r := *;
      heard := heard + [OfDelivery(r)];
    }

    method InvokeExistingDraft(attempt: Attempt) returns (r: Reply<bool>)
      modifies this`heard
      ensures heard == old(heard) + [OfSecond(r)]
    {
      r := *;
      heard := heard + [OfSecond(r)];
    }

    method ObserveOwnedProject(attempt: Attempt) returns (r: Reply<Observed>)
      modifies this`heard
      ensures heard == old(heard) + [OfProject(r)]
    {
      r := *;
      heard := heard + [OfProject(r)];
    }

    method ObserveBoundUrl(attempt: Attempt) returns (r: Reply<Option<PageUrl>>)
      modifies this`heard
      ensures heard == old(heard) + [OfBoundUrl(r)]
    {
      r := *;
      heard := heard + [OfBoundUrl(r)];
    }

    lemma WindowMatchesState(id: nat)
      requires Valid() && id < |attempts|
      ensures attempts[id].state.Armed? || attempts[id].state.WindowOpenSubmitted? || attempts[id].state.Failed? ==>
        attempts[id].window.None?
      ensures attempts[id].state.WindowBound? || attempts[id].state.PromptSubmitted? ==> attempts[id].window.Some?
    {
      Unroll(history, sys);
      RunKeepsInv(history);
    }

    lemma WaitingRow(id: nat)
      requires Valid() && sys.hand == Waiting(id)
      ensures id < |attempts| && attempts[id].state.PromptSubmitted? && !attempts[id].secondSendUsed
    {
      Unroll(history, sys);
      RunKeepsInv(history);
    }

    ghost method Record(a: Action)
      requires Leads(history, sys) && Enabled(sys, a)
      modifies this`history, this`sys
      ensures Leads(history, sys) && sys == Apply(old(sys), a) && history == old(history) + [a]
    {
      LeadsFurther(history, sys, a);
      history, sys := history + [a], Apply(sys, a);
    }

    /** A step that writes at most one attempt row. */
    method WriteAttempt(id: nat, row: Attempt, ghost a: Action)
      requires Valid() && id < |attempts| && Enabled(sys, a)
      requires
        var s := Apply(sys, a);
        s.attempts == attempts[id := row] && s.dispatches == dispatches && s.adopted == adopted
          && s.cooldown == cooldown
      modifies this`attempts, this`history, this`sys
      ensures Valid() && sys == Apply(old(sys), a) && history == old(history) + [a]
      ensures attempts == old(attempts)[id := row]
    {
      Record(a);
      attempts := attempts[id := row];
    }

    ghost method Note(a: Action)
      requires Valid() && Enabled(sys, a)
      requires
        var s := Apply(sys, a);
        s.attempts == attempts && s.dispatches == dispatches && s.adopted == adopted && s.cooldown == cooldown
      modifies this`history, this`sys
      ensures Valid() && sys == Apply(old(sys), a) && history == old(history) + [a]
    {
      Record(a);
    }

    /** Others change dispatch rows and adopt workers; then the process may die. */
    method Yield() returns (r: Outcome<()>)
      requires Valid()
      modifies this
      ensures Valid() && old(history) <= history
      ensures attempts == old(attempts) && cooldown == old(cooldown) && sys.log == old(sys.log)
      ensures old(adopted) <= adopted
      ensures sys.hand == if r.Dead? then Idle else old(sys.hand)
      ensures heard == if r.Dead? then old(heard) + [Killed] else old(heard)
    {
      var n: nat := *;
      while 0 < n
        invariant Valid() && old(history) <= history
        invariant attempts == old(attempts) && cooldown == old(cooldown) && sys.log == old(sys.log)
        invariant old(adopted) <= adopted
        invariant sys.hand == old(sys.hand) && heard == old(heard)
      {
        var child: string := *;
        var row: Dispatch := *;
        if * {
          Record(Redispatch(child, row));
          dispatches := dispatches[child := row];
        } else {
          Record(AdoptElsewhere(child));
          adopted := adopted + {child};
        }
        n := n - 1;
      }
      if * {
        Raise();
        heard := heard + [Killed];
        return Dead;
      }
      return Alive(());
    }

    /** An exception, or the death of the process: what it held is lost. */
    ghost method Raise()
      requires Valid()
      modifies this`history, this`sys
      ensures Resting() && history == old(history) + [Crash] && sys.log == old(sys.log)
    {
      Note(Crash);
    }

    method UnresolvedExists(child: string) returns (found: bool)
      requires Valid()
      ensures found <==> HasUnresolved(sys, child)
    {
      var i := 0;
      while i < |attempts|
        invariant 0 <= i <= |attempts|
        invariant forall k :: 0 <= k < i ==> !(attempts[k].child == child && Unresolved(attempts[k].state))
      {
        if attempts[i].child == child && Unresolved(attempts[i].state) {
          return true;
        }
        i := i + 1;
      }
      return false;
    }

    /** What keeps a child from being armed. */
    ghost predicate Unarmable(child: string, blocked: bool)
      reads this
    {
      || blocked || child in adopted || child !in dispatches || dispatches[child].projectId.None?
      || exists i :: 0 <= i < |attempts| && attempts[i].child == child
           && !attempts[i].state.Completed? && !attempts[i].state.Failed?
    }

    /** `blocked` stands for the blockers that are read from outside: workspace, Chrome, other mutations. */
    method ArmChildSpawn(child: string, token: string, blocked: bool) returns (r: Outcome<nat>)
      requires Resting()
      modifies this
      ensures Resting() && old(history) <= history && sys.log == old(sys.log)
      ensures r.Dead? ==> attempts == old(attempts)
      ensures r.Dead? && heard != old(heard) + [Killed] ==> heard == old(heard) && Unarmable(child, blocked)
      ensures r.Alive? ==>
        && !blocked && child !in adopted && child in dispatches && dispatches[child].projectId.Some?
        && heard == old(heard)
        && forall i :: 0 <= i < |old(attempts)| && old(attempts)[i].child == child ==>
             old(attempts)[i].state.Completed? || old(attempts)[i].state.Failed?
      ensures r.Alive? ==>
        && r.value == |old(attempts)|
        && attempts == old(attempts)
             + [Attempt(child, Armed, token, dispatches[child].projectId.value, dispatches[child].promptHash, None,
                        None, false)]
    {
      var _ :- Yield();
      if child !in dispatches {
        Raise();
        return Dead;
      }
      var dispatch := dispatches[child];
      var unresolved := UnresolvedExists(child);
      if blocked || dispatch.projectId.None? || child in adopted || unresolved {
        Raise();
        return Dead;
      }
      var row := Attempt(child, Armed, token, dispatch.projectId.value, dispatch.promptHash, None, None, false);
      Record(Arm(row));
      attempts := attempts + [row];
      return Alive(|attempts| - 1);
    }

    method SubmitSpawnOpen(id: nat) returns (r: Outcome<()>)
      requires Resting() && id < |attempts|
      modifies this
      ensures Valid() && old(history) <= history && OnlyRow(old(attempts), attempts, id) && sys.log == old(sys.log)
      ensures r.Dead? ==> sys.hand.Idle? && attempts == old(attempts)
      ensures r.Dead? && heard != old(heard) + [Killed] ==> heard == old(heard) && !old(attempts)[id].state.Armed?
      ensures r.Alive? ==>
        && sys.hand == Opening(id) && old(attempts)[id].state.Armed? && heard == old(heard)
        && attempts[id] == old(attempts)[id].(state := WindowOpenSubmitted)
    {
      var _ :- Yield();
      if !attempts[id].state.Armed? {
        Raise();
        return Dead;
      }
      WriteAttempt(id, attempts[id].(state := WindowOpenSubmitted), SubmitOpen(id));
      return Alive(());
    }

    /** Binds the window an open returned, or the one a reconciliation found for an attempt that has none. */
    method BindWindow(id: nat, window: WindowId, url: PageUrl) returns (r: Outcome<Attempt>)
      requires Valid() && id < |attempts|
      requires (attempts[id].state.WindowOpenSubmitted? || attempts[id].state.ReconcileRequired?)
      requires attempts[id].window.None?
      requires sys.hand.Idle?
        || exists sideEffect :: sys.hand == Opened(id, OpenReturned(Some(window), Some(url), sideEffect))
      modifies this`attempts, this`history, this`sys
      ensures Resting() && old(history) <= history && OnlyRow(old(attempts), attempts, id) && sys.log == old(sys.log)
      ensures r.Dead? ==> attempts == old(attempts)
      ensures r.Alive? <==> Bindable(old(attempts)[id], window, url)
      ensures r.Alive? ==>
        attempts[id] == r.value && r.value == old(attempts)[id].(state := WindowBound, window := Some(window))
    {
      if window.handle <= 0 || window.pid <= 0 || !OwnedRoot(url, attempts[id]) {
        Raise();
        return Dead;
      }
      WriteAttempt(id, attempts[id].(state := WindowBound, window := Some(window)), Bind(id, window, url));
      return Alive(attempts[id]);
    }

    /** Opens, or reuses, one window for an armed attempt. */
    method ExecuteOpen(id: nat) returns (r: Outcome<Attempt>, found: OpenResult)
      requires Resting() && id < |attempts|
      modifies this
      ensures Resting() && old(history) <= history && OnlyRow(old(attempts), attempts, id)
      ensures sys.log == old(sys.log) || sys.log == old(sys.log) + [OpenCalled(id)]
      ensures r.Alive? ==>
        && old(attempts)[id].state.Armed? && sys.log == old(sys.log) + [OpenCalled(id)]
        && found.OpenReturned? && attempts[id] == r.value && r.value == AfterOpen(old(attempts)[id], found)
        && (r.value.state.WindowBound? <==> r.value.window.Some?)
        && heard == old(heard) + [OfOpen(found)]
      ensures r.Dead? ==>
        attempts[id] == old(attempts)[id] || attempts[id] == old(attempts)[id].(state := WindowOpenSubmitted)
      ensures r.Dead? && !Ends(old(heard), heard) ==>
        || (heard == old(heard) && attempts == old(attempts) && !old(attempts)[id].state.Armed?)
        || (heard == old(heard) + [OfOpen(found)] && Unbindable(old(attempts)[id], found))
    {
      found := OpenRaised;
      var submitted := SubmitSpawnOpen(id);
      if submitted.Dead? {
        return Dead, found;
      }
      WindowMatchesState(id);
      var alive := Yield();
      if alive.Dead? {
        return Dead, found;
      }
      found := OpenAuthorized(attempts[id]);
      Note(CallOpen(found));
      r := SettleOpen(id, found);
    }

    /** Everything that follows the return of the open call. */
    method SettleOpen(id: nat, found: OpenResult) returns (r: Outcome<Attempt>)
      requires Valid() && id < |attempts| && sys.hand == Opened(id, found)
      requires attempts[id].state.WindowOpenSubmitted? && attempts[id].window.None?
      modifies this
      ensures Resting() && old(history) <= history && OnlyRow(old(attempts), attempts, id) && sys.log == old(sys.log)
      ensures r.Alive? ==>
        found.OpenReturned? && attempts[id] == r.value && r.value == AfterOpen(old(attempts)[id], found)
          && heard == old(heard)
      ensures r.Dead? ==> attempts == old(attempts)
      ensures r.Dead? && heard != old(heard) + [Killed] ==>
        heard == old(heard) && (found.OpenRaised? || Unbindable(old(attempts)[id], found))
    {
      var _ :- Yield();
      if found.OpenRaised? {
        Raise();
        return Dead;
      }
      if found.window.Some? && found.url.Some? {
        r := BindWindow(id, found.window.value, found.url.value);
        return;
      }
      if found.sideEffectPossible {
        WriteAttempt(id, attempts[id].(state := ReconcileRequired), OpenUnknown);
        return Alive(attempts[id]);
      }
      WriteAttempt(id, attempts[id].(state := Failed), OpenFailed);
      return Alive(attempts[id]);
    }

    /** Adopts the worker of a conversation and publishes it; raises if the table refuses COMPLETED. */
    method CompleteFromConversation(id: nat, url: PageUrl) returns (r: Outcome<Attempt>)
      requires Valid() && CanAdopt(sys, id, url)
      modifies this
      ensures Resting() && old(history) <= history && OnlyRow(old(attempts), attempts, id) && sys.log == old(sys.log)
      ensures r.Dead? ==> attempts == old(attempts)
      ensures r.Alive? ==>
        && attempts[id] == r.value && r.value == old(attempts)[id].(state := Completed, conversation := Some(url.text))
        && r.value.child in adopted && Allowed(old(attempts)[id].state, Completed) && heard == old(heard)
      ensures r.Dead? && heard != old(heard) + [Killed] ==>
        && heard == old(heard) && !old(attempts)[id].state.PromptSubmitted?
        && !old(attempts)[id].state.ReconcileRequired?
    {
      Record(Adopt(id, url));
      adopted := adopted + {attempts[id].child};
      var _ :- Yield();
      if !Allowed(attempts[id].state, Completed) {
        Raise();
        return Dead;
      }
      WriteAttempt(id, attempts[id].(state := Completed, conversation := Some(url.text)), Publish);
      return Alive(attempts[id]);
    }

    /** Watches for the delivered prompt; `None` leaves the decision to the caller. */
    method CompleteIfDelivered(id: nat) returns (r: Outcome<Option<Attempt>>, seen: Option<Delivery>)
      requires Valid() && id < |attempts| && (sys.hand == Waiting(id) || sys.hand == Confirming(id))
      requires attempts[id].state.PromptSubmitted?
      modifies this
      ensures Valid() && old(history) <= history && OnlyRow(old(attempts), attempts, id) && sys.log == old(sys.log)
      ensures r.Dead? ==> sys.hand.Idle?
      ensures r.Alive? && r.value.None? ==> sys.hand == old(sys.hand) && attempts == old(attempts) && seen.Some?
      ensures r.Alive? && r.value.Some? ==>
        sys.hand.Idle? && attempts[id] == r.value.value && attempts[id].state.Completed?
      ensures r.Dead? ==> Ends(old(heard), heard)
      ensures r.Alive? ==> |heard| == |old(heard)| + 1 && old(heard) <= heard
      ensures r.Alive? ==> heard[|old(heard)|].OfDelivery? && heard[|old(heard)|].delivery.Returned?
      ensures r.Alive? ==>
        var d := heard[|old(heard)|].delivery.value;
        if r.value.Some? then DeliveredTo(d, old(attempts)[id], r.value.value)
        else NotDelivered(d, old(attempts)[id]) && seen == Some(d)
    {
      seen := None;
      var delivery := WaitForDelivery(attempts[id]);
      var alive := Yield();
      if alive.Dead? {
        return Dead, None;
      }
      if delivery.Raised? {
        Raise();
        return Dead, None;
      }
      if InProject(delivery.value.url, attempts[id]) && delivery.value.delivered {
        var done := CompleteFromConversation(id, delivery.value.url.value);
        return if done.Dead? then Dead else Alive(Some(done.value)), None;
      }
      return Alive(None), Some(delivery.value);
    }

    /** A prompt whose delivery was not observed is left unresolved; nothing is sent again. */
    method LeaveUnresolved(id: nat) returns (row: Attempt)
      requires Valid() && id < |attempts| && attempts[id].state.PromptSubmitted?
      requires sys.hand == Waiting(id) || sys.hand == Confirming(id) || sys.hand == SecondReplied(id, false)
      modifies this`attempts, this`history, this`sys
      ensures Resting() && old(history) <= history && OnlyRow(old(attempts), attempts, id) && sys.log == old(sys.log)
      ensures attempts[id] == row && row == old(attempts)[id].(state := ReconcileRequired)
    {
      WriteAttempt(id, attempts[id].(state := ReconcileRequired), DeliveryUnknown);
      return attempts[id];
    }

    method WriteSecond(id: nat) returns (r: Outcome<()>)
      requires Valid() && sys.hand == Waiting(id) && id < |attempts| && !attempts[id].secondSendUsed
      modifies this
      ensures Valid() && old(history) <= history && OnlyRow(old(attempts), attempts, id) && sys.log == old(sys.log)
      ensures attempts[id] == old(attempts)[id].(secondSendUsed := true)
      ensures sys.hand == if r.Dead? then Idle else SecondArmed(id)
      ensures heard == if r.Dead? then old(heard) + [Killed] else old(heard)
    {
      WriteAttempt(id, attempts[id].(secondSendUsed := true), SubmitSecond);
      r := Yield();
    }

    /** The one second-stage send of the untouched draft, its authority written first. */
    method InvokeSecond(id: nat) returns (r: Outcome<bool>)
      requires Valid() && sys.hand == Waiting(id) && id < |attempts| && !attempts[id].secondSendUsed
      modifies this
      ensures Valid() && old(history) <= history && OnlyRow(old(attempts), attempts, id)
      ensures attempts[id] == old(attempts)[id].(secondSendUsed := true)
      ensures sys.log == old(sys.log) || sys.log == old(sys.log) + [SecondSendCalled(id)]
      ensures r.Dead? ==> sys.hand.Idle?
      ensures r.Alive? ==> sys.hand == SecondReplied(id, r.value) && sys.log == old(sys.log) + [SecondSendCalled(id)]
      ensures r.Dead? ==> Ends(old(heard), heard)
      ensures r.Alive? ==> heard == old(heard) + [OfSecond(Returned(r.value))]
    {
      var _ :- WriteSecond(id);
      var second := InvokeExistingDraft(attempts[id]);
      Note(CallSecond(second.Returned? && second.value));
      var _ :- Yield();
      if second.Raised? {
        Raise();
        return Dead;
      }
      return Alive(second.value);
    }

    method SendDraftOnce(id: nat) returns (r: Outcome<Attempt>)
      requires Valid() && sys.hand == Waiting(id) && id < |attempts| && !attempts[id].secondSendUsed
      requires attempts[id].state.PromptSubmitted?
      modifies this
      ensures Resting() && old(history) <= history && OnlyRow(old(attempts), attempts, id)
      ensures sys.log == old(sys.log) || sys.log == old(sys.log) + [SecondSendCalled(id)]
      ensures r.Alive? ==> attempts[id] == r.value && (r.value.state.Completed? || r.value.state.ReconcileRequired?)
      ensures r.Dead? ==> Ends(old(heard), heard)
      ensures r.Alive? ==> old(heard) <= heard && SecondTried(old(attempts)[id], |old(heard)|, heard, r.value)
      ensures r.Alive? ==> sys.log == old(sys.log) + [SecondSendCalled(id)]
    {
      var submitted :- InvokeSecond(id);
      if submitted {
        Note(AwaitSecond);
        var done, seen := CompleteIfDelivered(id);
        if done.Dead? {
          return Dead;
        }
        if done.value.Some? {
          return Alive(done.value.value);
        }
      }
      var row := LeaveUnresolved(id);
      return Alive(row);
    }

    /** What follows a submitted first send: watch, send the untouched draft once more, or leave it unresolved. */
    method ConfirmDelivery(id: nat, hasDeliveryGate: bool) returns (r: Outcome<Attempt>)
      requires Valid() && sys.hand == Waiting(id) && id < |attempts|
      modifies this
      ensures Resting() && old(history) <= history && OnlyRow(old(attempts), attempts, id)
      ensures sys.log == old(sys.log) || sys.log == old(sys.log) + [SecondSendCalled(id)]
      ensures r.Alive? ==> attempts[id] == r.value && (r.value.state.Completed? || r.value.state.ReconcileRequired?)
      ensures r.Dead? ==> Ends(old(heard), heard)
      ensures r.Alive? ==> Confirms(old(attempts)[id], hasDeliveryGate, old(heard), heard, r.value)
    {
      WaitingRow(id);
      var transition := WaitForConversation(attempts[id]);
      var _ :- Yield();
      if transition.Raised? {
        Raise();
        return Dead;
      }
      if InProject(transition.value, attempts[id]) {
        if !hasDeliveryGate {
          r := CompleteFromConversation(id, transition.value.value);
          return;
        }
        var done, seen := CompleteIfDelivered(id);
        if done.Dead? {
          return Dead;
        }
        if done.value.Some? {
          return Alive(done.value.value);
        }
        var delivery := seen.value;
        if InProject(delivery.url, attempts[id]) && delivery.draftUntouched && delivery.sendReady
          && !attempts[id].secondSendUsed {
          r := SendDraftOnce(id);
          return;
        }
      }
      var row := LeaveUnresolved(id);
      return Alive(row);
    }

    /** The attempt has no window to send in, or the prompt has changed since it was armed. */
    ghost predicate Unsendable(id: nat)
      reads this
      requires id < |attempts|
    {
      || !attempts[id].state.WindowBound? || attempts[id].child !in dispatches
      || dispatches[attempts[id].child].promptHash != attempts[id].promptHash
    }

    /** Writes the authority for the first send. */
    method SubmitSpawnPrompt(id: nat, at: int) returns (r: Outcome<()>)
      requires Resting() && id < |attempts| && !Cooling(sys, at)
      modifies this
      ensures Valid() && old(history) <= history && OnlyRow(old(attempts), attempts, id) && sys.log == old(sys.log)
      ensures r.Dead? ==> sys.hand.Idle? && attempts == old(attempts) && Unsendable(id)
      ensures heard == old(heard) && dispatches == old(dispatches)
      ensures r.Alive? ==>
        && old(attempts)[id].state.WindowBound? && sys.hand == Sending(id, at) && !old(Unsendable(id))
        && attempts[id] == old(attempts)[id].(state := PromptSubmitted)
    {
      if !attempts[id].state.WindowBound? {
        Raise();
        return Dead;
      }
      if attempts[id].child !in dispatches || dispatches[attempts[id].child].promptHash != attempts[id].promptHash {
        Raise();
        return Dead;
      }
      WriteAttempt(id, attempts[id].(state := PromptSubmitted), SubmitPrompt(id, at));
      return Alive(());
    }

    /** Handles a rate-limited send: the cooldown is recorded before the attempt is released. */
    method CoolDown(id: nat, at: int, requestedCooldown: int) returns (r: Outcome<Attempt>)
      requires Valid() && id < |attempts| && sys.hand.Replied? && sys.hand.attempt == id && sys.hand.at == at
      requires sys.hand.reply.SendReturned? && sys.hand.reply.rateLimited && attempts[id].state.PromptSubmitted?
      modifies this
      ensures Resting() && old(history) <= history && OnlyRow(old(attempts), attempts, id)
      ensures cooldown.Some? && CoolsFor(requestedCooldown, cooldown.value - at)
      ensures sys.log == old(sys.log) + [CooldownSet(cooldown.value)]
      ensures heard == if r.Dead? then old(heard) + [Killed] else old(heard)
      ensures r.Alive? ==> attempts[id] == r.value && r.value == old(attempts)[id].(state := WindowBound)
    {
      Record(Cool(requestedCooldown));
      cooldown := Some(at + CooldownLength(requestedCooldown));
      var _ :- Yield();
      WriteAttempt(id, attempts[id].(state := WindowBound), BackToBound);
      return Alive(attempts[id]);
    }

    /** The first send of a pass, its authority written first. */
    method CallFirstSend(id: nat, at: int) returns (r: Outcome<SendResult>)
      requires Resting() && id < |attempts| && !Cooling(sys, at)
      modifies this
      ensures Valid() && old(history) <= history && OnlyRow(old(attempts), attempts, id)
      ensures r.Dead? ==>
        && sys.hand.Idle?
        && (sys.log == old(sys.log) || exists result :: sys.log == old(sys.log) + [SendCalled(id, at, result)])
      ensures r.Alive? ==>
        && attempts[id] == old(attempts)[id].(state := PromptSubmitted) && r.value.SendReturned?
        && sys.hand == Replied(id, at, r.value) && sys.log == old(sys.log) + [SendCalled(id, at, r.value)]
        && heard == old(heard) + [OfSend(r.value)]
      ensures r.Dead? && !Ends(old(heard), heard) ==>
        heard == old(heard) && attempts == old(attempts) && Unsendable(id)
      ensures sys.log != old(sys.log) ==> old(attempts)[id].state.WindowBound?
    {
      var _ :- SubmitSpawnPrompt(id, at);
      var _ :- Yield();
      var result := SendAuthorized(attempts[id]);
      Note(CallSend(result));
      var _ :- Yield();
      if result.SendRaised? {
        Raise();
        return Dead;
      }
      return Alive(result);
    }

    /** A send that was not submitted: released if it had no effect, unresolved otherwise. */
    method SettleUnsent(id: nat, reply: SendResult) returns (row: Attempt)
      requires Valid() && id < |attempts| && attempts[id].state.PromptSubmitted? && sys.hand.Replied?
      requires sys.hand.attempt == id
      requires sys.hand.reply == reply && reply.SendReturned? && !reply.rateLimited && !reply.submitted
      modifies this`attempts, this`history, this`sys
      ensures Resting() && old(history) <= history && OnlyRow(old(attempts), attempts, id) && sys.log == old(sys.log)
      ensures attempts[id] == row
      ensures row == old(attempts)[id].(state := if reply.sideEffectPossible then ReconcileRequired else WindowBound)
    {
      if reply.sideEffectPossible {
        WriteAttempt(id, attempts[id].(state := ReconcileRequired), SendUnknown);
      } else {
        WriteAttempt(id, attempts[id].(state := WindowBound), BackToBound);
      }
      return attempts[id];
    }

    lemma OnePass(before: seq<Event>, after: seq<Event>, id: nat, at: int, result: SendResult, tail: seq<Event>)
      requires after == before + [SendCalled(id, at, result)] + tail
      requires tail == [] || (|tail| == 1 && (tail[0].CooldownSet? || tail == [SecondSendCalled(id)]))
      requires tail != [] && tail[0].CooldownSet? ==> Clean(result)
      requires tail == [SecondSendCalled(id)] ==> !Clean(result)
      ensures OnePromptPass(before, after, id, at)
    {
    }

    /** Everything that follows the return of the first send; the rate limit is looked at first. */
    method SettleSend(id: nat, at: int, result: SendResult, requestedCooldown: int, hasDeliveryGate: bool)
      returns (r: Outcome<Attempt>)
      requires Valid() && id < |attempts| && attempts[id].state.PromptSubmitted?
      requires result.SendReturned? && sys.hand == Replied(id, at, result)
      modifies this
      ensures Resting() && old(history) <= history && OnlyRow(old(attempts), attempts, id)
      ensures result.rateLimited ==>
        && cooldown.Some? && CoolsFor(requestedCooldown, cooldown.value - at)
        && sys.log == old(sys.log) + [CooldownSet(cooldown.value)]
      ensures !result.rateLimited && result.submitted ==>
        sys.log == old(sys.log) || sys.log == old(sys.log) + [SecondSendCalled(id)]
      ensures !result.rateLimited && !result.submitted ==> sys.log == old(sys.log)
      ensures r.Alive? ==> attempts[id] == r.value
      ensures r.Dead? ==> Ends(old(heard), heard)
      ensures r.Alive? ==>
        SendSettles(old(attempts)[id].(state := WindowBound), result, hasDeliveryGate, old(heard), heard, r.value)
      ensures r.Alive? ==>
        if Clean(result) then r.value == old(attempts)[id].(state := WindowBound)
        else r.value.state.ReconcileRequired? || (r.value.state.Completed? && result.submitted)
    {
      if result.rateLimited {
        r := CoolDown(id, at, requestedCooldown);
        return;
      }
      if !result.submitted {
        var row := SettleUnsent(id, result);
        return Alive(row);
      }
      Note(AwaitDelivery);
      r := ConfirmDelivery(id, hasDeliveryGate);
    }

    /** Sends the child its prompt in the window of a bound attempt. */
    method ExecutePrompt(id: nat, at: int, requestedCooldown: int, hasDeliveryGate: bool) returns (r: Outcome<Attempt>)
      requires Resting() && id < |attempts|
      modifies this
      ensures Resting() && old(history) <= history && OnlyRow(old(attempts), attempts, id)
      ensures OnePromptPass(old(sys.log), sys.log, id, at)
      ensures sys.log != old(sys.log) ==> old(attempts)[id].state.WindowBound? && !Cooling(old(sys), at)
      ensures r.Alive? ==> attempts[id] == r.value
      ensures r.Alive? && sys.log == old(sys.log) ==> Cooling(old(sys), at) && r.value == old(attempts)[id]
      ensures r.Alive? && sys.log != old(sys.log) ==>
        && |old(sys.log)| < |sys.log| && sys.log[|old(sys.log)|].SendCalled?
        && var result := sys.log[|old(sys.log)|].result;
           if Clean(result) then r.value == old(attempts)[id]
           else
             || r.value.state.ReconcileRequired?
             || (r.value.state.Completed? && result.SendReturned? && result.submitted)
      ensures r.Dead? && !Ends(old(heard), heard) ==>
        heard == old(heard) && attempts == old(attempts) && Unsendable(id)
      ensures r.Alive? ==>
        if old(cooldown).Some? && at < old(cooldown).value then heard == old(heard) && sys.log == old(sys.log)
        else
          && old(heard) < heard && heard[|old(heard)|].OfSend?
          && var result := heard[|old(heard)|].result;
          && old(sys.log) + [SendCalled(id, at, result)] <= sys.log
          && SendSettles(old(attempts)[id], result, hasDeliveryGate, heard[..|old(heard)| + 1], heard, r.value)
          && (result.rateLimited ==> cooldown.Some? && CoolsFor(requestedCooldown, cooldown.value - at))
    {
      var _ :- Yield();
      if cooldown.Some? && at < cooldown.value {
        return Alive(attempts[id]);
      }
      r := SendOnce(id, at, requestedCooldown, hasDeliveryGate);
    }

    /** The first send, and what follows it. */
    method SendOnce(id: nat, at: int, requestedCooldown: int, hasDeliveryGate: bool) returns (r: Outcome<Attempt>)
      requires Resting() && id < |attempts| && !Cooling(sys, at)
      modifies this
      ensures Resting() && old(history) <= history && OnlyRow(old(attempts), attempts, id)
      ensures OnePromptPass(old(sys.log), sys.log, id, at)
      ensures sys.log != old(sys.log) ==> old(attempts)[id].state.WindowBound?
      ensures r.Alive? ==> attempts[id] == r.value
      ensures r.Dead? && !Ends(old(heard), heard) ==>
        heard == old(heard) && attempts == old(attempts) && Unsendable(id)
      ensures r.Alive? ==>
        && old(heard) < heard && heard[|old(heard)|].OfSend?
        && var result := heard[|old(heard)|].result;
        && old(sys.log) + [SendCalled(id, at, result)] <= sys.log
        && SendSettles(old(attempts)[id], result, hasDeliveryGate, heard[..|old(heard)| + 1], heard, r.value)
        && (result.rateLimited ==> cooldown.Some? && CoolsFor(requestedCooldown, cooldown.value - at))
    {
      ghost var before := sys.log;
      var reply := CallFirstSend(id, at);
      if reply.Dead? {
        if sys.log != before {
          ghost var lost :| sys.log == before + [SendCalled(id, at, lost)];
          OnePass(before, sys.log, id, at, lost, []);
        }
        return Dead;
      }
      ghost var sent, heard1 := sys.log, heard;
      OnePass(before, sent, id, at, reply.value, []);
      r := SettleSend(id, at, reply.value, requestedCooldown, hasDeliveryGate);
      assert r.Alive? ==> heard[..|heard1|] == heard1;
      if sys.log != sent {
        OnePass(before, sys.log, id, at, reply.value, sys.log[|sent|..]);
      }
    }

    /** An attempt without a window: binds the one owned project window that is found, if any. */
    method ReconcileUnopened(id: nat) returns (r: Outcome<Attempt>, seen: Observed)
      requires Resting() && id < |attempts| && attempts[id].window.None? && Unopened(attempts[id])
      modifies this
      ensures Resting() && old(history) <= history && OnlyRow(old(attempts), attempts, id) && sys.log == old(sys.log)
      ensures r.Alive? ==> attempts[id] == r.value && AfterReconcile(old(attempts)[id], seen, r.value)
      ensures r.Alive? ==> heard == old(heard) + [OfProject(Returned(seen))]
      ensures r.Dead? && !Ends(old(heard), heard) ==>
        && heard == old(heard) + [OfProject(Returned(seen))] && seen.window.Some? && seen.url.Some?
        && !Bindable(old(attempts)[id], seen.window.value, seen.url.value)
    {
      seen := Observed(None, None);
      var attempt := attempts[id];
      var observed := ObserveOwnedProject(attempt);
      var alive := Yield();
      if alive.Dead? {
        return Dead, seen;
      }
      if observed.Raised? {
        Raise();
        return Dead, seen;
      }
      seen := observed.value;
      if seen.window.Some? && seen.url.Some? {
        r := BindWindow(id, seen.window.value, seen.url.value);
        return;
      }
      if !attempt.state.ReconcileRequired? {
        WriteAttempt(id, attempt.(state := ReconcileRequired), ObserveUnknown(id));
      }
      r := Alive(attempts[id]);
    }

    /**
     Reconciling raises: a bound attempt's conversation cannot be published, and an unsubmitted attempt has no evidence.
     */
    ghost predicate Refuses(a: Attempt, seen: Observed) {
      if a.window.Some? && seen.url.Some? && seen.url.value.ConversationPage? && seen.url.value.projectId == a.projectId
      then a.state.WindowBound? || a.state.Armed? || a.state.Failed?
      else if a.window.Some? && seen.url == Some(ProjectRoot(a.projectId, a.token)) then false
      else a.state.Armed? || a.state.Failed?
    }

    /** An attempt with a window, or one that never submitted anything. */
    method ReconcileOpened(id: nat) returns (r: Outcome<Attempt>, seen: Observed)
      requires Resting() && id < |attempts| && !Unopened(attempts[id]) && !attempts[id].state.Completed?
      modifies this
      ensures Resting() && old(history) <= history && OnlyRow(old(attempts), attempts, id) && sys.log == old(sys.log)
      ensures r.Alive? ==> attempts[id] == r.value && AfterReconcile(old(attempts)[id], seen, r.value)
      ensures r.Alive? ==> r.value.state == old(attempts)[id].state || Allowed(old(attempts)[id].state, r.value.state)
      ensures r.Alive? && r.value.state.Completed? ==> r.value.child in adopted
      ensures r.Alive? || !Ends(old(heard), heard) ==>
        heard == old(heard) + if old(attempts)[id].window.Some? then [OfBoundUrl(Returned(seen.url))] else []
      ensures r.Dead? && !Ends(old(heard), heard) ==> Refuses(old(attempts)[id], seen)
      ensures r.Alive? ==> !Refuses(old(attempts)[id], seen)
    {
      seen := Observed(None, None);
      var attempt := attempts[id];
      if attempt.window.Some? {
        var observed := ObserveBoundUrl(attempt);
        var alive := Yield();
        if alive.Dead? {
          return Dead, seen;
        }
        if observed.Raised? {
          Raise();
          return Dead, seen;
        }
        seen := Observed(attempt.window, observed.value);
        if InProject(observed.value, attempt) {
          r := CompleteFromConversation(id, observed.value.value);
          return;
        }
        if observed.value.Some? && OwnedRoot(observed.value.value, attempt) {
          return Alive(attempt), seen;
        }
      }
      if !Allowed(attempt.state, ReconcileRequired) {
        Raise();
        return Dead, seen;
      }
      WriteAttempt(id, attempt.(state := ReconcileRequired), ObserveUnknown(id));
      r := Alive(attempts[id]);
    }

    /** Looks at the browser and moves an unresolved attempt as what it shows demands; it opens and sends nothing. */
    method ReconcileSpawn(id: nat) returns (r: Outcome<Attempt>, seen: Observed)
      requires Resting() && id < |attempts|
      modifies this
      ensures Resting() && old(history) <= history && OnlyRow(old(attempts), attempts, id) && sys.log == old(sys.log)
      ensures r.Alive? ==> attempts[id] == r.value && AfterReconcile(old(attempts)[id], seen, r.value)
      ensures r.Alive? ==> Allowed(old(attempts)[id].state, r.value.state)
      ensures r.Alive? ==>
        var a := old(attempts)[id];
        heard == old(heard) + if a.state.Completed? then []
                              else if a.state.WindowOpenSubmitted?
                                || (a.state.ReconcileRequired? && a.window.None?) then
                                [OfProject(Returned(seen))]
                              else if a.window.Some? then [OfBoundUrl(Returned(seen.url))] else []
      ensures r.Dead? && !Ends(old(heard), heard) ==>
        var a := old(attempts)[id];
        if a.state.WindowOpenSubmitted? || (a.state.ReconcileRequired? && a.window.None?) then
          seen.window.Some? && seen.url.Some? && !Bindable(a, seen.window.value, seen.url.value)
        else Refuses(a, seen)
      ensures r.Alive? && !Unopened(old(attempts)[id]) && !old(attempts)[id].state.Completed? ==>
        !Refuses(old(attempts)[id], seen)
    {
      seen := Observed(None, None);
      var alive := Yield();
      if alive.Dead? {
        return Dead, seen;
      }
      WindowMatchesState(id);
      if attempts[id].state.Completed? {
        return Alive(attempts[id]), seen;
      }
      if Unopened(attempts[id]) {
        r, seen := ReconcileUnopened(id);
      } else {
        r, seen := ReconcileOpened(id);
      }
    }
  }
}
