/**
 Opening one page for a child task and sending it its prompt, as a step machine.

 One operator process acts at a time; it may die, or an exception may end it, between any two actions,
 and only the tables survive.  `hand` is what the operator holds in local variables.  Dispatch rows may
 change and workers may be adopted by others at any point.  `log` records the external calls.
 */
module SpawnProtocol {
  import opened Prelude

  datatype SpawnState =
    | Armed | WindowOpenSubmitted | WindowBound | PromptSubmitted | ReconcileRequired | Completed | Failed

  predicate Unresolved(st: SpawnState) { !st.Completed? && !st.Failed? }

  /** The transition table of `update_child_spawn_attempt`; staying in a state is always allowed. */
  predicate Allowed(from: SpawnState, to: SpawnState) {
    from == to ||
    match from
    case Armed => to.WindowOpenSubmitted? || to.Failed?
    case WindowOpenSubmitted => to.WindowBound? || to.ReconcileRequired? || to.Failed?
    case WindowBound => to.PromptSubmitted? || to.ReconcileRequired? || to.Failed?
    case PromptSubmitted => to.WindowBound? || to.Completed? || to.ReconcileRequired?
    case ReconcileRequired => to.WindowBound? || to.Completed?
    case Completed => false
    case Failed => false
  }

  datatype WindowId = WindowId(handle: int, pid: int)

  /** An address as the URL parsers of the source classify it. */
  datatype PageUrl =
    | ProjectRoot(projectId: string, token: string)
    | ConversationPage(projectId: string, text: string)
    | OtherPage

  datatype Dispatch = Dispatch(projectId: Option<string>, promptHash: string)

  datatype Attempt = Attempt(
    child: string, state: SpawnState, token: string, projectId: string, promptHash: string,
    window: Option<WindowId>, conversation: Option<string>, secondSendUsed: bool)

  predicate OwnedRoot(url: PageUrl, a: Attempt) {
    url.ProjectRoot? && url.projectId == a.projectId && url.token == a.token
  }

  predicate InProject(url: Option<PageUrl>, a: Attempt) {
    url.Some? && url.value.ConversationPage? && url.value.projectId == a.projectId
  }

  // ---- External calls ----

  datatype OpenResult =
    | OpenRaised
    | OpenReturned(window: Option<WindowId>, url: Option<PageUrl>, sideEffectPossible: bool)

  datatype SendResult = SendRaised | SendReturned(submitted: bool, sideEffectPossible: bool, rateLimited: bool)

  /** Proven effect-free; a rate-limited send is taken to be one, whatever else it reports. */
  predicate Clean(r: SendResult) { r.SendReturned? && (r.rateLimited || (!r.submitted && !r.sideEffectPossible)) }

  datatype Event =
    | OpenCalled(attempt: nat)
    | SendCalled(attempt: nat, at: int, result: SendResult)
    | SecondSendCalled(attempt: nat)
    | CooldownSet(until: int)

  // ---- The operator ----

  datatype Hand =
    | Idle
    | Opening(attempt: nat)
    | Opened(attempt: nat, found: OpenResult)
    | Sending(attempt: nat, at: int)
    | Replied(attempt: nat, at: int, reply: SendResult)
    | Cooled(attempt: nat)
    | Waiting(attempt: nat)
    | SecondArmed(attempt: nat)
    | SecondReplied(attempt: nat, submitted: bool)
    | Confirming(attempt: nat)
    | Adopted(attempt: nat, conversation: string)

  datatype Sys = Sys(
    attempts: seq<Attempt>, dispatches: map<string, Dispatch>, adopted: set<string>, cooldown: Option<int>,
    hand: Hand, log: seq<Event>)

  function Init(): Sys { Sys([], map[], {}, None, Idle, []) }

  ghost predicate HasUnresolved(s: Sys, child: string) {
    exists i :: 0 <= i < |s.attempts| && s.attempts[i].child == child && Unresolved(s.attempts[i].state)
  }

  function SetState(s: Sys, id: nat, st: SpawnState): Sys
    requires id < |s.attempts|
  {
    s.(attempts := s.attempts[id := s.attempts[id].(state := st)], hand := Idle)
  }

  predicate Cooling(s: Sys, at: int) { s.cooldown.Some? && at < s.cooldown.value }

  function CooldownLength(requested: int): int { Max(5, Min(requested, 900)) }

  datatype Action =
    | Redispatch(child: string, dispatch: Dispatch)
    | AdoptElsewhere(child: string)
    | Crash
    | Arm(row: Attempt)
    | SubmitOpen(id: nat)
    | CallOpen(found: OpenResult)
    | Bind(id: nat, window: WindowId, url: PageUrl)
    | OpenUnknown
    | OpenFailed
    | SubmitPrompt(id: nat, at: int)
    | CallSend(reply: SendResult)
    | Cool(requested: int)
    | BackToBound
    | SendUnknown
    | AwaitDelivery
    | SubmitSecond
    | CallSecond(submitted: bool)
    | AwaitSecond
    | DeliveryUnknown
    | Adopt(id: nat, url: PageUrl)
    | Publish
    | ObserveUnknown(id: nat)

  /** A new row: no worker history, no unresolved attempt, and the prompt and project of the dispatch row. */
  ghost predicate CanArm(s: Sys, row: Attempt) {
    && row.child in s.dispatches && row.child !in s.adopted && !HasUnresolved(s, row.child)
    && s.dispatches[row.child].projectId == Some(row.projectId) && s.dispatches[row.child].promptHash == row.promptHash
    && row.state.Armed? && row.window.None? && row.conversation.None? && !row.secondSendUsed
  }

  /** Who may bind: the open call that just returned, or a reconciliation of an attempt without a window. */
  predicate CanBind(s: Sys, id: nat, window: WindowId, url: PageUrl) {
    && id < |s.attempts| && 0 < window.handle && 0 < window.pid && OwnedRoot(url, s.attempts[id])
    && (s.hand == Opened(id, OpenReturned(Some(window), Some(url), true))
        || s.hand == Opened(id, OpenReturned(Some(window), Some(url), false))
        || (s.hand.Idle? && s.attempts[id].window.None?))
    && (s.attempts[id].state.WindowOpenSubmitted? || s.attempts[id].state.ReconcileRequired?)
  }

  /** Who may adopt: the send that saw its prompt delivered, or a reconciliation of an attempt with a window. */
  predicate CanAdopt(s: Sys, id: nat, url: PageUrl) {
    && id < |s.attempts| && InProject(Some(url), s.attempts[id])
    && (s.hand == Waiting(id) || s.hand == Confirming(id)
        || (s.hand.Idle? && s.attempts[id].window.Some? && !s.attempts[id].state.Completed?))
  }

  /** A reconciliation that saw nothing it can use. */
  predicate CanObserveUnknown(s: Sys, id: nat) {
    && s.hand.Idle? && id < |s.attempts| && !s.attempts[id].state.Completed?
    && Allowed(s.attempts[id].state, ReconcileRequired)
  }

  ghost predicate Enabled(s: Sys, a: Action) {
    match a
    case Redispatch(_, _) => true
    case AdoptElsewhere(_) => true
    case Crash => true
    case Arm(row) => s.hand.Idle? && CanArm(s, row)
    case SubmitOpen(id) => s.hand.Idle? && id < |s.attempts| && s.attempts[id].state.Armed?
    case CallOpen(_) => s.hand.Opening?
    case Bind(id, window, url) => CanBind(s, id, window, url)
    case OpenUnknown =>
      s.hand.Opened? && s.hand.found.OpenReturned? && s.hand.found.sideEffectPossible && s.hand.attempt < |s.attempts|
    case OpenFailed =>
      s.hand.Opened? && s.hand.found.OpenReturned? && !s.hand.found.sideEffectPossible && s.hand.attempt < |s.attempts|
    case SubmitPrompt(id, at) =>
      && s.hand.Idle? && id < |s.attempts| && s.attempts[id].state.WindowBound? && !Cooling(s, at)
      && s.attempts[id].child in s.dispatches
      && s.dispatches[s.attempts[id].child].promptHash == s.attempts[id].promptHash
    case CallSend(_) => s.hand.Sending?
    case Cool(_) => s.hand.Replied? && s.hand.reply.SendReturned? && s.hand.reply.rateLimited
    case BackToBound =>
      && (s.hand.Cooled? || (s.hand.Replied? && Clean(s.hand.reply) && !s.hand.reply.rateLimited))
      && s.hand.attempt < |s.attempts|
    case SendUnknown =>
      && s.hand.Replied? && s.hand.reply.SendReturned? && !Clean(s.hand.reply) && !s.hand.reply.submitted
      && s.hand.attempt < |s.attempts|
    case AwaitDelivery =>
      s.hand.Replied? && s.hand.reply.SendReturned? && !s.hand.reply.rateLimited && s.hand.reply.submitted
    case SubmitSecond => s.hand.Waiting? && s.hand.attempt < |s.attempts| && !s.attempts[s.hand.attempt].secondSendUsed
    case CallSecond(_) => s.hand.SecondArmed?
    case AwaitSecond => s.hand.SecondReplied? && s.hand.submitted
    case DeliveryUnknown =>
      && (s.hand.Waiting? || s.hand.Confirming? || (s.hand.SecondReplied? && !s.hand.submitted))
      && s.hand.attempt < |s.attempts|
    case Adopt(id, url) => CanAdopt(s, id, url)
    case Publish =>
      s.hand.Adopted? && s.hand.attempt < |s.attempts| && Allowed(s.attempts[s.hand.attempt].state, Completed)
    case ObserveUnknown(id) => CanObserveUnknown(s, id)
  }

  ghost function Apply(s: Sys, a: Action): Sys
    requires Enabled(s, a)
  {
    match a
    case Redispatch(child, row) => s.(dispatches := s.dispatches[child := row])
    case AdoptElsewhere(child) => s.(adopted := s.adopted + {child})
    case Crash => s.(hand := Idle)
    case Arm(row) => s.(attempts := s.attempts + [row])
    case SubmitOpen(id) => SetState(s, id, WindowOpenSubmitted).(hand := Opening(id))
    case CallOpen(result) => s.(hand := Opened(s.hand.attempt, result), log := s.log + [OpenCalled(s.hand.attempt)])
    case Bind(id, window, _) =>
      s.(attempts := s.attempts[id := s.attempts[id].(state := WindowBound, window := Some(window))], hand := Idle)
    case OpenUnknown => SetState(s, s.hand.attempt, ReconcileRequired)
    case OpenFailed => SetState(s, s.hand.attempt, Failed)
    case SubmitPrompt(id, at) => SetState(s, id, PromptSubmitted).(hand := Sending(id, at))
    case CallSend(result) =>
      s.(hand := Replied(s.hand.attempt, s.hand.at, result),
         log := s.log + [SendCalled(s.hand.attempt, s.hand.at, result)])
    case Cool(requested) =>
      var until := s.hand.at + CooldownLength(requested);
      s.(cooldown := Some(until), hand := Cooled(s.hand.attempt), log := s.log + [CooldownSet(until)])
    case BackToBound => SetState(s, s.hand.attempt, WindowBound)
    case SendUnknown => SetState(s, s.hand.attempt, ReconcileRequired)
    case AwaitDelivery => s.(hand := Waiting(s.hand.attempt))
    case SubmitSecond =>
      s.(attempts := s.attempts[s.hand.attempt := s.attempts[s.hand.attempt].(secondSendUsed := true)],
         hand := SecondArmed(s.hand.attempt))
    case CallSecond(submitted) =>
      s.(hand := SecondReplied(s.hand.attempt, submitted), log := s.log + [SecondSendCalled(s.hand.attempt)])
    case AwaitSecond => s.(hand := Confirming(s.hand.attempt))
    case DeliveryUnknown => SetState(s, s.hand.attempt, ReconcileRequired)
    case Adopt(id, url) => s.(adopted := s.adopted + {s.attempts[id].child}, hand := Adopted(id, url.text))
    case Publish =>
      var i, conversation := s.hand.attempt, s.hand.conversation;
      s.(attempts := s.attempts[i := s.attempts[i].(state := Completed, conversation := Some(conversation))],
         hand := Idle)
    case ObserveUnknown(id) => SetState(s, id, ReconcileRequired)
  }

  // ---- Runs ----

  ghost predicate Legal(acts: seq<Action>)
    decreases |acts|, 0
  {
    acts == [] || (Legal(acts[..|acts| - 1]) && Enabled(Exec(acts[..|acts| - 1]), acts[|acts| - 1]))
  }

  ghost function Exec(acts: seq<Action>): Sys
    requires Legal(acts)
    decreases |acts|, 1
  {
    if acts == [] then Init() else Apply(Exec(acts[..|acts| - 1]), acts[|acts| - 1])
  }

  predicate Pinned(acts: seq<Action>) { true }

  /** The run `acts` leads to `s`; see `ChatProtocol.Leads`. */
  ghost predicate Leads(acts: seq<Action>, s: Sys) {
    forall u {:trigger Pinned(u)} :: Pinned(u) && u == acts ==> Legal(u) && Exec(u) == s
  }

  lemma Unroll(acts: seq<Action>, s: Sys)
    requires Leads(acts, s)
    ensures Legal(acts) && Exec(acts) == s
  {
    assert Pinned(acts);
  }

  lemma LeadsFurther(acts: seq<Action>, s: Sys, a: Action)
    requires Leads(acts, s) && Enabled(s, a)
    ensures Leads(acts + [a], Apply(s, a))
  {
    Unroll(acts, s);
    assert (acts + [a])[..|acts + [a]| - 1] == acts;
  }
}
