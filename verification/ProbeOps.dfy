/**
 The durable probe-window operation, the planners that create it and the decision that reads one
 observation of it.  Everything here is a value: the decision never changes an operation.
 */
module ProbeOps {
  import opened Prelude

  datatype Kind = OpenKind | RotateKind | CloseKind

  datatype State =
    | Armed | CloseSubmitted | ReadyToOpen | OpenSubmitted | ReconcileRequired
    | Completed | Failed | Cancelled

  predicate Unresolved(st: State) {
    st.Armed? || st.CloseSubmitted? || st.ReadyToOpen? || st.OpenSubmitted? || st.ReconcileRequired?
  }

  datatype SlotBinding = SlotBinding(
    slotId: string, token: string, workerId: string, target: WebUrl, actualUrl: string,
    windowHandle: int, browserPid: int, chrome: string, source: string,
    boundAt: int, observedAt: int, expiresAt: int)

  predicate IsFresh(slot: SlotBinding, now: int) {
    slot.boundAt <= slot.observedAt <= now < slot.expiresAt && slot.observedAt <= slot.expiresAt
  }

  datatype Operation = Operation(
    id: string, nonce: string, kind: Kind, state: State, slotId: string, taskId: string, workerId: string,
    target: WebUrl, token: string, expectedUrl: string, expectedChrome: string, source: string,
    prior: Option<SlotBinding>, createdAt: int, updatedAt: int, slotTtl: int,
    reconcileAttempts: nat, lastReconcileAt: Option<int>, lastOutcome: Option<ReconcileOutcome>,
    resume: Option<State>)

  datatype WindowMatch = WindowMatch(windowHandle: int, browserPid: int, chrome: string, actualUrl: string)

  datatype Observation = Observation(
    observedAt: int, oldMatches: seq<WindowMatch>, newMatches: seq<WindowMatch>, complete: bool, failed: bool)

  datatype ReconcileOutcome =
    | ExactTargetAbsent | ExactUniqueOwnedTargetPresent | OldTargetStillPresent | BothOldAndNewPresent
    | MultipleMatches | StaleOrChangedIdentity | UnknownObservation

  datatype Decision = Decision(
    outcome: ReconcileOutcome, next: State, mayClose: bool, mayOpen: bool, adopt: Option<SlotBinding>)

  // ---- Text ----

  /** An address as the planner sees it: `base` drops the fragment, `identity` is the conversation it names. */
  datatype WebUrl = WebUrl(text: string, base: string, identity: Option<string>)

  /** Drops exactly the trailing slashes. */
  function RStrip(s: string): (r: string)
    ensures r <= s && (r == "" || r[|r| - 1] != '/') && forall i :: |r| <= i < |s| ==> s[i] == '/'
  {
    if s != [] && s[|s| - 1] == '/' then RStrip(s[..|s| - 1]) else s
  }

  predicate SameUrl(a: string, b: string) { RStrip(a) == RStrip(b) }

  function Lower(c: char): (r: char)
    ensures r == c <==> !('A' <= c <= 'Z')
    ensures 'A' <= c <= 'Z' ==> 'a' <= r <= 'z' && r as int - 'a' as int == c as int - 'A' as int
  {
    if 'A' <= c <= 'Z' then c + ('a' - 'A') else c
  }

  function Fold(s: string): (r: string)
    ensures |r| == |s| && forall i :: 0 <= i < |s| ==> r[i] == Lower(s[i])
  {
    seq(|s|, i requires 0 <= i < |s| => Lower(s[i]))
  }

  predicate SameChrome(a: string, b: string) { Fold(a) == Fold(b) }

  predicate OnlySlashesAfter(s: string, n: nat) { n <= |s| && forall i :: n <= i < |s| ==> s[i] == '/' }

  lemma {:induction false} StripDropsSlashes(s: string, n: nat)
    requires OnlySlashesAfter(s, n)
    ensures RStrip(s) == RStrip(s[..n])
    decreases |s|
  {
    if n < |s| {
      StripDropsSlashes(s[..|s| - 1], n);
      assert s[..|s| - 1][..n] == s[..n];
    } else {
      assert s[..n] == s;
    }
  }

  /** Two addresses are the same exactly if nothing but slashes at the end tells them apart. */
  lemma SameUrlIff(a: string, b: string)
    ensures SameUrl(a, b) <==>
      exists m: nat, n: nat :: OnlySlashesAfter(a, m) && OnlySlashesAfter(b, n) && a[..m] == b[..n]
  {
    if m: nat, n: nat :| OnlySlashesAfter(a, m) && OnlySlashesAfter(b, n) && a[..m] == b[..n] {
      StripDropsSlashes(a, m);
      StripDropsSlashes(b, n);
    }
    assert OnlySlashesAfter(a, |RStrip(a)|) && OnlySlashesAfter(b, |RStrip(b)|);
  }

  /** Two browsers are the same exactly if they differ in the case of ASCII letters only. */
  lemma SameChromeIff(a: string, b: string)
    ensures SameChrome(a, b) <==>
      && |a| == |b|
      && forall i :: 0 <= i < |a| ==>
           a[i] == b[i] || ('A' <= a[i] <= 'Z' && b[i] as int == a[i] as int + 32)
           || ('A' <= b[i] <= 'Z' && a[i] as int == b[i] as int + 32)
  {
    forall i | 0 <= i < |a| == |b|
      ensures Lower(a[i]) == Lower(b[i]) <==>
        a[i] == b[i] || ('A' <= a[i] <= 'Z' && b[i] as int == a[i] as int + 32)
        || ('A' <= b[i] <= 'Z' && a[i] as int == b[i] as int + 32)
    {
    }
    if SameChrome(a, b) {
      assert |Fold(a)| == |Fold(b)|;
      assert forall i :: 0 <= i < |a| ==> Fold(a)[i] == Fold(b)[i];
    }
  }

  predicate IsSpace(c: char) { c == ' ' || c == '\t' || c == '\n' || c == '\r' }

  predicate Blank(s: string): (r: bool)
    ensures r <==> forall i :: 0 <= i < |s| ==> s[i] == ' ' || s[i] == '\t' || s[i] == '\n' || s[i] == '\r'
  {
    forall i :: 0 <= i < |s| ==> IsSpace(s[i])
  }

  const PROBE_SOURCE := "windows_uia_lws_probe"

  // ---- Effective state ----

  /** A fenced operation keeps the state it was fenced in; that is what any later evidence is judged against. */
  function Effective(op: Operation): State {
    if op.state.ReconcileRequired? && op.resume.Some? then op.resume.value else op.state
  }

  predicate ExactNew(op: Operation, m: WindowMatch) {
    0 < m.windowHandle && 0 < m.browserPid && SameUrl(m.actualUrl, op.expectedUrl)
      && SameChrome(m.chrome, op.expectedChrome)
  }

  predicate ExactOld(op: Operation, m: WindowMatch) {
    && op.prior.Some?
    && m.windowHandle == op.prior.value.windowHandle && m.browserPid == op.prior.value.browserPid
    && SameUrl(m.actualUrl, op.prior.value.actualUrl) && SameChrome(m.chrome, op.prior.value.chrome)
  }

  function AdoptedBinding(op: Operation, m: WindowMatch, at: int): SlotBinding {
    SlotBinding(op.slotId, op.token, op.workerId, op.target, op.expectedUrl, m.windowHandle, m.browserPid,
                op.expectedChrome, op.source, at, at, at + Max(1, op.slotTtl))
  }

  // ---- The decision ----

  function Fence(outcome: ReconcileOutcome): Decision {
    Decision(outcome, ReconcileRequired, false, false, None)
  }

  function DecideOpen(op: Operation, obs: Observation): Decision
    requires |obs.oldMatches| <= 1 && |obs.newMatches| <= 1
  {
    if obs.oldMatches != [] then Fence(StaleOrChangedIdentity)
    else if obs.newMatches != [] then
      if !Effective(op).OpenSubmitted? then Fence(StaleOrChangedIdentity)
      else Decision(ExactUniqueOwnedTargetPresent, Completed, false, false,
                    Some(AdoptedBinding(op, obs.newMatches[0], obs.observedAt)))
    else if Effective(op).Armed? then Decision(ExactTargetAbsent, Armed, false, true, None)
    else Fence(ExactTargetAbsent)
  }

  function DecideClose(op: Operation, obs: Observation): Decision {
    if obs.newMatches != [] then Fence(StaleOrChangedIdentity)
    else if obs.oldMatches == [] then Decision(ExactTargetAbsent, Completed, false, false, None)
    else if Effective(op).Armed? then Decision(OldTargetStillPresent, Armed, true, false, None)
    else Fence(OldTargetStillPresent)
  }

  function DecideRotate(op: Operation, obs: Observation): Decision
    requires |obs.oldMatches| <= 1 && |obs.newMatches| <= 1
  {
    if obs.newMatches != [] && obs.oldMatches == [] then
      if !Effective(op).OpenSubmitted? then Fence(StaleOrChangedIdentity)
      else Decision(ExactUniqueOwnedTargetPresent, Completed, false, false,
                    Some(AdoptedBinding(op, obs.newMatches[0], obs.observedAt)))
    else if obs.oldMatches != [] && obs.newMatches == [] then
      if Effective(op).Armed? then Decision(OldTargetStillPresent, Armed, true, false, None)
      else Fence(OldTargetStillPresent)
    else if Effective(op).Armed? || Effective(op).CloseSubmitted? || Effective(op).ReadyToOpen? then
      Decision(ExactTargetAbsent, ReadyToOpen, false, true, None)
    else Fence(ExactTargetAbsent)
  }

  /** The total classification of one observation: the guards come in this order. */
  function Decide(op: Operation, obs: Observation, now: int): Decision {
    if now < obs.observedAt then Fence(UnknownObservation)
    else if !obs.complete || obs.failed then Fence(UnknownObservation)
    else if 1 < |obs.oldMatches| || 1 < |obs.newMatches| then Fence(MultipleMatches)
    else if obs.oldMatches != [] && !ExactOld(op, obs.oldMatches[0]) then Fence(StaleOrChangedIdentity)
    else if obs.newMatches != [] && !ExactNew(op, obs.newMatches[0]) then Fence(StaleOrChangedIdentity)
    else if obs.oldMatches != [] && obs.newMatches != [] then Fence(BothOldAndNewPresent)
    else match op.kind
      case OpenKind => DecideOpen(op, obs)
      case CloseKind => DecideClose(op, obs)
      case RotateKind => DecideRotate(op, obs)
  }

  // ---- Planning ----

  datatype Worker = Worker(id: string, taskId: string, parked: bool, url: WebUrl)

  datatype SlotAction = ReuseSlot | OpenSlot | RotateSlot | Blocked

  datatype SlotPlan = SlotPlan(
    slotId: string, workerId: string, target: WebUrl, action: SlotAction, mutation: bool, token: Option<string>)

  function TaggedUrl(url: WebUrl, slotId: string, token: string): Result<string, string> {
    if url.identity.None? then Err("not a web conversation")
    else if Blank(slotId) || Blank(token) then Err("tag requires slot id and owner token")
    else Ok(Tag(url.base, slotId, token))
  }

  function Tag(base: string, slotId: string, token: string): string {
    base + "#lws-probe=" + slotId + ":" + token
  }

  predicate OwnsActualUrl(slot: SlotBinding) {
    var expected := TaggedUrl(slot.target, slot.slotId, slot.token);
    expected.Ok? && SameUrl(slot.actualUrl, expected.value)
  }

  /** `drawn` is the owner token the planner draws when it needs one. */
  function PlanProbeSlot(w: Worker, existing: Option<SlotBinding>, slotId: string, now: int, drawn: string): SlotPlan {
    if !w.parked || w.url.identity.None? then SlotPlan(slotId, w.id, w.url, Blocked, false, None)
    else if existing.None? then SlotPlan(slotId, w.id, w.url, OpenSlot, true, Some(drawn))
    else
      var slot := existing.value;
      if slot.slotId != slotId || slot.source != PROBE_SOURCE || !IsFresh(slot, now) || !OwnsActualUrl(slot) then
        SlotPlan(slotId, w.id, w.url, Blocked, false, Some(slot.token))
      else if slot.workerId == w.id && slot.target.identity == w.url.identity then
        SlotPlan(slotId, w.id, w.url, ReuseSlot, false, Some(slot.token))
      else SlotPlan(slotId, w.id, w.url, RotateSlot, true, Some(drawn))
  }

  function OperationFromPlan(
    w: Worker, plan: SlotPlan, existing: Option<SlotBinding>, chrome: string, now: int,
    id: string, nonce: string, ttl: int): Result<Operation, string>
  {
    if plan.workerId != w.id || plan.target != w.url then Err("plan no longer matches its worker")
    else if !plan.action.OpenSlot? && !plan.action.RotateSlot? then Err("plan does not mutate")
    else if plan.token.None? || plan.token.value == "" then Err("mutating plan requires an ownership token")
    else if plan.action.OpenSlot? && existing.Some? then Err("OPEN must not have a prior slot")
    else if plan.action.RotateSlot? && existing.None? then Err("ROTATE requires the prior slot")
    else
      var url :- TaggedUrl(w.url, plan.slotId, plan.token.value);
      Ok(Operation(
        id, nonce, if plan.action.OpenSlot? then OpenKind else RotateKind, Armed, plan.slotId, w.taskId, w.id,
        w.url, plan.token.value, url, chrome, PROBE_SOURCE, existing, now, now, Max(1, ttl), 0, None, None, None))
  }

  function CloseOperation(w: Worker, existing: SlotBinding, now: int, id: string,
                          nonce: string): Result<Operation, string> {
    if !w.parked then Err("CLOSE requires a parked worker")
    else if existing.workerId != w.id then Err("worker does not own the slot")
    else if !OwnsActualUrl(existing) then Err("CLOSE requires an exact ownership tag")
    else Ok(Operation(
      id, nonce, CloseKind, Armed, existing.slotId, w.taskId, w.id, w.url, existing.token, "", existing.chrome,
      existing.source, Some(existing), now, now, Max(1, existing.expiresAt - existing.observedAt), 0, None, None, None))
  }

  // ---- What the planners guarantee ----

  /** The slot's address is its conversation's, with the tag of its slot and owner token. */
  predicate Tagged(slot: SlotBinding) {
    && slot.target.identity.Some? && !Blank(slot.slotId) && !Blank(slot.token)
    && SameUrl(slot.actualUrl, slot.target.base + "#lws-probe=" + slot.slotId + ":" + slot.token)
  }

  /** Arming compares an operation with the slot table but never compares these two slot ids; the planners do. */
  predicate KeepsSlotId(op: Operation) {
    op.prior.Some? ==> op.slotId == op.prior.value.slotId
  }

  predicate FreshlyPlanned(op: Operation) {
    && op.state.Armed? && op.resume.None? && KeepsSlotId(op)
    && (op.kind.OpenKind? <==> op.prior.None?)
    && (op.kind.CloseKind? <==> op.expectedUrl == "")
  }

  lemma TagIsNotEmpty(base: string, slotId: string, token: string)
    ensures Tag(base, slotId, token) == base + "#lws-probe=" + slotId + ":" + token
    ensures Tag(base, slotId, token) != ""
  {
    assert |Tag(base, slotId, token)| >= |"#lws-probe="|;
  }

  /** A plan becomes an operation exactly for a parked worker whose slot is absent, or tagged, fresh and not its own. */
  lemma PlannedOperationsKeepTheSlot(
    w: Worker, existing: Option<SlotBinding>, slotId: string, planAt: int, drawn: string,
    chrome: string, now: int, id: string, nonce: string, ttl: int)
    ensures
      var r := OperationFromPlan(w, PlanProbeSlot(w, existing, slotId, planAt, drawn), existing, chrome, now, id, nonce,
                                 ttl);
      r.Ok? <==>
        && w.parked && w.url.identity.Some? && !Blank(slotId) && !Blank(drawn)
        && (existing.Some? ==>
          && existing.value.slotId == slotId && existing.value.source == "windows_uia_lws_probe"
          && existing.value.boundAt <= existing.value.observedAt <= planAt < existing.value.expiresAt
          && Tagged(existing.value)
          && !(existing.value.workerId == w.id && existing.value.target.identity == w.url.identity))
    ensures
      var r := OperationFromPlan(w, PlanProbeSlot(w, existing, slotId, planAt, drawn), existing, chrome, now, id, nonce,
                                 ttl);
      r.Ok? ==> FreshlyPlanned(r.value) && r.value.prior == existing && r.value.token == drawn
  {
    TagIsNotEmpty(w.url.base, slotId, drawn);
    if existing.Some? {
      OwnershipIsTagged(existing.value);
    }
  }

  lemma OwnershipIsTagged(slot: SlotBinding)
    ensures OwnsActualUrl(slot) <==> Tagged(slot)
  {
    TagIsNotEmpty(slot.target.base, slot.slotId, slot.token);
  }

  /** An operation carries the worker, target, tag and browser it was planned for. */
  lemma OperationCarriesPlan(
    w: Worker, plan: SlotPlan, existing: Option<SlotBinding>, chrome: string, now: int,
    id: string, nonce: string, ttl: int)
    requires OperationFromPlan(w, plan, existing, chrome, now, id, nonce, ttl).Ok?
    ensures var op := OperationFromPlan(w, plan, existing, chrome, now, id, nonce, ttl).value;
      && op.id == id && op.nonce == nonce && op.workerId == w.id && op.taskId == w.taskId && op.target == w.url
      && op.slotId == plan.slotId && plan.token == Some(op.token) && op.expectedChrome == chrome
      && op.expectedUrl == w.url.base + "#lws-probe=" + op.slotId + ":" + op.token
      && op.source == "windows_uia_lws_probe" && op.createdAt == op.updatedAt == now
      && op.slotTtl == (if 1 <= ttl then ttl else 1) && (op.kind.OpenKind? <==> plan.action.OpenSlot?)
  {
    TagIsNotEmpty(w.url.base, plan.slotId, plan.token.value);
  }

  /** CLOSE is planned exactly for a parked worker's own tagged slot, with that slot as its snapshot. */
  lemma PlannedCloseIff(w: Worker, existing: SlotBinding, now: int, id: string, nonce: string)
    ensures var r := CloseOperation(w, existing, now, id, nonce);
      && (r.Ok? <==> w.parked && existing.workerId == w.id && Tagged(existing))
      && (r.Ok? ==>
            && FreshlyPlanned(r.value) && r.value.kind.CloseKind? && r.value.prior == Some(existing)
            && r.value.slotId == existing.slotId && r.value.token == existing.token
            && r.value.workerId == w.id && r.value.taskId == w.taskId && r.value.target == w.url
            && r.value.expectedChrome == existing.chrome && r.value.source == existing.source
            && r.value.id == id && r.value.nonce == nonce && r.value.createdAt == r.value.updatedAt == now
            && r.value.slotTtl ==
                 if existing.observedAt < existing.expiresAt then existing.expiresAt - existing.observedAt else 1)
  {
    OwnershipIsTagged(existing);
  }

  // ---- Tags tell operations apart ----

  predicate PlainToken(t: string) { t != "" && ':' !in t && '/' !in t }

  lemma {:induction false} LastFieldIsUnique(p: string, s: string, q: string, t: string)
    requires ':' !in s && ':' !in t && p + ":" + s == q + ":" + t
    ensures s == t
    decreases |s|
  {
    var whole := p + ":" + s;
    assert whole == q + ":" + t;
    assert whole[|whole| - 1] == if s == "" then ':' else s[|s| - 1];
    assert whole[|whole| - 1] == if t == "" then ':' else t[|t| - 1];
    if s != "" && t != "" {
      var s', t' := s[..|s| - 1], t[..|t| - 1];
      assert p + ":" + s' == whole[..|whole| - 1] == q + ":" + t';
      LastFieldIsUnique(p, s', q, t');
      assert s == s' + [s[|s| - 1]] && t == t' + [t[|t| - 1]];
    }
  }

  lemma StripKeepsPlain(prefix: string, t: string)
    requires PlainToken(t)
    ensures RStrip(prefix + t) == prefix + t
  {
    var s := prefix + t;
    assert s[|s| - 1] == t[|t| - 1];
    assert t[|t| - 1] in t;
  }

  /** Two tagged targets denote the same window only if they carry the same owner token, whatever they address. */
  lemma TagsTellTokensApart(base1: string, slot1: string, token1: string, base2: string, slot2: string, token2: string)
    requires PlainToken(token1) && PlainToken(token2)
    ensures SameUrl(Tag(base1, slot1, token1), Tag(base2, slot2, token2)) ==> token1 == token2
  {
    var p, q := base1 + "#lws-probe=" + slot1, base2 + "#lws-probe=" + slot2;
    assert Tag(base1, slot1, token1) == (p + ":") + token1;
    assert Tag(base2, slot2, token2) == (q + ":") + token2;
    StripKeepsPlain(p + ":", token1);
    StripKeepsPlain(q + ":", token2);
    if SameUrl(Tag(base1, slot1, token1), Tag(base2, slot2, token2)) {
      LastFieldIsUnique(p, token1, q, token2);
    }
  }
}
