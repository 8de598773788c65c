/**
 The registry rows behind the probe protocol and the transactions that change them.

 Each transaction is a function from tables to tables, with `Err` where the source raises and rolls
 back; the methods of `Registry` are proved against these functions.
 */
module ProbeRegistry {
  import opened Prelude
  import opened ProbeOps

  datatype Refusal =
    | UnknownOperation | NotArmedYet | MissingIdentity | MissingOwner | MissingChrome | MissingTarget | UnknownTask
    | UnknownWorker | ForeignWorker | WorkerNotParked | TargetMoved | FencedByUnresolved | ManySlots | SlotExists
    | MissingSnapshot | SlotChanged | DuplicateRow | NoClosePhase | NotArmed | NotReadyToOpen | MissingBinding
    | WrongBinding | UnexpectedBinding | SlotAppeared | SlotChangedMeanwhile | AlreadyTerminal | NoOpenAuthority
    | NoCloseAuthority | AuthorityAlreadyIssued | OtherSlot | MissingWindow

  datatype Tables = Tables(
    ops: map<string, Operation>, slots: map<string, SlotBinding>, workers: map<string, Worker>, tasks: set<string>)

  ghost predicate SomeUnresolved(ops: map<string, Operation>) {
    exists id :: id in ops && Unresolved(ops[id].state)
  }

  ghost function Current(slots: map<string, SlotBinding>): Option<SlotBinding> {
    if slots == map[] then None else var id :| id in slots; Some(slots[id])
  }

  lemma OnlyRow(slots: map<string, SlotBinding>, id: string)
    requires id in slots && |slots| <= 1
    ensures slots.Keys == {id} && Current(slots) == Some(slots[id])
  {
    assert {id} <= slots.Keys;
    assert |slots.Keys - {id}| == |slots.Keys| - 1;
    assert slots.Keys - {id} == {};
  }

  function SaveOp(t: Tables, op: Operation): Tables { t.(ops := t.ops[op.id := op]) }

  // ---- Arming ----

  function ArmRefusal(op: Operation): Option<Refusal> {
    if !op.state.Armed? then Some(NotArmedYet)
    else if Blank(op.id) || Blank(op.nonce) then Some(MissingIdentity)
    else if Blank(op.slotId) || Blank(op.token) then Some(MissingOwner)
    else if Blank(op.expectedChrome) then Some(MissingChrome)
    else if !op.kind.CloseKind? && Blank(op.expectedUrl) then Some(MissingTarget)
    else None
  }

  function TargetRefusal(t: Tables, op: Operation): Option<Refusal> {
    if op.taskId !in t.tasks then Some(UnknownTask)
    else if op.workerId !in t.workers then Some(UnknownWorker)
    else if t.workers[op.workerId].taskId != op.taskId then Some(ForeignWorker)
    else if !t.workers[op.workerId].parked then Some(WorkerNotParked)
    else if !SameUrl(t.workers[op.workerId].url.text, op.target.text) then Some(TargetMoved)
    else None
  }

  ghost predicate DuplicateKey(t: Tables, op: Operation) {
    exists id :: id in t.ops && (id == op.id || t.ops[id].nonce == op.nonce)
  }

  ghost function Arm(t: Tables, op: Operation): Result<Tables, Refusal> {
    if ArmRefusal(op).Some? then Err(ArmRefusal(op).value)
    else if TargetRefusal(t, op).Some? then Err(TargetRefusal(t, op).value)
    else if SomeUnresolved(t.ops) then Err(FencedByUnresolved)
    else if 1 < |t.slots| then Err(ManySlots)
    else if op.kind.OpenKind? && (op.prior.Some? || Current(t.slots).Some?) then Err(SlotExists)
    else if !op.kind.OpenKind? && op.prior.None? then Err(MissingSnapshot)
    else if !op.kind.OpenKind? && Current(t.slots) != op.prior then Err(SlotChanged)
    else if DuplicateKey(t, op) then Err(DuplicateRow)
    else Ok(SaveOp(t, op))
  }

  // ---- Authority ----

  function AuthorizeClose(t: Tables, id: string, now: int): Result<Tables, Refusal> {
    if id !in t.ops then Err(UnknownOperation)
    else if t.ops[id].kind.OpenKind? then Err(NoClosePhase)
    else if !t.ops[id].state.Armed? then Err(NotArmed)
    else Ok(t.(ops := t.ops[id := t.ops[id].(state := CloseSubmitted, updatedAt := now)]))
  }

  predicate MayOpen(op: Operation) {
    (op.kind.OpenKind? && op.state.Armed?) || (op.kind.RotateKind? && op.state.ReadyToOpen?)
  }

  function AuthorizeOpen(t: Tables, id: string, now: int): Result<Tables, Refusal> {
    if id !in t.ops then Err(UnknownOperation)
    else if !MayOpen(t.ops[id]) then Err(NotReadyToOpen)
    else Ok(t.(ops := t.ops[id := t.ops[id].(state := OpenSubmitted, resume := None, updatedAt := now)]))
  }

  // ---- Completion ----

  predicate BindingFits(op: Operation, b: SlotBinding) {
    && b.slotId == op.slotId && b.token == op.token && b.workerId == op.workerId
    && SameUrl(b.target.text, op.target.text) && SameUrl(b.actualUrl, op.expectedUrl)
    && SameChrome(b.chrome, op.expectedChrome) && 0 < b.windowHandle && 0 < b.browserPid
  }

  function CompletedOp(op: Operation, ts: int, outcome: Option<ReconcileOutcome>, reconciled: bool): Operation {
    op.(state := Completed, resume := None, updatedAt := ts,
        lastOutcome := if outcome.Some? then outcome else op.lastOutcome,
        reconcileAttempts := if reconciled then op.reconcileAttempts + 1 else op.reconcileAttempts,
        lastReconcileAt := if reconciled then Some(ts) else op.lastReconcileAt)
  }

  function BindingRefusal(op: Operation, binding: Option<SlotBinding>): Option<Refusal> {
    if op.kind.CloseKind? then if binding.Some? then Some(UnexpectedBinding) else None
    else if binding.None? then Some(MissingBinding)
    else if !BindingFits(op, binding.value) then Some(WrongBinding)
    else None
  }

  ghost function SlotRefusal(slots: map<string, SlotBinding>, op: Operation): Option<Refusal> {
    if 1 < |slots| then Some(ManySlots)
    else if op.kind.OpenKind? then if Current(slots).Some? then Some(SlotAppeared) else None
    else if Current(slots) != op.prior then Some(SlotChangedMeanwhile) else None
  }

  function Published(slots: map<string, SlotBinding>, op: Operation,
                     binding: Option<SlotBinding>): map<string, SlotBinding>
    requires BindingRefusal(op, binding).None?
  {
    if op.kind.CloseKind? then slots - {op.slotId} else slots[binding.value.slotId := binding.value]
  }

  /** Publishes the new slot row, or deletes the closed one, together with COMPLETED. */
  ghost function CompleteLocked(
    t: Tables, op: Operation, binding: Option<SlotBinding>, ts: int,
    outcome: Option<ReconcileOutcome>, reconciled: bool): Result<Tables, Refusal>
  {
    if BindingRefusal(op, binding).Some? then Err(BindingRefusal(op, binding).value)
    else if SlotRefusal(t.slots, op).Some? then Err(SlotRefusal(t.slots, op).value)
    else Ok(SaveOp(t.(slots := Published(t.slots, op, binding)), CompletedOp(op, ts, outcome, reconciled)))
  }

  ghost function Complete(
    t: Tables, id: string, binding: Option<SlotBinding>, now: int,
    outcome: Option<ReconcileOutcome>): Result<Tables, Refusal>
  {
    if id !in t.ops then Err(UnknownOperation)
    else
      var op := t.ops[id];
      if op.state.Completed? then Ok(t)
      else if !Unresolved(op.state) then Err(AlreadyTerminal)
      else if !op.kind.CloseKind? && !op.state.OpenSubmitted? then Err(NoOpenAuthority)
      else if op.kind.CloseKind? && !op.state.CloseSubmitted? then Err(NoCloseAuthority)
      else CompleteLocked(t, op, binding, now, outcome, false)
  }

  function Fail(t: Tables, id: string, now: int): Result<Tables, Refusal> {
    if id !in t.ops then Err(UnknownOperation)
    else if !t.ops[id].state.Armed? then Err(AuthorityAlreadyIssued)
    else Ok(t.(ops := t.ops[id := t.ops[id].(state := Failed, updatedAt := now)]))
  }

  // ---- Reconciliation ----

  function Reconciled(op: Operation, obs: Observation, d: Decision): Operation {
    op.(state := d.next,
        resume := if !d.next.ReconcileRequired? then None
                  else if !op.state.ReconcileRequired? then Some(op.state) else op.resume,
        updatedAt := Max(op.updatedAt, obs.observedAt),
        reconcileAttempts := op.reconcileAttempts + 1,
        lastReconcileAt := Some(obs.observedAt),
        lastOutcome := Some(d.outcome))
  }

  ghost function Reconcile(t: Tables, id: string, obs: Observation, now: int): Result<Tables, Refusal> {
    if id !in t.ops then Err(UnknownOperation)
    else
      var op := t.ops[id];
      if !Unresolved(op.state) then Ok(t)
      else
        var d := Decide(op, obs, now);
        if d.next.Completed? then
          CompleteLocked(t, op, d.adopt, Max(op.updatedAt, obs.observedAt), Some(d.outcome), true)
        else Ok(t.(ops := t.ops[id := Reconciled(op, obs, d)]))
  }

  // ---- The operator's direct slot writes ----

  ghost function Bind(t: Tables, b: SlotBinding, ttl: int): Result<Tables, Refusal> {
    if SomeUnresolved(t.ops) then Err(FencedByUnresolved)
    else if b.workerId !in t.workers then Err(UnknownWorker)
    else if !t.workers[b.workerId].parked then Err(WorkerNotParked)
    else if exists id :: id in t.slots && id != b.slotId then Err(OtherSlot)
    else if Blank(b.slotId) || Blank(b.token) then Err(MissingOwner)
    else if b.windowHandle <= 0 || b.browserPid <= 0 then Err(MissingWindow)
    else if Blank(b.chrome) then Err(MissingChrome)
    else if !SameUrl(t.workers[b.workerId].url.text, b.target.text) then Err(TargetMoved)
    else
      var boundAt := if b.slotId in t.slots then t.slots[b.slotId].boundAt else b.observedAt;
      Ok(t.(slots := t.slots[b.slotId := b.(boundAt := boundAt, expiresAt := b.observedAt + Max(1, ttl))]))
  }

  ghost function Clear(t: Tables, slotId: string): Result<Tables, Refusal> {
    if SomeUnresolved(t.ops) then Err(FencedByUnresolved)
    else Ok(t.(slots := t.slots - {slotId}))
  }

  /** What a caller sees of a transaction: the new tables and the stored row, or the refusal and nothing changed. */
  ghost predicate Effect(before: Tables, after: Tables, spec: Result<Tables, Refusal>, id: string,
                         r: Result<Operation, Refusal>) {
    match spec
    case Ok(t) => after == t && id in t.ops && r == Ok(t.ops[id])
    case Err(e) => after == before && r == Err(e)
  }

  class Registry {
    var ops: map<string, Operation>
    var slots: map<string, SlotBinding>
    var workers: map<string, Worker>
    var tasks: set<string>

    constructor ()
      ensures View() == Tables(map[], map[], map[], {})
    {
      ops, slots, workers, tasks := map[], map[], map[], {};
    }

    ghost function View(): Tables
      reads this
    {
      Tables(ops, slots, workers, tasks)
    }

    /** Rows are stored under their own id, which every transaction keeps. */
    ghost predicate Keyed()
      reads this
    {
      forall id :: id in ops ==> ops[id].id == id
    }

    method UnresolvedExists() returns (found: bool)
      ensures found <==> SomeUnresolved(ops)
    {
      var todo := ops.Keys;
      while todo != {}
        invariant todo <= ops.Keys
        invariant forall id :: id in ops && id !in todo ==> !Unresolved(ops[id].state)
        decreases |todo|
      {
        var id :| id in todo;
        if Unresolved(ops[id].state) {
          return true;
        }
        todo := todo - {id};
      }
      return false;
    }

    method CurrentSlot() returns (current: Option<SlotBinding>)
      requires |slots| <= 1
      ensures current == Current(slots)
    {
      current := None;
      if slots.Keys != {} {
        var id :| id in slots.Keys;
        OnlyRow(slots, id);
        current := Some(slots[id]);
      } else {
        assert slots == map[];
      }
    }

    method KeyTaken(op: Operation) returns (taken: bool)
      ensures taken <==> DuplicateKey(View(), op)
    {
      var todo := ops.Keys;
      while todo != {}
        invariant todo <= ops.Keys
        invariant forall id :: id in ops && id !in todo ==> id != op.id && ops[id].nonce != op.nonce
        decreases |todo|
      {
        var id :| id in todo;
        if id == op.id || ops[id].nonce == op.nonce {
          return true;
        }
        todo := todo - {id};
      }
      return false;
    }

    method ArmOperation(op: Operation) returns (r: Result<Operation, Refusal>)
      requires Keyed()
      modifies this
      ensures Keyed() && Effect(old(View()), View(), Arm(old(View()), op), op.id, r)
    {
      var refusal := ArmRefusal(op);
      if refusal.Some? {
        return Err(refusal.value);
      }
      refusal := TargetRefusal(Tables(ops, slots, workers, tasks), op);
      if refusal.Some? {
        return Err(refusal.value);
      }
      var unresolved := UnresolvedExists();
      if unresolved {
        return Err(FencedByUnresolved);
      }
      if 1 < |slots| {
        return Err(ManySlots);
      }
      var current := CurrentSlot();
      if op.kind.OpenKind? {
        if op.prior.Some? || current.Some? {
          return Err(SlotExists);
        }
      } else {
        if op.prior.None? {
          return Err(MissingSnapshot);
        }
        if current != op.prior {
          return Err(SlotChanged);
        }
      }
      var taken := KeyTaken(op);
      if taken {
        return Err(DuplicateRow);
      }
      ops := ops[op.id := op];
      return Ok(ops[op.id]);
    }

    method AuthorizeProbeClose(id: string, now: int) returns (r: Result<Operation, Refusal>)
      requires Keyed()
      modifies this
      ensures Keyed() && Effect(old(View()), View(), AuthorizeClose(old(View()), id, now), id, r)
    {
      if id !in ops {
        return Err(UnknownOperation);
      }
      var op := ops[id];
      if !op.kind.RotateKind? && !op.kind.CloseKind? {
        return Err(NoClosePhase);
      }
      if !op.state.Armed? {
        return Err(NotArmed);
      }
      op := op.(state := CloseSubmitted);
      op := op.(updatedAt := now);
      ops := ops[id := op];
      return Ok(ops[id]);
    }

    method AuthorizeProbeOpen(id: string, now: int) returns (r: Result<Operation, Refusal>)
      requires Keyed()
      modifies this
      ensures Keyed() && Effect(old(View()), View(), AuthorizeOpen(old(View()), id, now), id, r)
    {
      if id !in ops {
        return Err(UnknownOperation);
      }
      var op := ops[id];
      if !((op.kind.OpenKind? && op.state.Armed?) || (op.kind.RotateKind? && op.state.ReadyToOpen?)) {
        return Err(NotReadyToOpen);
      }
      op := op.(state := OpenSubmitted);
      op := op.(resume := None);
      op := op.(updatedAt := now);
      ops := ops[id := op];
      return Ok(ops[id]);
    }

    method CheckSlot(op: Operation) returns (refusal: Option<Refusal>)
      ensures refusal == SlotRefusal(slots, op)
    {
      if 1 < |slots| {
        return Some(ManySlots);
      }
      var current := CurrentSlot();
      if op.kind.OpenKind? {
        return if current.Some? then Some(SlotAppeared) else None;
      }
      return if current != op.prior then Some(SlotChangedMeanwhile) else None;
    }

    /** Runs inside the caller's transaction; `Some` is the reason it raises, and then nothing has changed. */
    method CompleteLockedRow(
      op: Operation, binding: Option<SlotBinding>, ts: int, outcome: Option<ReconcileOutcome>, reconciled: bool)
      returns (refusal: Option<Refusal>)
      requires Keyed() && op.id in ops
      modifies this
      ensures Keyed() && op.id in ops
      ensures match CompleteLocked(old(View()), op, binding, ts, outcome, reconciled)
        case Ok(t) => View() == t && refusal == None
        case Err(e) => View() == old(View()) && refusal == Some(e)
    {
      refusal := BindingRefusal(op, binding);
      if refusal.Some? {
        return;
      }
      refusal := CheckSlot(op);
      if refusal.Some? {
        return;
      }
      if op.kind.CloseKind? {
        slots := slots - {op.slotId};
      } else {
        slots := slots[binding.value.slotId := binding.value];
      }
      var row := op.(state := Completed, resume := None, updatedAt := ts);
      if outcome.Some? {
        row := row.(lastOutcome := outcome);
      }
      if reconciled {
        row := row.(reconcileAttempts := row.reconcileAttempts + 1, lastReconcileAt := Some(ts));
      }
      ops := ops[op.id := row];
    }

    method CompleteOperation(id: string, binding: Option<SlotBinding>, now: int, outcome: Option<ReconcileOutcome>)
      returns (r: Result<Operation, Refusal>)
      requires Keyed()
      modifies this
      ensures Keyed() && Effect(old(View()), View(), Complete(old(View()), id, binding, now, outcome), id, r)
    {
      if id !in ops {
        return Err(UnknownOperation);
      }
      var op := ops[id];
      if op.state.Completed? {
        return Ok(op);
      }
      if !Unresolved(op.state) {
        return Err(AlreadyTerminal);
      }
      if op.kind.OpenKind? || op.kind.RotateKind? {
        if !op.state.OpenSubmitted? {
          return Err(NoOpenAuthority);
        }
      } else if !op.state.CloseSubmitted? {
        return Err(NoCloseAuthority);
      }
      var refusal := CompleteLockedRow(op, binding, now, outcome, false);
      if refusal.Some? {
        return Err(refusal.value);
      }
      return Ok(ops[id]);
    }

    method FailOperation(id: string, now: int) returns (r: Result<Operation, Refusal>)
      requires Keyed()
      modifies this
      ensures Keyed() && Effect(old(View()), View(), Fail(old(View()), id, now), id, r)
    {
      if id !in ops {
        return Err(UnknownOperation);
      }
      var op := ops[id];
      if !op.state.Armed? {
        return Err(AuthorityAlreadyIssued);
      }
      op := op.(state := Failed);
      op := op.(updatedAt := now);
      ops := ops[id := op];
      return Ok(ops[id]);
    }

    method ReconcileOperation(id: string, obs: Observation, now: int) returns (r: Result<Operation, Refusal>)
      requires Keyed()
      modifies this
      ensures Keyed() && Effect(old(View()), View(), Reconcile(old(View()), id, obs, now), id, r)
    {
      if id !in ops {
        return Err(UnknownOperation);
      }
      var op := ops[id];
      if !Unresolved(op.state) {
        return Ok(op);
      }
      var d := Decide(op, obs, now);
      if d.next.Completed? {
        var refusal := CompleteLockedRow(op, d.adopt, Max(op.updatedAt, obs.observedAt), Some(d.outcome), true);
        if refusal.Some? {
          return Err(refusal.value);
        }
        return Ok(ops[id]);
      }
      if d.next.ReconcileRequired? {
        if !op.state.ReconcileRequired? {
          op := op.(resume := Some(op.state));
        }
      } else {
        op := op.(resume := None);
      }
      op := op.(state := d.next);
      op := op.(updatedAt := Max(op.updatedAt, obs.observedAt));
      op := op.(reconcileAttempts := op.reconcileAttempts + 1);
      op := op.(lastReconcileAt := Some(obs.observedAt));
      op := op.(lastOutcome := Some(d.outcome));
      ops := ops[id := op];
      return Ok(op);
    }

    /** `b` carries the caller's arguments; the stored row keeps the first bind time of an existing slot. */
    method BindSlot(b: SlotBinding, ttl: int) returns (r: Result<SlotBinding, Refusal>)
      modifies this
      ensures match Bind(old(View()), b, ttl)
        case Ok(t) => View() == t && b.slotId in slots && r == Ok(slots[b.slotId])
        case Err(e) => View() == old(View()) && r == Err(e)
    {
      var unresolved := UnresolvedExists();
      if unresolved {
        return Err(FencedByUnresolved);
      }
      if b.workerId !in workers {
        return Err(UnknownWorker);
      }
      if !workers[b.workerId].parked {
        return Err(WorkerNotParked);
      }
      var others := slots.Keys - {b.slotId};
      if others != {} {
        var other :| other in others;
        assert other in slots && other != b.slotId;
        return Err(OtherSlot);
      }
      assert forall id :: id in slots && id != b.slotId ==> id in others;
      if Blank(b.slotId) || Blank(b.token) {
        return Err(MissingOwner);
      }
      if b.windowHandle <= 0 || b.browserPid <= 0 {
        return Err(MissingWindow);
      }
      if Blank(b.chrome) {
        return Err(MissingChrome);
      }
      if !SameUrl(workers[b.workerId].url.text, b.target.text) {
        return Err(TargetMoved);
      }
      var boundAt := if b.slotId in slots then slots[b.slotId].boundAt else b.observedAt;
      slots := slots[b.slotId := b.(boundAt := boundAt, expiresAt := b.observedAt + Max(1, ttl))];
      return Ok(slots[b.slotId]);
    }

    method ClearSlot(slotId: string) returns (r: Result<bool, Refusal>)
      modifies this
      ensures match Clear(old(View()), slotId)
        case Ok(t) => View() == t && r == Ok(slotId in old(slots))
        case Err(e) => View() == old(View()) && r == Err(e)
    {
      var unresolved := UnresolvedExists();
      if unresolved {
        return Err(FencedByUnresolved);
      }
      var present := slotId in slots;
      slots := slots - {slotId};
      return Ok(present);
    }
  }
}
