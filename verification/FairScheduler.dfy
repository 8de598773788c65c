/**
 Fair selection of bounded work: one planning cycle, and what repeated cycles guarantee.

 Task ids enter by their place in text order.  `evaluate` stands for the gates that classify one task.
 */
module FairScheduler {
  import opened Prelude

  datatype Kind = Observe | Reconcile | RecommendAction | WaitCooldown | BlockedHuman

  datatype TaskState = Recovering | Reconciling | Suspect | OtherState

  datatype Item = Item(
    id: int, createdAt: int, lastScheduledAt: Option<int>, state: TaskState, consecutiveWaits: int, historyKnown: bool)

  datatype Policy = Policy(baseBackoff: int, maxBackoff: int, maxSelected: int)

  datatype Decision = Decision(id: int, kind: Kind, selected: bool, retryAfter: Option<int>, deferred: Option<Kind>)

  predicate ActionableKind(kind: Kind) { kind.Reconcile? || kind.RecommendAction? }

  // ---- Backoff ----

  function Pow2(n: nat): (r: nat)
    ensures 1 <= r
  {
    if n == 0 then 1 else 2 * Pow2(n - 1)
  }

  /** In tenths of a second. */
  function BoundedBackoff(policy: Policy, waits: int): int {
    var base := Max(1, policy.baseBackoff);
    Min(Max(base, policy.maxBackoff), base * Pow2(Min(16, Max(0, waits))))
  }

  lemma {:induction false} Pow2Grows(m: nat, n: nat)
    requires m <= n
    ensures Pow2(m) <= Pow2(n)
  {
    if m < n {
      Pow2Grows(m, n - 1);
    }
  }

  /** The backoff starts at the base, never shrinks with more waits and never exceeds the maximum. */
  lemma BackoffIsBounded(policy: Policy, waits: int, more: int)
    requires waits <= more
    ensures Max(1, policy.baseBackoff) <= BoundedBackoff(policy, waits) <= BoundedBackoff(policy, more)
    ensures BoundedBackoff(policy, more) <= Max(Max(1, policy.baseBackoff), policy.maxBackoff)
  {
    var base, m, n := Max(1, policy.baseBackoff), Min(16, Max(0, waits)), Min(16, Max(0, more));
    Pow2Grows(m, n);
    assert base <= base * Pow2(m) <= base * Pow2(n) by {
      Scales(base, 1, Pow2(m));
      Scales(base, Pow2(m), Pow2(n));
    }
  }

  /** Each further wait doubles the backoff until the maximum is reached; from the sixteenth on it stays. */
  lemma BackoffDoubles(policy: Policy, waits: int)
    ensures waits <= 0 ==> BoundedBackoff(policy, waits) == Max(1, policy.baseBackoff)
    ensures 0 <= waits < 16 ==>
      BoundedBackoff(policy, waits + 1) ==
        Min(Max(Max(1, policy.baseBackoff), policy.maxBackoff), 2 * BoundedBackoff(policy, waits))
    ensures 16 <= waits ==> BoundedBackoff(policy, waits) == BoundedBackoff(policy, 16)
  {
    var base := Max(1, policy.baseBackoff);
    if 0 <= waits < 16 {
      assert base * Pow2(waits + 1) == 2 * (base * Pow2(waits));
      assert base <= base * Pow2(waits) by { Scales(base, 1, Pow2(waits)); }
    }
  }

  lemma Scales(base: int, a: int, b: int)
    requires 0 <= base && a <= b
    ensures base * a <= base * b
  {
  }

  // ---- Fairness order ----

  function Stamp(item: Item): int { if item.lastScheduledAt.Some? then item.lastScheduledAt.value else item.createdAt }

  function StateRank(state: TaskState): nat {
    match state
    case Recovering => 0
    case Reconciling => 1
    case Suspect => 2
    case OtherState => 99
  }

  /** Older service first, then the task state, then the id. */
  predicate Before(a: Item, b: Item) {
    || Stamp(a) < Stamp(b)
    || (Stamp(a) == Stamp(b)
        && (StateRank(a.state) < StateRank(b.state) || (StateRank(a.state) == StateRank(b.state) && a.id < b.id)))
  }

  /** `c` got a slot and `d`, with a known history, did not: what their own fields then say. */
  ghost predicate ServedFirst(c: Item, d: Item) {
    var since := if c.lastScheduledAt.Some? then c.lastScheduledAt.value else c.createdAt;
    var until := if d.lastScheduledAt.Some? then d.lastScheduledAt.value else d.createdAt;
    && since <= until
    && (since == until ==>
          && (c.state == d.state ==> c.id < d.id)
          && (d.state.Recovering? ==> c.state.Recovering?)
          && (d.state.Reconciling? ==> c.state.Recovering? || c.state.Reconciling?)
          && (d.state.Suspect? ==> !c.state.OtherState?))
  }

  ghost predicate Keyed(tasks: map<int, Item>) { forall id :: id in tasks ==> tasks[id].id == id }

  /** `chosen` is the fair choice of `k` tasks: as many as there are, up to `k`, and none after one left out. */
  ghost predicate Chosen(tasks: map<int, Item>, chosen: set<int>, k: nat) {
    && chosen <= tasks.Keys
    && |chosen| == Min(|tasks.Keys|, k)
    && forall c, d :: c in chosen && d in tasks && d !in chosen ==> Before(tasks[c], tasks[d])
  }

  // ---- Repeated cycles ----

  datatype Cycle = Cycle(chosen: set<int>, now: int)

  function Restamped(tasks: map<int, Item>, c: Cycle): map<int, Item> {
    map id | id in tasks :: if id in c.chosen then tasks[id].(lastScheduledAt := Some(c.now)) else tasks[id]
  }

  /** Each cycle chooses fairly among the same tasks and stamps the chosen with a time later than every stamp. */
  ghost predicate FairRun(tasks: map<int, Item>, cycles: seq<Cycle>, k: nat) {
    cycles == [] ||
    (&& Chosen(tasks, cycles[0].chosen, k)
     && (forall id :: id in tasks ==> Stamp(tasks[id]) < cycles[0].now)
     && FairRun(Restamped(tasks, cycles[0]), cycles[1..], k))
  }

  ghost function Ahead(tasks: map<int, Item>, t: int): set<int>
    requires t in tasks
  {
    set id | id in tasks && Before(tasks[id], tasks[t])
  }

  /** A task that is left out has everyone chosen ahead of it, and afterwards behind it. */
  lemma PassedOver(tasks: map<int, Item>, c: Cycle, k: nat, t: int)
    requires Keyed(tasks) && Chosen(tasks, c.chosen, k) && t in tasks && t !in c.chosen
    requires forall id :: id in tasks ==> Stamp(tasks[id]) < c.now
    ensures |Ahead(Restamped(tasks, c), t)| == |Ahead(tasks, t)| - k
  {
    SubsetSize(c.chosen + {t}, tasks.Keys);
    forall id | id in c.chosen
      ensures id in Ahead(tasks, t)
    {
      assert id in tasks && Before(tasks[id], tasks[t]);
    }
    var after := Restamped(tasks, c);
    forall id
      ensures id in Ahead(after, t) <==> id in Ahead(tasks, t) - c.chosen
    {
      if id in tasks && id in c.chosen {
        assert Stamp(after[id]) == c.now && Stamp(after[t]) < c.now;
      }
    }
    assert Ahead(after, t) == Ahead(tasks, t) - c.chosen;
  }

  lemma {:induction false} WaitingShrinks(tasks: map<int, Item>, cycles: seq<Cycle>, k: nat, t: int)
    requires Keyed(tasks) && FairRun(tasks, cycles, k) && t in tasks && |Ahead(tasks, t)| < |cycles| * k
    ensures exists j :: 0 <= j < |cycles| && t in cycles[j].chosen
    decreases |cycles|
  {
    if t !in cycles[0].chosen {
      PassedOver(tasks, cycles[0], k, t);
      assert |cycles[1..]| * k == |cycles| * k - k;
      WaitingShrinks(Restamped(tasks, cycles[0]), cycles[1..], k, t);
      var j :| 0 <= j < |cycles[1..]| && t in cycles[1..][j].chosen;
      assert t in cycles[j + 1].chosen;
    }
  }

  /**
   With n tasks that stay actionable and k slots a cycle, every task is chosen within any n/k cycles,
   rounded up, whatever its stamp was when they began.
   */
  lemma BoundedWaiting(tasks: map<int, Item>, cycles: seq<Cycle>, k: nat, t: int)
    requires Keyed(tasks) && FairRun(tasks, cycles, k) && t in tasks && 1 <= k
    requires (|tasks.Keys| + k - 1) / k <= |cycles|
    ensures exists j :: 0 <= j < |cycles| && t in cycles[j].chosen
  {
    SubsetSize(Ahead(tasks, t) + {t}, tasks.Keys);
    EnoughSlots(|tasks.Keys|, k, |cycles|);
    WaitingShrinks(tasks, cycles, k, t);
  }

  lemma EnoughSlots(n: nat, k: nat, cycles: nat)
    requires 1 <= k && (n + k - 1) / k <= cycles
    ensures n <= cycles * k
  {
    var m := (n + k - 1) / k;
    assert n + k - 1 == m * k + (n + k - 1) % k;
    Scales(k, m, cycles);
  }

  // ---- One cycle ----

  function First(items: seq<Item>, id: int): (r: Option<Item>)
    ensures r.None? <==> forall i :: 0 <= i < |items| ==> items[i].id != id
    ensures r.Some? ==> r.value in items && r.value.id == id
  {
    if items == [] then None else if items[0].id == id then Some(items[0]) else First(items[1..], id)
  }

  ghost predicate Duplicate(items: seq<Item>, id: int) {
    exists i, j :: 0 <= i < j < |items| && items[i].id == id && items[j].id == id
  }

  /** A task given twice is never acted on as it was evaluated: the caller's state has to be reconciled. */
  ghost function Verdict(items: seq<Item>, evaluate: (Item, int) -> Kind, now: int, id: int): Kind
    requires First(items, id).Some?
  {
    if Duplicate(items, id) then Reconcile else evaluate(First(items, id).value, now)
  }

  /** The tasks that compete for a slot: actionable, and with a known scheduling history. */
  ghost predicate Competes(items: seq<Item>, evaluate: (Item, int) -> Kind, now: int, id: int) {
    First(items, id).Some? && ActionableKind(Verdict(items, evaluate, now, id)) && First(items, id).value.historyKnown
  }

  ghost function Competing(items: seq<Item>, evaluate: (Item, int) -> Kind, now: int): map<int, Item> {
    map id | id in IdsOf(items) && Competes(items, evaluate, now, id) :: First(items, id).value
  }

  /** What a task is told: chosen, deferred with a backoff, withheld for want of history, or its own verdict. */
  ghost predicate Told(items: seq<Item>, evaluate: (Item, int) -> Kind, now: int, policy: Policy, chosen: set<int>,
                       d: Decision) {
    && First(items, d.id).Some?
    && var verdict := Verdict(items, evaluate, now, d.id);
       var item := First(items, d.id).value;
       if ActionableKind(verdict) && !item.historyKnown then
         d == Decision(d.id, WaitCooldown, false, Some(Max(1, policy.maxBackoff)), Some(verdict))
       else if d.id in chosen then d == Decision(d.id, verdict, true, None, None)
       else if ActionableKind(verdict) then
         d == Decision(d.id, WaitCooldown, false, Some(BoundedBackoff(policy, item.consecutiveWaits)), Some(verdict))
       else d == Decision(d.id, verdict, false, None, None)
  }

  function InsertItem(items: seq<Item>, x: Item): (r: seq<Item>) {
    if items == [] || Before(x, items[0]) then [x] + items else [items[0]] + InsertItem(items[1..], x)
  }

  ghost predicate Sorted(items: seq<Item>) {
    forall i, j :: 0 <= i < j < |items| ==> Before(items[i], items[j])
  }

  lemma {:induction false} InsertItemSorts(items: seq<Item>, x: Item)
    requires Sorted(items) && forall i :: 0 <= i < |items| ==> items[i].id != x.id
    ensures Sorted(InsertItem(items, x)) && |InsertItem(items, x)| == |items| + 1
    ensures forall y :: y in InsertItem(items, x) <==> y in items || y == x
  {
    if items == [] || Before(x, items[0]) {
      assert InsertItem(items, x) == [x] + items;
    } else {
      var rest := InsertItem(items[1..], x);
      InsertItemSorts(items[1..], x);
      assert items == [items[0]] + items[1..];
      assert InsertItem(items, x) == [items[0]] + rest;
      assert forall y :: y in rest ==> Before(items[0], y);
    }
  }

  function IdsOf(items: seq<Item>): (r: set<int>)
    ensures forall x :: x in r <==> exists i :: 0 <= i < |items| && items[i].id == x
  {
    set i | 0 <= i < |items| :: items[i].id
  }

  lemma {:induction false} DistinctCount(items: seq<Item>)
    requires forall i, j :: 0 <= i < j < |items| ==> items[i].id != items[j].id
    ensures |IdsOf(items)| == |items|
  {
    if items == [] {
      assert IdsOf(items) == {};
    } else {
      var last := |items| - 1;
      DistinctCount(items[..last]);
      assert IdsOf(items) == IdsOf(items[..last]) + {items[last].id};
    }
  }

  ghost predicate Lists(tasks: map<int, Item>, sorted: seq<Item>) {
    forall y :: y in sorted <==> y.id in tasks && tasks[y.id] == y
  }

  lemma ListedIds(tasks: map<int, Item>, sorted: seq<Item>)
    requires Keyed(tasks) && Sorted(sorted) && Lists(tasks, sorted)
    ensures forall i, j :: 0 <= i < j < |sorted| ==> sorted[i].id != sorted[j].id
    ensures IdsOf(sorted) == tasks.Keys
  {
    forall i, j | 0 <= i < j < |sorted|
      ensures sorted[i].id != sorted[j].id
    {
      assert sorted[i] in sorted && sorted[j] in sorted && Before(sorted[i], sorted[j]);
    }
    forall id
      ensures id in IdsOf(sorted) <==> id in tasks
    {
      if id in tasks {
        assert tasks[id] in sorted;
      }
      if i :| 0 <= i < |sorted| && sorted[i].id == id {
        assert sorted[i] in sorted;
      }
    }
  }

  lemma PrefixComesFirst(tasks: map<int, Item>, sorted: seq<Item>, k: nat, c: int, d: int)
    requires Sorted(sorted) && Lists(tasks, sorted) && k <= |sorted|
    requires c in IdsOf(sorted[..k]) && d in tasks && d !in IdsOf(sorted[..k])
    ensures c in tasks && Keyed(tasks) ==> Before(tasks[c], tasks[d])
  {
    var i :| 0 <= i < k && sorted[..k][i].id == c;
    assert sorted[i] in sorted;
    assert forall j :: 0 <= j < k ==> sorted[..k][j] == sorted[j] && sorted[..k][j].id in IdsOf(sorted[..k]);
    if Keyed(tasks) {
      assert tasks[d] in sorted;
      var j :| 0 <= j < |sorted| && sorted[j] == tasks[d];
    }
  }

  lemma PrefixCounts(tasks: map<int, Item>, sorted: seq<Item>, k: nat)
    requires Keyed(tasks) && Sorted(sorted) && Lists(tasks, sorted) && k <= |sorted|
    ensures IdsOf(sorted) == tasks.Keys && |tasks.Keys| == |sorted| && |IdsOf(sorted[..k])| == k
  {
    ListedIds(tasks, sorted);
    DistinctCount(sorted);
    DistinctCount(sorted[..k]);
  }

  lemma ChosenAreServedFirst(tasks: map<int, Item>, chosen: set<int>, k: nat)
    requires Chosen(tasks, chosen, k)
    ensures forall c, d :: c in chosen && d in tasks && d !in chosen ==> ServedFirst(tasks[c], tasks[d])
  {
    forall c, d | c in chosen && d in tasks && d !in chosen ensures ServedFirst(tasks[c], tasks[d]) {
      assert Before(tasks[c], tasks[d]);
    }
  }

  /** Taking the first `k` of the sorted competitors is the fair choice. */
  lemma PrefixIsChosen(tasks: map<int, Item>, sorted: seq<Item>, k: nat)
    requires Keyed(tasks) && Sorted(sorted) && Lists(tasks, sorted) && k <= |sorted|
    ensures Chosen(tasks, IdsOf(sorted[..k]), k) && |tasks.Keys| == |sorted|
    ensures forall c, d :: c in IdsOf(sorted[..k]) && d in tasks && d !in IdsOf(sorted[..k]) ==>
      ServedFirst(tasks[c], tasks[d])
  {
    PrefixIsBest(tasks, sorted, k);
    ChosenAreServedFirst(tasks, IdsOf(sorted[..k]), k);
  }

  lemma PrefixIsBest(tasks: map<int, Item>, sorted: seq<Item>, k: nat)
    requires Keyed(tasks) && Sorted(sorted) && Lists(tasks, sorted) && k <= |sorted|
    ensures Chosen(tasks, IdsOf(sorted[..k]), k) && |tasks.Keys| == |sorted|
  {
    PrefixCounts(tasks, sorted, k);
    PrefixIsListed(tasks, sorted, k);
    var chosen := IdsOf(sorted[..k]);
    forall c, d | c in chosen && d in tasks && d !in chosen
      ensures Before(tasks[c], tasks[d])
    {
      PrefixComesFirst(tasks, sorted, k, c, d);
    }
  }

  lemma PrefixIsListed(tasks: map<int, Item>, sorted: seq<Item>, k: nat)
    requires Lists(tasks, sorted) && k <= |sorted|
    ensures IdsOf(sorted[..k]) <= tasks.Keys
  {
    forall id | id in IdsOf(sorted[..k])
      ensures id in tasks.Keys
    {
      var i :| 0 <= i < k && sorted[..k][i].id == id;
      assert sorted[i] in sorted;
    }
  }

  // ---- The planning cycle ----

  /** The first item of every task, and the ids that came more than once. */
  method Canonicalize(items: seq<Item>) returns (unique: map<int, Item>, duplicates: set<int>)
    ensures forall id :: id in unique <==> First(items, id).Some?
    ensures forall id :: id in unique ==> unique[id] == First(items, id).value
    ensures forall id :: id in duplicates <==> Duplicate(items, id)
  {
    unique, duplicates := map[], {};
    var n := 0;
    while n < |items|
      invariant 0 <= n <= |items|
      invariant forall id :: id in unique <==> First(items[..n], id).Some?
      invariant forall id :: id in unique ==> unique[id] == First(items[..n], id).value
      invariant forall id :: id in duplicates <==> Duplicate(items[..n], id)
    {
      var item := items[n];
      assert items[..n + 1] == items[..n] + [item];
      forall id
        ensures First(items[..n + 1], id) == if First(items[..n], id).Some? then First(items[..n], id)
          else First([item], id)
      {
        FirstOfConcat(items[..n], [item], id);
      }
      forall id
        ensures Duplicate(items[..n + 1], id)
          <==> Duplicate(items[..n], id) || (id == item.id && First(items[..n], id).Some?)
      {
        DuplicateExtends(items[..n], item, id);
      }
      if item.id in unique {
        duplicates := duplicates + {item.id};
      } else {
        unique := unique[item.id := item];
      }
      n := n + 1;
    }
    assert items[..n] == items;
  }

  lemma {:induction false} FirstOfConcat(a: seq<Item>, b: seq<Item>, id: int)
    ensures First(a + b, id) == if First(a, id).Some? then First(a, id) else First(b, id)
  {
    if a == [] {
      assert a + b == b;
    } else {
      assert (a + b)[0] == a[0] && (a + b)[1..] == a[1..] + b;
      FirstOfConcat(a[1..], b, id);
    }
  }

  lemma DuplicateExtends(a: seq<Item>, x: Item, id: int)
    ensures Duplicate(a + [x], id) <==> Duplicate(a, id) || (id == x.id && First(a, id).Some?)
  {
    var b := a + [x];
    if Duplicate(b, id) {
      var i, j :| 0 <= i < j < |b| && b[i].id == id && b[j].id == id;
      if j < |a| {
        assert a[i].id == id && a[j].id == id;
      } else {
        assert a[i].id == id;
      }
    }
    if Duplicate(a, id) {
      var i, j :| 0 <= i < j < |a| && a[i].id == id && a[j].id == id;
      assert b[i].id == id && b[j].id == id;
    }
    if id == x.id && First(a, id).Some? {
      var i :| 0 <= i < |a| && a[i].id == id;
      assert b[i].id == id && b[|a|].id == id;
    }
  }

  ghost predicate Ascending(order: seq<int>) {
    forall i, j :: 0 <= i < j < |order| ==> order[i] < order[j]
  }

  function InsertId(order: seq<int>, id: int): (r: seq<int>)
    ensures forall x :: x in r <==> x in order || x == id
  {
    if order == [] || id < order[0] then [id] + order
    else
      assert order == [order[0]] + order[1..];
      [order[0]] + InsertId(order[1..], id)
  }

  lemma {:induction false} InsertIdAscends(order: seq<int>, id: int)
    requires Ascending(order) && id !in order
    ensures Ascending(InsertId(order, id))
  {
    if order != [] && order[0] < id {
      var rest := InsertId(order[1..], id);
      assert order == [order[0]] + order[1..];
      InsertIdAscends(order[1..], id);
      forall i | 0 <= i < |rest|
        ensures order[0] < rest[i]
      {
        assert rest[i] in rest;
      }
      assert InsertId(order, id) == [order[0]] + rest;
    }
  }

  /** The ids of all items, once each, in ascending order. */
  method SortedIds(items: seq<Item>) returns (order: seq<int>)
    ensures Ascending(order)
    ensures forall id :: id in order <==> First(items, id).Some?
  {
    order := [];
    var n := 0;
    while n < |items|
      invariant 0 <= n <= |items|
      invariant Ascending(order)
      invariant forall id :: id in order <==> exists m :: 0 <= m < n && items[m].id == id
    {
      if items[n].id !in order {
        InsertIdAscends(order, items[n].id);
        order := InsertId(order, items[n].id);
      }
      n := n + 1;
    }
  }

  /** The competitors, sorted by fairness. */
  method SortCompetitors(
    order: seq<int>, unique: map<int, Item>, duplicates: set<int>, evaluate: (Item, int) -> Kind, now: int,
    ghost items: seq<Item>)
    returns (sorted: seq<Item>)
    requires Ascending(order)
    requires forall id :: id in order <==> id in unique
    requires forall id :: id in unique <==> First(items, id).Some?
    requires forall id :: id in unique ==> unique[id] == First(items, id).value
    requires forall id :: id in duplicates <==> Duplicate(items, id)
    ensures Sorted(sorted)
    ensures forall y :: y in sorted <==> Competes(items, evaluate, now, y.id) && First(items, y.id).value == y
  {
    sorted := [];
    var n := 0;
    while n < |order|
      invariant 0 <= n <= |order|
      invariant Sorted(sorted)
      invariant forall y ::
        y in sorted <==> y.id in order[..n] && Competes(items, evaluate, now, y.id) && First(items, y.id).value == y
    {
      var id := order[n];
      assert order[..n + 1] == order[..n] + [id];
      assert id in order && id !in order[..n];
      var item := unique[id];
      var kind := if id in duplicates then Reconcile else evaluate(item, now);
      if ActionableKind(kind) && item.historyKnown {
        assert forall i :: 0 <= i < |sorted| ==> sorted[i] in sorted && sorted[i].id != id;
        InsertItemSorts(sorted, item);
        sorted := InsertItem(sorted, item);
      }
      n := n + 1;
    }
    assert order[..n] == order;
  }

  ghost function SelectedIds(decisions: seq<Decision>): set<int> {
    set i | 0 <= i < |decisions| && decisions[i].selected :: decisions[i].id
  }

  /** The task asks for work this cycle: its input is ambiguous, or its gates ask for a reconciliation or an action. */
  ghost predicate AsksForWork(items: seq<Item>, evaluate: (Item, int) -> Kind, now: int, id: int)
    requires First(items, id).Some?
  {
    Duplicate(items, id) || evaluate(First(items, id).value, now).Reconcile?
      || evaluate(First(items, id).value, now).RecommendAction?
  }

  /** What one decision means for its task, by the task's own fields. */
  ghost predicate Honours(items: seq<Item>, evaluate: (Item, int) -> Kind, now: int, policy: Policy, d: Decision) {
    && First(items, d.id).Some?
    && var item := First(items, d.id).value;
       var verdict := if Duplicate(items, d.id) then Reconcile else evaluate(item, now);
       && (d.selected ==> AsksForWork(items, evaluate, now, d.id) && item.historyKnown && d.kind == verdict)
       && (d.deferred.Some? <==> AsksForWork(items, evaluate, now, d.id) && !d.selected)
       && (d.deferred.Some? ==> d.kind.WaitCooldown? && d.deferred.value == verdict)
       && (d.deferred.Some? && !item.historyKnown ==> d.retryAfter == Some(Max(1, policy.maxBackoff)))
       && (d.deferred.Some? && item.historyKnown ==>
             d.retryAfter == Some(BoundedBackoff(policy, item.consecutiveWaits)))
       && (d.deferred.None? ==> d.kind == verdict && d.retryAfter.None?)
  }

  /** A competitor that got no slot, as opposed to a task withheld for want of history. */
  ghost predicate Lost(items: seq<Item>, d: Decision) {
    d.deferred.Some? && First(items, d.id).Some? && First(items, d.id).value.historyKnown
  }

  ghost predicate FairTo(items: seq<Item>, c: Decision, d: Decision) {
    c.selected && Lost(items, d) ==>
      First(items, c.id).Some? && ServedFirst(First(items, c.id).value, First(items, d.id).value)
  }

  lemma CompetitorIsListed(items: seq<Item>, evaluate: (Item, int) -> Kind, now: int, id: int)
    requires Competes(items, evaluate, now, id)
    ensures id in Competing(items, evaluate, now) && Competing(items, evaluate, now)[id] == First(items, id).value
  {
    var i :| 0 <= i < |items| && items[i].id == id;
  }

  lemma ChoiceIsFair(items: seq<Item>, tasks: map<int, Item>, chosen: set<int>, k: nat, c: Decision, d: Decision)
    requires Chosen(tasks, chosen, k) && d.id in tasks && d.id !in chosen
    requires forall id :: id in tasks ==> First(items, id) == Some(tasks[id])
    ensures c.id in chosen ==> FairTo(items, c, d)
    ensures |chosen| == k
  {
    if c.id in chosen {
      assert Before(tasks[c.id], tasks[d.id]);
    }
    SubsetSize(chosen + {d.id}, tasks.Keys);
  }

  lemma LoserCompeted(items: seq<Item>, evaluate: (Item, int) -> Kind, now: int, policy: Policy, chosen: set<int>,
                      d: Decision)
    requires Told(items, evaluate, now, policy, chosen, d) && Lost(items, d)
    ensures d.id in Competing(items, evaluate, now) && d.id !in chosen
  {
    CompetitorIsListed(items, evaluate, now, d.id);
  }

  /** One cycle: every task once, in id order, each told its part; the selected tasks are the fair choice. */
  method PlanOrchestration(items: seq<Item>, evaluate: (Item, int) -> Kind, now: int, policy: Policy)
    returns (decisions: seq<Decision>, ghost chosen: set<int>)
    ensures forall i :: 0 <= i < |decisions| ==> Honours(items, evaluate, now, policy, decisions[i])
    ensures forall c, d :: c in decisions && d in decisions ==> FairTo(items, c, d)
    ensures |chosen| <= Max(0, policy.maxSelected)
    ensures (exists d :: d in decisions && Lost(items, d)) ==> |chosen| == Max(0, policy.maxSelected)
    ensures Chosen(Competing(items, evaluate, now), chosen, Max(0, policy.maxSelected))
    ensures forall i :: 0 <= i < |decisions| ==> Told(items, evaluate, now, policy, chosen, decisions[i])
    ensures forall i, j :: 0 <= i < j < |decisions| ==> decisions[i].id < decisions[j].id
    ensures forall i :: 0 <= i < |items| ==> exists j :: 0 <= j < |decisions| && decisions[j].id == items[i].id
    ensures SelectedIds(decisions) == chosen
  {
    var unique, duplicates := Canonicalize(items);
    var order := SortedIds(items);
    var sorted := SortCompetitors(order, unique, duplicates, evaluate, now, items);
    var k := Min(|sorted|, Max(0, policy.maxSelected));
    var selected := IdsOf(sorted[..k]);
    ghost var tasks := Competing(items, evaluate, now);
    chosen := selected;
    CompetitorsAreSorted(items, evaluate, now, sorted);
    PrefixIsChosen(tasks, sorted, k);
    decisions := TellAll(order, unique, duplicates, selected, evaluate, now, policy, items);
    forall i | 0 <= i < |items|
      ensures exists j :: 0 <= j < |decisions| && decisions[j].id == items[i].id
    {
      assert items[i].id in order;
    }
    forall id | First(items, id).Some?
      ensures exists j :: 0 <= j < |decisions| && decisions[j].id == id
    {
      assert id in order;
    }
    SelectedAreChosen(items, evaluate, now, policy, chosen, decisions);
    PlanHonours(items, evaluate, now, policy, chosen, decisions);
  }

  lemma PlanHonours(items: seq<Item>, evaluate: (Item, int) -> Kind, now: int, policy: Policy, chosen: set<int>,
                    decisions: seq<Decision>)
    requires Chosen(Competing(items, evaluate, now), chosen, Max(0, policy.maxSelected))
    requires forall i :: 0 <= i < |decisions| ==> Told(items, evaluate, now, policy, chosen, decisions[i])
    ensures forall i :: 0 <= i < |decisions| ==> Honours(items, evaluate, now, policy, decisions[i])
    ensures forall c, d :: c in decisions && d in decisions ==> FairTo(items, c, d)
    ensures (exists d :: d in decisions && Lost(items, d)) ==> |chosen| == Max(0, policy.maxSelected)
  {
    forall j | 0 <= j < |decisions| ensures Honours(items, evaluate, now, policy, decisions[j]) {
      ToldHonours(items, evaluate, now, policy, chosen, decisions[j]);
    }
    forall c, d | c in decisions && d in decisions ensures FairTo(items, c, d) {
      if c.selected && Lost(items, d) {
        LoserIsServedLater(items, evaluate, now, policy, chosen, c, d);
      }
    }
    forall d | d in decisions && Lost(items, d) ensures |chosen| == Max(0, policy.maxSelected) {
      LoserIsServedLater(items, evaluate, now, policy, chosen, d, d);
    }
  }

  lemma LoserIsServedLater(items: seq<Item>, evaluate: (Item, int) -> Kind, now: int, policy: Policy, chosen: set<int>,
                           c: Decision, d: Decision)
    requires Chosen(Competing(items, evaluate, now), chosen, Max(0, policy.maxSelected))
    requires Told(items, evaluate, now, policy, chosen, c) && Told(items, evaluate, now, policy, chosen, d)
    requires Lost(items, d)
    ensures FairTo(items, c, d) && |chosen| == Max(0, policy.maxSelected)
  {
    LoserCompeted(items, evaluate, now, policy, chosen, d);
    CompetingIsFirst(items, evaluate, now);
    ChoiceIsFair(items, Competing(items, evaluate, now), chosen, Max(0, policy.maxSelected), c, d);
  }

  lemma CompetingIsFirst(items: seq<Item>, evaluate: (Item, int) -> Kind, now: int)
    ensures var tasks := Competing(items, evaluate, now);
      forall id :: id in tasks ==> First(items, id) == Some(tasks[id])
  {
  }

  lemma ToldHonours(items: seq<Item>, evaluate: (Item, int) -> Kind, now: int, policy: Policy, chosen: set<int>,
                    d: Decision)
    requires chosen <= Competing(items, evaluate, now).Keys && Told(items, evaluate, now, policy, chosen, d)
    ensures Honours(items, evaluate, now, policy, d)
  {
  }

  method TellAll(
    order: seq<int>, unique: map<int, Item>, duplicates: set<int>, selected: set<int>, evaluate: (Item, int) -> Kind,
    now: int,
    policy: Policy, ghost items: seq<Item>)
    returns (decisions: seq<Decision>)
    requires forall id :: id in order <==> id in unique
    requires forall id :: id in unique <==> First(items, id).Some?
    requires forall id :: id in unique ==> unique[id] == First(items, id).value
    requires forall id :: id in duplicates <==> Duplicate(items, id)
    ensures |decisions| == |order|
    ensures forall i :: 0 <= i < |order| ==>
      decisions[i].id == order[i] && Told(items, evaluate, now, policy, selected, decisions[i])
  {
    decisions := [];
    var n := 0;
    while n < |order|
      invariant 0 <= n <= |order| && |decisions| == n
      invariant forall i :: 0 <= i < n ==>
        decisions[i].id == order[i] && Told(items, evaluate, now, policy, selected, decisions[i])
    {
      var id := order[n];
      assert id in order;
      var item := unique[id];
      var kind := if id in duplicates then Reconcile else evaluate(item, now);
      var decision := Decision(id, kind, false, None, None);
      if ActionableKind(kind) && !item.historyKnown {
        decision := Decision(id, WaitCooldown, false, Some(Max(1, policy.maxBackoff)), Some(kind));
      } else if id in selected {
        decision := Decision(id, kind, true, None, None);
      } else if ActionableKind(kind) {
        decision := Decision(id, WaitCooldown, false, Some(BoundedBackoff(policy, item.consecutiveWaits)), Some(kind));
      }
      decisions := decisions + [decision];
      n := n + 1;
    }
  }

  lemma CompetitorsAreSorted(items: seq<Item>, evaluate: (Item, int) -> Kind, now: int, sorted: seq<Item>)
    requires forall y :: y in sorted <==> Competes(items, evaluate, now, y.id) && First(items, y.id).value == y
    ensures var tasks := Competing(items, evaluate, now);
      Keyed(tasks) && Lists(tasks, sorted)
  {
    forall id | First(items, id).Some?
      ensures id in IdsOf(items)
    {
      var i :| 0 <= i < |items| && items[i].id == id;
    }
  }

  lemma SelectedAreChosen(
    items: seq<Item>, evaluate: (Item, int) -> Kind, now: int, policy: Policy, chosen: set<int>,
    decisions: seq<Decision>)
    requires chosen <= Competing(items, evaluate, now).Keys
    requires forall i :: 0 <= i < |decisions| ==> Told(items, evaluate, now, policy, chosen, decisions[i])
    requires forall id :: First(items, id).Some? ==> exists j :: 0 <= j < |decisions| && decisions[j].id == id
    ensures SelectedIds(decisions) == chosen
  {
    forall id | id in chosen
      ensures id in SelectedIds(decisions)
    {
      var j :| 0 <= j < |decisions| && decisions[j].id == id;
      assert decisions[j].selected;
    }
  }
}
