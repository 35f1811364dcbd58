/** Ordering of lifecycle modules by the slots they require and produce (packages/agent/src/lifecycle.ts). */
module Lifecycle {
  import opened Messages
  import opened Whitespace

  /** A module's produces list defaults to its own slot. */
  datatype LifecycleModule = LifecycleModule(slot: string, requires_: seq<string>, produces: Option<seq<string>>)

  datatype SortError =
    | EmptySlot(slot: string)
    | DuplicateSlot(slot: string)
    | UnknownSlot(slot: string, required: string)
    | DependencyCycle(slots: seq<string>)

  datatype SortResult = Sorted(order: seq<LifecycleModule>) | Failed(error: SortError)

  function ProducedSlots(m: LifecycleModule): seq<string> {
    match m.produces
    case Some(slots) => slots
    case None => [m.slot]
  }

  /** Slot number j of module number i. */
  predicate Produces(modules: seq<LifecycleModule>, i: nat, j: nat, slot: string) {
    i < |modules| && j < |ProducedSlots(modules[i])| && ProducedSlots(modules[i])[j] == slot
  }

  /** Every slot the modules produce, in order. */
  function AllProduced(modules: seq<LifecycleModule>): seq<string> {
    if modules == [] then []
    else AllProduced(modules[..|modules| - 1]) + ProducedSlots(modules[|modules| - 1])
  }

  predicate Distinct(slots: seq<string>) {
    forall a, b :: 0 <= a < b < |slots| ==> slots[a] != slots[b]
  }

  /** No slot is blank, no slot is produced twice, and every required slot is produced. */
  ghost predicate SlotsOk(modules: seq<LifecycleModule>) {
    && (forall i :: 0 <= i < |modules| ==> !Blank(modules[i].slot))
    && Distinct(AllProduced(modules))
    && (forall i, r :: 0 <= i < |modules| && 0 <= r < |modules[i].requires_| ==>
          modules[i].requires_[r] in AllProduced(modules))
  }

  /** What each of the three slot errors reports about the modules. */
  ghost predicate Justified(modules: seq<LifecycleModule>, error: SortError) {
    match error
    case EmptySlot(slot) => Blank(slot) && exists i :: 0 <= i < |modules| && modules[i].slot == slot
    case DuplicateSlot(slot) =>
      var all := AllProduced(modules);
      exists a, b :: 0 <= a < b < |all| && all[a] == all[b] == slot
    case UnknownSlot(slot, required) =>
      && required !in AllProduced(modules)
      && exists i :: 0 <= i < |modules| && modules[i].slot == slot && required in modules[i].requires_
    case DependencyCycle(_) => false
  }

  // ---------------------------------------------------------------------
  // What a correct order is
  // ---------------------------------------------------------------------

  predicate Contains(order: seq<nat>, i: nat) {
    exists a :: 0 <= a < |order| && order[a] == i
  }

  /** Each input position at most once. */
  predicate IsPartialOrder(order: seq<nat>, n: nat) {
    && (forall a :: 0 <= a < |order| ==> order[a] < n)
    && (forall a, b :: 0 <= a < b < |order| ==> order[a] != order[b])
  }

  ghost predicate Provided(modules: seq<LifecycleModule>, order: seq<nat>, slot: string) {
    exists a, j :: 0 <= a < |order| && Produces(modules, order[a], j, slot)
  }

  /** Everything module i requires is produced by members of the order. */
  ghost predicate Ready(modules: seq<LifecycleModule>, order: seq<nat>, i: nat)
    requires i < |modules|
  {
    forall r :: 0 <= r < |modules[i].requires_| ==> Provided(modules, order, modules[i].requires_[r])
  }

  /** Producers come strictly before the modules that require them. */
  ghost predicate Respects(modules: seq<LifecycleModule>, order: seq<nat>)
    requires forall a :: 0 <= a < |order| ==> order[a] < |modules|
  {
    forall a :: 0 <= a < |order| ==> Ready(modules, order[..a], order[a])
  }

  ghost predicate IsValidOrder(modules: seq<LifecycleModule>, order: seq<nat>) {
    && |order| == |modules|
    && IsPartialOrder(order, |modules|)
    && Respects(modules, order)
  }

  /** order comes before other in the lexicographic order of input positions. */
  predicate LexLeq(order: seq<nat>, other: seq<nat>) {
    if order == [] then true
    else if other == [] then false
    else order[0] < other[0] || (order[0] == other[0] && LexLeq(order[1..], other[1..]))
  }

  /** The order the greedy scan builds: each next position is the least one ready and not yet placed. */
  ghost predicate IsGreedy(modules: seq<LifecycleModule>, order: seq<nat>) {
    && IsPartialOrder(order, |modules|)
    && Respects(modules, order)
    && forall a, i :: 0 <= a < |order| && 0 <= i < order[a] && !Contains(order[..a], i) ==>
         !Ready(modules, order[..a], i)
  }

  /** The module offers this slot: one of those it lists, or its own when it lists none. */
  predicate GivesSlot(m: LifecycleModule, slot: string) {
    if m.produces.Some? then slot in m.produces.value else slot == m.slot
  }

  lemma {:induction false} GivesExactly(modules: seq<LifecycleModule>, i: nat, slot: string)
    requires i < |modules|
    ensures GivesSlot(modules[i], slot) <==> exists j :: Produces(modules, i, j, slot)
  {
    if GivesSlot(modules[i], slot) {
      var j :| 0 <= j < |ProducedSlots(modules[i])| && ProducedSlots(modules[i])[j] == slot;
      assert Produces(modules, i, j, slot);
    }
  }

  /** Everything the module at place a requires is given by modules before it. */
  ghost predicate MetBefore(modules: seq<LifecycleModule>, order: seq<nat>, a: nat)
    requires a < |order| && forall b :: 0 <= b < |order| ==> order[b] < |modules|
  {
    forall slot :: slot in modules[order[a]].requires_ ==>
      exists b :: 0 <= b < a && GivesSlot(modules[order[b]], slot)
  }

  lemma {:induction false} ReadyExactly(modules: seq<LifecycleModule>, order: seq<nat>, a: nat)
    requires a < |order| && forall b :: 0 <= b < |order| ==> order[b] < |modules|
    ensures Ready(modules, order[..a], order[a]) <==> MetBefore(modules, order, a)
  {
    var slots := modules[order[a]].requires_;
    forall slot | slot in slots
      ensures Provided(modules, order[..a], slot) <==> exists b :: 0 <= b < a && GivesSlot(modules[order[b]], slot)
    {
      ProvidedExactly(modules, order[..a], slot);
      assert forall b :: 0 <= b < a ==> order[..a][b] == order[b];
    }
    if MetBefore(modules, order, a) {
      forall r | 0 <= r < |slots| ensures Provided(modules, order[..a], slots[r]) {
        assert slots[r] in slots;
      }
    }
  }

  /** What a valid order is: every module once, and everything it requires given by modules before it. */
  lemma {:induction false} ValidOrderMeans(modules: seq<LifecycleModule>, order: seq<nat>)
    ensures IsValidOrder(modules, order) <==>
              && |order| == |modules|
              && (forall a :: 0 <= a < |order| ==> order[a] < |modules|)
              && (forall a, b :: 0 <= a < b < |order| ==> order[a] != order[b])
              && forall a :: 0 <= a < |order| ==> MetBefore(modules, order, a)
  {
    if forall a :: 0 <= a < |order| ==> order[a] < |modules| {
      forall a | 0 <= a < |order|
        ensures Ready(modules, order[..a], order[a]) <==> MetBefore(modules, order, a)
      {
        ReadyExactly(modules, order, a);
      }
    }
  }

  lemma {:induction false} ProvidedExactly(modules: seq<LifecycleModule>, order: seq<nat>, slot: string)
    requires forall a :: 0 <= a < |order| ==> order[a] < |modules|
    ensures Provided(modules, order, slot) <==> exists b :: 0 <= b < |order| && GivesSlot(modules[order[b]], slot)
  {
    forall b | 0 <= b < |order|
      ensures GivesSlot(modules[order[b]], slot) <==> exists j :: Produces(modules, order[b], j, slot)
    {
      GivesExactly(modules, order[b], slot);
    }
    if Provided(modules, order, slot) {
      var a, j :| 0 <= a < |order| && Produces(modules, order[a], j, slot);
      assert GivesSlot(modules[order[a]], slot);
    }
  }

  lemma {:induction false} AllProducedExactly(modules: seq<LifecycleModule>, slot: string)
    ensures slot in AllProduced(modules) <==> exists i :: 0 <= i < |modules| && GivesSlot(modules[i], slot)
  {
    if modules != [] {
      var n := |modules| - 1;
      AllProducedExactly(modules[..n], slot);
      assert slot in ProducedSlots(modules[n]) <==> GivesSlot(modules[n], slot);
      assert forall i :: 0 <= i < n ==> modules[..n][i] == modules[i];
    }
  }

  /** What the slot checks ask for: no blank slot, nothing given twice, and everything required given. */
  lemma {:induction false} SlotsOkMeans(modules: seq<LifecycleModule>)
    requires SlotsOk(modules)
    ensures forall i :: 0 <= i < |modules| ==> !Blank(modules[i].slot)
    ensures forall i, k, slot :: 0 <= i < k < |modules| && GivesSlot(modules[i], slot) ==> !GivesSlot(modules[k], slot)
    ensures forall i, r :: 0 <= i < |modules| && 0 <= r < |modules[i].requires_| ==>
              exists k :: 0 <= k < |modules| && GivesSlot(modules[k], modules[i].requires_[r])
  {
    forall i, k, slot | 0 <= i < k < |modules| && GivesSlot(modules[i], slot) ensures !GivesSlot(modules[k], slot) {
      GivenOnce(modules, i, k, slot);
    }
    forall i, r | 0 <= i < |modules| && 0 <= r < |modules[i].requires_|
      ensures exists k :: 0 <= k < |modules| && GivesSlot(modules[k], modules[i].requires_[r])
    {
      AllProducedExactly(modules, modules[i].requires_[r]);
    }
  }

  lemma {:induction false} NewSlots(before: seq<string>, last: seq<string>, a: nat)
    requires Distinct(before + last) && a < |before|
    ensures before[a] !in last
  {
    forall j | 0 <= j < |last| ensures last[j] != before[a] {
      assert (before + last)[|before| + j] == last[j] && (before + last)[a] == before[a];
    }
  }

  lemma {:induction false} GivenOnce(modules: seq<LifecycleModule>, i: nat, k: nat, slot: string)
    requires Distinct(AllProduced(modules)) && i < k < |modules| && GivesSlot(modules[i], slot)
    ensures !GivesSlot(modules[k], slot)
    decreases |modules|
  {
    var n := |modules| - 1;
    var before, last := AllProduced(modules[..n]), ProducedSlots(modules[n]);
    assert AllProduced(modules) == before + last;
    if k < n {
      assert forall a :: 0 <= a < |before| ==> AllProduced(modules)[a] == before[a];
      GivenOnce(modules[..n], i, k, slot);
    } else {
      AllProducedExactly(modules[..n], slot);
      assert modules[..n][i] == modules[i];
      var a :| 0 <= a < |before| && before[a] == slot;
      NewSlots(before, last, a);
    }
  }

  // ---------------------------------------------------------------------
  // Soundness, completeness, canonicity
  // ---------------------------------------------------------------------

  lemma {:induction false} ProvidedMonotone(modules: seq<LifecycleModule>, smaller: seq<nat>, larger: seq<nat>, i: nat)
    requires i < |modules| && Ready(modules, smaller, i)
    requires forall a :: 0 <= a < |smaller| ==> Contains(larger, smaller[a])
    ensures Ready(modules, larger, i)
  {
    forall r | 0 <= r < |modules[i].requires_| ensures Provided(modules, larger, modules[i].requires_[r]) {
      var slot := modules[i].requires_[r];
      assert Provided(modules, smaller, slot);
      var a, j :| 0 <= a < |smaller| && Produces(modules, smaller[a], j, slot);
      assert Contains(larger, smaller[a]);
      var b :| 0 <= b < |larger| && larger[b] == smaller[a];
      assert Produces(modules, larger[b], j, slot);
    }
  }

  /** The first position at which a valid order leaves the placed ones is ready. */
  lemma {:induction false} FirstMissingIsReady(modules: seq<LifecycleModule>, placed: seq<nat>, order: seq<nat>, a: nat)
    requires IsValidOrder(modules, order) && a < |order| && AllContained(order[..a], placed)
    ensures Ready(modules, placed, order[a])
  {
    assert Ready(modules, order[..a], order[a]);
    ProvidedMonotone(modules, order[..a], placed, order[a]);
  }

  predicate AllContained(order: seq<nat>, placed: seq<nat>) {
    forall a :: 0 <= a < |order| ==> Contains(placed, order[a])
  }

  lemma {:induction false} SomethingMissing(order: seq<nat>, placed: seq<nat>) returns (a: nat)
    requires !AllContained(order, placed)
    ensures a < |order| && !Contains(placed, order[a]) && AllContained(order[..a], placed)
  {
    a := 0;
    while Contains(placed, order[a])
      invariant a < |order| && AllContained(order[..a], placed)
      decreases |order| - a
    {
      if a + 1 == |order| {
        assert order[..a] + [order[a]] == order;
        assert AllContained(order, placed);
        assert false;
      }
      a := a + 1;
    }
  }

  lemma {:induction false} PlacedIsAsLong(order: seq<nat>, placed: seq<nat>)
    requires forall a, b :: 0 <= a < b < |order| ==> order[a] != order[b]
    requires AllContained(order, placed)
    ensures |order| <= |placed|
    decreases |order|
  {
    if order != [] {
      var n := |order| - 1;
      assert Contains(placed, order[n]);
      var p :| 0 <= p < |placed| && placed[p] == order[n];
      var rest := placed[..p] + placed[p + 1..];
      forall a | 0 <= a < n ensures Contains(rest, order[..n][a]) {
        assert Contains(placed, order[a]);
        var q :| 0 <= q < |placed| && placed[q] == order[a];
        assert rest[if q < p then q else q - 1] == order[a];
      }
      PlacedIsAsLong(order[..n], rest);
    }
  }

  /** When no unplaced module is ready, no order is valid. */
  lemma {:induction false} StuckRefutes(modules: seq<LifecycleModule>, placed: seq<nat>, order: seq<nat>)
    requires |placed| < |modules|
    requires forall i :: 0 <= i < |modules| && !Contains(placed, i) ==> !Ready(modules, placed, i)
    ensures !IsValidOrder(modules, order)
  {
    if IsValidOrder(modules, order) {
      if AllContained(order, placed) {
        PlacedIsAsLong(order, placed);
        assert false;
      } else {
        var a := SomethingMissing(order, placed);
        FirstMissingIsReady(modules, placed, order, a);
        assert false;
      }
    }
  }

  lemma {:induction false} NotYetContained(order: seq<nat>, k: nat, n: nat)
    requires IsPartialOrder(order, n) && k < |order|
    ensures !Contains(order[..k], order[k])
  {
    assert forall b :: 0 <= b < k ==> order[b] != order[k];
  }

  lemma {:induction false} GreedyIsLeastFrom(modules: seq<LifecycleModule>, order: seq<nat>, other: seq<nat>, k: nat)
    requires IsGreedy(modules, order) && |order| == |modules| && IsValidOrder(modules, other)
    requires k <= |order| && order[..k] == other[..k]
    ensures LexLeq(order[k..], other[k..])
    decreases |order| - k
  {
    if k < |order| {
      if order[k] == other[k] {
        assert order[..k + 1] == order[..k] + [order[k]] && other[..k + 1] == other[..k] + [other[k]];
        GreedyIsLeastFrom(modules, order, other, k + 1);
        assert order[k..][1..] == order[k + 1..] && other[k..][1..] == other[k + 1..];
      } else {
        assert Ready(modules, other[..k], other[k]);
        NotYetContained(other, k, |modules|);
      }
    }
  }

  /** The greedy order is valid and comes before every other valid order. */
  lemma {:induction false} GreedyIsCanonical(modules: seq<LifecycleModule>, order: seq<nat>)
    requires IsGreedy(modules, order) && |order| == |modules|
    ensures IsValidOrder(modules, order)
    ensures forall other :: IsValidOrder(modules, other) ==> LexLeq(order, other)
  {
    forall other | IsValidOrder(modules, other) ensures LexLeq(order, other) {
      GreedyIsLeastFrom(modules, order, other, 0);
      assert order[0..] == order && other[0..] == other;
    }
  }

  // ---------------------------------------------------------------------
  // The sort
  // ---------------------------------------------------------------------

  function Pick(modules: seq<LifecycleModule>, order: seq<nat>): (picked: seq<LifecycleModule>)
    requires forall a :: 0 <= a < |order| ==> order[a] < |modules|
    ensures |picked| == |order| && forall a :: 0 <= a < |order| ==> picked[a] == modules[order[a]]
  {
    seq(|order|, a requires 0 <= a < |order| => modules[order[a]])
  }

  /** The positions still pending: ascending, and exactly those not placed. */
  ghost predicate IsPending(pending: seq<nat>, order: seq<nat>, n: nat) {
    && (forall a, b :: 0 <= a < b < |pending| ==> pending[a] < pending[b])
    && (forall i: nat :: Contains(pending, i) <==> i < n && !Contains(order, i))
  }

  ghost predicate ProducedBy(produced: set<string>, modules: seq<LifecycleModule>, order: seq<nat>) {
    forall slot :: slot in produced <==> Provided(modules, order, slot)
  }

  method FindReady(modules: seq<LifecycleModule>, pending: seq<nat>, produced: set<string>, ghost order: seq<nat>)
      returns (index: int)
    requires forall a :: 0 <= a < |pending| ==> pending[a] < |modules|
    requires ProducedBy(produced, modules, order)
    ensures -1 <= index < |pending|
    ensures index >= 0 ==> Ready(modules, order, pending[index])
    ensures forall a :: 0 <= a < (if index < 0 then |pending| else index) ==> !Ready(modules, order, pending[a])
  {
    for a := 0 to |pending|
      invariant forall b :: 0 <= b < a ==> !Ready(modules, order, pending[b])
    {
      var m := modules[pending[a]];
      var ready := true;
      for r := 0 to |m.requires_|
        invariant ready <==> forall q :: 0 <= q < r ==> m.requires_[q] in produced
      {
        if m.requires_[r] !in produced {
          ready := false;
        }
      }
      if ready {
        return a;
      }
    }
    return -1;
  }

  lemma {:induction false} ProvidedSnoc(modules: seq<LifecycleModule>, order: seq<nat>, i: nat, slot: string)
    requires i < |modules|
    ensures Provided(modules, order + [i], slot) <==>
            Provided(modules, order, slot) || slot in ProducedSlots(modules[i])
  {
    if Provided(modules, order, slot) {
      var a, j :| 0 <= a < |order| && Produces(modules, order[a], j, slot);
      assert Produces(modules, (order + [i])[a], j, slot);
    }
    if slot in ProducedSlots(modules[i]) {
      var j :| 0 <= j < |ProducedSlots(modules[i])| && ProducedSlots(modules[i])[j] == slot;
      assert Produces(modules, (order + [i])[|order|], j, slot);
    }
    if Provided(modules, order + [i], slot) {
      var a, j :| 0 <= a < |order + [i]| && Produces(modules, (order + [i])[a], j, slot);
      if a < |order| {
        assert Produces(modules, order[a], j, slot);
      }
    }
  }

  lemma {:induction false} ContainsSnoc(order: seq<nat>, i: nat, k: nat)
    ensures Contains(order + [i], k) <==> Contains(order, k) || k == i
  {
    if Contains(order, k) {
      var a :| 0 <= a < |order| && order[a] == k;
      assert (order + [i])[a] == k;
    }
    assert (order + [i])[|order|] == i;
    if Contains(order + [i], k) && k != i {
      var a :| 0 <= a < |order + [i]| && (order + [i])[a] == k;
      assert order[a] == k;
    }
  }

  lemma {:induction false} ContainsSplice(pending: seq<nat>, index: nat, k: nat)
    requires index < |pending| && forall a, b :: 0 <= a < b < |pending| ==> pending[a] < pending[b]
    ensures Contains(pending[..index] + pending[index + 1..], k) <==> Contains(pending, k) && k != pending[index]
  {
    var rest := pending[..index] + pending[index + 1..];
    if Contains(pending, k) && k != pending[index] {
      var a :| 0 <= a < |pending| && pending[a] == k;
      assert rest[if a < index then a else a - 1] == k;
    }
    if Contains(rest, k) {
      var a :| 0 <= a < |rest| && rest[a] == k;
      assert pending[if a < index then a else a + 1] == k;
    }
  }

  lemma {:induction false} PlaceNext(modules: seq<LifecycleModule>, order: seq<nat>, pending: seq<nat>, index: nat)
    requires IsGreedy(modules, order) && IsPending(pending, order, |modules|) && index < |pending|
    requires forall a :: 0 <= a < |pending| ==> pending[a] < |modules|
    requires Ready(modules, order, pending[index])
    requires forall a :: 0 <= a < index ==> !Ready(modules, order, pending[a])
    ensures IsGreedy(modules, order + [pending[index]])
    ensures IsPending(pending[..index] + pending[index + 1..], order + [pending[index]], |modules|)
  {
    var i := pending[index];
    var next, rest := order + [i], pending[..index] + pending[index + 1..];
    assert Contains(pending, i);
    forall a | 0 <= a < |order| ensures order[a] != i {
      assert Contains(order, order[a]);
    }
    forall a | 0 <= a < |next| ensures Ready(modules, next[..a], next[a]) {
      assert next[..a] == order[..a];
      if a == |order| {
        assert order[..a] == order;
      }
    }
    forall a, k | 0 <= a < |next| && 0 <= k < next[a] && !Contains(next[..a], k) ensures !Ready(modules, next[..a], k) {
      assert next[..a] == order[..a];
      if a == |order| {
        assert order[..a] == order;
        assert Contains(pending, k);
        var b :| 0 <= b < |pending| && pending[b] == k;
        assert b < index;
      }
    }
    forall k: nat ensures Contains(rest, k) <==> k < |modules| && !Contains(next, k) {
      ContainsSplice(pending, index, k);
      ContainsSnoc(order, i, k);
    }
  }

  function Positions(n: nat): (all: seq<nat>)
    ensures |all| == n && forall i :: 0 <= i < n ==> all[i] == i
  {
    if n == 0 then [] else Positions(n - 1) + [n - 1]
  }

  lemma {:induction false} AllPendingAtFirst(n: nat)
    ensures IsPending(Positions(n), [], n)
  {
    var all := Positions(n);
    forall i: nat ensures Contains(all, i) <==> i < n {
      if i < n {
        assert all[i] == i;
      }
    }
  }

  lemma {:induction false} CountsAddUp(order: seq<nat>, pending: seq<nat>, n: nat)
    requires IsPartialOrder(order, n) && IsPending(pending, order, n)
    ensures |order| + |pending| == n
  {
    var all := Positions(n);
    var both := order + pending;
    forall a | 0 <= a < |both| ensures both[a] < n {
      if a >= |order| {
        assert Contains(pending, pending[a - |order|]);
      }
    }
    forall a | 0 <= a < n ensures Contains(both, all[a]) {
      if Contains(order, a) {
        var b :| 0 <= b < |order| && order[b] == a;
        assert both[b] == a;
      } else {
        assert Contains(pending, a);
        var b :| 0 <= b < |pending| && pending[b] == a;
        assert both[|order| + b] == a;
      }
    }
    PlacedIsAsLong(all, both);
    forall a, b | 0 <= a < b < |both| ensures both[a] != both[b] {
      if a < |order| <= b {
        assert Contains(order, order[a]) && Contains(pending, pending[b - |order|]);
      }
    }
    forall a | 0 <= a < |both| ensures Contains(all, both[a]) {
      assert all[both[a]] == both[a];
    }
    PlacedIsAsLong(both, all);
  }

  /** The greedy loop: repeatedly takes the first pending module whose requirements are produced. */
  method Arrange(modules: seq<LifecycleModule>) returns (order: seq<nat>, stuck: seq<nat>)
    ensures IsGreedy(modules, order)
    ensures stuck == [] ==> |order| == |modules|
    ensures stuck != [] ==> !exists other :: IsValidOrder(modules, other)
    ensures IsPending(stuck, order, |modules|)
    ensures forall a :: 0 <= a < |stuck| ==> stuck[a] < |modules| && !Ready(modules, order, stuck[a])
  {
    var pending: seq<nat> := Positions(|modules|);
    var produced: set<string> := {};
    order := [];
    AllPendingAtFirst(|modules|);
    while |pending| > 0
      invariant IsGreedy(modules, order) && IsPending(pending, order, |modules|)
      invariant forall a :: 0 <= a < |pending| ==> pending[a] < |modules|
      invariant ProducedBy(produced, modules, order)
      decreases |pending|
    {
      var index := FindReady(modules, pending, produced, order);
      if index < 0 {
        CountsAddUp(order, pending, |modules|);
        forall i | 0 <= i < |modules| && !Contains(order, i) ensures !Ready(modules, order, i) {
          assert Contains(pending, i);
        }
        forall other ensures !IsValidOrder(modules, other) {
          StuckRefutes(modules, order, other);
        }
        return order, pending;
      }
      var i := pending[index];
      PlaceNext(modules, order, pending, index);
      forall slot
        ensures Provided(modules, order + [i], slot) <==> slot in produced || slot in ProducedSlots(modules[i])
      {
        ProvidedSnoc(modules, order, i, slot);
      }
      pending := pending[..index] + pending[index + 1..];
      order := order + [i];
      produced := produced + set slot | slot in ProducedSlots(modules[i]);
    }
    CountsAddUp(order, pending, |modules|);
    stuck := pending;
  }

  lemma {:induction false} AllProducedSplit(modules: seq<LifecycleModule>, i: nat)
    requires i <= |modules|
    ensures AllProduced(modules[..i]) <= AllProduced(modules)
    decreases |modules| - i
  {
    if i == |modules| {
      assert modules[..i] == modules;
    } else {
      assert modules[..i + 1][..i] == modules[..i];
      AllProducedSplit(modules, i + 1);
    }
  }

  lemma {:induction false} SeenTwice(seen: seq<string>, slot: string, all: seq<string>)
    requires slot in seen && seen + [slot] <= all
    ensures exists a, b :: 0 <= a < b < |all| && all[a] == all[b] == slot
  {
    var a :| 0 <= a < |seen| && seen[a] == slot;
    assert all[a] == (seen + [slot])[a] && all[|seen|] == (seen + [slot])[|seen|];
  }

  lemma {:induction false} AllProducedSnoc(modules: seq<LifecycleModule>, i: nat)
    requires i < |modules|
    ensures AllProduced(modules[..i + 1]) == AllProduced(modules[..i]) + ProducedSlots(modules[i])
  {
    assert modules[..i + 1][..i] == modules[..i];
  }

  lemma {:induction false} DuplicateIsJustified(modules: seq<LifecycleModule>, i: nat, k: nat)
    requires i < |modules| && k < |ProducedSlots(modules[i])|
    requires ProducedSlots(modules[i])[k] in AllProduced(modules[..i]) + ProducedSlots(modules[i])[..k]
    ensures Justified(modules, DuplicateSlot(ProducedSlots(modules[i])[k]))
    ensures !Distinct(AllProduced(modules))
  {
    var seen, slots := AllProduced(modules[..i]), ProducedSlots(modules[i]);
    AllProducedSnoc(modules, i);
    AllProducedSplit(modules, i + 1);
    assert seen + slots[..k] + [slots[k]] == (seen + slots)[..|seen| + k + 1];
    SeenTwice(seen + slots[..k], slots[k], AllProduced(modules));
  }

  /** The first pass over the slots of one module: all new, or the first one seen before. */
  method AddSlots(slots: seq<string>, producers: set<string>, ghost seen: seq<string>)
      returns (all: set<string>, duplicate: Option<string>, ghost k: nat)
    requires Distinct(seen) && forall slot :: slot in producers <==> slot in seen
    ensures duplicate.None? ==> Distinct(seen + slots) && forall slot :: slot in all <==> slot in seen + slots
    ensures duplicate.Some? ==> k < |slots| && slots[k] == duplicate.value && duplicate.value in seen + slots[..k]
  {
    all, k := producers, 0;
    for j := 0 to |slots|
      invariant Distinct(seen + slots[..j])
      invariant forall slot :: slot in all <==> slot in seen + slots[..j]
    {
      if slots[j] in all {
        return all, Some(slots[j]), j;
      }
      assert seen + slots[..j + 1] == seen + slots[..j] + [slots[j]];
      all := all + {slots[j]};
    }
    assert slots[..|slots|] == slots;
    duplicate := None;
  }

  /** The second pass: a required slot nobody produces. */
  method FindUnknown(modules: seq<LifecycleModule>, producers: set<string>) returns (error: Option<SortError>)
    requires forall slot :: slot in producers <==> slot in AllProduced(modules)
    ensures error.None? <==> forall i, r :: 0 <= i < |modules| && 0 <= r < |modules[i].requires_| ==>
                                              modules[i].requires_[r] in AllProduced(modules)
    ensures error.Some? ==> error.value.UnknownSlot? && Justified(modules, error.value)
  {
    for i := 0 to |modules|
      invariant forall k, r :: 0 <= k < i && 0 <= r < |modules[k].requires_| ==> modules[k].requires_[r] in producers
    {
      for r := 0 to |modules[i].requires_|
        invariant forall q :: 0 <= q < r ==> modules[i].requires_[q] in producers
      {
        if modules[i].requires_[r] !in producers {
          return Some(UnknownSlot(modules[i].slot, modules[i].requires_[r]));
        }
      }
    }
    return None;
  }

  /** The slot checks made before sorting, in the order the source makes them. */
  method CheckSlots(modules: seq<LifecycleModule>) returns (error: Option<SortError>)
    ensures error.None? <==> SlotsOk(modules)
    ensures error.Some? ==> Justified(modules, error.value)
  {
    var producers: set<string> := {};
    for i := 0 to |modules|
      invariant forall k :: 0 <= k < i ==> !Blank(modules[k].slot)
      invariant Distinct(AllProduced(modules[..i]))
      invariant forall slot :: slot in producers <==> slot in AllProduced(modules[..i])
    {
      if Blank(modules[i].slot) {
        return Some(EmptySlot(modules[i].slot));
      }
      var slots := ProducedSlots(modules[i]);
      ghost var seen := AllProduced(modules[..i]);
      var all, duplicate, k := AddSlots(slots, producers, seen);
      if duplicate.Some? {
        DuplicateIsJustified(modules, i, k);
        return Some(DuplicateSlot(duplicate.value));
      }
      AllProducedSnoc(modules, i);
      producers := all;
    }
    assert modules[..|modules|] == modules;
    error := FindUnknown(modules, producers);
  }

  /** The cycle error lists the modules left over: none of them is ready once every other module is placed. */
  ghost predicate IsCycleReport(modules: seq<LifecycleModule>, slots: seq<string>) {
    exists order, stuck ::
      && IsGreedy(modules, order) && IsPending(stuck, order, |modules|) && |slots| == |stuck| > 0
      && forall a :: 0 <= a < |stuck| ==>
           stuck[a] < |modules| && !Ready(modules, order, stuck[a]) && slots[a] == modules[stuck[a]].slot
  }

  /** Topological sort of one phase. On success the result is the least valid order by input position; the
      cycle error is raised exactly when the slots are fine but no valid order exists. */
  method TopologicallySortModules(modules: seq<LifecycleModule>) returns (result: SortResult, ghost order: seq<nat>)
    ensures result.Sorted? ==>
              (&& SlotsOk(modules) && IsValidOrder(modules, order) && result.order == Pick(modules, order)
               && forall other :: IsValidOrder(modules, other) ==> LexLeq(order, other))
    ensures result.Failed? && result.error.DependencyCycle?
            <==> SlotsOk(modules) && !exists other :: IsValidOrder(modules, other)
    ensures result.Failed? && result.error.DependencyCycle? ==> IsCycleReport(modules, result.error.slots)
    ensures result.Failed? && !result.error.DependencyCycle? <==> !SlotsOk(modules)
    ensures result.Failed? && !result.error.DependencyCycle? ==> Justified(modules, result.error)
  {
    order := [];
    var error := CheckSlots(modules);
    if error.Some? {
      return Failed(error.value), order;
    }
    var found, stuck := Arrange(modules);
    if stuck != [] {
      var slots := seq(|stuck|, a requires 0 <= a < |stuck| && stuck[a] < |modules| => modules[stuck[a]].slot);
      assert IsCycleReport(modules, slots);
      return Failed(DependencyCycle(slots)), order;
    }
    GreedyIsCanonical(modules, found);
    assert IsValidOrder(modules, found);
    return Sorted(Pick(modules, found)), found;
  }
}
