/** The decision queue and its cursor: the state machine that app.js,
    shared/js/operator-ui.js and shared/js/ui-components.js each implement
    on their own copy of the queue. Everything here is generic in the item. */
module QueueCore {

  datatype Option<T> = None | Some(value: T)

  /** An ordered queue and the index of the item on display. */
  datatype Cursor<T> = Cursor(queue: seq<T>, index: nat)

  /** The invariant the front ends rely on: on a non-empty queue the
      index points at an item. */
  predicate InBounds<T>(c: Cursor<T>)
  {
    |c.queue| > 0 ==> c.index < |c.queue|
  }

  /** InBounds, and an empty queue has its index at 0. Every state the
      front ends can reach satisfies it. */
  predicate Valid<T>(c: Cursor<T>)
  {
    InBounds(c) && (|c.queue| == 0 ==> c.index == 0)
  }

  /** `splice(i, 1)`: the queue without its i-th item, the others in order. */
  function RemoveAt<T>(q: seq<T>, i: nat): (r: seq<T>)
    requires i < |q|
    ensures |r| == |q| - 1
    ensures forall k :: 0 <= k < i ==> r[k] == q[k]
    ensures forall k :: i <= k < |r| ==> r[k] == q[k + 1]
  {
    q[..i] + q[i + 1..]
  }

  /** What RemoveAt takes out is exactly one copy of q[i]. */
  lemma RemoveAtMultiset<T>(q: seq<T>, i: nat)
    requires i < |q|
    ensures multiset(RemoveAt(q, i)) + multiset{q[i]} == multiset(q)
  {
    assert q == q[..i] + [q[i]] + q[i + 1..];
  }

  /** The item on display, none on an empty queue. */
  function ActiveItem<T>(c: Cursor<T>): (r: Option<T>)
    requires InBounds(c)
    ensures r.None? <==> |c.queue| == 0
    ensures r.Some? ==> r.value == c.queue[c.index]
  {
    if |c.queue| == 0 then None else Some(c.queue[c.index])
  }

  /** The index repair after DONE: to the new last slot when the index
      fell off the end and is not already 0, else unchanged. (From an index
      past the end of a queue that DONE empties this would be -1; InBounds
      rules that out.) */
  function DoneRepair(index: nat, length: nat): (r: int)
    ensures index < length ==> r == index
    ensures index >= length && index > 0 ==> r == length - 1
    ensures index <= length && length > 0 ==> 0 <= r < length
    ensures index == 0 ==> r == 0
  {
    if index >= length && index > 0 then length - 1 else index
  }

  /** The index rule after NEXT: back to 0 when out of range, else unchanged. */
  function NextReset(index: nat, length: nat): (r: nat)
    ensures index < length ==> r == index
    ensures index >= length ==> r == 0
    ensures length > 0 ==> r < length
  {
    if index >= length then 0 else index
  }

  /** DONE: remove the item on display. The index is moved back to the new
      last slot only when it fell off the end and is not already 0. */
  function Done<T>(c: Cursor<T>): (r: Cursor<T>)
    requires InBounds(c)
    // on an empty queue DONE does nothing
    ensures |c.queue| == 0 ==> r == c
    // exactly the item on display goes (DoneRemovesOne); the others keep their order
    ensures |c.queue| > 0 ==>
      |r.queue| == |c.queue| - 1 &&
      (forall k :: 0 <= k < c.index ==> r.queue[k] == c.queue[k]) &&
      (forall k :: c.index <= k < |r.queue| ==> r.queue[k] == c.queue[k + 1])
    // not the tail: the index stays and the following item slides into view
    ensures c.index + 1 < |c.queue| ==>
      r.index == c.index && r.queue[r.index] == c.queue[c.index + 1]
    // the tail of a longer queue: the index steps back to the new tail
    ensures 0 < c.index == |c.queue| - 1 ==>
      r.index == c.index - 1 && r.index == |r.queue| - 1
    // the sole item: the queue empties and the index stays at 0
    ensures |c.queue| == 1 ==> r.queue == [] && r.index == 0
    // the repair keeps the invariant
    ensures |c.queue| > 0 ==> Valid(r)
    ensures Valid(c) ==> Valid(r)
  {
    if |c.queue| == 0 then c
    else
      var q := RemoveAt(c.queue, c.index);
      Cursor(q, DoneRepair(c.index, |q|))
  }

  /** NEXT: move the item on display to the back of the queue. The source
      resets the index to 0 when it is out of range afterwards; the length
      does not change, so that never happens. */
  function Next<T>(c: Cursor<T>): (r: Cursor<T>)
    requires InBounds(c)
    ensures |c.queue| == 0 ==> r == c
    // the same length (NextIsPermutation: the same items)
    ensures |r.queue| == |c.queue|
    // the reset branch never fires: the index stays put
    ensures r.index == c.index
    // the item on display goes last (NextKeepsOrder: the others keep their order)
    ensures |c.queue| > 0 ==> r.queue[|r.queue| - 1] == c.queue[c.index]
    // at the tail NEXT changes nothing
    ensures |c.queue| > 0 && c.index == |c.queue| - 1 ==> r == c
    ensures InBounds(r)
    ensures Valid(c) ==> Valid(r)
  {
    if |c.queue| == 0 then c
    else
      var rest := RemoveAt(c.queue, c.index);
      var q := rest + [c.queue[c.index]];
      assert c.index == |c.queue| - 1 ==> rest == c.queue[..c.index] && q == c.queue;
      Cursor(q, NextReset(c.index, |q|))
  }

  /** DONE takes out one copy of the item on display and nothing else. */
  lemma DoneRemovesOne<T>(c: Cursor<T>)
    requires InBounds(c) && |c.queue| > 0
    ensures multiset(Done(c).queue) + multiset{c.queue[c.index]} == multiset(c.queue)
  {
    RemoveAtMultiset(c.queue, c.index);
  }

  /** NEXT is a permutation: the same items, as many times each. */
  lemma NextIsPermutation<T>(c: Cursor<T>)
    requires InBounds(c)
    ensures multiset(Next(c).queue) == multiset(c.queue)
  {
    if |c.queue| > 0 {
      RemoveAtMultiset(c.queue, c.index);
      assert Next(c).queue == RemoveAt(c.queue, c.index) + [c.queue[c.index]];
    }
  }

  /** NEXT keeps the other items in order: those before the index stay,
      those after it move up one. */
  lemma NextKeepsOrder<T>(c: Cursor<T>)
    requires InBounds(c) && |c.queue| > 0
    ensures forall k :: 0 <= k < c.index ==> Next(c).queue[k] == c.queue[k]
    ensures forall k :: c.index <= k < |c.queue| - 1 ==> Next(c).queue[k] == c.queue[k + 1]
  {
    var rest := RemoveAt(c.queue, c.index);
    assert Next(c).queue == rest + [c.queue[c.index]];
  }

  /** SELECT(i): a row click. The index is set with no bounds check. */
  function Select<T>(c: Cursor<T>, i: nat): (r: Cursor<T>)
    ensures r.queue == c.queue && r.index == i
    // the invariant survives exactly when the caller passes a row index
    ensures |c.queue| > 0 ==> (InBounds(r) <==> i < |c.queue|)
    ensures |c.queue| > 0 ==> (Valid(r) <==> i < |c.queue|)
    ensures i < |c.queue| ==> ActiveItem(r) == Some(c.queue[i])
  {
    Cursor(c.queue, i)
  }

  /** The left-arrow step: a plain decrement, the queue untouched. The
      dispatchers only take it when the index is positive. */
  function Back<T>(c: Cursor<T>): (r: Cursor<T>)
    requires c.index > 0
    ensures r.queue == c.queue && r.index + 1 == c.index
    ensures Valid(c) ==> Valid(r)
  {
    Cursor(c.queue, c.index - 1)
  }

  /** LOAD: replace the queue wholesale and show its first item. */
  function Load<T>(items: seq<T>): (r: Cursor<T>)
    ensures r.queue == items && r.index == 0 && Valid(r)
    ensures ActiveItem(r) == if |items| == 0 then None else Some(items[0])
  {
    Cursor(items, 0)
  }

  /** k NEXTs in a row. */
  function NextTimes<T>(c: Cursor<T>, k: nat): (r: Cursor<T>)
    requires InBounds(c)
    ensures InBounds(r) && r.index == c.index && |r.queue| == |c.queue|
    decreases k
  {
    if k == 0 then c else NextTimes(Next(c), k - 1)
  }

  /** The queue after one NEXT from index i, written out. */
  function Rotated<T>(q: seq<T>, i: nat): seq<T>
    requires i < |q|
  {
    q[..i] + q[i + 1..] + [q[i]]
  }

  /** k NEXTs from index i send the k items at i..i+k, in order, to the back. */
  lemma {:induction false} NextTimesRotates<T>(c: Cursor<T>, k: nat)
    requires InBounds(c) && |c.queue| > 0
    requires k <= |c.queue| - c.index
    ensures NextTimes(c, k).queue ==
      c.queue[..c.index] + c.queue[c.index + k..] + c.queue[c.index..c.index + k]
    decreases k
  {
    var q, i := c.queue, c.index;
    if k == 0 {
      assert q[..i] + q[i..] + q[i..i] == q;
    } else {
      NextTimesRotates(Cursor(Rotated(q, i), i), k - 1);
      RotateStep(c, k);
    }
  }

  /** The inductive step of NextTimesRotates: what k - 1 NEXTs do after
      the first one, carried back to the queue before it. */
  lemma RotateStep<T>(c: Cursor<T>, k: nat)
    requires InBounds(c) && |c.queue| > 0
    requires 0 < k <= |c.queue| - c.index
    requires var q', i := Rotated(c.queue, c.index), c.index;
      NextTimes(Cursor(q', i), k - 1).queue == q'[..i] + q'[i + (k - 1)..] + q'[i..i + (k - 1)]
    ensures NextTimes(c, k).queue ==
      c.queue[..c.index] + c.queue[c.index + k..] + c.queue[c.index..c.index + k]
  {
    RotatedSlices(c.queue, c.index, k);
  }

  /** Where the slices of Rotated(q, i) come from in q. */
  lemma RotatedSlices<T>(q: seq<T>, i: nat, k: nat)
    requires 0 < k && i + k <= |q|
    ensures Rotated(q, i)[..i] == q[..i]
    ensures Rotated(q, i)[i + (k - 1)..] == q[i + k..] + [q[i]]
    ensures Rotated(q, i)[i..i + (k - 1)] == q[i + 1..i + k]
    ensures [q[i]] + q[i + 1..i + k] == q[i..i + k]
  {
  }

  /** |q| - i NEXTs from index i restore the original queue; from index 0,
      |q| NEXTs restore the original order. */
  lemma NextCycleRestores<T>(c: Cursor<T>)
    requires InBounds(c) && |c.queue| > 0
    ensures NextTimes(c, |c.queue| - c.index) == c
    ensures c.index == 0 ==> NextTimes(c, |c.queue|) == c
  {
    NextTimesRotates(c, |c.queue| - c.index);
    assert c.queue[..c.index] + c.queue[|c.queue|..] + c.queue[c.index..|c.queue|] == c.queue;
    var r := NextTimes(c, |c.queue| - c.index);
    assert r == Cursor(r.queue, r.index);
  }

  // Keyboard dispatch.

  predicate IsDoneKey(key: string)
  {
    key == "d" || key == "D"
  }

  predicate IsNextKey(key: string)
  {
    key == "n" || key == "N" || key == "ArrowRight"
  }

  const ArrowLeft: string := "ArrowLeft"

  /** What a key press does to the queue and cursor. */
  datatype KeyEffect = DoneEffect | NextEffect | BackEffect | NoEffect

  /** The keydown table of app.js and shared/js/operator-ui.js: nothing on
      an empty queue; d or D is DONE; n, N or ArrowRight is NEXT; ArrowLeft
      steps back, but only in list mode and past the first item. With
      `listMode` always true it is ListSidebarApp's table, with it always
      false CardsStreamApp's. */
  function KeyTable(key: string, queueEmpty: bool, listMode: bool, index: nat): (e: KeyEffect)
    ensures queueEmpty ==> e == NoEffect
    ensures e == DoneEffect <==> !queueEmpty && IsDoneKey(key)
    ensures e == NextEffect <==> !queueEmpty && IsNextKey(key)
    ensures e == BackEffect <==> !queueEmpty && key == ArrowLeft && listMode && index > 0
  {
    if queueEmpty then NoEffect
    else if IsDoneKey(key) then DoneEffect
    else if IsNextKey(key) then NextEffect
    else if key == ArrowLeft && listMode && index > 0 then BackEffect
    else NoEffect
  }

  /** The transition a key effect stands for. */
  function ApplyKey<T>(c: Cursor<T>, e: KeyEffect): (r: Cursor<T>)
    requires InBounds(c)
    requires e == BackEffect ==> c.index > 0
    ensures e == BackEffect ==> r.queue == c.queue
    ensures Valid(c) ==> Valid(r)
  {
    match e
    case DoneEffect => Done(c)
    case NextEffect => Next(c)
    case BackEffect => Back(c)
    case NoEffect => c
  }

  /** The worked cases of the queue contract, on three items: NEXT from
      the front, DONE in the middle and at the tail, ArrowLeft, DONE of the
      sole item, and DONE and NEXT on an empty queue. */
  lemma Examples()
    ensures Next(Cursor(['A', 'B', 'C'], 0)) == Cursor(['B', 'C', 'A'], 0)
    ensures Done(Cursor(['A', 'B', 'C'], 1)) == Cursor(['A', 'C'], 1)
    ensures Done(Cursor(['A', 'B', 'C'], 2)) == Cursor(['A', 'B'], 1)
    ensures Back(Cursor(['A', 'B', 'C'], 2)) == Cursor(['A', 'B', 'C'], 1)
    ensures Done(Cursor(['A'], 0)) == Cursor([], 0)
    ensures Done(Load<char>([])) == Load([]) && Next(Load<char>([])) == Load([])
  {
    var abc := ['A', 'B', 'C'];
    assert abc[..0] + abc[1..] + [abc[0]] == ['B', 'C', 'A'];
    assert abc[..1] + abc[2..] == ['A', 'C'];
    assert abc[..2] + abc[3..] == ['A', 'B'];
  }
}
