/**
 The single-producer single-consumer ring (src/audio/spsc_ring.hpp).

 Each load or store of an index or a slot is one step. A load of the other thread's index
 may be stale: it returns any value that index has had since this thread last looked
 (`producerView`, `consumerView`, kept as counts of releases and publications). The
 capacity is a power of two, so `& kMask` is the remainder written here.
 */
module SpscRings {
  import opened Wrappers
  import opened Modulo

  /** push's locals: the value, the tail it loaded, the tail it will store. */
  datatype Producer<T> =
    | Resting
    | TailLoaded(v: T, tail: nat, next: nat)
    | RoomSeen(v: T, tail: nat, next: nat)
    | SlotWritten(v: T, tail: nat, next: nat)

  datatype Consumer<T> =
    | Idle
    | HeadLoaded(head: nat)
    | ItemSeen(head: nat)
    | SlotTaken(head: nat, out: T)

  datatype State<T> = State(
    slots: seq<T>, head: nat, tail: nat,
    producer: Producer<T>, consumer: Consumer<T>,
    released: nat, published: nat,           // stores to head and to tail so far
    producerView: nat, consumerView: nat,    // how many of the other's stores are known
    accepted: seq<T>, popped: seq<T>)        // history

  datatype Label<T> =
    | PushLoadsTail(v: T)
    | PushLoadsHead(view: nat)
    | PushWritesSlot
    | PushStoresTail
    | PopLoadsHead
    | PopLoadsTail(view: nat)
    | PopTakesSlot(left: T)      // what the move leaves behind is unspecified
    | PopStoresHead

  predicate Enabled<T>(s: State<T>, l: Label<T>) {
    match l
    case PushLoadsTail(_) => s.producer.Resting?
    case PushLoadsHead(view) => s.producer.TailLoaded? && s.producerView <= view <= s.released
    case PushWritesSlot => s.producer.RoomSeen? && s.producer.tail < |s.slots|
    case PushStoresTail => s.producer.SlotWritten?
    case PopLoadsHead => s.consumer.Idle?
    case PopLoadsTail(view) => s.consumer.HeadLoaded? && s.consumerView <= view <= s.published
    case PopTakesSlot(_) => s.consumer.ItemSeen? && s.consumer.head < |s.slots|
    case PopStoresHead => s.consumer.SlotTaken?
  }

  function Apply<T>(capacity: nat, s: State<T>, l: Label<T>): State<T>
    requires capacity > 1 && Enabled(s, l)
  {
    match l
    case PushLoadsTail(v) => s.(producer := TailLoaded(v, s.tail, (s.tail + 1) % capacity))
    case PushLoadsHead(view) =>
      var p := s.producer;
      s.(producerView := view,
         producer := if p.next == view % capacity then Resting else RoomSeen(p.v, p.tail, p.next))
    case PushWritesSlot =>
      var p := s.producer;
      s.(slots := s.slots[p.tail := p.v], producer := SlotWritten(p.v, p.tail, p.next))
    case PushStoresTail =>
      s.(tail := s.producer.next, published := s.published + 1, accepted := s.accepted + [s.producer.v], producer := Resting)
    case PopLoadsHead => s.(consumer := HeadLoaded(s.head))
    case PopLoadsTail(view) =>
      s.(consumerView := view,
         consumer := if s.consumer.head == view % capacity then Idle else ItemSeen(s.consumer.head))
    case PopTakesSlot(left) =>
      var h := s.consumer.head;
      s.(slots := s.slots[h := left], consumer := SlotTaken(h, s.slots[h]))
    case PopStoresHead =>
      s.(head := (s.consumer.head + 1) % capacity, released := s.released + 1,
         popped := s.popped + [s.consumer.out], consumer := Idle)
  }

  function Initial<T>(slots: seq<T>): State<T> {
    State(slots, 0, 0, Resting, Idle, 0, 0, 0, 0, [], [])
  }

  // ----- the invariant -----

  ghost predicate IndicesOk<T>(capacity: nat, s: State<T>) {
    && capacity > 1 && |s.slots| == capacity
    && s.head == s.released % capacity && s.tail == s.published % capacity
    && s.producerView <= s.released <= s.consumerView <= s.published
    && s.published - s.producerView < capacity
  }

  ghost predicate HistoryOk<T>(s: State<T>) {
    && |s.accepted| == s.published
    && s.released <= s.published && s.popped == s.accepted[..s.released]
  }

  /** Every published, unreleased item is in its slot, unless it is just being moved out. */
  ghost predicate SlotsOk<T>(capacity: nat, s: State<T>)
    requires capacity > 1 && |s.slots| == capacity && |s.accepted| == s.published
  {
    forall k: nat | s.released <= k < s.published && !(k == s.released && s.consumer.SlotTaken?) ::
      s.slots[k % capacity] == s.accepted[k]
  }

  /** A producer that saw room has, by its own view, room for one more. */
  ghost predicate ProducerOk<T>(capacity: nat, s: State<T>)
    requires capacity > 1 && |s.slots| == capacity
  {
    !s.producer.Resting? ==>
      && s.producer.tail == s.tail < capacity && s.producer.next == (s.tail + 1) % capacity
      && (!s.producer.TailLoaded? ==> s.published - s.producerView < capacity - 1)
      && (s.producer.SlotWritten? ==> s.slots[s.tail] == s.producer.v)
  }

  ghost predicate ConsumerOk<T>(capacity: nat, s: State<T>)
    requires |s.accepted| == s.published
  {
    && (!s.consumer.Idle? ==> s.consumer.head == s.head)
    && (s.consumer.ItemSeen? || s.consumer.SlotTaken? ==> s.released < s.consumerView <= s.published)
    && (s.consumer.SlotTaken? ==> s.released < s.published && s.consumer.out == s.accepted[s.released])
  }

  ghost predicate Inv<T>(capacity: nat, s: State<T>) {
    && IndicesOk(capacity, s) && HistoryOk(s) && SlotsOk(capacity, s)
    && ProducerOk(capacity, s) && ConsumerOk(capacity, s)
  }

  lemma WriteKeepsSlots<T>(capacity: nat, s: State<T>)
    requires Inv(capacity, s) && Enabled(s, PushWritesSlot)
    ensures Inv(capacity, Apply(capacity, s, PushWritesSlot))
  {
    var s' := Apply(capacity, s, PushWritesSlot);
    forall k: nat | s.released <= k < s.published && !(k == s.released && s.consumer.SlotTaken?)
      ensures s'.slots[k % capacity] == s.accepted[k]
    {
      if k % capacity == s.tail {
        SameSlotSameCount(k, s.published, capacity);
      }
    }
  }

  lemma TakeKeepsSlots<T>(capacity: nat, s: State<T>, left: T)
    requires Inv(capacity, s) && Enabled(s, PopTakesSlot(left))
    ensures Inv(capacity, Apply(capacity, s, PopTakesSlot(left)))
  {
    var s' := Apply(capacity, s, PopTakesSlot(left));
    forall k: nat | s.released < k < s.published ensures s'.slots[k % capacity] == s.accepted[k] {
      if k % capacity == s.head {
        SameSlotSameCount(s.released, k, capacity);
      }
    }
    if s.producer.SlotWritten? && s.head == s.tail {
      SameSlotSameCount(s.released, s.published, capacity);
    }
  }

  /** push says "full" exactly when, as far as it can know, capacity - 1 items are unreleased. */
  lemma FullExactlyByView<T>(capacity: nat, s: State<T>, view: nat)
    requires Inv(capacity, s) && Enabled(s, PushLoadsHead(view))
    ensures Apply(capacity, s, PushLoadsHead(view)).producer.Resting? <==> s.published - view == capacity - 1
  {
    ModSuccessor(s.published, capacity);
    if s.published - view == capacity - 1 {
      ModLap(view, capacity);
    } else if (s.published + 1) % capacity == view % capacity {
      SameSlotSameCount(view, s.published + 1, capacity);
    }
  }

  /** pop says "empty" exactly when it knows of no unreleased item. */
  lemma EmptyExactlyByView<T>(capacity: nat, s: State<T>, view: nat)
    requires Inv(capacity, s) && Enabled(s, PopLoadsTail(view))
    ensures Apply(capacity, s, PopLoadsTail(view)).consumer.Idle? <==> view == s.released
  {
    if s.released % capacity == view % capacity {
      SameSlotSameCount(s.released, view, capacity);
    }
  }

  lemma StepKeepsInv<T>(capacity: nat, s: State<T>, l: Label<T>)
    requires Inv(capacity, s) && Enabled(s, l)
    ensures Inv(capacity, Apply(capacity, s, l))
  {
    match l
    case PushLoadsHead(view) => FullExactlyByView(capacity, s, view);
    case PushWritesSlot => WriteKeepsSlots(capacity, s);
    case PushStoresTail => ModSuccessor(s.published, capacity);
    case PopLoadsTail(view) => EmptyExactlyByView(capacity, s, view);
    case PopTakesSlot(left) => TakeKeepsSlots(capacity, s, left);
    case PopStoresHead => ModSuccessor(s.released, capacity);
    case _ =>
  }

  function Run<T>(capacity: nat, slots: seq<T>, schedule: seq<Label<T>>): Option<State<T>>
    requires capacity > 1
  {
    if schedule == [] then Some(Initial(slots))
    else
      var before := Run(capacity, slots, schedule[..|schedule| - 1]);
      var l := schedule[|schedule| - 1];
      if before.Some? && Enabled(before.value, l) then Some(Apply(capacity, before.value, l)) else None
  }

  lemma {:induction false} EveryScheduleKeepsInv<T>(capacity: nat, slots: seq<T>, schedule: seq<Label<T>>)
    requires capacity > 1 && |slots| == capacity
    ensures var r := Run(capacity, slots, schedule); r.Some? ==> Inv(capacity, r.value)
  {
    if schedule != [] {
      var before := Run(capacity, slots, schedule[..|schedule| - 1]);
      EveryScheduleKeepsInv(capacity, slots, schedule[..|schedule| - 1]);
      if before.Some? && Enabled(before.value, schedule[|schedule| - 1]) {
        StepKeepsInv(capacity, before.value, schedule[|schedule| - 1]);
      }
    }
  }

  /** The guards on slot indices never hold a step up: the program has none. */
  lemma GuardsNeverBlock<T>(capacity: nat, slots: seq<T>, schedule: seq<Label<T>>, s: State<T>, left: T)
    requires capacity > 1 && |slots| == capacity && Run(capacity, slots, schedule) == Some(s)
    ensures Enabled(s, PushWritesSlot) <==> s.producer.RoomSeen?
    ensures Enabled(s, PopTakesSlot(left)) <==> s.consumer.ItemSeen?
  {
    EveryScheduleKeepsInv(capacity, slots, schedule);
    hide Run;
  }

  /** What the ring holds between steps, read from its slots. */
  function Contents<T>(capacity: nat, s: State<T>): seq<T>
    requires capacity > 1 && |s.slots| == capacity && s.released <= s.published
  {
    seq(s.published - s.released, i requires 0 <= i < s.published - s.released => s.slots[(s.released + i) % capacity])
  }

  /** FIFO and bound, over every schedule of single loads and stores with stale views. */
  lemma NothingLostOrReordered<T>(capacity: nat, slots: seq<T>, schedule: seq<Label<T>>, s: State<T>)
    requires capacity > 1 && |slots| == capacity && Run(capacity, slots, schedule) == Some(s)
    ensures |s.slots| == capacity && s.released <= s.published
    ensures |Contents(capacity, s)| <= capacity - 1
    ensures !s.consumer.SlotTaken? ==> s.popped + Contents(capacity, s) == s.accepted
    ensures s.consumer.SlotTaken? ==>
      Contents(capacity, s) != [] && s.popped + [s.consumer.out] + Contents(capacity, s)[1..] == s.accepted
  {
    EveryScheduleKeepsInv(capacity, slots, schedule);
    ContentsAreAccepted(capacity, s);
  }

  /** The value the producer has begun to push last. */
  function Pushing<T>(schedule: seq<Label<T>>): Option<T> {
    if schedule == [] then None
    else if schedule[|schedule| - 1].PushLoadsTail? then Some(schedule[|schedule| - 1].v)
    else Pushing(schedule[..|schedule| - 1])
  }

  /** The values of the pushes that were carried through. */
  function Pushed<T>(schedule: seq<Label<T>>): seq<Option<T>> {
    if schedule == [] then []
    else
      var front := schedule[..|schedule| - 1];
      Pushed(front) + if schedule[|schedule| - 1].PushStoresTail? then [Pushing(front)] else []
  }

  function Pops<T>(schedule: seq<Label<T>>): nat {
    if schedule == [] then 0
    else Pops(schedule[..|schedule| - 1]) + if schedule[|schedule| - 1].PopStoresHead? then 1 else 0
  }

  function AsPushed<T>(xs: seq<T>): seq<Option<T>> {
    seq(|xs|, i requires 0 <= i < |xs| => Some(xs[i]))
  }

  lemma PushStep<T>(capacity: nat, s: State<T>, l: Label<T>)
    requires capacity > 1 && Enabled(s, l)
    ensures var s' := Apply(capacity, s, l);
      && (l.PushStoresTail? ==> !s.producer.Resting? && s'.accepted == s.accepted + [s.producer.v])
      && (!l.PushStoresTail? ==> s'.accepted == s.accepted)
      && |s'.popped| == |s.popped| + (if l.PopStoresHead? then 1 else 0)
      && (!s'.producer.Resting? ==>
            if l.PushLoadsTail? then s'.producer.v == l.v else !s.producer.Resting? && s'.producer.v == s.producer.v)
  {
  }

  /**
   Over every schedule: what was accepted are, in order, the values that the pushes carried
   through were called with; as many were popped as pops were carried through.
   */
  lemma {:induction false} AcceptedArePushed<T>(capacity: nat, slots: seq<T>, schedule: seq<Label<T>>, s: State<T>)
    requires capacity > 1 && |slots| == capacity && Run(capacity, slots, schedule) == Some(s)
    ensures AsPushed(s.accepted) == Pushed(schedule) && |s.popped| == Pops(schedule)
    ensures !s.producer.Resting? ==> Pushing(schedule) == Some(s.producer.v)
  {
    if schedule != [] {
      var before := Run(capacity, slots, schedule[..|schedule| - 1]).value;
      AcceptedArePushed(capacity, slots, schedule[..|schedule| - 1], before);
      PushStep(capacity, before, schedule[|schedule| - 1]);
      hide Apply;
    }
  }

  /** What is in the slots is what was accepted and not yet released. */
  lemma ContentsAreRest<T>(capacity: nat, s: State<T>)
    requires Inv(capacity, s)
    ensures var c, rest := Contents(capacity, s), s.accepted[s.released..];
      |c| == |rest| && (forall i | 0 <= i < |c| && !(i == 0 && s.consumer.SlotTaken?) :: c[i] == rest[i])
  {
    hide ProducerOk;
    var c := Contents(capacity, s);
    forall i | 0 <= i < |c| && !(i == 0 && s.consumer.SlotTaken?)
      ensures c[i] == s.accepted[s.released..][i]
    {
      assert s.slots[(s.released + i) % capacity] == s.accepted[s.released + i];
    }
  }

  lemma ContentsAreAccepted<T>(capacity: nat, s: State<T>)
    requires Inv(capacity, s)
    ensures var c := Contents(capacity, s);
      && (!s.consumer.SlotTaken? ==> s.popped + c == s.accepted)
      && (s.consumer.SlotTaken? ==> c != [] && s.popped + [s.consumer.out] + c[1..] == s.accepted)
  {
    ContentsAreRest(capacity, s);
    assert s.popped == s.accepted[..s.released];
    var c, rest := Contents(capacity, s), s.accepted[s.released..];
    if s.consumer.SlotTaken? {
      assert rest[0] == s.consumer.out;
      assert [s.consumer.out] + c[1..] == rest;
    } else {
      assert c == rest;
    }
    hide Contents, Inv;
    assert s.accepted == s.popped + rest;
  }

  /**
   No two threads touch a slot at once: the item the producer overwrites was released, and
   the producer knows it; the item the consumer reads was published, and the consumer
   knows it; and the two never mean the same slot.
   */
  lemma SlotsAreNeverShared<T>(capacity: nat, slots: seq<T>, schedule: seq<Label<T>>, s: State<T>)
    requires capacity > 1 && |slots| == capacity && Run(capacity, slots, schedule) == Some(s)
    ensures s.producer.RoomSeen? || s.producer.SlotWritten? ==> s.published - capacity < s.producerView <= s.released
    ensures s.consumer.ItemSeen? || s.consumer.SlotTaken? ==> s.released < s.consumerView <= s.published
    ensures (s.producer.RoomSeen? || s.producer.SlotWritten?) && (s.consumer.ItemSeen? || s.consumer.SlotTaken?)
        ==> s.producer.tail != s.consumer.head
  {
    EveryScheduleKeepsInv(capacity, slots, schedule);
    if (s.producer.RoomSeen? || s.producer.SlotWritten?) && (s.consumer.ItemSeen? || s.consumer.SlotTaken?) {
      if s.head == s.tail {
        SameSlotSameCount(s.released, s.published, capacity);
      }
    }
  }

  // ----- the program's own form -----

  class SpscRing<T(0)> {
    const capacity: nat
    const slots: array<T>
    var head: nat
    var tail: nat
    ghost var rest: State<T>   // the two threads' positions and views, and the history

    ghost function Now(): State<T>
      reads this, slots
    {
      rest.(slots := slots[..], head := head, tail := tail)
    }

    ghost predicate Valid()
      reads this, slots
    {
      capacity > 1 && slots.Length == capacity && Inv(capacity, Now())
    }

    constructor (capacity: nat)
      requires capacity > 1
      ensures this.capacity == capacity && fresh(slots) && Valid() && Now() == Initial(slots[..])
    {
      this.capacity := capacity;
      slots := new T[capacity];
      head, tail := 0, 0;
      new;
      rest := Initial(slots[..]);
    }

    /** push: `tail_.load`, and the next index. */
    method PushLoadsTail(value: T) returns (t: nat, next: nat)
      requires Valid() && rest.producer.Resting?
      modifies this`rest
      ensures Valid() && Now() == Apply(capacity, old(Now()), Label.PushLoadsTail(value))
      ensures rest.producer == TailLoaded(value, t, next)
    {
      StepKeepsInv(capacity, Now(), Label.PushLoadsTail(value));
      t := tail;
      next := (t + 1) % capacity;
      rest := rest.(producer := TailLoaded(value, t, next));
    }

    /** push: the comparison with a possibly stale `head_.load`. */
    method PushChecks(value: T, t: nat, next: nat, view: nat) returns (room: bool)
      requires Valid() && rest.producer == TailLoaded(value, t, next) && rest.producerView <= view <= rest.released
      modifies this`rest
      ensures Valid() && Now() == Apply(capacity, old(Now()), PushLoadsHead(view))
      ensures room <==> rest.published - view < capacity - 1
    {
      StepKeepsInv(capacity, Now(), PushLoadsHead(view));
      FullExactlyByView(capacity, Now(), view);
      var loaded := view % capacity;
      room := next != loaded;
      rest := rest.(producerView := view, producer := if room then RoomSeen(value, t, next) else Resting);
    }

    /** push: the slot is written, in place. */
    method PushWrites(value: T, t: nat, next: nat)
      requires Valid() && rest.producer == RoomSeen(value, t, next)
      modifies this`rest, slots
      ensures Valid() && Now() == Apply(capacity, old(Now()), PushWritesSlot)
    {
      StepKeepsInv(capacity, Now(), PushWritesSlot);
      slots[t] := value;
      rest := rest.(producer := SlotWritten(value, t, next));
    }

    /** push: `tail_.store`. */
    method PushPublishes(value: T, t: nat, next: nat)
      requires Valid() && rest.producer == SlotWritten(value, t, next)
      modifies this`rest, this`tail
      ensures Valid() && Now() == Apply(capacity, old(Now()), PushStoresTail)
      ensures rest.accepted == old(rest.accepted) + [value]
    {
      StepKeepsInv(capacity, Now(), PushStoresTail);
      tail := next;
      rest := rest.(published := rest.published + 1, accepted := rest.accepted + [value], producer := Resting);
    }

    /** pop: `head_.load`. */
    method PopLoadsHead() returns (h: nat)
      requires Valid() && rest.consumer.Idle?
      modifies this`rest
      ensures Valid() && Now() == Apply(capacity, old(Now()), Label.PopLoadsHead)
      ensures rest.consumer == HeadLoaded(h)
    {
      StepKeepsInv(capacity, Now(), Label.PopLoadsHead);
      h := head;
      rest := rest.(consumer := HeadLoaded(h));
    }

    /** pop: the comparison with a possibly stale `tail_.load`. */
    method PopChecks(h: nat, view: nat) returns (item: bool)
      requires Valid() && rest.consumer == HeadLoaded(h) && rest.consumerView <= view <= rest.published
      modifies this`rest
      ensures Valid() && Now() == Apply(capacity, old(Now()), PopLoadsTail(view))
      ensures item <==> rest.released < view
    {
      StepKeepsInv(capacity, Now(), PopLoadsTail(view));
      EmptyExactlyByView(capacity, Now(), view);
      item := h != view % capacity;
      rest := rest.(consumerView := view, consumer := if item then ItemSeen(h) else Idle);
    }

    /** pop: the item is moved out of its slot, which keeps an unspecified value. */
    method PopTakes(h: nat, left: T) returns (out: T)
      requires Valid() && rest.consumer == ItemSeen(h)
      modifies this`rest, slots
      ensures Valid() && Now() == Apply(capacity, old(Now()), PopTakesSlot(left))
      ensures rest.released < |rest.accepted| && out == rest.accepted[rest.released]
    {
      StepKeepsInv(capacity, Now(), PopTakesSlot(left));
      out := slots[h];
      slots[h] := left;
      rest := rest.(consumer := SlotTaken(h, out));
    }

    /** pop: `head_.store`. */
    method PopReleases(h: nat, out: T)
      requires Valid() && rest.consumer == SlotTaken(h, out)
      modifies this`rest, this`head
      ensures Valid() && Now() == Apply(capacity, old(Now()), PopStoresHead)
      ensures rest.popped == old(rest.popped) + [out]
    {
      StepKeepsInv(capacity, Now(), PopStoresHead);
      head := (h + 1) % capacity;
      rest := rest.(released := rest.released + 1, popped := rest.popped + [out], consumer := Idle);
    }
  }
}
