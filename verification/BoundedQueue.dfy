/**
 The bounded multi-producer multi-consumer queue (src/event/queue.hpp).

 Every stretch of code that runs under the queue's mutex is one step. A thread inside a
 condition-variable wait is either asleep or woken but not yet running again; waking one
 sleeper, a spurious wake-up and a passed deadline are steps too. `close` is three steps,
 because it notifies after it has let go of the mutex.
 */
module BoundedQueues {
  import opened Wrappers

  datatype Policy = DropOldest | DropNewest | Block

  /** How an accepted item left the front of the queue. */
  datatype Exit<T> = Popped(item: T) | Dropped(item: T)

  datatype State<T(==)> = State(
    q: seq<T>,
    closed: bool,
    pushes: nat, pops: nat, drops: nat,
    sleepingConsumers: nat, wokenConsumers: nat,
    sleepingProducers: multiset<T>, wokenProducers: multiset<T>,  // by the item they hold
    closersBeforeEmpty: nat, closersBeforeFull: nat,              // inside close()
    accepted: seq<T>, gone: seq<Exit<T>>, refused: nat)           // history

  /** `woken` is the blocked producer that a pop's notify_one picks. */
  datatype Label<T> =
    | PushArrives(v: T)
    | ProducerResumes(v: T)
    | PopArrives(woken: Option<T>)
    | ConsumerResumes(deadlinePassed: bool, woken: Option<T>)
    | SleeperTimesOut(woken: Option<T>)
    | TryPop(woken: Option<T>)
    | CloseLocks
    | CloseNotifiesConsumers
    | CloseNotifiesProducers
    | SpuriousConsumer
    | SpuriousProducer(v: T)

  /** A queue may not be dropped from when it is empty, so DropOldest needs room for one item. */
  predicate Sensible(capacity: nat, policy: Policy) {
    policy == DropOldest ==> capacity >= 1
  }

  function Initial<T(==)>(): State<T> {
    State([], false, 0, 0, 0, 0, 0, multiset{}, multiset{}, 0, 0, [], [], 0)
  }

  /** notify_one wakes one sleeper if there is any; `woken` says which. */
  predicate ValidChoice<T(==)>(s: State<T>, woken: Option<T>) {
    if |s.sleepingProducers| == 0 then woken.None? else woken.Some? && woken.value in s.sleepingProducers
  }

  predicate Enabled<T(==)>(s: State<T>, l: Label<T>) {
    match l
    case PushArrives(_) => true
    case ProducerResumes(v) => v in s.wokenProducers
    case PopArrives(w) => ValidChoice(s, w)
    case ConsumerResumes(_, w) => s.wokenConsumers > 0 && ValidChoice(s, w)
    case SleeperTimesOut(w) => s.sleepingConsumers > 0 && ValidChoice(s, w)
    case TryPop(w) => ValidChoice(s, w)
    case CloseLocks => true
    case CloseNotifiesConsumers => s.closersBeforeEmpty > 0
    case CloseNotifiesProducers => s.closersBeforeFull > 0
    case SpuriousConsumer => s.sleepingConsumers > 0
    case SpuriousProducer(v) => v in s.sleepingProducers
  }

  function WakeConsumer<T>(s: State<T>): State<T> {
    if s.sleepingConsumers > 0
    then s.(sleepingConsumers := s.sleepingConsumers - 1, wokenConsumers := s.wokenConsumers + 1)
    else s
  }

  function WakeProducer<T>(s: State<T>, woken: Option<T>): State<T>
    requires ValidChoice(s, woken)
  {
    if woken.Some?
    then s.(sleepingProducers := s.sleepingProducers - multiset{woken.value},
            wokenProducers := s.wokenProducers + multiset{woken.value})
    else s
  }

  function Accept<T>(s: State<T>, v: T): State<T> {
    WakeConsumer(s.(q := s.q + [v], pushes := s.pushes + 1, accepted := s.accepted + [v]))
  }

  function TakeFront<T>(s: State<T>, woken: Option<T>): State<T>
    requires s.q != [] && ValidChoice(s, woken)
  {
    WakeProducer(s.(q := s.q[1..], pops := s.pops + 1, gone := s.gone + [Popped(s.q[0])]), woken)
  }

  function Push<T>(capacity: nat, policy: Policy, s: State<T>, v: T): State<T>
    requires Sensible(capacity, policy)
  {
    if s.closed then s
    else if |s.q| < capacity then Accept(s, v)
    else match policy
      case DropOldest =>
        Accept(s.(q := s.q[1..], drops := s.drops + 1, gone := s.gone + [Dropped(s.q[0])]), v)
      case DropNewest => s.(drops := s.drops + 1, refused := s.refused + 1)
      case Block => s.(sleepingProducers := s.sleepingProducers + multiset{v})
  }

  /** A consumer holding the mutex: takes the front, or goes (back) to sleep if it may, or leaves. */
  function Pop<T>(s: State<T>, mayWait: bool, woken: Option<T>): State<T>
    requires ValidChoice(s, woken)
  {
    if s.q != [] then TakeFront(s, woken)
    else if s.closed || !mayWait then s
    else s.(sleepingConsumers := s.sleepingConsumers + 1)
  }

  function Apply<T(==)>(capacity: nat, policy: Policy, s: State<T>, l: Label<T>): State<T>
    requires Sensible(capacity, policy) && Enabled(s, l)
  {
    match l
    case PushArrives(v) => Push(capacity, policy, s, v)
    case ProducerResumes(v) =>
      var s1 := s.(wokenProducers := s.wokenProducers - multiset{v});
      if s.closed then s1
      else if |s.q| < capacity then Accept(s1, v)
      else s1.(sleepingProducers := s.sleepingProducers + multiset{v})
    case PopArrives(w) => Pop(s, true, w)
    case ConsumerResumes(late, w) => Pop(s.(wokenConsumers := s.wokenConsumers - 1), !late, w)
    case SleeperTimesOut(w) => Pop(s.(sleepingConsumers := s.sleepingConsumers - 1), false, w)
    case TryPop(w) => Pop(s, false, w)
    case CloseLocks => s.(closed := true, closersBeforeEmpty := s.closersBeforeEmpty + 1)
    case CloseNotifiesConsumers =>
      s.(sleepingConsumers := 0, wokenConsumers := s.wokenConsumers + s.sleepingConsumers,
         closersBeforeEmpty := s.closersBeforeEmpty - 1, closersBeforeFull := s.closersBeforeFull + 1)
    case CloseNotifiesProducers =>
      s.(sleepingProducers := multiset{}, wokenProducers := s.wokenProducers + s.sleepingProducers,
         closersBeforeFull := s.closersBeforeFull - 1)
    case SpuriousConsumer => WakeConsumer(s)
    case SpuriousProducer(v) =>
      s.(sleepingProducers := s.sleepingProducers - multiset{v}, wokenProducers := s.wokenProducers + multiset{v})
  }

  // ----- what every interleaving keeps -----

  function Items<T>(gone: seq<Exit<T>>): seq<T> {
    seq(|gone|, i requires 0 <= i < |gone| => gone[i].item)
  }

  function CountPopped<T>(gone: seq<Exit<T>>): nat {
    if gone == [] then 0 else CountPopped(gone[..|gone| - 1]) + (if gone[|gone| - 1].Popped? then 1 else 0)
  }

  /** FIFO: what was accepted is what has left the front, in order, and then the queue. */
  ghost predicate Fifo<T>(s: State<T>) {
    s.accepted == Items(s.gone) + s.q
  }

  ghost predicate Counted<T>(policy: Policy, s: State<T>) {
    && s.pushes == |s.accepted|
    && s.pops == CountPopped(s.gone)
    && s.drops == |s.gone| - s.pops + s.refused
    && (policy != DropOldest ==> s.pops == |s.gone|)
    && (policy != DropNewest ==> s.refused == 0)
  }

  /** Nobody sleeps through an item, a free slot or the end. */
  ghost predicate NobodyForgotten<T>(capacity: nat, s: State<T>) {
    && (!s.closed && s.sleepingConsumers > 0 ==> |s.q| <= s.wokenConsumers)
    && (!s.closed && |s.sleepingProducers| > 0 ==> capacity - |s.q| <= |s.wokenProducers|)
    && (s.closed && s.sleepingConsumers > 0 ==> s.closersBeforeEmpty > 0)
    && (s.closed && |s.sleepingProducers| > 0 ==> s.closersBeforeEmpty + s.closersBeforeFull > 0)
    && (s.closersBeforeEmpty + s.closersBeforeFull > 0 ==> s.closed)
  }

  ghost predicate Inv<T>(capacity: nat, policy: Policy, s: State<T>) {
    && Sensible(capacity, policy)
    && |s.q| <= capacity
    && Fifo(s) && Counted(policy, s) && NobodyForgotten(capacity, s)
    && (policy != Block ==> |s.sleepingProducers| + |s.wokenProducers| == 0)
  }

  lemma FrontLeaves<T>(s: State<T>, e: Exit<T>)
    requires Fifo(s) && s.q != [] && e.item == s.q[0]
    ensures s.accepted == Items(s.gone + [e]) + s.q[1..]
    ensures CountPopped(s.gone + [e]) == CountPopped(s.gone) + (if e.Popped? then 1 else 0)
  {
    assert Items(s.gone + [e]) == Items(s.gone) + [s.q[0]];
    assert s.q == [s.q[0]] + s.q[1..];
    assert (s.gone + [e])[..|s.gone|] == s.gone;
  }

  lemma AcceptKeepsInv<T>(capacity: nat, policy: Policy, s: State<T>, v: T)
    requires Sensible(capacity, policy) && |s.q| < capacity && !s.closed
    requires Fifo(s) && Counted(policy, s)
    requires policy != Block ==> |s.sleepingProducers| + |s.wokenProducers| == 0
    requires s.sleepingConsumers > 0 ==> |s.q| <= s.wokenConsumers
    requires |s.sleepingProducers| > 0 ==> capacity - |s.q| - 1 <= |s.wokenProducers|
    requires s.closersBeforeEmpty + s.closersBeforeFull == 0
    ensures Inv(capacity, policy, Accept(s, v))
  {
    assert s.accepted + [v] == Items(s.gone) + (s.q + [v]);
  }

  lemma PushKeepsInv<T>(capacity: nat, policy: Policy, s: State<T>, v: T)
    requires Inv(capacity, policy, s)
    ensures Inv(capacity, policy, Push(capacity, policy, s, v))
  {
    if !s.closed && |s.q| < capacity {
      AcceptKeepsInv(capacity, policy, s, v);
    } else if !s.closed && policy == DropOldest {
      FrontLeaves(s, Dropped(s.q[0]));
      AcceptKeepsInv(capacity, policy, s.(q := s.q[1..], drops := s.drops + 1, gone := s.gone + [Dropped(s.q[0])]), v);
    }
  }

  lemma TakeKeepsInv<T>(capacity: nat, policy: Policy, s: State<T>, w: Option<T>)
    requires Sensible(capacity, policy) && 0 < |s.q| <= capacity && ValidChoice(s, w)
    requires Fifo(s) && Counted(policy, s)
    requires policy != Block ==> |s.sleepingProducers| + |s.wokenProducers| == 0
    requires !s.closed && s.sleepingConsumers > 0 ==> |s.q| - 1 <= s.wokenConsumers
    requires NobodyForgotten(capacity, s.(closed := true)) || !s.closed
    requires !s.closed ==> s.closersBeforeEmpty + s.closersBeforeFull == 0
    requires !s.closed && |s.sleepingProducers| > 0 ==> capacity - |s.q| <= |s.wokenProducers|
    ensures Inv(capacity, policy, TakeFront(s, w))
  {
    FrontLeaves(s, Popped(s.q[0]));
  }

  /** The invariant, but for one consumer that holds the mutex and is about to look. */
  ghost predicate ButOneConsumer<T>(capacity: nat, policy: Policy, s: State<T>) {
    && Sensible(capacity, policy) && |s.q| <= capacity && Fifo(s) && Counted(policy, s)
    && (policy != Block ==> |s.sleepingProducers| + |s.wokenProducers| == 0)
    && (!s.closed && s.sleepingConsumers > 0 ==> |s.q| <= s.wokenConsumers + 1)
    && NobodyForgotten(capacity, s.(sleepingConsumers := if s.closed then s.sleepingConsumers else 0))
  }

  lemma PopKeepsInv<T>(capacity: nat, policy: Policy, s: State<T>, mayWait: bool, w: Option<T>)
    requires ButOneConsumer(capacity, policy, s) && ValidChoice(s, w)
    ensures Inv(capacity, policy, Pop(s, mayWait, w))
  {
    hide Fifo, Counted;
    if s.q != [] {
      TakeKeepsInv(capacity, policy, s, w);
    } else if !s.closed && mayWait {
      SleepKeepsFifo(policy, s);
    }
  }

  lemma SleepKeepsFifo<T>(policy: Policy, s: State<T>)
    requires Fifo(s) && Counted(policy, s)
    ensures var s1 := s.(sleepingConsumers := s.sleepingConsumers + 1); Fifo(s1) && Counted(policy, s1)
  {
  }

  lemma ProducerKeepsInv<T>(capacity: nat, policy: Policy, s: State<T>, v: T)
    requires Inv(capacity, policy, s) && v in s.wokenProducers
    ensures Inv(capacity, policy, Apply(capacity, policy, s, ProducerResumes(v)))
  {
    if !s.closed && |s.q| < capacity {
      AcceptKeepsInv(capacity, policy, s.(wokenProducers := s.wokenProducers - multiset{v}), v);
    }
  }

  lemma WaitersMoveNothing<T>(capacity: nat, policy: Policy, s: State<T>, l: Label<T>)
    requires Inv(capacity, policy, s) && Enabled(s, l)
    requires l.CloseLocks? || l.CloseNotifiesConsumers? || l.CloseNotifiesProducers?
      || l.SpuriousConsumer? || l.SpuriousProducer?
    ensures Fifo(Apply(capacity, policy, s, l)) && Counted(policy, Apply(capacity, policy, s, l))
  {
    hide Push, Pop, NobodyForgotten;
  }

  /** The steps that move no item. */
  lemma WaitersKeepInv<T>(capacity: nat, policy: Policy, s: State<T>, l: Label<T>)
    requires Inv(capacity, policy, s) && Enabled(s, l)
    requires l.CloseLocks? || l.CloseNotifiesConsumers? || l.CloseNotifiesProducers?
      || l.SpuriousConsumer? || l.SpuriousProducer?
    ensures Inv(capacity, policy, Apply(capacity, policy, s, l))
  {
    hide Push, Pop, Fifo, Counted;
    assert Fifo(Apply(capacity, policy, s, l)) && Counted(policy, Apply(capacity, policy, s, l)) by {
      WaitersMoveNothing(capacity, policy, s, l);
    }
  }

  /** The invariant survives every step, whoever takes it and whichever waiter is woken. */
  lemma StepKeepsInv<T>(capacity: nat, policy: Policy, s: State<T>, l: Label<T>)
    requires Inv(capacity, policy, s) && Enabled(s, l)
    ensures Inv(capacity, policy, Apply(capacity, policy, s, l))
  {
    hide Push, Pop, Fifo, Counted;
    match l
    case PushArrives(v) => PushKeepsInv(capacity, policy, s, v);
    case ProducerResumes(v) => ProducerKeepsInv(capacity, policy, s, v);
    case PopArrives(w) => PopKeepsInv(capacity, policy, s, true, w);
    case ConsumerResumes(late, w) =>
      var s1 := s.(wokenConsumers := s.wokenConsumers - 1);
      SameItems(policy, s, s1);
      PopKeepsInv(capacity, policy, s1, !late, w);
    case SleeperTimesOut(w) =>
      var s1 := s.(sleepingConsumers := s.sleepingConsumers - 1);
      SameItems(policy, s, s1);
      PopKeepsInv(capacity, policy, s1, false, w);
    case TryPop(w) => PopKeepsInv(capacity, policy, s, false, w);
    case _ => WaitersKeepInv(capacity, policy, s, l);
  }

  lemma SameItems<T>(policy: Policy, s: State<T>, s1: State<T>)
    requires Fifo(s) && Counted(policy, s)
    requires s1 == s.(sleepingConsumers := s1.sleepingConsumers, wokenConsumers := s1.wokenConsumers)
    ensures Fifo(s1) && Counted(policy, s1)
  {
  }

  /** The state a schedule leads to from an empty open queue, if each of its steps can be taken. */
  function Run<T(==)>(capacity: nat, policy: Policy, schedule: seq<Label<T>>): Option<State<T>>
    requires Sensible(capacity, policy)
  {
    if schedule == [] then Some(Initial())
    else
      var before := Run(capacity, policy, schedule[..|schedule| - 1]);
      var l := schedule[|schedule| - 1];
      if before.Some? && Enabled(before.value, l) then Some(Apply(capacity, policy, before.value, l)) else None
  }

  lemma {:induction false} EveryScheduleKeepsInv<T>(capacity: nat, policy: Policy, schedule: seq<Label<T>>)
    requires Sensible(capacity, policy)
    ensures var r := Run(capacity, policy, schedule); r.Some? ==> Inv(capacity, policy, r.value)
  {
    if schedule != [] {
      var before := Run(capacity, policy, schedule[..|schedule| - 1]);
      EveryScheduleKeepsInv(capacity, policy, schedule[..|schedule| - 1]);
      if before.Some? && Enabled(before.value, schedule[|schedule| - 1]) {
        StepKeepsInv(capacity, policy, before.value, schedule[|schedule| - 1]);
      }
    }
  }

  /** No wake-up is lost, over every schedule. */
  lemma NoLostWakeup<T>(capacity: nat, policy: Policy, schedule: seq<Label<T>>, s: State<T>)
    requires Sensible(capacity, policy) && Run(capacity, policy, schedule) == Some(s)
    ensures !s.closed && s.sleepingConsumers > 0 ==> |s.q| <= s.wokenConsumers
    ensures !s.closed && |s.sleepingProducers| > 0 ==> capacity - |s.q| <= |s.wokenProducers|
    ensures s.closed && s.closersBeforeEmpty == 0 ==> s.sleepingConsumers == 0
    ensures s.closed && s.closersBeforeEmpty + s.closersBeforeFull == 0 ==> |s.sleepingProducers| == 0
    // when nobody is about to run, whoever sleeps has nothing to do
    ensures s.wokenConsumers == 0 && s.closersBeforeEmpty == 0 && s.sleepingConsumers > 0 ==> s.q == [] && !s.closed
    ensures |s.wokenProducers| == 0 && s.closersBeforeEmpty + s.closersBeforeFull == 0 && |s.sleepingProducers| > 0
        ==> |s.q| == capacity && !s.closed
  {
    EveryScheduleKeepsInv(capacity, policy, schedule);
  }

  /** FIFO and conservation, over every schedule. */
  lemma NothingLostOrReordered<T>(capacity: nat, policy: Policy, schedule: seq<Label<T>>, s: State<T>)
    requires Sensible(capacity, policy) && Run(capacity, policy, schedule) == Some(s)
    ensures |s.q| <= capacity
    ensures |s.gone| <= |s.accepted| && s.q == s.accepted[|s.gone|..]
    ensures forall i | 0 <= i < |s.gone| :: s.gone[i].item == s.accepted[i]
    ensures s.pushes == s.pops + |s.q| + (if policy == DropOldest then s.drops else 0)
    ensures policy == Block ==> s.drops == 0
  {
    EveryScheduleKeepsInv(capacity, policy, schedule);
    assert |Items(s.gone)| == |s.gone|;
    forall i | 0 <= i < |s.gone| ensures s.gone[i].item == s.accepted[i] {
      assert Items(s.gone)[i] == s.accepted[i];
    }
  }

  // ----- the program's own form -----

  datatype PushOutcome = Accepted | Refused | Waits

  /** The queue's fields; the waiters and the history are kept as ghosts. */
  class BoundedQueue<T(==)> {
    const capacity: nat
    const policy: Policy
    var q: seq<T>
    var closed: bool
    var pushes: nat
    var pops: nat
    var drops: nat
    ghost var waiting: State<T>   // only its waiter and history fields are meant

    ghost function Now(): State<T>
      reads this
    {
      waiting.(q := q, closed := closed, pushes := pushes, pops := pops, drops := drops)
    }

    ghost predicate Valid()
      reads this
    {
      Inv(capacity, policy, Now())
    }

    constructor (capacity: nat, policy: Policy)
      requires Sensible(capacity, policy)
      ensures this.capacity == capacity && this.policy == policy && Valid() && Now() == Initial()
    {
      this.capacity, this.policy := capacity, policy;
      q, closed, pushes, pops, drops := [], false, 0, 0, 0;
      waiting := Initial();
    }

    /** push, from taking the mutex until it returns or starts to wait. */
    method PushArrives(value: T) returns (r: PushOutcome)
      requires Valid()
      modifies this
      ensures Valid() && Now() == Apply(capacity, policy, old(Now()), Label.PushArrives(value))
      ensures r == if old(closed) then Refused
                   else if old(|q|) < capacity then Accepted
                   else if policy == DropOldest then Accepted else if policy == DropNewest then Refused else Waits
      ensures r == Accepted ==> q == (if old(|q|) < capacity then old(q) else old(q)[1..]) + [value]
      ensures r == Accepted ==> waiting.accepted == old(waiting.accepted) + [value] && pushes == old(pushes) + 1
      ensures r != Accepted ==> q == old(q) && waiting.accepted == old(waiting.accepted) && pushes == old(pushes)
      ensures drops == old(drops) + if !old(closed) && old(|q|) >= capacity && policy != Block then 1 else 0
    {
      assert Sensible(capacity, policy) && |q| <= capacity;
      StepKeepsInv(capacity, policy, Now(), Label.PushArrives(value));
      hide Inv, Pop, TakeFront, Accept;
      if closed {
        return Refused;
      }
      if |q| >= capacity {
        match policy {
          case DropOldest =>
            waiting := waiting.(gone := waiting.gone + [Dropped(q[0])]);
            q := q[1..];
            drops := drops + 1;
          case DropNewest =>
            drops := drops + 1;
            waiting := waiting.(refused := waiting.refused + 1);
            return Refused;
          case Block =>
            waiting := waiting.(sleepingProducers := waiting.sleepingProducers + multiset{value});
            return Waits;
        }
      }
      Append(value);
      return Accepted;
    }

    /** push, from a wake-up until it returns or waits again. */
    method ProducerResumes(value: T) returns (r: PushOutcome)
      requires Valid() && value in waiting.wokenProducers
      modifies this
      ensures Valid() && Now() == Apply(capacity, policy, old(Now()), Label.ProducerResumes(value))
      ensures r == if old(closed) then Refused else if old(|q|) < capacity then Accepted else Waits
      ensures r == Accepted ==> q == old(q) + [value] && waiting.accepted == old(waiting.accepted) + [value]
      ensures r != Accepted ==> q == old(q) && waiting.accepted == old(waiting.accepted)
    {
      hide Fifo, Counted, NobodyForgotten, Pop, TakeFront;
      StepKeepsInv(capacity, policy, Now(), Label.ProducerResumes(value));
      waiting := waiting.(wokenProducers := waiting.wokenProducers - multiset{value});
      if !(|q| < capacity || closed) {
        waiting := waiting.(sleepingProducers := waiting.sleepingProducers + multiset{value});
        return Waits;
      }
      if closed {
        return Refused;
      }
      Append(value);
      return Accepted;
    }

    /** push's last lines: append, count, notify one consumer. */
    method Append(value: T)
      modifies this
      ensures Now() == Accept(old(Now()), value)
      ensures q == old(q) + [value] && waiting.accepted == old(waiting.accepted) + [value]
      ensures pushes == old(pushes) + 1 && drops == old(drops)
    {
      waiting := WakeConsumer(waiting.(accepted := waiting.accepted + [value]));
      q := q + [value];
      pushes := pushes + 1;
    }

    /** The common end of pop, pop_until and try_pop: take the front, notify one producer. */
    method Take(ghost woken: Option<T>) returns (value: T)
      requires q != [] && ValidChoice(Now(), woken)
      modifies this
      ensures Now() == TakeFront(old(Now()), woken) && value == old(q[0]) && q == old(q)[1..] && pops == old(pops) + 1
    {
      value := q[0];
      waiting := WakeProducer(waiting.(gone := waiting.gone + [Popped(value)]), woken);
      q := q[1..];
      pops := pops + 1;
    }

    /** A consumer that holds the mutex, whether it has just arrived or was woken. */
    method CheckAndPop(mayWait: bool, ghost woken: Option<T>) returns (r: Option<T>, waits: bool)
      requires ValidChoice(Now(), woken)
      modifies this
      ensures Now() == Pop(old(Now()), mayWait, woken)
      ensures r == if old(q) != [] then Some(old(q[0])) else None
      ensures q == if old(q) != [] then old(q)[1..] else []
      ensures waits == (old(q) == [] && !old(closed) && mayWait)
    {
      r, waits := None, false;
      if q != [] {
        var value := Take(woken);
        r := Some(value);
      } else if !closed && mayWait {
        waiting := waiting.(sleepingConsumers := waiting.sleepingConsumers + 1);
        waits := true;
      }
    }

    /** pop, from taking the mutex until it returns or starts to wait (`waits`). */
    method PopArrives(ghost woken: Option<T>) returns (r: Option<T>, waits: bool)
      requires Valid() && ValidChoice(Now(), woken)
      modifies this
      ensures Valid() && Now() == Apply(capacity, policy, old(Now()), Label.PopArrives(woken))
      ensures r == if old(q) != [] then Some(old(q[0])) else None
      ensures q == if old(q) != [] then old(q)[1..] else []
      ensures waits == (old(q) == [] && !old(closed))
    {
      hide Fifo, Counted, NobodyForgotten, Push, Accept;
      StepKeepsInv(capacity, policy, Now(), Label.PopArrives(woken));
      r, waits := CheckAndPop(true, woken);
    }

    /** pop or pop_until, from a wake-up until it returns or waits again. */
    method ConsumerResumes(deadlinePassed: bool, ghost woken: Option<T>) returns (r: Option<T>, waits: bool)
      requires Valid() && waiting.wokenConsumers > 0 && ValidChoice(Now(), woken)
      modifies this
      ensures Valid() && Now() == Apply(capacity, policy, old(Now()), Label.ConsumerResumes(deadlinePassed, woken))
      ensures r == if old(q) != [] then Some(old(q[0])) else None
      ensures q == if old(q) != [] then old(q)[1..] else []
      ensures waits == (old(q) == [] && !old(closed) && !deadlinePassed)
    {
      hide Fifo, Counted, NobodyForgotten, Push, Accept, Pop;
      StepKeepsInv(capacity, policy, Now(), Label.ConsumerResumes(deadlinePassed, woken));
      waiting := waiting.(wokenConsumers := waiting.wokenConsumers - 1);
      r, waits := CheckAndPop(!deadlinePassed, woken);
    }

    method TryPop(ghost woken: Option<T>) returns (r: Option<T>)
      requires Valid() && ValidChoice(Now(), woken)
      modifies this
      ensures Valid() && Now() == Apply(capacity, policy, old(Now()), Label.TryPop(woken))
      ensures r == if old(q) != [] then Some(old(q[0])) else None
      ensures q == if old(q) != [] then old(q)[1..] else []
    {
      hide Fifo, Counted, NobodyForgotten, Push, Accept;
      StepKeepsInv(capacity, policy, Now(), Label.TryPop(woken));
      if q == [] {
        return None;
      }
      var value := Take(woken);
      return Some(value);
    }

    /** The part of close that holds the mutex; the two notify_all calls follow it. */
    method CloseLocks()
      requires Valid()
      modifies this
      ensures Valid() && Now() == Apply(capacity, policy, old(Now()), Label.CloseLocks) && closed
    {
      StepKeepsInv(capacity, policy, Now(), Label.CloseLocks);
      closed := true;
      waiting := waiting.(closersBeforeEmpty := waiting.closersBeforeEmpty + 1);
    }
  }
}
