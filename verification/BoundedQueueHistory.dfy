/**
 The bounded queue's state as its schedule tells it: which pushes were accepted, which items
 left and how, and who is waiting, read from the labels and the states in front of them.
 */
module BoundedQueueHistory {
  import opened Wrappers
  import opened BoundedQueues

  /** The state in front of the last step. */
  function Before<T(==)>(capacity: nat, policy: Policy, schedule: seq<Label<T>>): State<T>
    requires Sensible(capacity, policy) && schedule != [] && Run(capacity, policy, schedule).Some?
  {
    Run(capacity, policy, schedule[..|schedule| - 1]).value
  }

  /** The values of a push step that is accepted: the queue is open and has room, or makes it by dropping. */
  function Taken<T(==)>(capacity: nat, policy: Policy, s: State<T>, l: Label<T>): seq<T> {
    match l
    case PushArrives(v) => if !s.closed && (|s.q| < capacity || policy == DropOldest) then [v] else []
    case ProducerResumes(v) => if !s.closed && |s.q| < capacity then [v] else []
    case _ => []
  }

  predicate IsPop<T(==)>(l: Label<T>) {
    l.PopArrives? || l.ConsumerResumes? || l.SleeperTimesOut? || l.TryPop?
  }

  /** What leaves the front in a step: a popped item, or the one dropped for a push. */
  function Leaving<T(==)>(capacity: nat, policy: Policy, s: State<T>, l: Label<T>): seq<Exit<T>> {
    if s.q == [] then []
    else if IsPop(l) then [Popped(s.q[0])]
    else if l.PushArrives? && !s.closed && |s.q| >= capacity && policy == DropOldest then [Dropped(s.q[0])]
    else []
  }

  function AllTaken<T(==)>(capacity: nat, policy: Policy, schedule: seq<Label<T>>): seq<T>
    requires Sensible(capacity, policy) && Run(capacity, policy, schedule).Some?
  {
    if schedule == [] then []
    else
      AllTaken(capacity, policy, schedule[..|schedule| - 1])
      + Taken(capacity, policy, Before(capacity, policy, schedule), schedule[|schedule| - 1])
  }

  function AllLeaving<T(==)>(capacity: nat, policy: Policy, schedule: seq<Label<T>>): seq<Exit<T>>
    requires Sensible(capacity, policy) && Run(capacity, policy, schedule).Some?
  {
    if schedule == [] then []
    else
      AllLeaving(capacity, policy, schedule[..|schedule| - 1])
      + Leaving(capacity, policy, Before(capacity, policy, schedule), schedule[|schedule| - 1])
  }

  /** Pushes turned away from a full open queue. */
  function TurnedAway<T(==)>(capacity: nat, policy: Policy, schedule: seq<Label<T>>): nat
    requires Sensible(capacity, policy) && Run(capacity, policy, schedule).Some?
  {
    if schedule == [] then 0
    else
      var s := Before(capacity, policy, schedule);
      TurnedAway(capacity, policy, schedule[..|schedule| - 1])
      + if schedule[|schedule| - 1].PushArrives? && !s.closed && |s.q| >= capacity && policy == DropNewest then 1 else 0
  }

  lemma NoRunWithoutFront<T>(capacity: nat, policy: Policy, schedule: seq<Label<T>>, s: State<T>)
    requires Sensible(capacity, policy) && schedule != [] && Run(capacity, policy, schedule) == Some(s)
    ensures var before, l := Before(capacity, policy, schedule), schedule[|schedule| - 1];
      && Run(capacity, policy, schedule[..|schedule| - 1]) == Some(before)
      && Enabled(before, l) && s == Apply(capacity, policy, before, l)
  {
  }

  lemma AcceptDoes<T>(s: State<T>, v: T)
    ensures var n := if s.sleepingConsumers > 0 then 1 else 0;
      Accept(s, v) == s.(q := s.q + [v], pushes := s.pushes + 1, accepted := s.accepted + [v],
                         sleepingConsumers := s.sleepingConsumers - n, wokenConsumers := s.wokenConsumers + n)
  {
  }

  lemma TakeDoes<T>(s: State<T>, w: Option<T>)
    requires s.q != [] && ValidChoice(s, w)
    ensures var m := if w.Some? then multiset{w.value} else multiset{};
      TakeFront(s, w) == s.(q := s.q[1..], pops := s.pops + 1, gone := s.gone + [Popped(s.q[0])],
                            sleepingProducers := s.sleepingProducers - m, wokenProducers := s.wokenProducers + m)
  {
    if w.None? {
      assert s.sleepingProducers - multiset{} == s.sleepingProducers;
      assert s.wokenProducers + multiset{} == s.wokenProducers;
    }
  }

  /** What a step does to the items and the counters. */
  ghost predicate MovesItems<T>(capacity: nat, policy: Policy, s: State<T>, l: Label<T>, s': State<T>) {
    && s'.accepted == s.accepted + Taken(capacity, policy, s, l)
    && s'.gone == s.gone + Leaving(capacity, policy, s, l)
    && s'.refused
         == s.refused + (if l.PushArrives? && !s.closed && |s.q| >= capacity && policy == DropNewest then 1 else 0)
    && s'.closed == (s.closed || l == CloseLocks)
  }

  lemma PushMovesItems<T>(capacity: nat, policy: Policy, s: State<T>, v: T)
    requires Sensible(capacity, policy)
    ensures MovesItems(capacity, policy, s, PushArrives(v), Push(capacity, policy, s, v))
  {
    AcceptDoes(s, v);
    if policy == DropOldest && |s.q| >= capacity {
      AcceptDoes(s.(q := s.q[1..], drops := s.drops + 1, gone := s.gone + [Dropped(s.q[0])]), v);
    }
    hide Accept;
  }

  lemma ResumeMovesItems<T>(capacity: nat, policy: Policy, s: State<T>, v: T)
    requires Sensible(capacity, policy) && v in s.wokenProducers
    ensures MovesItems(capacity, policy, s, ProducerResumes(v), Apply(capacity, policy, s, ProducerResumes(v)))
  {
    AcceptDoes(s.(wokenProducers := s.wokenProducers - multiset{v}), v);
    hide Accept, Pop, Push;
  }

  /** The state in which a pop step holds the mutex, off the list of waiters, and whether it may wait. */
  function AtTheMutex<T(==)>(s: State<T>, l: Label<T>): (State<T>, bool, Option<T>)
    requires Enabled(s, l) && IsPop(l)
  {
    match l
    case PopArrives(w) => (s, true, w)
    case ConsumerResumes(late, w) => (s.(wokenConsumers := s.wokenConsumers - 1), !late, w)
    case SleeperTimesOut(w) => (s.(sleepingConsumers := s.sleepingConsumers - 1), false, w)
    case TryPop(w) => (s, false, w)
  }

  lemma PopsAtTheMutex<T>(capacity: nat, policy: Policy, s: State<T>, l: Label<T>)
    requires Sensible(capacity, policy) && Enabled(s, l) && IsPop(l)
    ensures var (s1, mayWait, w) := AtTheMutex(s, l);
      ValidChoice(s1, w) && Apply(capacity, policy, s, l) == Pop(s1, mayWait, w)
  {
    hide Push, Pop;
  }

  /** A consumer at the mutex takes the front, or goes to sleep, or leaves. */
  lemma PopDoes<T>(s: State<T>, mayWait: bool, w: Option<T>)
    requires ValidChoice(s, w)
    ensures var s', n := Pop(s, mayWait, w), if s.q == [] && !s.closed && mayWait then 1 else 0;
      && s'.accepted == s.accepted && s'.refused == s.refused && s'.closed == s.closed
      && s'.gone == s.gone + (if s.q == [] then [] else [Popped(s.q[0])])
      && s'.sleepingConsumers == s.sleepingConsumers + n && s'.wokenConsumers == s.wokenConsumers
      && s'.sleepingProducers == LessOne(s.q, s.sleepingProducers, w)
      && s'.sleepingProducers + s'.wokenProducers == s.sleepingProducers + s.wokenProducers
  {
    if s.q != [] {
      TakeDoes(s, w);
      OneIsWoken(s, w);
    }
    hide TakeFront, ValidChoice;
  }

  lemma OneIsWoken<T>(s: State<T>, w: Option<T>)
    requires ValidChoice(s, w)
    ensures var m := if w.Some? then multiset{w.value} else multiset{};
      var a, b := s.sleepingProducers - m, s.wokenProducers + m;
      a + b == s.sleepingProducers + s.wokenProducers && (w.None? ==> a == s.sleepingProducers)
  {
  }

  lemma PopMovesItems<T>(capacity: nat, policy: Policy, s: State<T>, l: Label<T>)
    requires Sensible(capacity, policy) && Enabled(s, l) && IsPop(l)
    ensures MovesItems(capacity, policy, s, l, Apply(capacity, policy, s, l))
  {
    PopsAtTheMutex(capacity, policy, s, l);
    var (s1, mayWait, w) := AtTheMutex(s, l);
    PopDoes(s1, mayWait, w);
    hide Pop, Apply, ValidChoice, LessOne;
  }

  lemma ItemStep<T>(capacity: nat, policy: Policy, s: State<T>, l: Label<T>)
    requires Sensible(capacity, policy) && Enabled(s, l)
    ensures MovesItems(capacity, policy, s, l, Apply(capacity, policy, s, l))
  {
    if IsPop(l) {
      PopMovesItems(capacity, policy, s, l);
    } else if l.PushArrives? {
      PushMovesItems(capacity, policy, s, l.v);
      assert Apply(capacity, policy, s, l) == Push(capacity, policy, s, l.v);
    } else if l.ProducerResumes? {
      ResumeMovesItems(capacity, policy, s, l.v);
    } else {
      WaitersMoveNoItems(capacity, policy, s, l);
    }
    hide *;
  }

  lemma WaitersMoveNoItems<T>(capacity: nat, policy: Policy, s: State<T>, l: Label<T>)
    requires Sensible(capacity, policy) && Enabled(s, l) && !IsPop(l) && !l.PushArrives? && !l.ProducerResumes?
    ensures MovesItems(capacity, policy, s, l, Apply(capacity, policy, s, l))
  {
    hide Push, Pop, ValidChoice;
  }

  lemma LastIsIn<T>(xs: seq<T>, x: T)
    requires xs != []
    ensures x in xs <==> x in xs[..|xs| - 1] || x == xs[|xs| - 1]
  {
    assert xs == xs[..|xs| - 1] + [xs[|xs| - 1]];
  }

  lemma {:induction false} HistoryIsThatOfTheSchedule<T>(capacity: nat, policy: Policy, schedule: seq<Label<T>>, s: State<T>)
    requires Sensible(capacity, policy) && Run(capacity, policy, schedule) == Some(s)
    ensures s.accepted == AllTaken(capacity, policy, schedule) && s.gone == AllLeaving(capacity, policy, schedule)
    ensures s.refused == TurnedAway(capacity, policy, schedule) && (s.closed <==> CloseLocks in schedule)
  {
    if schedule != [] {
      NoRunWithoutFront(capacity, policy, schedule, s);
      var before, front, l := Before(capacity, policy, schedule), schedule[..|schedule| - 1], schedule[|schedule| - 1];
      HistoryIsThatOfTheSchedule(capacity, policy, front, before);
      ItemStep(capacity, policy, before, l);
      LastIsIn(schedule, CloseLocks);
      hide Apply, Run, Taken, Leaving, Enabled;
    }
  }

  /**
   Over every schedule and policy: the accepted items are, in order, the values of the pushes
   that found the queue open and found or made room; what left the front are the items of the
   pops that found one and those dropped for a push; and the queue is what is left. The
   counters are the numbers of these, and the queue is closed once a close has begun.
   */
  lemma ItemsAreThoseOfTheSchedule<T>(capacity: nat, policy: Policy, schedule: seq<Label<T>>, s: State<T>)
    requires Sensible(capacity, policy) && Run(capacity, policy, schedule) == Some(s)
    ensures var taken, leaving := AllTaken(capacity, policy, schedule), AllLeaving(capacity, policy, schedule);
      && s.accepted == taken && s.gone == leaving && |leaving| <= |taken| && s.q == taken[|leaving|..]
      && s.pushes == |taken| && s.pops == CountPopped(leaving)
      && s.drops == |leaving| - CountPopped(leaving) + TurnedAway(capacity, policy, schedule)
    ensures s.closed <==> CloseLocks in schedule
  {
    HistoryIsThatOfTheSchedule(capacity, policy, schedule, s);
    NothingLostOrReordered(capacity, policy, schedule, s);
    EveryScheduleKeepsInv(capacity, policy, schedule);
    hide Run, AllTaken, AllLeaving, TurnedAway, Fifo, NobodyForgotten, CountPopped;
  }

  // ----- who waits -----

  /** A pop step that finds nothing and may wait. */
  predicate GoesToSleep<T(==)>(s: State<T>, l: Label<T>) {
    s.q == [] && !s.closed && (l.PopArrives? || (l.ConsumerResumes? && !l.deadlinePassed))
  }

  /** A push step that finds the queue full and may wait. */
  predicate Blocks<T(==)>(capacity: nat, policy: Policy, s: State<T>, l: Label<T>) {
    !s.closed && |s.q| >= capacity && ((l.PushArrives? && policy == Block) || l.ProducerResumes?)
  }

  /** The sleepers after a step: one is woken for each item accepted, all by a close. */
  function Asleep<T(==)>(capacity: nat, policy: Policy, s: State<T>, l: Label<T>): int {
    if GoesToSleep(s, l) then s.sleepingConsumers + 1
    else if l.SleeperTimesOut? then s.sleepingConsumers - 1
    else if l == CloseNotifiesConsumers then 0
    else if s.sleepingConsumers > 0 && (Taken(capacity, policy, s, l) != [] || l == SpuriousConsumer)
    then s.sleepingConsumers - 1
    else s.sleepingConsumers
  }

  /** The blocked producers' items after a step: one is woken for each item popped, all by a close. */
  function Blocked<T(==)>(capacity: nat, policy: Policy, s: State<T>, l: Label<T>): multiset<T> {
    match l
    case PushArrives(v) => s.sleepingProducers + if Blocks(capacity, policy, s, l) then multiset{v} else multiset{}
    case ProducerResumes(v) => s.sleepingProducers + if Blocks(capacity, policy, s, l) then multiset{v} else multiset{}
    case SpuriousProducer(v) => s.sleepingProducers - multiset{v}
    case CloseNotifiesProducers => multiset{}
    case PopArrives(w) => LessOne(s.q, s.sleepingProducers, w)
    case ConsumerResumes(_, w) => LessOne(s.q, s.sleepingProducers, w)
    case SleeperTimesOut(w) => LessOne(s.q, s.sleepingProducers, w)
    case TryPop(w) => LessOne(s.q, s.sleepingProducers, w)
    case _ => s.sleepingProducers
  }

  function LessOne<T(==)>(q: seq<T>, sleeping: multiset<T>, woken: Option<T>): multiset<T> {
    if q != [] && woken.Some? then sleeping - multiset{woken.value} else sleeping
  }

  /** Consumers inside a wait: those that went to sleep and have neither taken an item nor given up. */
  function Consumers<T(==)>(capacity: nat, policy: Policy, schedule: seq<Label<T>>): int
    requires Sensible(capacity, policy) && Run(capacity, policy, schedule).Some?
  {
    if schedule == [] then 0
    else
      var s, l := Before(capacity, policy, schedule), schedule[|schedule| - 1];
      Consumers(capacity, policy, schedule[..|schedule| - 1])
      + (if GoesToSleep(s, l) then 1 else 0) - (if l.ConsumerResumes? || l.SleeperTimesOut? then 1 else 0)
  }

  /** Producers inside a wait, by the item they hold. */
  function Producers<T(==)>(capacity: nat, policy: Policy, schedule: seq<Label<T>>): multiset<T>
    requires Sensible(capacity, policy) && Run(capacity, policy, schedule).Some?
  {
    if schedule == [] then multiset{}
    else
      var s, l := Before(capacity, policy, schedule), schedule[|schedule| - 1];
      var front := Producers(capacity, policy, schedule[..|schedule| - 1]);
      match l
      case PushArrives(v) => if Blocks(capacity, policy, s, l) then front + multiset{v} else front
      case ProducerResumes(v) => if Blocks(capacity, policy, s, l) then front else front - multiset{v}
      case _ => front
  }

  /** What a step does to the waiters. */
  ghost predicate MovesWaiters<T>(capacity: nat, policy: Policy, s: State<T>, l: Label<T>, s': State<T>) {
    && s'.sleepingConsumers == Asleep(capacity, policy, s, l)
    && s'.sleepingConsumers + s'.wokenConsumers
         == s.sleepingConsumers + s.wokenConsumers
            + (if GoesToSleep(s, l) then 1 else 0) - (if l.ConsumerResumes? || l.SleeperTimesOut? then 1 else 0)
    && s'.sleepingProducers == Blocked(capacity, policy, s, l)
    && var all := s.sleepingProducers + s.wokenProducers;
    s'.sleepingProducers + s'.wokenProducers ==
      if l.PushArrives? && Blocks(capacity, policy, s, l) then all + multiset{l.v}
      else if l.ProducerResumes? && !Blocks(capacity, policy, s, l) then all - multiset{l.v}
      else all
  }

  lemma PushMovesWaiters<T>(capacity: nat, policy: Policy, s: State<T>, v: T)
    requires Sensible(capacity, policy)
    ensures MovesWaiters(capacity, policy, s, PushArrives(v), Push(capacity, policy, s, v))
  {
    AcceptDoes(s, v);
    if policy == DropOldest && |s.q| >= capacity {
      AcceptDoes(s.(q := s.q[1..], drops := s.drops + 1, gone := s.gone + [Dropped(s.q[0])]), v);
    }
    hide Accept;
  }

  lemma ResumeMovesWaiters<T>(capacity: nat, policy: Policy, s: State<T>, v: T)
    requires Sensible(capacity, policy) && v in s.wokenProducers
    ensures MovesWaiters(capacity, policy, s, ProducerResumes(v), Apply(capacity, policy, s, ProducerResumes(v)))
  {
    AcceptDoes(s.(wokenProducers := s.wokenProducers - multiset{v}), v);
    hide Accept, Pop, Push;
  }

  lemma ConsumerMovesWaiters<T>(capacity: nat, policy: Policy, s: State<T>, l: Label<T>)
    requires Sensible(capacity, policy) && Enabled(s, l) && IsPop(l)
    ensures MovesWaiters(capacity, policy, s, l, Apply(capacity, policy, s, l))
  {
    PopsAtTheMutex(capacity, policy, s, l);
    var (s1, mayWait, w) := AtTheMutex(s, l);
    PopDoes(s1, mayWait, w);
    hide Pop, Apply, ValidChoice, LessOne;
  }

  lemma OthersMoveWaiters<T>(capacity: nat, policy: Policy, s: State<T>, l: Label<T>)
    requires Sensible(capacity, policy) && Enabled(s, l) && !IsPop(l) && !l.PushArrives? && !l.ProducerResumes?
    ensures MovesWaiters(capacity, policy, s, l, Apply(capacity, policy, s, l))
  {
    hide Push, Pop, ValidChoice;
  }

  lemma WaiterStep<T>(capacity: nat, policy: Policy, s: State<T>, l: Label<T>)
    requires Sensible(capacity, policy) && Enabled(s, l)
    ensures MovesWaiters(capacity, policy, s, l, Apply(capacity, policy, s, l))
  {
    if IsPop(l) {
      ConsumerMovesWaiters(capacity, policy, s, l);
    } else if l.PushArrives? {
      PushMovesWaiters(capacity, policy, s, l.v);
      assert Apply(capacity, policy, s, l) == Push(capacity, policy, s, l.v);
    } else if l.ProducerResumes? {
      ResumeMovesWaiters(capacity, policy, s, l.v);
    } else {
      OthersMoveWaiters(capacity, policy, s, l);
    }
    hide *;
  }

  /**
   Over every schedule: whoever is inside a wait, asleep or woken, is there because a step of
   the schedule put it there, and only its own step takes it away; and each step wakes those
   it should: one consumer for an item, one producer for a free slot, everyone at a close.
   */
  lemma {:induction false} WaitersAreThoseOfTheSchedule<T>(capacity: nat, policy: Policy, schedule: seq<Label<T>>, s: State<T>)
    requires Sensible(capacity, policy) && Run(capacity, policy, schedule) == Some(s)
    ensures s.sleepingConsumers + s.wokenConsumers == Consumers(capacity, policy, schedule)
    ensures s.sleepingProducers + s.wokenProducers == Producers(capacity, policy, schedule)
    ensures schedule != [] ==>
      var before, l := Before(capacity, policy, schedule), schedule[|schedule| - 1];
      && s.sleepingConsumers == Asleep(capacity, policy, before, l)
      && s.sleepingProducers == Blocked(capacity, policy, before, l)
  {
    if schedule != [] {
      NoRunWithoutFront(capacity, policy, schedule, s);
      var before, front, l := Before(capacity, policy, schedule), schedule[..|schedule| - 1], schedule[|schedule| - 1];
      WaitersAreThoseOfTheSchedule(capacity, policy, front, before);
      EveryScheduleKeepsInv(capacity, policy, front);
      WaiterStep(capacity, policy, before, l);
      hide Apply, Inv, Asleep, Blocked, Blocks, GoesToSleep;
    }
  }
}
