/**
 The utterance buffer (src/audio/utterance.cpp): a rolling pre-buffer while idle, a capped
 recording while an utterance is active, and the tracking of issued slices. It is related
 to the whole history of what was appended. Times are nanoseconds, config times milliseconds.
 */
module UtteranceBuffers {
  import opened Wrappers
  import opened Modulo
  import opened Samples

  const NS_PER_MS: nat := 1_000_000
  const WORD: nat := 0x1_0000_0000_0000_0000

  datatype Config = Config(rate: nat, prePaddingMs: nat, postPaddingMs: nat, maxInFlight: nat, maxDurationMs: nat)

  function PrePadCapacity(cfg: Config): nat {
    cfg.rate * cfg.prePaddingMs / 1000
  }

  /** The most samples an active recording keeps; zero stands for no limit. */
  function CapSamples(cfg: Config): nat {
    cfg.rate * cfg.maxDurationMs / 1000
  }

  /** `tracked` holds the numbers of the issued slices still tracked, oldest first. */
  datatype State = State(preBuffer: seq<Sample>, recording: bool, active: seq<Sample>, startedAt: int,
                         speechAt: int, tracked: seq<nat>, drops: nat, issued: nat)

  const FRESH := State([], false, [], 0, 0, [], 0, 0)

  datatype Slice = Slice(number: nat, samples: seq<Sample>, startedAt: int, endedAt: int)

  /** `released` are the slices no consumer holds any more when the utterance ends. */
  datatype Op =
    | Append(samples: seq<Sample>)
    | Started(padStart: int, at: int)
    | Ended(at: int, released: set<nat>)
    | Abort

  function LastN(n: nat, xs: seq<Sample>): (r: seq<Sample>)
    ensures |r| == if |xs| < n then |xs| else n
  {
    if |xs| <= n then xs else xs[|xs| - n..]
  }

  function OnAppend(cfg: Config, s: State, samples: seq<Sample>): State {
    if samples == [] then s
    else if s.recording then
      var all, cap := s.active + samples, CapSamples(cfg);
      if cap > 0 && |all| > cap then
        s.(active := LastN(cap, all), startedAt := s.startedAt + DropMs(cfg, |all| - cap) * NS_PER_MS)
      else s.(active := all)
    else s.(preBuffer := LastN(PrePadCapacity(cfg), s.preBuffer + samples))
  }

  /** The whole milliseconds of `drop` samples. */
  function DropMs(cfg: Config, drop: nat): nat {
    if cfg.rate == 0 then 0 else drop * 1000 / cfg.rate
  }

  function OnStarted(s: State, padStart: int, at: int): State {
    s.(recording := true, speechAt := at, startedAt := padStart, active := s.preBuffer, preBuffer := [])
  }

  /** The samples between the start stamp and the padded end, in 64-bit arithmetic. */
  function TargetSamples(cfg: Config, startedAt: int, endedAt: int): nat {
    var durationMs := TruncDiv(endedAt - startedAt, NS_PER_MS) + cfg.postPaddingMs;
    cfg.rate * (durationMs % WORD) % WORD / 1000
  }

  function Trimmed(cfg: Config, s: State, endedAt: int): seq<Sample> {
    var target := TargetSamples(cfg, s.startedAt, endedAt);
    if 0 < target < |s.active| then s.active[..target] else s.active
  }

  function Live(tracked: seq<nat>, released: set<nat>): seq<nat> {
    if tracked == [] then []
    else Live(tracked[..|tracked| - 1], released)
         + if tracked[|tracked| - 1] in released then [] else [tracked[|tracked| - 1]]
  }

  /** The slices kept when the oldest of too many is dropped. */
  function WithinLimit(live: seq<nat>, limit: nat): seq<nat> {
    if |live| >= limit && live != [] then live[1..] else live
  }

  function OnEnded(cfg: Config, s: State, at: int, released: set<nat>): (State, Option<Slice>) {
    if !s.recording then (s, None)
    else
      var live := Live(s.tracked, released);
      var full := |live| >= cfg.maxInFlight && live != [];
      (s.(active := [], recording := false, issued := s.issued + 1,
          tracked := WithinLimit(live, cfg.maxInFlight) + [s.issued],
          drops := if full then s.drops + 1 else s.drops),
       Some(Slice(s.issued, Trimmed(cfg, s, at), s.startedAt, at)))
  }

  function OnAbort(s: State): State {
    if s.recording then s.(active := [], recording := false, startedAt := 0, speechAt := 0) else s
  }

  function Step(cfg: Config, s: State, op: Op): State {
    match op
    case Append(samples) => OnAppend(cfg, s, samples)
    case Started(padStart, at) => OnStarted(s, padStart, at)
    case Ended(at, released) => OnEnded(cfg, s, at, released).0
    case Abort => OnAbort(s)
  }

  function Run(cfg: Config, ops: seq<Op>): State {
    if ops == [] then FRESH else Step(cfg, Run(cfg, ops[..|ops| - 1]), ops[|ops| - 1])
  }

  class UtteranceBuffer {
    const cfg: Config
    const prePadCapacity: nat
    var preBuffer: seq<Sample>
    var recording: bool
    var activeSamples: seq<Sample>
    var activeStartedAt: int
    var activeSpeechStartedAt: int
    var inFlight: seq<nat>
    var drops: nat
    var issued: nat

    ghost predicate Valid()
      reads this
    {
      cfg.maxInFlight > 0 && prePadCapacity == PrePadCapacity(cfg)
    }

    ghost function Now(): State
      reads this
    {
      State(preBuffer, recording, activeSamples, activeStartedAt, activeSpeechStartedAt, inFlight, drops, issued)
    }

    /** With a limit of zero slices the original would take from an empty queue. */
    constructor (cfg: Config)
      requires cfg.maxInFlight > 0
      ensures Valid() && this.cfg == cfg && Now() == FRESH
    {
      this.cfg := cfg;
      prePadCapacity := cfg.rate * cfg.prePaddingMs / 1000;
      preBuffer, recording, activeSamples, activeStartedAt, activeSpeechStartedAt := [], false, [], 0, 0;
      inFlight, drops, issued := [], 0, 0;
    }

    method AppendSamples(samples: seq<Sample>)
      requires Valid()
      modifies this
      ensures Valid() && Now() == OnAppend(cfg, old(Now()), samples)
    {
      if samples == [] {
        return;
      }
      if recording {
        activeSamples := activeSamples + samples;
        var capSamples := cfg.rate * cfg.maxDurationMs / 1000;
        if capSamples > 0 && |activeSamples| > capSamples {
          var drop := |activeSamples| - capSamples;
          activeSamples := activeSamples[drop..];
          CapNeedsRate(cfg);
          activeStartedAt := activeStartedAt + drop * 1000 / cfg.rate * NS_PER_MS;
        }
      } else {
        PushBack(samples);
        TrimPreBuffer();
      }
    }

    method PushBack(samples: seq<Sample>)
      modifies this`preBuffer
      ensures preBuffer == old(preBuffer) + samples
    {
      var i := 0;
      assert old(preBuffer) + samples[..0] == old(preBuffer);
      while i < |samples|
        invariant i <= |samples| && preBuffer == old(preBuffer) + samples[..i]
      {
        preBuffer := preBuffer + [samples[i]];
        assert samples[..i + 1] == samples[..i] + [samples[i]];
        i := i + 1;
      }
      assert samples[..i] == samples;
    }

    /** Pops from the front until the pre-buffer fits. */
    method TrimPreBuffer()
      modifies this`preBuffer
      ensures preBuffer == LastN(prePadCapacity, old(preBuffer))
    {
      ghost var popped := 0;
      while |preBuffer| > prePadCapacity
        invariant popped <= |old(preBuffer)| && preBuffer == old(preBuffer)[popped..]
        invariant popped > 0 ==> |preBuffer| >= prePadCapacity
        decreases |preBuffer|
      {
        preBuffer := preBuffer[1..];
        popped := popped + 1;
      }
    }

    method OnSpeechStarted(padStart: int, at: int)
      requires Valid()
      modifies this
      ensures Valid() && Now() == OnStarted(old(Now()), padStart, at)
    {
      recording := true;
      activeSpeechStartedAt, activeStartedAt := at, padStart;
      activeSamples := preBuffer;
      preBuffer := [];
    }

    method OnSpeechEnded(at: int, released: set<nat>) returns (slice: Option<Slice>)
      requires Valid()
      modifies this
      ensures Valid() && (Now(), slice) == OnEnded(cfg, old(Now()), at, released)
    {
      hide Live;
      if !recording {
        return None;
      }
      var samples := activeSamples;
      activeSamples := [];
      recording := false;
      var activeDur := TruncDiv(at - activeStartedAt, NS_PER_MS) + cfg.postPaddingMs;
      var targetSamples := cfg.rate * (activeDur % WORD) % WORD / 1000;
      if targetSamples > 0 && |samples| > targetSamples {
        samples := samples[..targetSamples];
      }
      slice := Some(Slice(issued, samples, activeStartedAt, at));
      Prune(released);
      if |inFlight| >= cfg.maxInFlight {
        inFlight := inFlight[1..];
        drops := drops + 1;
      }
      inFlight := inFlight + [issued];
      issued := issued + 1;
    }

    /** Erases the released slices, walking the queue in place. */
    method Prune(released: set<nat>)
      modifies this`inFlight
      ensures inFlight == Live(old(inFlight), released)
    {
      ghost var all := inFlight;
      ghost var seen := 0;
      var i := 0;
      while i < |inFlight|
        invariant i <= |inFlight| && seen <= |all|
        invariant inFlight[..i] == Live(all[..seen], released) && inFlight[i..] == all[seen..]
        decreases |inFlight| - i
      {
        LiveGrows(all, seen, released);
        assert inFlight[i] == inFlight[i..][0] == all[seen];
        assert all[seen + 1..] == all[seen..][1..] == inFlight[i + 1..];
        ghost var before := inFlight;
        if inFlight[i] in released {
          inFlight := inFlight[..i] + inFlight[i + 1..];
          assert inFlight[..i] == before[..i] && inFlight[i..] == before[i + 1..];
        } else {
          i := i + 1;
          assert inFlight[..i] == inFlight[..i - 1] + [inFlight[i - 1]];
        }
        seen := seen + 1;
      }
      assert all[..seen] == all && inFlight[..i] == inFlight;
    }

    method AbortActive()
      requires Valid()
      modifies this
      ensures Valid() && Now() == OnAbort(old(Now()))
    {
      if !recording {
        return;
      }
      activeSamples := [];
      recording := false;
      activeStartedAt, activeSpeechStartedAt := 0, 0;
    }
  }

  /** The capacities are the samples of the configured times, rounded down. */
  lemma CapacitiesAreTimes(cfg: Config)
    ensures PrePadCapacity(cfg) * 1000 <= cfg.rate * cfg.prePaddingMs < (PrePadCapacity(cfg) + 1) * 1000
    ensures CapSamples(cfg) * 1000 <= cfg.rate * cfg.maxDurationMs < (CapSamples(cfg) + 1) * 1000
  {
  }

  lemma CapNeedsRate(cfg: Config)
    requires CapSamples(cfg) > 0
    ensures cfg.rate > 0
  {
  }

  lemma LiveGrows(tracked: seq<nat>, n: nat, released: set<nat>)
    requires n < |tracked|
    ensures Live(tracked[..n + 1], released)
         == Live(tracked[..n], released) + if tracked[n] in released then [] else [tracked[n]]
  {
    assert tracked[..n + 1][..n] == tracked[..n];
  }

  // ----- the history -----

  function Recording(ops: seq<Op>): bool {
    if ops == [] then false
    else
      match ops[|ops| - 1]
      case Append(_) => Recording(ops[..|ops| - 1])
      case Started(_, _) => true
      case _ => false
  }

  /** What was appended while idle since a start last took the pre-buffer over. */
  function Idle(ops: seq<Op>): seq<Sample> {
    if ops == [] then []
    else
      var front := ops[..|ops| - 1];
      match ops[|ops| - 1]
      case Append(samples) => if Recording(front) then Idle(front) else Idle(front) + samples
      case Started(_, _) => []
      case _ => Idle(front)
  }

  /** The prefix taken over at the last start, and what was appended since. */
  function Recorded(cfg: Config, ops: seq<Op>): seq<Sample> {
    if ops == [] then []
    else
      var front := ops[..|ops| - 1];
      match ops[|ops| - 1]
      case Append(samples) => if Recording(front) then Recorded(cfg, front) + samples else Recorded(cfg, front)
      case Started(_, _) => LastN(PrePadCapacity(cfg), Idle(front))
      case _ => Recorded(cfg, front)
  }

  /** Whether anything was appended since the last start. */
  function Grown(ops: seq<Op>): bool {
    if ops == [] then false
    else
      match ops[|ops| - 1]
      case Append(samples) => Grown(ops[..|ops| - 1]) || (Recording(ops[..|ops| - 1]) && samples != [])
      case Started(_, _) => false
      case _ => Grown(ops[..|ops| - 1])
  }

  /** The cap is enforced by appends only, so an adopted prefix may exceed it until the first. */
  function Kept(cfg: Config, ops: seq<Op>): seq<Sample> {
    KeptOf(cfg, Recorded(cfg, ops), Grown(ops))
  }

  function KeptOf(cfg: Config, recorded: seq<Sample>, grown: bool): seq<Sample> {
    if CapSamples(cfg) > 0 && grown then LastN(CapSamples(cfg), recorded) else recorded
  }

  lemma LastNIsTheEnd(n: nat, xs: seq<Sample>)
    ensures LastN(n, xs) == xs[|xs| - |LastN(n, xs)|..]
  {
  }

  lemma LastNTwice(n: nat, xs: seq<Sample>, ys: seq<Sample>)
    ensures LastN(n, LastN(n, xs) + ys) == LastN(n, xs + ys)
  {
  }

  lemma IdleAppend(cfg: Config, s: State, samples: seq<Sample>, idle: seq<Sample>)
    requires !s.recording && s.preBuffer == LastN(PrePadCapacity(cfg), idle)
    ensures OnAppend(cfg, s, samples).preBuffer == LastN(PrePadCapacity(cfg), idle + samples)
  {
    hide PrePadCapacity, CapSamples;
    LastNTwice(PrePadCapacity(cfg), idle, samples);
    assert samples == [] ==> idle + samples == idle;
  }

  lemma RecordingAppend(cfg: Config, s: State, samples: seq<Sample>, recorded: seq<Sample>, grown: bool)
    requires s.recording && s.active == KeptOf(cfg, recorded, grown)
    ensures OnAppend(cfg, s, samples).active == KeptOf(cfg, recorded + samples, grown || samples != [])
  {
    hide PrePadCapacity, CapSamples;
    LastNTwice(CapSamples(cfg), recorded, samples);
    assert samples == [] ==> recorded + samples == recorded;
  }

  /** Idle, the pre-buffer is the end of what was heard; active, the recording is the end of what was recorded. */
  lemma {:induction false} BufferRefinesHistory(cfg: Config, ops: seq<Op>)
    ensures var s := Run(cfg, ops);
      && (s.recording <==> Recording(ops))
      && s.preBuffer == LastN(PrePadCapacity(cfg), Idle(ops))
      && (s.recording ==> s.active == Kept(cfg, ops))
  {
    hide LastN, KeptOf, PrePadCapacity, OnEnded;
    if ops == [] {
      NothingHeard(cfg);
    } else {
      var front, op := ops[..|ops| - 1], ops[|ops| - 1];
      BufferRefinesHistory(cfg, front);
      var s := Run(cfg, front);
      match op {
        case Append(samples) =>
          if s.recording {
            RecordingAppend(cfg, s, samples, Recorded(cfg, front), Grown(front));
          } else {
            IdleAppend(cfg, s, samples, Idle(front));
          }
          AppendKeepsTheRest(cfg, s, samples);
          hide OnAppend;
        case Started(_, _) =>
          NothingHeard(cfg);
          NotGrown(cfg, s.preBuffer);
        case Ended(at, released) => EndedKeepsPreBuffer(cfg, s, at, released);
        case Abort =>
      }
    }
  }

  /** Nothing is kept for a start behind the next: the pre-buffer of a recording is empty. */
  lemma {:induction false} RecordingHoldsNoIdle(ops: seq<Op>)
    ensures Recording(ops) ==> Idle(ops) == []
  {
    if ops != [] && ops[|ops| - 1].Append? {
      RecordingHoldsNoIdle(ops[..|ops| - 1]);
    }
  }

  lemma NothingHeard(cfg: Config)
    ensures LastN(PrePadCapacity(cfg), []) == []
  {
  }

  lemma NotGrown(cfg: Config, recorded: seq<Sample>)
    ensures KeptOf(cfg, recorded, false) == recorded
  {
  }

  lemma AppendKeepsTheRest(cfg: Config, s: State, samples: seq<Sample>)
    ensures var s1 := OnAppend(cfg, s, samples);
      s1.recording == s.recording && (s.recording ==> s1.preBuffer == s.preBuffer)
  {
  }

  lemma EndedKeepsPreBuffer(cfg: Config, s: State, at: int, released: set<nat>)
    ensures var s1 := OnEnded(cfg, s, at, released).0; !s1.recording && s1.preBuffer == s.preBuffer
  {
  }

  // ----- the start stamp -----

  function PadStart(ops: seq<Op>): int {
    if ops == [] then 0
    else
      match ops[|ops| - 1]
      case Started(padStart, _) => padStart
      case _ => PadStart(ops[..|ops| - 1])
  }

  /** How many appends since the last start cut the recording. */
  function Cuts(cfg: Config, ops: seq<Op>): nat {
    if ops == [] then 0
    else
      var front := ops[..|ops| - 1];
      match ops[|ops| - 1]
      case Append(samples) =>
        if Recording(front) && samples != [] && CapSamples(cfg) > 0
           && |Run(cfg, front).active| + |samples| > CapSamples(cfg)
        then Cuts(cfg, front) + 1 else Cuts(cfg, front)
      case Started(_, _) => 0
      case _ => Cuts(cfg, front)
  }

  function Lost(cfg: Config, ops: seq<Op>): int {
    |Recorded(cfg, ops)| - |Run(cfg, ops).active|
  }

  /** ms milliseconds stand for `lost` samples, short by less than one for each of the cuts. */
  predicate LagsWithin(rate: nat, lost: int, ms: nat, cuts: nat) {
    0 <= lost * 1000 - ms * rate <= cuts * (rate - 1)
  }

  lemma OneCut(rate: nat, lost: int, ms: nat, cuts: nat, drop: nat)
    requires rate > 0 && LagsWithin(rate, lost, ms, cuts)
    ensures LagsWithin(rate, lost + drop, ms + drop * 1000 / rate, cuts + 1)
  {
    var q, r := drop * 1000 / rate, drop * 1000 % rate;
    assert drop * 1000 == q * rate + r;
    assert (ms + q) * rate == ms * rate + q * rate;
    assert (cuts + 1) * (rate - 1) == cuts * (rate - 1) + (rate - 1);
  }

  function Drop(cfg: Config, s: State, samples: seq<Sample>): nat {
    var all := |s.active| + |samples|;
    if samples != [] && CapSamples(cfg) > 0 && all > CapSamples(cfg) then all - CapSamples(cfg) else 0
  }

  /** What an append does to a recording, in one place. */
  lemma AppendDrops(cfg: Config, s: State, samples: seq<Sample>)
    requires cfg.rate > 0 && s.recording
    ensures var s1, drop := OnAppend(cfg, s, samples), Drop(cfg, s, samples);
      |s1.active| == |s.active| + |samples| - drop && s1.startedAt == s.startedAt + drop * 1000 / cfg.rate * NS_PER_MS
  {
  }

  lemma AppendLoses(cfg: Config, front: seq<Op>, samples: seq<Sample>)
    requires cfg.rate > 0 && Recording(front)
    ensures var s, ops := Run(cfg, front), front + [Append(samples)];
      var drop := Drop(cfg, s, samples);
      && Recording(ops) && PadStart(ops) == PadStart(front) && Lost(cfg, ops) == Lost(cfg, front) + drop
      && Cuts(cfg, ops) == Cuts(cfg, front) + (if drop > 0 then 1 else 0)
      && Run(cfg, ops).startedAt == s.startedAt + drop * 1000 / cfg.rate * NS_PER_MS
  {
    BufferRefinesHistory(cfg, front);
    AppendDrops(cfg, Run(cfg, front), samples);
    hide OnAppend, Kept, Idle, CapSamples, PrePadCapacity;
    assert (front + [Append(samples)])[..|front|] == front;
  }

  lemma StartLosesNothing(cfg: Config, front: seq<Op>, op: Op)
    requires op.Started?
    ensures var ops := front + [op];
      Lost(cfg, ops) == 0 && Cuts(cfg, ops) == 0 && Run(cfg, ops).startedAt == PadStart(ops)
  {
    BufferRefinesHistory(cfg, front);
    assert (front + [op])[..|front|] == front;
  }

  /**
   The start stamp is the start of the padding, plus whole milliseconds that never exceed the
   time of the samples lost and fall short of it by less than a millisecond for each cut.
   */
  lemma {:induction false} StampLagsByLessThanAMillisecondPerCut(cfg: Config, ops: seq<Op>) returns (ms: nat)
    requires cfg.rate > 0 && Recording(ops)
    ensures Run(cfg, ops).startedAt == PadStart(ops) + ms * NS_PER_MS
    ensures LagsWithin(cfg.rate, Lost(cfg, ops), ms, Cuts(cfg, ops))
  {
    var front, op := ops[..|ops| - 1], ops[|ops| - 1];
    assert front + [op] == ops;
    if op.Append? {
      ms := StampLagsByLessThanAMillisecondPerCut(cfg, front);
      AppendLoses(cfg, front, op.samples);
      var drop := Drop(cfg, Run(cfg, front), op.samples);
      OneCut(cfg.rate, Lost(cfg, front), ms, Cuts(cfg, front), drop);
      ms := ms + drop * 1000 / cfg.rate;
    } else {
      ms := 0;
      StartLosesNothing(cfg, front, op);
    }
  }

  // ----- slices -----

  /** A slice is a contiguous piece of what was recorded, from where the stamp stands. */
  lemma SliceIsPrefixOfKept(cfg: Config, ops: seq<Op>, at: int, released: set<nat>)
    ensures var r := OnEnded(cfg, Run(cfg, ops), at, released).1;
      && (r.Some? <==> Recording(ops))
      && (r.Some? ==>
            && r.value.samples <= Kept(cfg, ops) && r.value.startedAt == Run(cfg, ops).startedAt
            && (Kept(cfg, ops) != [] ==> r.value.samples != [])
            && Kept(cfg, ops) == Recorded(cfg, ops)[|Recorded(cfg, ops)| - |Kept(cfg, ops)|..])
  {
    hide Live, WithinLimit, TargetSamples;
    BufferRefinesHistory(cfg, ops);
  }

  /** The milliseconds from the start stamp to the padded end. */
  function PaddedMs(cfg: Config, s: State, at: int): int {
    TruncDiv(at - s.startedAt, NS_PER_MS) + cfg.postPaddingMs
  }

  lemma TargetFits(cfg: Config, s: State, at: int)
    requires 0 <= PaddedMs(cfg, s, at) && 0 <= cfg.rate * PaddedMs(cfg, s, at) < WORD
    ensures TargetSamples(cfg, s.startedAt, at) == cfg.rate * PaddedMs(cfg, s, at) / 1000
  {
    var ms := PaddedMs(cfg, s, at);
    if cfg.rate > 0 {
      MulOrdered(ms, 1, cfg.rate);
      ModUnique(0, ms, WORD);
    }
    ModUnique(0, cfg.rate * ms, WORD);
  }

  /** A slice that is cut ends where the padded utterance ends, to the sample; any other is whole. */
  lemma SliceEndsWithThePadding(cfg: Config, s: State, at: int, released: set<nat>)
    requires s.recording
    requires 0 <= PaddedMs(cfg, s, at) && 0 <= cfg.rate * PaddedMs(cfg, s, at) < WORD
    ensures var slice := OnEnded(cfg, s, at, released).1;
      && slice.Some?
      && var n, wanted := |slice.value.samples|, cfg.rate * PaddedMs(cfg, s, at);
      if 1000 <= wanted && wanted / 1000 < |s.active| then n * 1000 <= wanted < (n + 1) * 1000 else n == |s.active|
  {
    TargetFits(cfg, s, at);
  }

  /** An end before the start stamp wraps to a huge target, and so cuts nothing. */
  lemma EarlyEndKeepsAll(cfg: Config, s: State, at: int, released: set<nat>)
    requires s.recording && cfg.rate > 0 && PaddedMs(cfg, s, at) < 0
    requires cfg.rate * -PaddedMs(cfg, s, at) + 1000 * |s.active| <= WORD
    ensures var slice := OnEnded(cfg, s, at, released).1; slice.Some? && slice.value.samples == s.active
  {
    var ms := -PaddedMs(cfg, s, at);
    MulOrdered(ms, 1, cfg.rate);
    MulOrdered(cfg.rate, 1, ms);
    assert (WORD - ms) % WORD == WORD - ms && -ms % WORD == WORD - ms by {
      ModUnique(0, WORD - ms, WORD);
      ModUnique(-1, WORD - ms, WORD);
    }
    var left := WORD - cfg.rate * ms;
    assert cfg.rate * (WORD - ms) == WORD * (cfg.rate - 1) + left;
    ModUnique(cfg.rate - 1, left, WORD);
    assert TargetSamples(cfg, s.startedAt, at) == left / 1000;
    hide TargetSamples, Live;
  }

  function Released(ops: seq<Op>): set<nat> {
    if ops == [] then {}
    else Released(ops[..|ops| - 1]) + if ops[|ops| - 1].Ended? then ops[|ops| - 1].released else {}
  }

  predicate Increasing(xs: seq<nat>) {
    forall i, j | 0 <= i < j < |xs| :: xs[i] < xs[j]
  }

  /** Tracked slices are issued, in order; one that is missing was released, or is older than all of them. */
  ghost predicate TracksWell(s: State, released: set<nat>, limit: nat) {
    && |s.tracked| <= limit && Increasing(s.tracked)
    && (forall n | n in s.tracked :: n < s.issued)
    && (forall n: nat | n < s.issued && n !in s.tracked && n !in released :: forall t | t in s.tracked :: n < t)
  }

  lemma {:induction false} LiveIsSub(tracked: seq<nat>, released: set<nat>)
    requires Increasing(tracked)
    ensures var live := Live(tracked, released);
      && |live| <= |tracked| && Increasing(live)
      && (forall n :: n in live <==> n in tracked && n !in released)
  {
    if tracked != [] {
      var front, n := tracked[..|tracked| - 1], tracked[|tracked| - 1];
      LiveIsSub(front, released);
      assert tracked == front + [n];
      LastIsLargest(front, n);
      OneMoreLive(front, n, Live(front, released));
    }
  }

  lemma LastIsLargest(front: seq<nat>, n: nat)
    requires Increasing(front + [n])
    ensures Increasing(front) && forall m | m in front :: m < n
  {
    var all := front + [n];
    assert all[|front|] == n;
    forall i | 0 <= i < |front|
      ensures front[i] == all[i] < n
    {
      assert all[i] < all[|front|];
    }
  }

  lemma OneMoreLive(front: seq<nat>, n: nat, live: seq<nat>)
    requires Increasing(live) && (forall m | m in live :: m in front) && forall m | m in front :: m < n
    ensures Increasing(live + [n])
  {
    forall i | 0 <= i < |live|
      ensures live[i] < n
    {
      assert live[i] in live;
      assert live[i] in front;
    }
  }

  lemma {:induction false} TrackingIsBounded(cfg: Config, ops: seq<Op>)
    requires cfg.maxInFlight > 0
    ensures TracksWell(Run(cfg, ops), Released(ops), cfg.maxInFlight)
  {
    if ops != [] {
      var front, op := ops[..|ops| - 1], ops[|ops| - 1];
      TrackingIsBounded(cfg, front);
      var s := Run(cfg, front);
      if op.Ended? && s.recording {
        LiveIsSub(s.tracked, op.released);
        var live := Live(s.tracked, op.released);
        EndedTracksWell(s, live, Released(front), op.released, cfg.maxInFlight);
      }
    }
  }

  lemma KeptOnes(live: seq<nat>, limit: nat)
    requires Increasing(live)
    ensures var kept := WithinLimit(live, limit);
      && Increasing(kept) && (forall t | t in kept :: t in live)
      && (forall n, t | n in live && n !in kept && t in kept :: n < t)
  {
  }

  lemma EndedTracksWell(s: State, live: seq<nat>, before: set<nat>, released: set<nat>, limit: nat)
    requires limit > 0 && TracksWell(s, before, limit)
    requires |live| <= |s.tracked| && Increasing(live)
    requires forall n :: n in live <==> n in s.tracked && n !in released
    ensures TracksWell(s.(tracked := WithinLimit(live, limit) + [s.issued], issued := s.issued + 1), before + released, limit)
  {
    var kept := WithinLimit(live, limit);
    KeptOnes(live, limit);
    assert forall i | 0 <= i < |kept| :: kept[i] in kept && kept[i] < s.issued;
    forall n: nat | n < s.issued && n !in kept && n !in before && n !in released
      ensures forall t | t in kept :: n < t
    {
      if n in s.tracked {
        assert n in live;
      }
    }
    EndedStep(s, kept, before + released, limit);
  }

  lemma EndedStep(s: State, kept: seq<nat>, released: set<nat>, limit: nat)
    requires |kept| < limit && Increasing(kept) && forall i | 0 <= i < |kept| :: kept[i] < s.issued
    requires forall n: nat | n < s.issued && n !in kept && n !in released :: forall t | t in kept :: n < t
    ensures TracksWell(s.(tracked := kept + [s.issued], issued := s.issued + 1), released, limit)
  {
    var all := kept + [s.issued];
    assert all[|kept|] == s.issued;
    assert forall n | n in kept :: n in all;
  }

  function SpeechAt(ops: seq<Op>): int {
    if ops == [] then 0
    else
      match ops[|ops| - 1]
      case Started(_, at) => at
      case _ => SpeechAt(ops[..|ops| - 1])
  }

  /** A recording keeps the time its speech was reported. */
  lemma {:induction false} SpeechStampIsTheStarts(cfg: Config, ops: seq<Op>)
    ensures Recording(ops) ==> Run(cfg, ops).speechAt == SpeechAt(ops)
  {
    if ops != [] {
      SpeechStampIsTheStarts(cfg, ops[..|ops| - 1]);
      hide Live, WithinLimit, Trimmed, LastN;
    }
  }

  /** How many slices were issued: one for each end that found a recording. */
  function Issued(ops: seq<Op>): nat {
    if ops == [] then 0
    else Issued(ops[..|ops| - 1]) + if ops[|ops| - 1].Ended? && Recording(ops[..|ops| - 1]) then 1 else 0
  }

  /** How many were dropped: one whenever as many as the limit are still held when another is issued. */
  ghost function Evicted(cfg: Config, ops: seq<Op>): nat {
    if ops == [] then 0
    else
      var front, op := ops[..|ops| - 1], ops[|ops| - 1];
      var tracked := Run(cfg, front).tracked;
      Evicted(cfg, front)
      + if op.Ended? && Recording(front) && |set n | n in tracked && n !in op.released| >= cfg.maxInFlight then 1 else 0
  }

  function Held(live: seq<nat>): set<nat> {
    set n | n in live
  }

  lemma OneMoreHeld(front: seq<nat>, last: nat)
    requires last !in front
    ensures |Held(front + [last])| == |Held(front)| + 1
  {
    assert Held(front + [last]) == Held(front) + {last};
  }

  lemma {:induction false} CardinalityIsLength(live: seq<nat>)
    requires Increasing(live)
    ensures |Held(live)| == |live|
  {
    if live != [] {
      var front, last := live[..|live| - 1], live[|live| - 1];
      assert live == front + [last];
      LastIsLargest(front, last);
      hide Held, Increasing;
      CardinalityIsLength(front);
      OneMoreHeld(front, last);
    } else {
      assert Held(live) == {};
    }
  }

  lemma HeldAreLive(tracked: seq<nat>, released: set<nat>)
    requires Increasing(tracked)
    ensures |Live(tracked, released)| == |set n | n in tracked && n !in released|
  {
    LiveIsSub(tracked, released);
    var live := Live(tracked, released);
    CardinalityIsLength(live);
    assert Held(live) == set n | n in tracked && n !in released;
  }

  lemma EndedCounts(cfg: Config, s: State, at: int, released: set<nat>)
    requires Increasing(s.tracked) && cfg.maxInFlight > 0
    ensures var (s', slice) := OnEnded(cfg, s, at, released);
      var held := |set n | n in s.tracked && n !in released|;
      && (slice.Some? <==> s.recording)
      && s'.issued == s.issued + (if s.recording then 1 else 0)
      && s'.drops == s.drops + (if s.recording && held >= cfg.maxInFlight then 1 else 0)
      && (slice.Some? ==> slice.value.number == s.issued && slice.value.endedAt == at)
  {
    HeldAreLive(s.tracked, released);
    hide Live, WithinLimit, Trimmed;
  }

  /** Slices are numbered as they are issued and stamped with their end; the drop counter counts the dropped ones. */
  lemma {:induction false} SlicesAreNumbered(cfg: Config, ops: seq<Op>, at: int, released: set<nat>)
    requires cfg.maxInFlight > 0
    ensures Run(cfg, ops).issued == Issued(ops) && Run(cfg, ops).drops == Evicted(cfg, ops)
    ensures var slice := OnEnded(cfg, Run(cfg, ops), at, released).1;
      slice.Some? ==> slice.value.number == Issued(ops) && slice.value.endedAt == at
  {
    TrackingIsBounded(cfg, ops);
    EndedCounts(cfg, Run(cfg, ops), at, released);
    if ops != [] {
      var front, op := ops[..|ops| - 1], ops[|ops| - 1];
      SlicesAreNumbered(cfg, front, at, released);
      TrackingIsBounded(cfg, front);
      BufferRefinesHistory(cfg, front);
      match op {
        case Ended(t, r) => EndedCounts(cfg, Run(cfg, front), t, r);
        case _ => OthersIssueNothing(cfg, Run(cfg, front), op);
      }
    }
    hide OnEnded, Step, TracksWell, Increasing, Kept, Idle;
  }

  lemma OthersIssueNothing(cfg: Config, s: State, op: Op)
    requires !op.Ended?
    ensures Step(cfg, s, op).issued == s.issued && Step(cfg, s, op).drops == s.drops
  {
  }
}
