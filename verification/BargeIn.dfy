/**
 The barge-in detector beside the state machine it watches (src/dialogue/barge_in.cpp).

 The detector runs on its own thread: it takes a snapshot of the machine in one step and
 decides in another, so the machine may move on in between; the dialogue manager may mint
 turn ids from the same factory at any time. Microphone echo figures are arbitrary inputs.
 */
module BargeIn {
  import opened Wrappers
  import opened DialogueFsm
  import opened FsmTheorems

  const NANOS_PER_MS := 1_000_000

  /** duration_cast truncates toward zero. */
  function ToMillis(nanos: int): int {
    if nanos >= 0 then nanos / NANOS_PER_MS else -((-nanos) / NANOS_PER_MS)
  }

  datatype Config = Config(requireConverged: bool, systemAec: bool, minErle: real, coolDownMs: nat)

  datatype Snapshot = Snapshot(phase: Phase, active: nat, enteredSpeakingAt: int)

  datatype Fire = Fire(turn: nat, at: int, enteredSpeakingAt: int)

  datatype Detector = Detector(
    lastTurn: nat, lastAt: int,
    fires: nat, suppressed: nat, suppressedCooldown: nat, suppressedAec: nat,
    fired: seq<Fire>)    // every UserInterrupted it published

  const QUIET := Detector(0, 0, 0, 0, 0, 0, [])

  /** The echo canceller is on and its measured loss (None while unknown) is enough. */
  predicate EchoUnderControl(cfg: Config, aecActive: bool, erle: Option<real>) {
    !cfg.requireConverged || cfg.systemAec || (aecActive && erle.Some? && erle.value >= cfg.minErle)
  }

  /** What the detector does with a snapshot. */
  function Decide(cfg: Config, d: Detector, snap: Snapshot, now: int, aecActive: bool, erle: Option<real>): Detector {
    if snap.phase != Speaking || snap.active == 0 || d.lastTurn == snap.active then d
    else if ToMillis(now - snap.enteredSpeakingAt) < cfg.coolDownMs then
      d.(suppressedCooldown := d.suppressedCooldown + 1, suppressed := d.suppressed + 1)
    else if !EchoUnderControl(cfg, aecActive, erle) then
      d.(suppressedAec := d.suppressedAec + 1, suppressed := d.suppressed + 1)
    else
      d.(lastTurn := snap.active, lastAt := now, fires := d.fires + 1,
         fired := d.fired + [Fire(snap.active, now, snap.enteredSpeakingAt)])
  }

  class BargeInDetector {
    const cfg: Config
    var lastTurn: nat
    var lastAt: int
    var fires: nat
    var suppressed: nat
    var suppressedCooldown: nat
    var suppressedAec: nat
    var published: seq<Fire>

    ghost function Now(): Detector
      reads this
    {
      Detector(lastTurn, lastAt, fires, suppressed, suppressedCooldown, suppressedAec, published)
    }

    constructor (cfg: Config)
      ensures this.cfg == cfg && Now() == QUIET
    {
      this.cfg := cfg;
      lastTurn, lastAt, fires, suppressed, suppressedCooldown, suppressedAec, published := 0, 0, 0, 0, 0, 0, [];
    }

    method AecOk(aecActive: bool, erle: Option<real>) returns (ok: bool)
      modifies this`suppressedAec
      ensures ok == EchoUnderControl(cfg, aecActive, erle)
      ensures suppressedAec == old(suppressedAec) + (if ok then 0 else 1)
    {
      if !cfg.requireConverged {
        return true;
      }
      if cfg.systemAec {
        return true;
      }
      if !aecActive {
        suppressedAec := suppressedAec + 1;
        return false;
      }
      if erle.None? || erle.value < cfg.minErle {
        suppressedAec := suppressedAec + 1;
        return false;
      }
      return true;
    }

    method OnSpeechStarted(snap: Snapshot, now: int, aecActive: bool, erle: Option<real>)
      modifies this
      ensures Now() == Decide(cfg, old(Now()), snap, now, aecActive, erle)
    {
      if snap.phase != Speaking {
        return;
      }
      if snap.active == 0 {
        return;
      }
      if lastTurn == snap.active {
        return;
      }
      var since := ToMillis(now - snap.enteredSpeakingAt);
      if since < cfg.coolDownMs {
        suppressedCooldown := suppressedCooldown + 1;
        suppressed := suppressed + 1;
        return;
      }
      var ok := AecOk(aecActive, erle);
      if !ok {
        suppressed := suppressed + 1;
        return;
      }
      lastTurn, lastAt := snap.active, now;
      fires := fires + 1;
      published := published + [Fire(snap.active, now, snap.enteredSpeakingAt)];
    }
  }

  // ----- the machine, the detector and the other user of the factory, interleaved -----

  datatype World = World(fsm: State, detector: Detector, seen: Option<Snapshot>)

  datatype Step =
    | MachineHandles(e: Event, now: int)
    | ManagerMints
    | DetectorLooks
    | DetectorDecides(now: int, aecActive: bool, erle: Option<real>)

  function Next(cfg: Config, w: World, step: Step): World {
    match step
    case MachineHandles(e, now) => w.(fsm := Handle(w.fsm, e, now))
    case ManagerMints => w.(fsm := w.fsm.(nextTurn := w.fsm.nextTurn + 1))
    case DetectorLooks => w.(seen := Some(Snapshot(w.fsm.phase, w.fsm.active, w.fsm.enteredSpeakingAt)))
    case DetectorDecides(now, aecActive, erle) =>
      if w.seen.None? then w
      else w.(detector := Decide(cfg, w.detector, w.seen.value, now, aecActive, erle), seen := None)
  }

  function Run(cfg: Config, w: World, steps: seq<Step>): World {
    if steps == [] then w else Next(cfg, Run(cfg, w, steps[..|steps| - 1]), steps[|steps| - 1])
  }

  ghost predicate Increasing(fired: seq<Fire>) {
    forall i, j | 0 <= i < j < |fired| :: fired[i].turn < fired[j].turn
  }

  ghost predicate DetectorOk(cfg: Config, d: Detector) {
    && Increasing(d.fired)
    && d.lastTurn == (if d.fired == [] then 0 else d.fired[|d.fired| - 1].turn)
    && (d.fired != [] ==> d.lastAt == d.fired[|d.fired| - 1].at)
    && d.fires == |d.fired|
    && d.suppressed == d.suppressedCooldown + d.suppressedAec
    && (forall f | f in d.fired :: f.turn > 0 && ToMillis(f.at - f.enteredSpeakingAt) >= cfg.coolDownMs)
  }

  ghost predicate Inv(cfg: Config, w: World) {
    && Balanced(w.fsm)
    && DetectorOk(cfg, w.detector)
    && w.detector.lastTurn <= w.fsm.active
    && (w.seen.Some? ==> w.detector.lastTurn <= w.seen.value.active <= w.fsm.active)
  }

  lemma FireKeepsOk(cfg: Config, d: Detector, f: Fire)
    requires DetectorOk(cfg, d) && f.turn > d.lastTurn
    requires ToMillis(f.at - f.enteredSpeakingAt) >= cfg.coolDownMs
    ensures DetectorOk(cfg, d.(lastTurn := f.turn, lastAt := f.at, fires := d.fires + 1, fired := d.fired + [f]))
  {
    var fired := d.fired + [f];
    forall i, j | 0 <= i < j < |fired| ensures fired[i].turn < fired[j].turn {
      assert j < |d.fired| || fired[j] == f;
      assert i < |d.fired| - 1 ==> d.fired[i].turn < d.fired[|d.fired| - 1].turn;
    }
  }

  /** Whatever the snapshot and the echo: the detector stays silent with its counters, or fires. */
  lemma DecideCases(cfg: Config, d: Detector, snap: Snapshot, now: int, aecActive: bool, erle: Option<real>)
    ensures var d', f := Decide(cfg, d, snap, now, aecActive, erle), Fire(snap.active, now, snap.enteredSpeakingAt);
      || d' == d
      || d' == d.(suppressedCooldown := d.suppressedCooldown + 1, suppressed := d.suppressed + 1)
      || d' == d.(suppressedAec := d.suppressedAec + 1, suppressed := d.suppressed + 1)
      || (d' == d.(lastTurn := f.turn, lastAt := f.at, fires := d.fires + 1, fired := d.fired + [f])
          && f.turn != d.lastTurn && ToMillis(f.at - f.enteredSpeakingAt) >= cfg.coolDownMs)
  {
    hide ToMillis, EchoUnderControl;
  }

  lemma DecideKeepsOk(cfg: Config, d: Detector, snap: Snapshot, now: int, aecActive: bool, erle: Option<real>)
    requires DetectorOk(cfg, d) && d.lastTurn <= snap.active
    ensures var d' := Decide(cfg, d, snap, now, aecActive, erle); DetectorOk(cfg, d') && d'.lastTurn <= snap.active
  {
    var d', f := Decide(cfg, d, snap, now, aecActive, erle), Fire(snap.active, now, snap.enteredSpeakingAt);
    DecideCases(cfg, d, snap, now, aecActive, erle);
    hide Decide, ToMillis, Increasing;
    if d'.fired != d.fired {
      FireKeepsOk(cfg, d, f);
    }
  }

  lemma {:induction false} RunKeepsInv(cfg: Config, w: World, steps: seq<Step>)
    requires Inv(cfg, w)
    ensures Inv(cfg, Run(cfg, w, steps))
  {
    if steps != [] {
      var front, step := steps[..|steps| - 1], steps[|steps| - 1];
      RunKeepsInv(cfg, w, front);
      var v := Run(cfg, w, front);
      match step
      case MachineHandles(e, now) => HandleKeepsBalance(v.fsm, e, now);
      case DetectorDecides(now, aecActive, erle) =>
        if v.seen.Some? {
          DecideKeepsOk(cfg, v.detector, v.seen.value, now, aecActive, erle);
        }
      case _ =>
    }
  }

  /** The machine has started and nobody has been interrupted yet. */
  predicate Beginning(w: World) {
    && w.fsm == Initial(w.fsm.nextTurn).(phase := Listening)
    && w.fsm.nextTurn >= 1 && w.detector == QUIET && w.seen.None?
  }

  /** Over every interleaving: at most one barge-in per turn, each after the cool-down. */
  lemma OneBargeInPerTurn(cfg: Config, w: World, steps: seq<Step>)
    requires Beginning(w)
    ensures var d := Run(cfg, w, steps).detector;
      && (forall i, j | 0 <= i < j < |d.fired| :: d.fired[i].turn < d.fired[j].turn)
      && (forall f | f in d.fired :: ToMillis(f.at - f.enteredSpeakingAt) >= cfg.coolDownMs)
      && d.fires == |d.fired|
  {
    RunKeepsInv(cfg, w, steps);
  }

  /** Over every interleaving: every turn the machine minted has ended once, but for the one in progress. */
  lemma TurnLedgerBalances(cfg: Config, w: World, steps: seq<Step>)
    requires Beginning(w)
    ensures var s := Run(cfg, w, steps).fsm;
      && s.minted == s.completed + s.interrupted + s.discarded + (if InTurn(s.phase) then 1 else 0)
      && s.phase != Completed && s.phase != Interrupted
      && |s.cancelGenerations| == s.interrupted + s.discarded
  {
    RunKeepsInv(cfg, w, steps);
  }

  // ----- exactly when a barge-in is fired -----

  /** What the detector saw when it looked last, until it has decided on it. */
  function Looked(cfg: Config, w: World, steps: seq<Step>): Option<Snapshot> {
    if steps == [] then None
    else
      var front := steps[..|steps| - 1];
      var fsm := Run(cfg, w, front).fsm;
      match steps[|steps| - 1]
      case DetectorLooks => Some(Snapshot(fsm.phase, fsm.active, fsm.enteredSpeakingAt))
      case DetectorDecides(_, _, _) => None
      case _ => Looked(cfg, w, front)
  }

  /** The decision is about a turn that speaks and that no barge-in was fired for. */
  ghost predicate Concerned(snap: Snapshot, fired: seq<Fire>) {
    snap.phase == Speaking && snap.active != 0 && forall f | f in fired :: f.turn != snap.active
  }

  /** It has been speaking for the cool-down, in whole milliseconds towards zero. */
  predicate CooledDown(cfg: Config, spoken: int) {
    if cfg.coolDownMs == 0 then spoken > -NANOS_PER_MS else spoken >= cfg.coolDownMs * NANOS_PER_MS
  }

  /** The echo is under control: nobody asks, the system sees to it, or enough of it is cancelled. */
  predicate EchoIsLow(cfg: Config, aecActive: bool, erle: Option<real>) {
    cfg.requireConverged && !cfg.systemAec ==> aecActive && erle.Some? && !(erle.value < cfg.minErle)
  }

  /** The barge-ins fired, and the decisions suppressed by the cool-down and by the echo. */
  datatype Verdicts = Verdicts(fired: seq<Fire>, cooling: nat, echoing: nat)

  ghost function Decided(cfg: Config, w: World, steps: seq<Step>): Verdicts {
    if steps == [] then Verdicts([], 0, 0)
    else
      var front := steps[..|steps| - 1];
      var v, seen := Decided(cfg, w, front), Looked(cfg, w, front);
      match steps[|steps| - 1]
      case DetectorDecides(now, aecActive, erle) =>
        if seen.None? || !Concerned(seen.value, v.fired) then v
        else if !CooledDown(cfg, now - seen.value.enteredSpeakingAt) then v.(cooling := v.cooling + 1)
        else if !EchoIsLow(cfg, aecActive, erle) then v.(echoing := v.echoing + 1)
        else v.(fired := v.fired + [Fire(seen.value.active, now, seen.value.enteredSpeakingAt)])
      case _ => v
  }

  lemma CoolDownIsTime(cfg: Config, spoken: int)
    ensures ToMillis(spoken) >= cfg.coolDownMs <==> CooledDown(cfg, spoken)
  {
  }

  lemma FiredAreNotLater(cfg: Config, d: Detector)
    requires DetectorOk(cfg, d)
    ensures forall f | f in d.fired :: f.turn <= d.lastTurn
    ensures d.lastTurn > 0 ==> exists f | f in d.fired :: f.turn == d.lastTurn
  {
    if d.fired != [] {
      var last := d.fired[|d.fired| - 1];
      assert d.fired == d.fired[..|d.fired| - 1] + [last] && last in d.fired;
    }
  }

  /** With turns fired for in increasing order, the last one stands for all of them. */
  lemma LastStandsForAll(cfg: Config, d: Detector, active: nat)
    requires DetectorOk(cfg, d) && d.lastTurn <= active && active != 0
    ensures d.lastTurn == active <==> exists f | f in d.fired :: f.turn == active
  {
    FiredAreNotLater(cfg, d);
    hide DetectorOk;
  }

  lemma DetectorStep(cfg: Config, u: World, step: Step)
    ensures var v := Next(cfg, u, step);
      && v.detector == (if step.DetectorDecides? && u.seen.Some?
                        then Decide(cfg, u.detector, u.seen.value, step.now, step.aecActive, step.erle) else u.detector)
      && v.seen == match step
           case DetectorLooks => Some(Snapshot(u.fsm.phase, u.fsm.active, u.fsm.enteredSpeakingAt))
           case DetectorDecides(_, _, _) => None
           case _ => u.seen
  {
    hide Decide, Handle;
  }

  lemma {:induction false} DecisionsAreTold(cfg: Config, w: World, steps: seq<Step>)
    requires Beginning(w)
    ensures var d, v := Run(cfg, w, steps).detector, Decided(cfg, w, steps);
      d.fired == v.fired && d.suppressedCooldown == v.cooling && d.suppressedAec == v.echoing
    ensures Run(cfg, w, steps).seen == Looked(cfg, w, steps)
  {
    if steps != [] {
      var front, step := steps[..|steps| - 1], steps[|steps| - 1];
      DecisionsAreTold(cfg, w, front);
      RunKeepsInv(cfg, w, front);
      var u := Run(cfg, w, front);
      DetectorStep(cfg, u, step);
      if step.DetectorDecides? && u.seen.Some? {
        DecidesExactly(cfg, u.detector, u.seen.value, step.now, step.aecActive, step.erle);
      }
      hide Next, Decide, Concerned, CooledDown, EchoIsLow, Balanced, DetectorOk;
    }
  }

  /**
   Over every interleaving: a decision fires a barge-in if and only if the machine was seen
   speaking, in a turn no barge-in was fired for, for at least the cool-down, and the echo is
   low; the two counters are the numbers of decisions that the cool-down and the echo suppressed.
   */
  lemma FiresExactlyWhen(cfg: Config, w: World, steps: seq<Step>)
    requires Beginning(w)
    ensures var d, v := Run(cfg, w, steps).detector, Decided(cfg, w, steps);
      && d.fired == v.fired && d.suppressedCooldown == v.cooling && d.suppressedAec == v.echoing
      && d.fires == |v.fired| && d.suppressed == v.cooling + v.echoing
    ensures Run(cfg, w, steps).seen == Looked(cfg, w, steps)
  {
    DecisionsAreTold(cfg, w, steps);
    RunKeepsInv(cfg, w, steps);
    hide Run, Decided, Looked, Balanced, Increasing;
  }

  lemma DecidesExactly(cfg: Config, d: Detector, snap: Snapshot, now: int, aecActive: bool, erle: Option<real>)
    requires DetectorOk(cfg, d) && d.lastTurn <= snap.active
    ensures var d', f := Decide(cfg, d, snap, now, aecActive, erle), Fire(snap.active, now, snap.enteredSpeakingAt);
      if !Concerned(snap, d.fired) then d' == d
      else if !CooledDown(cfg, now - snap.enteredSpeakingAt) then
        d'.fired == d.fired && d'.suppressedCooldown == d.suppressedCooldown + 1 && d'.suppressedAec == d.suppressedAec
      else if !EchoIsLow(cfg, aecActive, erle) then
        d'.fired == d.fired && d'.suppressedCooldown == d.suppressedCooldown && d'.suppressedAec == d.suppressedAec + 1
      else d'.fired == d.fired + [f] && d'.suppressedCooldown == d.suppressedCooldown && d'.suppressedAec == d.suppressedAec
  {
    CoolDownIsTime(cfg, now - snap.enteredSpeakingAt);
    if snap.active != 0 {
      LastStandsForAll(cfg, d, snap.active);
    }
    hide ToMillis, CooledDown, DetectorOk;
  }
}
