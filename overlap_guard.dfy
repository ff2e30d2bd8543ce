/**
 * The overlap guard shared by the reauthorize and spend-update protocols:
 * an in-progress flag and a skip counter. A timer tick while no request is
 * outstanding issues one; a tick while one is outstanding is skipped,
 * unless it is the fourth skip in a row, which forces a new request anyway.
 * A response, whatever its outcome, clears the flag.
 */
module OverlapGuard {

  /** The flag and counter of one protocol (e.g. spendUpdateInProgress, spendUpdateSkipped). */
  datatype Guard = Guard(inProgress: bool, skipped: int)

  /** Skips tolerated before a tick forces a new request. */
  const MaxSkips: int := 3

  /** Both guards start idle with no skips. */
  const Initial: Guard := Guard(false, 0)

  /** The invariant kept between ticks: the counter never exceeds MaxSkips. */
  predicate Bounded(g: Guard) {
    0 <= g.skipped <= MaxSkips
  }

  /** The state after a tick and whether the tick issued a request. */
  datatype Step = Step(next: Guard, issued: bool)

  /** One timer tick of the protocol. */
  function Tick(g: Guard): (s: Step)
    ensures s.next.inProgress
    ensures s.issued ==> s.next.skipped == 0
    ensures !g.inProgress ==> s.issued
    ensures Bounded(g) ==> Bounded(s.next)
  {
    if g.inProgress && g.skipped + 1 <= MaxSkips then
      Step(Guard(true, g.skipped + 1), false)
    else
      Step(Guard(true, 0), true)
  }

  /** The response handler, run on every outcome: success, failure or parse error. */
  function Respond(g: Guard): (r: Guard)
    ensures !r.inProgress
    ensures r.skipped == g.skipped
  {
    g.(inProgress := false)
  }

  /** A busy tick issues a request exactly when it is the one that pushes the counter past MaxSkips. */
  lemma BusyTick(g: Guard)
    requires g.inProgress && Bounded(g)
    ensures Tick(g).issued <==> g.skipped == MaxSkips
    ensures !Tick(g).issued ==> Tick(g).next == Guard(true, g.skipped + 1)
    ensures Tick(g).issued ==> Tick(g).next == Guard(true, 0)
  {
  }

  datatype Event = TimerTick | ResponseArrived

  /** The final guard after a run of events and how many requests the run issued. */
  datatype Outcome = Outcome(final: Guard, issued: nat)

  function Run(g: Guard, evs: seq<Event>): (o: Outcome)
    ensures o.issued <= |evs|
    decreases |evs|
  {
    if evs == [] then Outcome(g, 0)
    else
      match evs[0]
      case TimerTick =>
        var s := Tick(g);
        var rest := Run(s.next, evs[1..]);
        Outcome(rest.final, rest.issued + (if s.issued then 1 else 0))
      case ResponseArrived =>
        Run(Respond(g), evs[1..])
  }

  /** n ticks with no response in between. */
  function Ticks(n: nat): (evs: seq<Event>)
    ensures |evs| == n
    ensures forall i :: 0 <= i < n ==> evs[i] == TimerTick
  {
    seq(n, _ => TimerTick)
  }

  /** Whatever the interleaving of ticks and responses, the counter stays within MaxSkips. */
  lemma {:induction false} RunKeepsBound(g: Guard, evs: seq<Event>)
    requires Bounded(g)
    ensures Bounded(Run(g, evs).final)
    decreases |evs|
  {
    if evs != [] {
      match evs[0]
      case TimerTick => RunKeepsBound(Tick(g).next, evs[1..]);
      case ResponseArrived => RunKeepsBound(Respond(g), evs[1..]);
    }
  }

  lemma TicksTail(n: nat)
    requires n > 0
    ensures Ticks(n)[0] == TimerTick && Ticks(n)[1..] == Ticks(n - 1)
  {
  }

  /**
   * While a request stays outstanding, n further ticks issue one forced
   * request per MaxSkips + 1 ticks: the counter acts as a clock modulo MaxSkips + 1.
   */
  lemma {:induction false} BusyTicks(g: Guard, n: nat)
    requires g.inProgress && Bounded(g)
    ensures Run(g, Ticks(n)) == Outcome(Guard(true, (g.skipped + n) % (MaxSkips + 1)), (g.skipped + n) / (MaxSkips + 1))
    decreases n
  {
    if n > 0 {
      TicksTail(n);
      var s := Tick(g);
      BusyTick(g);
      BusyTicks(s.next, n - 1);
    }
  }

  /**
   * From an idle guard, the first of n ticks issues a request and the rest
   * are busy ticks: 1 + (n - 1) / (MaxSkips + 1) requests in all.
   */
  lemma IdleTicks(g: Guard, n: nat)
    requires !g.inProgress && n > 0
    ensures Run(g, Ticks(n)).issued == 1 + (n - 1) / (MaxSkips + 1)
    ensures Run(g, Ticks(n)).final == Guard(true, (n - 1) % (MaxSkips + 1))
  {
    TicksTail(n);
    BusyTicks(Guard(true, 0), n - 1);
  }

  /**
   * The forced-retry scenario: after the request is issued, ticks two to
   * four are skipped and the fifth, the fourth busy one, issues again and
   * resets the counter.
   */
  lemma FourthBusyTickForces()
    ensures Run(Initial, Ticks(1)) == Outcome(Guard(true, 0), 1)
    ensures Run(Initial, Ticks(4)) == Outcome(Guard(true, 3), 1)
    ensures Run(Initial, Ticks(5)) == Outcome(Guard(true, 0), 2)
  {
    IdleTicks(Initial, 1);
    IdleTicks(Initial, 4);
    IdleTicks(Initial, 5);
  }

  /** Liveness: no guard state can withhold a request for more than MaxSkips + 1 ticks. */
  lemma NoStarvation(g: Guard, n: nat)
    requires Bounded(g) && n >= MaxSkips + 1
    ensures Run(g, Ticks(n)).issued >= 1
  {
    if g.inProgress {
      BusyTicks(g, n);
    } else {
      IdleTicks(g, n);
    }
  }

  /** Bounded backlog: with no response, at most one request per MaxSkips + 1 ticks after the first. */
  lemma BoundedBacklog(g: Guard, n: nat)
    requires Bounded(g)
    ensures Run(g, Ticks(n)).issued <= 1 + n / (MaxSkips + 1)
  {
    if g.inProgress {
      BusyTicks(g, n);
    } else if n > 0 {
      IdleTicks(g, n);
    }
  }
}
