/**
 * Duty-cycle scheduler that alternates one xArray between the WAM
 * (wide-area inventory) role and the Location role.
 *
 * A run connects to the reader and then, for a fixed number of rounds, runs a
 * WAM phase and a Location phase. Each phase sets the role up, waits for its
 * duration while the report listener collects tags by EPC, stops the reader,
 * reports how many distinct tags it saw and clears its collection. Between
 * rounds, when the WAM session keeps tag state, the run waits for that state
 * to decay. Finally the reader's default settings are restored and the
 * connection is released.
 *
 * The reader itself is not modelled: every call to it is an action appended to
 * `trace`, sleeping is a Wait action, and calls whose failure the program
 * catches and prints have a nondeterministic outcome recorded in `errors`.
 */
module XArrayLocationWam {

  /** Compute window of the Location role, in seconds. */
  const ComputeWindow: nat := 10

  /** The scheduler's timing and session settings. */
  datatype Config = Config(
    wamSession: int,           // session used in the WAM role
    wamRoleDuration: nat,      // duration of the WAM phase, in milliseconds
    locationRoleDuration: nat, // duration of the Location phase, in milliseconds
    iterations: nat,           // number of WAM + Location rounds
    persistence: nat)          // wait for tag state to decay before the next WAM phase, in milliseconds

  /** The settings the scheduler ships with: session 3, 30 s of WAM, one compute window plus 1 s of Location, 2 rounds, 120 s decay. */
  const Shipped: Config := Config(3, 30 * 1000, ComputeWindow * 1000 + 1000, 2, 120 * 1000)

  datatype Option<T> = None | Some(value: T)

  datatype Mode = Wam | Location

  /** What the scheduler asks of the reader, or of the clock, in order. */
  datatype Action =
    | Connect(hostname: string)
    | Setup(mode: Mode)
    | Start
    | Wait(ms: nat)
    | Stop
    | Report(mode: Mode, count: nat)
    | Clear(mode: Mode)
    | DecayWait(ms: nat)
    | ApplyDefaults
    | Disconnect

  /** How a run ended. */
  datatype Status = MissingHostname | ConnectFailed | DefaultsFailed | Completed

  /** A tag seen in the WAM role. */
  datatype TagObs = TagObs(epc: string, antennaPort: int, peakRssiDbm: real)

  /** A location report seen in the Location role. */
  datatype LocationObs = LocationObs(epc: string, readCount: int, xCm: int, yCm: int)

  /** What the reader delivers during one round: tag reports (each a list of tags) and location reports. */
  datatype RoundReports = RoundReports(tagReports: seq<seq<TagObs>>, locationReports: seq<LocationObs>)

  function TagEpc(t: TagObs): string { t.epc }

  function LocationEpc(r: LocationObs): string { r.epc }

  /** The map after putting every item of `items`, in order, under its key (`HashMap.put`). */
  function Collect<V>(m: map<string, V>, items: seq<V>, key: V -> string): map<string, V>
    decreases |items|
  {
    if items == [] then m
    else
      var last := items[|items| - 1];
      Collect(m, items[..|items| - 1], key)[key(last) := last]
  }

  /** All tags of a sequence of tag reports, in delivery order. */
  function Flatten(batches: seq<seq<TagObs>>): seq<TagObs>
    decreases |batches|
  {
    if batches == [] then [] else Flatten(batches[..|batches| - 1]) + batches[|batches| - 1]
  }

  /** Number of distinct EPCs the WAM phase of a round collects. */
  function WamCount(r: RoundReports): nat
  {
    |Collect(map[], Flatten(r.tagReports), TagEpc)|
  }

  /** Number of distinct EPCs the Location phase of a round collects. */
  function LocationCount(r: RoundReports): nat
  {
    |Collect(map[], r.locationReports, LocationEpc)|
  }

  /** The reports of round `i`; none when the environment supplies fewer rounds. */
  function ReportsFor(rounds: seq<RoundReports>, i: nat): RoundReports
  {
    if i < |rounds| then rounds[i] else RoundReports([], [])
  }

  /** One phase: set up, start, wait, stop, report the count, clear. */
  function Phase(mode: Mode, duration: nat, count: nat): seq<Action>
  {
    [Setup(mode), Start, Wait(duration), Stop, Report(mode, count), Clear(mode)]
  }

  /** Whether the decay wait follows round `i`: more rounds remain and the WAM session keeps tag state. */
  predicate DecayAfter(c: Config, i: nat)
  {
    i < c.iterations - 1 && (c.wamSession == 2 || c.wamSession == 3)
  }

  /** The actions of round `i`. */
  function RoundTrace(c: Config, i: nat, r: RoundReports): seq<Action>
  {
    Phase(Wam, c.wamRoleDuration, WamCount(r))
    + Phase(Location, c.locationRoleDuration, LocationCount(r))
    + (if DecayAfter(c, i) then [DecayWait(c.persistence)] else [])
  }

  /** The actions of the first `n` rounds. */
  function RoundsTrace(c: Config, n: nat, rounds: seq<RoundReports>): seq<Action>
    decreases n
  {
    if n == 0 then []
    else RoundsTrace(c, n - 1, rounds) + RoundTrace(c, n - 1, ReportsFor(rounds, n - 1))
  }

  /** The actions of a whole run to `hostname` that ended with `status`. */
  function RunTrace(c: Config, hostname: string, status: Status, rounds: seq<RoundReports>): (t: seq<Action>)
    ensures t == [] <==> status == MissingHostname
    ensures t != [] ==> t[0] == Connect(hostname)
  {
    match status
    case MissingHostname => []
    case ConnectFailed => [Connect(hostname)]
    case DefaultsFailed => [Connect(hostname)] + RoundsTrace(c, c.iterations, rounds) + [ApplyDefaults]
    case Completed => [Connect(hostname)] + RoundsTrace(c, c.iterations, rounds) + [ApplyDefaults, Disconnect]
  }

  /** A reader call whose failure the program catches and prints, going on with the schedule. */
  predicate Caught(a: Action)
  {
    a.Setup? || a.Start? || a.Stop?
  }

  /** Failures a phase of role `mode` can log: at most its set-up, its start and its stop. */
  predicate PhaseFailures(e: seq<Action>, mode: Mode)
  {
    |e| <= 3 && forall a | a in e :: a == Setup(mode) || a == Start || a == Stop
  }

  /** Failures the rounds can log: only caught calls, at most three per phase. */
  predicate RoundFailures(e: seq<Action>, n: nat)
  {
    |e| <= 6 * n && forall a | a in e :: Caught(a)
  }

  class Scheduler {
    /** Every call made to the reader or the clock, in order. */
    var trace: seq<Action>
    /** The calls whose failure was caught and printed. */
    var errors: seq<Action>
    /** Tags collected in the current WAM phase, by EPC. */
    var wamTags: map<string, TagObs>
    /** Location reports collected in the current Location phase, by EPC. */
    var locTags: map<string, LocationObs>
    var status: Status
    const config: Config

    /** The whole run: connect, the rounds, restore defaults, disconnect. */
    constructor (config: Config, hostname: Option<string>, rounds: seq<RoundReports>)
      ensures this.config == config
      ensures hostname.None? <==> status == MissingHostname
      ensures hostname.Some? ==> trace == RunTrace(config, hostname.value, status, rounds)
      ensures hostname.None? ==> trace == [] && errors == []
      ensures status == ConnectFailed ==> errors == [Connect(hostname.value)]
      ensures status == DefaultsFailed ==>
        |errors| > 0 && errors[|errors| - 1] == ApplyDefaults && RoundFailures(errors[..|errors| - 1], config.iterations)
      ensures status == Completed ==> RoundFailures(errors, config.iterations)
      ensures wamTags == map[] && locTags == map[]
    {
      trace, errors := [], [];
      wamTags, locTags := map[], map[];
      status := MissingHostname;
      this.config := config;
      new;
      if hostname.None? {
        return;
      }
      var h := hostname.value;
      var connected: bool :| true;
      trace := trace + [Connect(h)];
      assert trace == [Connect(h)];
      if !connected {
        errors := errors + [Connect(h)];
        status := ConnectFailed;
        return;
      }
      ghost var rounded := RoundsTrace(config, config.iterations, rounds);
      RunRounds(rounds);
      assert errors[0..] == errors;
      ghost var failures := errors;
      var defaultsApplied: bool :| true;
      trace := trace + [ApplyDefaults];
      if !defaultsApplied {
        errors := errors + [ApplyDefaults];
        assert errors[..|errors| - 1] == failures;
        status := DefaultsFailed;
        assert trace == [Connect(h)] + rounded + [ApplyDefaults];
        return;
      }
      trace := trace + [Disconnect];
      status := Completed;
      assert trace == [Connect(h)] + rounded + [ApplyDefaults, Disconnect];
    }

    /** The counted loop over the rounds. */
    method RunRounds(rounds: seq<RoundReports>)
      requires wamTags == map[] && locTags == map[]
      modifies this
      ensures trace == old(trace) + RoundsTrace(config, config.iterations, rounds)
      ensures old(errors) <= errors && RoundFailures(errors[|old(errors)|..], config.iterations)
      ensures wamTags == map[] && locTags == map[] && status == old(status)
    {
      for i := 0 to config.iterations
        invariant trace == old(trace) + RoundsTrace(config, i, rounds)
        invariant old(errors) <= errors && RoundFailures(errors[|old(errors)|..], i)
        invariant wamTags == map[] && locTags == map[]
        invariant status == old(status)
      {
        var r := ReportsFor(rounds, i);
        ghost var round := RoundTrace(config, i, r);
        ghost var e := errors;
        RunRound(i, r);
        assert errors[|old(errors)|..] == e[|old(errors)|..] + errors[|e|..];
        assert RoundsTrace(config, i + 1, rounds) == RoundsTrace(config, i, rounds) + round;
        SeqAssoc3(old(trace), RoundsTrace(config, i, rounds), round);
      }
    }

    /** One round of the loop: the WAM phase, the Location phase, then the decay wait when it applies. */
    method RunRound(i: nat, r: RoundReports)
      requires wamTags == map[] && locTags == map[]
      modifies this
      ensures trace == old(trace) + RoundTrace(config, i, r)
      ensures old(errors) <= errors && RoundFailures(errors[|old(errors)|..], 1)
      ensures wamTags == map[] && locTags == map[] && status == old(status)
    {
      ghost var before := trace;
      ghost var e0 := errors;
      RunWamRole(r);
      ghost var e1 := errors;
      ghost var wamPhase := Phase(Wam, config.wamRoleDuration, WamCount(r));
      assert trace == before + wamPhase;
      RunLocationRole(r);
      assert errors[|e0|..] == e1[|e0|..] + errors[|e1|..];
      ghost var locationPhase := Phase(Location, config.locationRoleDuration, LocationCount(r));
      assert trace == before + wamPhase + locationPhase;
      assert before + wamPhase + locationPhase == before + (wamPhase + locationPhase);
      ghost var round := RoundTrace(config, i, r);
      if i < config.iterations - 1 && (config.wamSession == 2 || config.wamSession == 3) {
        trace := trace + [DecayWait(config.persistence)];
        assert round == wamPhase + locationPhase + [DecayWait(config.persistence)];
        assert before + (wamPhase + locationPhase) + [DecayWait(config.persistence)] == before + (wamPhase + locationPhase + [DecayWait(config.persistence)]);
      } else {
        assert round == wamPhase + locationPhase + [];
      }
    }

    /** A reader call whose failure is caught and printed; either way the schedule goes on. */
    method NonFatal(a: Action)
      modifies this
      ensures trace == old(trace) + [a]
      ensures errors == old(errors) || errors == old(errors) + [a]
      ensures wamTags == old(wamTags) && locTags == old(locTags) && status == old(status)
    {
      var ok: bool :| true;
      trace := trace + [a];
      if !ok {
        errors := errors + [a];
      }
    }

    /** Tag report listener: puts every tag under its EPC, the last one winning. */
    method OnTagReported(tags: seq<TagObs>)
      modifies this
      ensures wamTags == Collect(old(wamTags), tags, TagEpc)
      ensures trace == old(trace) && errors == old(errors) && locTags == old(locTags) && status == old(status)
    {
      for i := 0 to |tags|
        invariant wamTags == Collect(old(wamTags), tags[..i], TagEpc)
        invariant trace == old(trace) && errors == old(errors) && locTags == old(locTags) && status == old(status)
      {
        assert tags[..i + 1][..i] == tags[..i];
        wamTags := wamTags[tags[i].epc := tags[i]];
      }
      assert tags[..|tags|] == tags;
    }

    /** Location report listener: puts the report under its EPC, replacing an earlier one. */
    method OnLocationReported(report: LocationObs)
      modifies this
      ensures locTags == old(locTags)[report.epc := report]
      ensures trace == old(trace) && errors == old(errors) && wamTags == old(wamTags) && status == old(status)
    {
      locTags := locTags[report.epc := report];
    }

    /** The WAM phase of a round, with the reports the reader delivers while it waits. */
    method RunWamRole(r: RoundReports)
      modifies this
      ensures trace == old(trace) + Phase(Wam, config.wamRoleDuration, |Collect(old(wamTags), Flatten(r.tagReports), TagEpc)|)
      ensures old(errors) <= errors && PhaseFailures(errors[|old(errors)|..], Wam)
      ensures wamTags == map[] && locTags == old(locTags) && status == old(status)
    {
      ghost var e0 := errors;
      NonFatal(Setup(Wam));
      ghost var e1 := errors;
      NonFatal(Start);
      ghost var e2 := errors;
      trace := trace + [Wait(config.wamRoleDuration)];
      DeliverTagReports(r.tagReports);
      NonFatal(Stop);
      PhaseFailuresOf(e0, e1, e2, errors, Wam);
      trace := trace + [Report(Wam, |wamTags|)];
      wamTags := map[];
      trace := trace + [Clear(Wam)];
    }

    /** The tag reports delivered while the WAM phase waits, each handed to the listener. */
    method DeliverTagReports(batches: seq<seq<TagObs>>)
      modifies this
      ensures wamTags == Collect(old(wamTags), Flatten(batches), TagEpc)
      ensures trace == old(trace) && errors == old(errors) && locTags == old(locTags) && status == old(status)
    {
      for j := 0 to |batches|
        invariant wamTags == Collect(old(wamTags), Flatten(batches[..j]), TagEpc)
        invariant trace == old(trace) && errors == old(errors) && locTags == old(locTags) && status == old(status)
      {
        assert batches[..j + 1][..j] == batches[..j];
        CollectAppend(old(wamTags), Flatten(batches[..j]), batches[j], TagEpc);
        OnTagReported(batches[j]);
      }
      assert batches[..|batches|] == batches;
    }

    /** The Location phase of a round, with the reports the reader delivers while it waits. */
    method RunLocationRole(r: RoundReports)
      modifies this
      ensures trace == old(trace) + Phase(Location, config.locationRoleDuration, |Collect(old(locTags), r.locationReports, LocationEpc)|)
      ensures old(errors) <= errors && PhaseFailures(errors[|old(errors)|..], Location)
      ensures locTags == map[] && wamTags == old(wamTags) && status == old(status)
    {
      ghost var e0 := errors;
      NonFatal(Setup(Location));
      ghost var e1 := errors;
      NonFatal(Start);
      ghost var e2 := errors;
      trace := trace + [Wait(config.locationRoleDuration)];
      DeliverLocationReports(r.locationReports);
      NonFatal(Stop);
      PhaseFailuresOf(e0, e1, e2, errors, Location);
      trace := trace + [Report(Location, |locTags|)];
      locTags := map[];
      trace := trace + [Clear(Location)];
    }

    /** The location reports delivered while the Location phase waits, each handed to the listener. */
    method DeliverLocationReports(reports: seq<LocationObs>)
      modifies this
      ensures locTags == Collect(old(locTags), reports, LocationEpc)
      ensures trace == old(trace) && errors == old(errors) && wamTags == old(wamTags) && status == old(status)
    {
      for j := 0 to |reports|
        invariant locTags == Collect(old(locTags), reports[..j], LocationEpc)
        invariant trace == old(trace) && errors == old(errors) && wamTags == old(wamTags) && status == old(status)
      {
        assert reports[..j + 1][..j] == reports[..j];
        OnLocationReported(reports[j]);
      }
      assert reports[..|reports|] == reports;
    }
  }

  /**
   * A phase's failures, logged by its three guarded calls in turn, are at most
   * its set-up, its start and its stop.
   */
  lemma PhaseFailuresOf(e0: seq<Action>, e1: seq<Action>, e2: seq<Action>, e: seq<Action>, mode: Mode)
    requires e1 == e0 || e1 == e0 + [Setup(mode)]
    requires e2 == e1 || e2 == e1 + [Start]
    requires e == e2 || e == e2 + [Stop]
    ensures e0 <= e && PhaseFailures(e[|e0|..], mode)
  {
    var d1 := e1[|e0|..];
    var d2 := e2[|e1|..];
    var d3 := e[|e2|..];
    assert e1 == e0 + d1 && e2 == e1 + d2 && e == e2 + d3;
    assert e[|e0|..] == d1 + d2 + d3;
  }

  /** Concatenation is associative; stated apart so that the loop in `RunRounds` stays cheap to verify. */
  lemma SeqAssoc3<T>(a: seq<T>, b: seq<T>, c: seq<T>)
    ensures a + b + c == a + (b + c)
  {
  }

  /** Collecting `a` and then `b` is collecting `a + b`. */
  lemma {:induction false} CollectAppend<V>(m: map<string, V>, a: seq<V>, b: seq<V>, key: V -> string)
    ensures Collect(Collect(m, a, key), b, key) == Collect(m, a + b, key)
    decreases |b|
  {
    if b == [] {
      assert a + b == a;
    } else {
      assert (a + b)[..|a + b| - 1] == a + b[..|b| - 1];
      CollectAppend(m, a, b[..|b| - 1], key);
    }
  }
}
