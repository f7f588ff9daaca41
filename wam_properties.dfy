/**
 * Properties of the WAM / Location scheduler: the run alternates the two
 * roles for exactly the configured number of rounds, the decay wait follows
 * every round but the last when the WAM session keeps tag state, the run ends
 * by restoring defaults and then disconnecting, and each reported count is the
 * number of distinct EPCs seen in that phase, the last report of a tag winning.
 */
module WamProperties {
  import opened XArrayLocationWam

  /** The roles set up by a trace, in order. */
  function SetupModes(t: seq<Action>): seq<Mode>
    decreases |t|
  {
    if t == [] then []
    else (if t[0].Setup? then [t[0].mode] else []) + SetupModes(t[1..])
  }

  /** Number of decay waits in a trace. */
  function DecayWaits(t: seq<Action>): nat
    decreases |t|
  {
    if t == [] then 0
    else (if t[0].DecayWait? then 1 else 0) + DecayWaits(t[1..])
  }

  /** Total time spent sleeping in a trace, in milliseconds. */
  function SleepMs(t: seq<Action>): nat
    decreases |t|
  {
    if t == [] then 0
    else (match t[0] case Wait(ms) => ms case DecayWait(ms) => ms case _ => 0) + SleepMs(t[1..])
  }

  /** `n` rounds of WAM followed by Location. */
  function Alternation(n: nat): seq<Mode>
  {
    if n == 0 then [] else Alternation(n - 1) + [Wam, Location]
  }

  // ---------------------------------------------------------------------------
  // Projections distribute over concatenation
  // ---------------------------------------------------------------------------

  lemma {:induction false} SetupModesAppend(a: seq<Action>, b: seq<Action>)
    ensures SetupModes(a + b) == SetupModes(a) + SetupModes(b)
    decreases |a|
  {
    if a != [] {
      assert (a + b)[1..] == a[1..] + b;
      SetupModesAppend(a[1..], b);
    } else {
      assert a + b == b;
    }
  }

  lemma {:induction false} DecayWaitsAppend(a: seq<Action>, b: seq<Action>)
    ensures DecayWaits(a + b) == DecayWaits(a) + DecayWaits(b)
    decreases |a|
  {
    if a != [] {
      assert (a + b)[1..] == a[1..] + b;
      DecayWaitsAppend(a[1..], b);
    } else {
      assert a + b == b;
    }
  }

  lemma {:induction false} SleepMsAppend(a: seq<Action>, b: seq<Action>)
    ensures SleepMs(a + b) == SleepMs(a) + SleepMs(b)
    decreases |a|
  {
    if a != [] {
      assert (a + b)[1..] == a[1..] + b;
      SleepMsAppend(a[1..], b);
    } else {
      assert a + b == b;
    }
  }

  /** What one phase contributes to each projection. */
  lemma PhaseProjections(mode: Mode, duration: nat, count: nat)
    ensures SetupModes(Phase(mode, duration, count)) == [mode]
    ensures DecayWaits(Phase(mode, duration, count)) == 0
    ensures SleepMs(Phase(mode, duration, count)) == duration
  {
    var p := Phase(mode, duration, count);
    assert p[5..][1..] == [];
    assert SetupModes(p[5..]) == [] && DecayWaits(p[5..]) == 0 && SleepMs(p[5..]) == 0;
    assert p[4..][1..] == p[5..];
    assert SetupModes(p[4..]) == [] && DecayWaits(p[4..]) == 0 && SleepMs(p[4..]) == 0;
    assert p[3..][1..] == p[4..];
    assert SetupModes(p[3..]) == [] && DecayWaits(p[3..]) == 0 && SleepMs(p[3..]) == 0;
    assert p[2..][1..] == p[3..];
    assert SetupModes(p[2..]) == [] && DecayWaits(p[2..]) == 0 && SleepMs(p[2..]) == duration;
    assert p[1..][1..] == p[2..];
    assert SetupModes(p[1..]) == [] && DecayWaits(p[1..]) == 0 && SleepMs(p[1..]) == duration;
  }

  /** What one round contributes to each projection. */
  lemma RoundProjections(c: Config, i: nat, r: RoundReports)
    ensures SetupModes(RoundTrace(c, i, r)) == [Wam, Location]
    ensures DecayWaits(RoundTrace(c, i, r)) == if DecayAfter(c, i) then 1 else 0
    ensures SleepMs(RoundTrace(c, i, r))
         == c.wamRoleDuration + c.locationRoleDuration + (if DecayAfter(c, i) then c.persistence else 0)
  {
    var w := Phase(Wam, c.wamRoleDuration, WamCount(r));
    var l := Phase(Location, c.locationRoleDuration, LocationCount(r));
    var d: seq<Action> := if DecayAfter(c, i) then [DecayWait(c.persistence)] else [];
    PhaseProjections(Wam, c.wamRoleDuration, WamCount(r));
    PhaseProjections(Location, c.locationRoleDuration, LocationCount(r));
    SetupModesAppend(w, l);
    SetupModesAppend(w + l, d);
    DecayWaitsAppend(w, l);
    DecayWaitsAppend(w + l, d);
    SleepMsAppend(w, l);
    SleepMsAppend(w + l, d);
  }

  // ---------------------------------------------------------------------------
  // The rounds
  // ---------------------------------------------------------------------------

  /** The first `n` rounds set up WAM then Location, `n` times, and nothing else. */
  lemma {:induction false} RoundsAlternate(c: Config, n: nat, rounds: seq<RoundReports>)
    ensures SetupModes(RoundsTrace(c, n, rounds)) == Alternation(n)
    decreases n
  {
    if n > 0 {
      RoundsAlternate(c, n - 1, rounds);
      RoundProjections(c, n - 1, ReportsFor(rounds, n - 1));
      SetupModesAppend(RoundsTrace(c, n - 1, rounds), RoundTrace(c, n - 1, ReportsFor(rounds, n - 1)));
    }
  }

  /** Round `i` ends with a decay wait exactly when more rounds follow and the WAM session is 2 or 3. */
  lemma DecayWaitIff(c: Config, i: nat, r: RoundReports)
    ensures DecayWait(c.persistence) in RoundTrace(c, i, r) <==> i + 1 < c.iterations && (c.wamSession == 2 || c.wamSession == 3)
    ensures DecayWaits(RoundTrace(c, i, r)) == if i + 1 < c.iterations && (c.wamSession == 2 || c.wamSession == 3) then 1 else 0
  {
    RoundProjections(c, i, r);
    if !DecayAfter(c, i) {
      assert forall k | 0 <= k < |RoundTrace(c, i, r)| :: !RoundTrace(c, i, r)[k].DecayWait?;
    }
  }

  /** Over the first `n <= iterations` rounds, the decay waits are those of the rounds that are not last. */
  lemma {:induction false} DecayWaitsOfRounds(c: Config, n: nat, rounds: seq<RoundReports>)
    requires n <= c.iterations
    ensures DecayWaits(RoundsTrace(c, n, rounds))
         == if c.wamSession == 2 || c.wamSession == 3 then (if n == c.iterations && n > 0 then n - 1 else n) else 0
    decreases n
  {
    if n > 0 {
      DecayWaitsOfRounds(c, n - 1, rounds);
      RoundProjections(c, n - 1, ReportsFor(rounds, n - 1));
      DecayWaitsAppend(RoundsTrace(c, n - 1, rounds), RoundTrace(c, n - 1, ReportsFor(rounds, n - 1)));
    }
  }

  /** A run of `iterations` rounds holds one decay wait fewer than rounds, or none for sessions other than 2 and 3. */
  lemma DecayWaitCount(c: Config, rounds: seq<RoundReports>)
    ensures DecayWaits(RoundsTrace(c, c.iterations, rounds))
         == if (c.wamSession == 2 || c.wamSession == 3) && c.iterations > 0 then c.iterations - 1 else 0
  {
    DecayWaitsOfRounds(c, c.iterations, rounds);
  }

  /** No decay wait follows the last round: the rounds end with the Location phase's Clear. */
  lemma LastRoundEndsWithClear(c: Config, rounds: seq<RoundReports>)
    requires c.iterations > 0
    ensures var t := RoundsTrace(c, c.iterations, rounds); |t| > 0 && t[|t| - 1] == Clear(Location)
  {
    var i := c.iterations - 1;
    var r := ReportsFor(rounds, i);
    assert !DecayAfter(c, i);
    assert RoundTrace(c, i, r) == Phase(Wam, c.wamRoleDuration, WamCount(r)) + Phase(Location, c.locationRoleDuration, LocationCount(r));
  }

  /** The rounds sleep for every phase and every decay wait. */
  lemma {:induction false} SleepOfRounds(c: Config, n: nat, rounds: seq<RoundReports>)
    ensures SleepMs(RoundsTrace(c, n, rounds))
         == n * (c.wamRoleDuration + c.locationRoleDuration) + DecayWaits(RoundsTrace(c, n, rounds)) * c.persistence
    decreases n
  {
    if n > 0 {
      SleepOfRounds(c, n - 1, rounds);
      var dl := SleepOfLastRound(c, n, rounds);
      SleepTotal(n, c.wamRoleDuration + c.locationRoleDuration, c.persistence,
        DecayWaits(RoundsTrace(c, n - 1, rounds)), dl, DecayWaits(RoundsTrace(c, n, rounds)),
        SleepMs(RoundsTrace(c, n - 1, rounds)), SleepMs(RoundsTrace(c, n, rounds)));
    }
  }

  /** Round `n - 1` adds both phase durations and `dl` decay waits to the sleep of the first `n - 1` rounds. */
  lemma SleepOfLastRound(c: Config, n: nat, rounds: seq<RoundReports>) returns (dl: nat)
    requires n > 0
    ensures DecayWaits(RoundsTrace(c, n, rounds)) == DecayWaits(RoundsTrace(c, n - 1, rounds)) + dl
    ensures SleepMs(RoundsTrace(c, n, rounds))
         == SleepMs(RoundsTrace(c, n - 1, rounds)) + (c.wamRoleDuration + c.locationRoleDuration) + dl * c.persistence
  {
    var r := ReportsFor(rounds, n - 1);
    var prefix, last := RoundsTrace(c, n - 1, rounds), RoundTrace(c, n - 1, r);
    assert RoundsTrace(c, n, rounds) == prefix + last;
    RoundProjections(c, n - 1, r);
    SleepMsAppend(prefix, last);
    DecayWaitsAppend(prefix, last);
    dl := DecayWaits(last);
  }

  /** Arithmetic step of `SleepOfRounds`: one more round adds one round's sleep. */
  lemma SleepTotal(n: int, w: int, p: int, dp: int, dl: int, d: int, sp: int, s: int)
    requires sp == (n - 1) * w + dp * p
    requires s == sp + w + dl * p
    requires d == dp + dl
    ensures s == n * w + d * p
  {
  }

  // ---------------------------------------------------------------------------
  // The whole run
  // ---------------------------------------------------------------------------

  /** A run that lost its hostname or its connection sets up no phase and never disconnects. */
  lemma AbortedRunHasNoPhase(c: Config, hostname: string, status: Status, rounds: seq<RoundReports>)
    requires status == MissingHostname || status == ConnectFailed
    ensures SetupModes(RunTrace(c, hostname, status, rounds)) == []
    ensures Disconnect !in RunTrace(c, hostname, status, rounds)
    ensures status == ConnectFailed ==> RunTrace(c, hostname, status, rounds) == [Connect(hostname)]
  {
    if status == ConnectFailed {
      assert SetupModes([Connect(hostname)]) == SetupModes([]);
    }
  }

  /**
   * A run that got past connecting runs every round, alternating the roles;
   * it then applies the default settings and, unless that fails, disconnects last.
   */
  lemma ConnectedRunShape(c: Config, hostname: string, status: Status, rounds: seq<RoundReports>)
    requires status == Completed || status == DefaultsFailed
    ensures var t := RunTrace(c, hostname, status, rounds);
      && SetupModes(t) == Alternation(c.iterations)
      && t[0] == Connect(hostname)
      && (status == Completed ==> |t| >= 3 && t[|t| - 2] == ApplyDefaults && t[|t| - 1] == Disconnect)
      && (status == DefaultsFailed ==> t[|t| - 1] == ApplyDefaults && Disconnect !in t)
  {
    var body := RoundsTrace(c, c.iterations, rounds);
    var tail: seq<Action> := if status == Completed then [ApplyDefaults, Disconnect] else [ApplyDefaults];
    assert RunTrace(c, hostname, status, rounds) == [Connect(hostname)] + body + tail;
    RoundsAlternate(c, c.iterations, rounds);
    SetupModesAppend([Connect(hostname)], body);
    SetupModesAppend([Connect(hostname)] + body, tail);
    assert SetupModes([Connect(hostname)]) == [];
    assert SetupModes(tail) == [] by {
      assert SetupModes([Disconnect]) == [];
      assert [ApplyDefaults, Disconnect][1..] == [Disconnect];
    }
    if status == DefaultsFailed {
      assert Disconnect !in body by {
        DisconnectNotInRounds(c, c.iterations, rounds);
      }
    }
  }

  /** The rounds themselves never disconnect. */
  lemma {:induction false} DisconnectNotInRounds(c: Config, n: nat, rounds: seq<RoundReports>)
    ensures Disconnect !in RoundsTrace(c, n, rounds)
    decreases n
  {
    if n > 0 {
      DisconnectNotInRounds(c, n - 1, rounds);
      var r := ReportsFor(rounds, n - 1);
      assert RoundsTrace(c, n, rounds) == RoundsTrace(c, n - 1, rounds) + RoundTrace(c, n - 1, r);
      assert Disconnect !in RoundTrace(c, n - 1, r);
    }
  }

  /** With the shipped settings (2 rounds, WAM session 3) the roles run as WAM, Location, WAM, Location. */
  lemma ShippedRoles(hostname: string, rounds: seq<RoundReports>)
    ensures Shipped.wamRoleDuration == 30000 && Shipped.locationRoleDuration == 11000
    ensures SetupModes(RunTrace(Shipped, hostname, Completed, rounds)) == [Wam, Location, Wam, Location]
  {
    ConnectedRunShape(Shipped, hostname, Completed, rounds);
    assert Alternation(2) == [Wam, Location, Wam, Location] by {
      assert Alternation(1) == [Wam, Location];
    }
  }

  /** A whole schedule sleeps for every phase of every round and for every decay wait. */
  lemma SleepOfSchedule(c: Config, rounds: seq<RoundReports>)
    ensures SleepMs(RoundsTrace(c, c.iterations, rounds))
         == c.iterations * (c.wamRoleDuration + c.locationRoleDuration)
          + (if (c.wamSession == 2 || c.wamSession == 3) && c.iterations > 0 then c.iterations - 1 else 0) * c.persistence
  {
    DecayWaitCount(c, rounds);
    SleepOfRounds(c, c.iterations, rounds);
  }

  /** With the shipped settings there is exactly one decay wait, and the rounds sleep 202000 ms. */
  lemma ShippedSleep(rounds: seq<RoundReports>)
    ensures DecayWaits(RoundsTrace(Shipped, Shipped.iterations, rounds)) == 1
    ensures SleepMs(RoundsTrace(Shipped, Shipped.iterations, rounds)) == 202000
  {
    DecayWaitCount(Shipped, rounds);
    SleepOfSchedule(Shipped, rounds);
  }

  // ---------------------------------------------------------------------------
  // Collection by EPC
  // ---------------------------------------------------------------------------

  /** The collection holds the old keys and the key of every item, and nothing else. */
  lemma {:induction false} CollectKeys<V>(m: map<string, V>, items: seq<V>, key: V -> string)
    ensures Collect(m, items, key).Keys == m.Keys + (set i | 0 <= i < |items| :: key(items[i]))
    decreases |items|
  {
    if items != [] {
      var init := items[..|items| - 1];
      CollectKeys(m, init, key);
      var last := |items| - 1;
      assert (set i | 0 <= i < |items| :: key(items[i]))
          == (set i | 0 <= i < |init| :: key(init[i])) + {key(items[last])} by {
        forall i | 0 <= i < |init| ensures key(init[i]) == key(items[i]) { }
      }
    }
  }

  /** An item that no later item shares its key with is the one the collection keeps. */
  lemma {:induction false} CollectLastWins<V>(m: map<string, V>, items: seq<V>, key: V -> string, i: nat)
    requires i < |items|
    requires forall j | i < j < |items| :: key(items[j]) != key(items[i])
    ensures key(items[i]) in Collect(m, items, key)
    ensures Collect(m, items, key)[key(items[i])] == items[i]
    decreases |items|
  {
    if i < |items| - 1 {
      CollectLastWins(m, items[..|items| - 1], key, i);
    }
  }

  /** A key that no item carries keeps its old entry. */
  lemma {:induction false} CollectKeepsOthers<V>(m: map<string, V>, items: seq<V>, key: V -> string, k: string)
    requires k in m
    requires forall j | 0 <= j < |items| :: key(items[j]) != k
    ensures k in Collect(m, items, key) && Collect(m, items, key)[k] == m[k]
    decreases |items|
  {
    if items != [] {
      CollectKeepsOthers(m, items[..|items| - 1], key, k);
    }
  }

  /** The reported WAM count is the number of distinct EPCs among the tags delivered in that phase. */
  lemma WamCountIsDistinctEpcs(r: RoundReports)
    ensures WamCount(r) == |set t | t in Flatten(r.tagReports) :: t.epc|
  {
    var items := Flatten(r.tagReports);
    CollectKeys(map[], items, TagEpc);
    var byIndex := set i | 0 <= i < |items| :: TagEpc(items[i]);
    var byTag := set t | t in items :: t.epc;
    forall e | e in byTag ensures e in byIndex {
      var t :| t in items && t.epc == e;
      var i :| 0 <= i < |items| && items[i] == t;
      assert TagEpc(items[i]) == e;
    }
    forall e | e in byIndex ensures e in byTag {
      var i :| 0 <= i < |items| && TagEpc(items[i]) == e;
      assert items[i] in items;
    }
    assert byIndex == byTag;
    var collected := Collect(map[], items, TagEpc);
    assert collected.Keys == byIndex;
    assert |collected| == |collected.Keys|;
  }

  /** The reported Location count is the number of distinct EPCs among the reports delivered in that phase. */
  lemma LocationCountIsDistinctEpcs(r: RoundReports)
    ensures LocationCount(r) == |set o | o in r.locationReports :: o.epc|
  {
    var items := r.locationReports;
    CollectKeys(map[], items, LocationEpc);
    var byIndex := set i | 0 <= i < |items| :: LocationEpc(items[i]);
    var byReport := set o | o in items :: o.epc;
    forall e | e in byReport ensures e in byIndex {
      var o :| o in items && o.epc == e;
      var i :| 0 <= i < |items| && items[i] == o;
      assert LocationEpc(items[i]) == e;
    }
    forall e | e in byIndex ensures e in byReport {
      var i :| 0 <= i < |items| && LocationEpc(items[i]) == e;
      assert items[i] in items;
    }
    assert byIndex == byReport;
    var collected := Collect(map[], items, LocationEpc);
    assert collected.Keys == byIndex;
    assert |collected| == |collected.Keys|;
  }
}
