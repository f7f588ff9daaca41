/**
 * Properties of the fusion engine: the multiplier is the integer quotient of
 * the compute window by the cycle length and never zero, accumulation does
 * not depend on the order of the reports, the fused estimate is the floor of
 * the confidence-weighted mean of the whole cycle, a trigger report restarts
 * accumulation from zero, and confidences stay non-negative.
 */
module MultiProperties {
  import opened XArrayLocationMulti

  /** No report in `evs` comes from the trigger reader. */
  predicate NoTrigger(evs: seq<LocationEvent>, trigger: string)
  {
    forall e | e in evs :: e.address != trigger
  }

  /** No report in `evs` from the trigger reader is about tag `epc`; it may report other tags. */
  predicate NoTriggerFor(evs: seq<LocationEvent>, trigger: string, epc: string)
  {
    forall e | e in evs :: e.address == trigger ==> e.report.epc != epc
  }

  /** Every recorded cycle length is positive. */
  predicate PositiveCycles(cycles: map<string, int>)
  {
    forall a | a in cycles :: cycles[a] > 0
  }

  /** Every accumulator holds a non-negative confidence sum. */
  predicate ConfidencesNonNegative(infos: map<string, TagReadInfo>)
  {
    forall k | k in infos :: infos[k].confidence >= 0.0
  }

  // ---------------------------------------------------------------------------
  // Multiplier and confidence
  // ---------------------------------------------------------------------------

  /** For a positive divisor, the floor of the real quotient is Dafny's integer quotient. */
  lemma FloorOfQuotient(n: int, d: int)
    requires d > 0
    ensures (n as real / d as real).Floor == n / d
  {
    var q, r := n / d, n % d;
    assert n == d * q + r && 0 <= r < d;
    assert n as real == (q as real) * (d as real) + r as real;
    assert (q as real) <= n as real / d as real < (q as real) + 1.0 by {
      assert n as real / d as real == (q as real) + (r as real) / (d as real);
      assert 0.0 <= (r as real) / (d as real) < 1.0;
    }
  }

  /** With a positive cycle length the multiplier is the integer quotient of the window by it, clamped to 1. */
  lemma MultiplierOfPositive(cycleLen: int)
    requires cycleLen > 0
    ensures var q := ComputeWindowSec * 1000000 / cycleLen;
      Multiplier(cycleLen) == if q == 0 then 1 else q
  {
    FloorOfQuotient(ComputeWindowSec * 1000000, cycleLen);
  }

  /** A cycle longer than the whole window clamps the multiplier, so the confidence is the read count. */
  lemma ClampedConfidenceIsReadCount(cycleLen: int, report: LocationReport)
    requires cycleLen > ComputeWindowSec * 1000000
    ensures Multiplier(cycleLen) == 1
    ensures Contribution(cycleLen, report).confidence == report.readCount as real
  {
    MultiplierOfPositive(cycleLen);
  }

  /** A window of 30 s over a 2,000,000 us cycle gives 15 cycles; 30 reads then weigh 2. */
  lemma ConfidenceExample(report: LocationReport)
    requires report.readCount == 30
    ensures Multiplier(2000000) == 15
    ensures Contribution(2000000, report).confidence == 2.0
  {
    MultiplierOfPositive(2000000);
  }

  // ---------------------------------------------------------------------------
  // Dropped reports
  // ---------------------------------------------------------------------------

  /** Reports from readers without a usable cycle length change no accumulator and create none. */
  lemma {:induction false} UnreadyReportsChangeNothing(cycles: map<string, int>, infos: map<string, TagReadInfo>, trigger: string, evs: seq<LocationEvent>)
    requires forall e | e in evs :: !Ready(cycles, e.address)
    ensures Replay(cycles, infos, trigger, evs) == infos
    decreases |evs|
  {
    if evs != [] {
      assert evs[0] in evs;
      UnreadyReportsChangeNothing(cycles, infos, trigger, evs[1..]);
    }
  }

  // ---------------------------------------------------------------------------
  // Order independence
  // ---------------------------------------------------------------------------

  /** Two reports from non-trigger readers can be processed in either order. */
  lemma StepsCommute(cycles: map<string, int>, infos: map<string, TagReadInfo>, trigger: string, a: LocationEvent, b: LocationEvent)
    requires a.address != trigger && b.address != trigger
    ensures LocationStep(cycles, LocationStep(cycles, infos, trigger, a).infos, trigger, b).infos
         == LocationStep(cycles, LocationStep(cycles, infos, trigger, b).infos, trigger, a).infos
  {
    var ab := LocationStep(cycles, LocationStep(cycles, infos, trigger, a).infos, trigger, b).infos;
    var ba := LocationStep(cycles, LocationStep(cycles, infos, trigger, b).infos, trigger, a).infos;
    if Ready(cycles, a.address) && Ready(cycles, b.address) {
      var ka, kb := a.report.epc, b.report.epc;
      var ca, cb := Contribution(cycles[a.address], a.report), Contribution(cycles[b.address], b.report);
      if ka == kb {
        assert ab[ka] == Plus(Plus(Lookup(infos, ka), ca), cb);
        assert ba[ka] == Plus(Plus(Lookup(infos, ka), cb), ca);
      }
      assert ab.Keys == ba.Keys;
      forall k | k in ab ensures ab[k] == ba[k] {
      }
    }
  }

  /** A non-trigger report can be moved to the front of a non-trigger prefix. */
  lemma {:induction false} ReplayMoveToFront(cycles: map<string, int>, infos: map<string, TagReadInfo>, trigger: string, a: seq<LocationEvent>, e: LocationEvent, b: seq<LocationEvent>)
    requires NoTrigger(a, trigger) && e.address != trigger
    ensures Replay(cycles, infos, trigger, a + [e] + b) == Replay(cycles, infos, trigger, [e] + a + b)
    decreases |a|
  {
    if a != [] {
      var a0 := a[0];
      assert a0 in a;
      var s0 := LocationStep(cycles, infos, trigger, a0).infos;
      var se := LocationStep(cycles, infos, trigger, e).infos;
      assert (a + [e] + b)[1..] == a[1..] + [e] + b;
      assert ([e] + a + b)[1..] == a + b;
      assert (a + b)[1..] == a[1..] + b;
      assert ([e] + a[1..] + b)[1..] == a[1..] + b;
      assert NoTrigger(a[1..], trigger) by {
        forall x | x in a[1..] ensures x.address != trigger { assert x in a; }
      }
      calc {
        Replay(cycles, infos, trigger, a + [e] + b);
        Replay(cycles, s0, trigger, a[1..] + [e] + b);
        { ReplayMoveToFront(cycles, s0, trigger, a[1..], e, b); }
        Replay(cycles, s0, trigger, [e] + a[1..] + b);
        Replay(cycles, LocationStep(cycles, s0, trigger, e).infos, trigger, a[1..] + b);
        { StepsCommute(cycles, infos, trigger, a0, e); }
        Replay(cycles, LocationStep(cycles, se, trigger, a0).infos, trigger, a[1..] + b);
        Replay(cycles, se, trigger, a + b);
        Replay(cycles, infos, trigger, [e] + a + b);
      }
    }
  }

  /** Without trigger reports, any reordering of the reports yields the same accumulator table. */
  lemma {:induction false} ReplayOrderIndependent(cycles: map<string, int>, infos: map<string, TagReadInfo>, trigger: string, xs: seq<LocationEvent>, ys: seq<LocationEvent>)
    requires multiset(xs) == multiset(ys)
    requires NoTrigger(xs, trigger)
    ensures Replay(cycles, infos, trigger, xs) == Replay(cycles, infos, trigger, ys)
    decreases |xs|
  {
    if xs == [] {
      assert |ys| == |multiset(ys)| == 0;
    } else {
      var x := xs[0];
      assert x in multiset(ys);
      var i :| 0 <= i < |ys| && ys[i] == x;
      var rest := ys[..i] + ys[i+1..];
      assert ys == ys[..i] + [x] + ys[i+1..];
      RemoveMatched(xs, ys, i);
      PermutationNoTrigger(xs, ys, trigger);
      SliceNoTrigger(ys, i, trigger);
      SliceNoTrigger(xs, 1, trigger);
      assert x in xs;
      ReplayMoveToFront(cycles, infos, trigger, ys[..i], x, ys[i+1..]);
      assert ([x] + ys[..i] + ys[i+1..])[1..] == rest;
      ReplayOrderIndependent(cycles, LocationStep(cycles, infos, trigger, x).infos, trigger, xs[1..], rest);
    }
  }

  /** Removing a matched element from both sides of a permutation leaves a permutation. */
  lemma RemoveMatched<T>(xs: seq<T>, ys: seq<T>, i: nat)
    requires |xs| > 0 && i < |ys| && ys[i] == xs[0]
    requires multiset(xs) == multiset(ys)
    ensures multiset(xs[1..]) == multiset(ys[..i] + ys[i+1..])
  {
    var x, rest := xs[0], ys[..i] + ys[i+1..];
    assert ys == ys[..i] + [x] + ys[i+1..];
    assert xs == [x] + xs[1..];
    calc {
      multiset{x} + multiset(xs[1..]);
      multiset(ys);
      multiset(ys[..i]) + multiset{x} + multiset(ys[i+1..]);
      multiset{x} + multiset(rest);
    }
    assert multiset(xs[1..]) == (multiset{x} + multiset(xs[1..])) - multiset{x};
    assert multiset(rest) == (multiset{x} + multiset(rest)) - multiset{x};
  }

  lemma PermutationNoTrigger(xs: seq<LocationEvent>, ys: seq<LocationEvent>, trigger: string)
    requires multiset(xs) == multiset(ys) && NoTrigger(xs, trigger)
    ensures NoTrigger(ys, trigger)
  {
    forall y | y in ys ensures y.address != trigger {
      assert y in multiset(ys);
    }
  }

  lemma SliceNoTrigger(evs: seq<LocationEvent>, i: nat, trigger: string)
    requires i <= |evs| && NoTrigger(evs, trigger)
    ensures NoTrigger(evs[..i], trigger) && NoTrigger(evs[i..], trigger)
  {
    forall y | y in evs[..i] ensures y.address != trigger { assert y in evs; }
    forall y | y in evs[i..] ensures y.address != trigger { assert y in evs; }
  }

  // ---------------------------------------------------------------------------
  // The fused estimate
  // ---------------------------------------------------------------------------

  /**
   * Without trigger reports about `epc`, the accumulator of `epc` grows by
   * exactly the sum of its accepted contributions, whatever the trigger
   * reader reports about other tags meanwhile.
   */
  lemma {:induction false} ReplayAccumulatesSum(cycles: map<string, int>, infos: map<string, TagReadInfo>, trigger: string, evs: seq<LocationEvent>, epc: string)
    requires NoTriggerFor(evs, trigger, epc)
    ensures Lookup(Replay(cycles, infos, trigger, evs), epc) == Plus(Lookup(infos, epc), Sum(cycles, evs, epc))
    decreases |evs|
  {
    if evs != [] {
      assert evs[0] in evs;
      assert NoTriggerFor(evs[1..], trigger, epc) by {
        forall e | e in evs[1..] ensures e.address == trigger ==> e.report.epc != epc { assert e in evs; }
      }
      var s0 := LocationStep(cycles, infos, trigger, evs[0]).infos;
      ReplayAccumulatesSum(cycles, s0, trigger, evs[1..], epc);
      StepAccumulates(cycles, infos, trigger, evs, epc);
    }
  }

  /** One report that is not a trigger report about `epc` adds to `epc`'s accumulator what it adds to `epc`'s sum. */
  lemma StepAccumulates(cycles: map<string, int>, infos: map<string, TagReadInfo>, trigger: string, evs: seq<LocationEvent>, epc: string)
    requires evs != [] && (evs[0].address == trigger ==> evs[0].report.epc != epc)
    ensures var s0 := LocationStep(cycles, infos, trigger, evs[0]).infos;
      Plus(Lookup(s0, epc), Sum(cycles, evs[1..], epc)) == Plus(Lookup(infos, epc), Sum(cycles, evs, epc))
  {
    var e := evs[0];
    var s0 := LocationStep(cycles, infos, trigger, e).infos;
    var rest := Sum(cycles, evs[1..], epc);
    if Ready(cycles, e.address) && e.report.epc == epc {
      var c := Contribution(cycles[e.address], e.report);
      assert Lookup(s0, epc) == Plus(Lookup(infos, epc), c);
      assert Sum(cycles, evs, epc) == Plus(c, rest);
      PlusAssoc(Lookup(infos, epc), c, rest);
    } else {
      assert Lookup(s0, epc) == Lookup(infos, epc);
      assert Sum(cycles, evs, epc) == rest;
    }
  }

  lemma PlusAssoc(a: TagReadInfo, b: TagReadInfo, c: TagReadInfo)
    ensures Plus(Plus(a, b), c) == Plus(a, Plus(b, c))
  {
  }

  /**
   * A tag's fusion cycle that starts from a zero accumulator, receives no
   * trigger report about the tag and ends with one emits the estimate of the sum of
   * all its accepted contributions, the trigger report's own included.
   */
  lemma FusionCycleEstimate(cycles: map<string, int>, infos: map<string, TagReadInfo>, trigger: string, evs: seq<LocationEvent>, last: LocationEvent)
    requires Lookup(infos, last.report.epc) == Initial
    requires NoTriggerFor(evs, trigger, last.report.epc)
    requires last.address == trigger && Ready(cycles, last.address)
    ensures
      var total := Sum(cycles, evs + [last], last.report.epc);
      var r := LocationStep(cycles, Replay(cycles, infos, trigger, evs), trigger, last);
      && r.outcome == Fused(last.report.epc, FusedEstimate(total))
      && r.infos[last.report.epc] == Initial
  {
    var epc := last.report.epc;
    ReplayAccumulatesSum(cycles, infos, trigger, evs, epc);
    SumAppend(cycles, evs, last, epc);
  }

  /** Appending a report to a sequence adds its contribution to the sum, if it is accepted and about `epc`. */
  lemma {:induction false} SumAppend(cycles: map<string, int>, evs: seq<LocationEvent>, e: LocationEvent, epc: string)
    ensures Sum(cycles, evs + [e], epc)
         == if Ready(cycles, e.address) && e.report.epc == epc
            then Plus(Sum(cycles, evs, epc), Contribution(cycles[e.address], e.report))
            else Sum(cycles, evs, epc)
    decreases |evs|
  {
    if evs == [] {
      assert [e][1..] == [];
    } else {
      assert (evs + [e])[1..] == evs[1..] + [e];
      SumAppend(cycles, evs[1..], e, epc);
    }
  }

  /**
   * The estimate a fusion cycle emits: Invalid exactly when the cycle's
   * confidence sum is zero, and otherwise the floors of the cycle's weighted
   * means of x and y.
   */
  lemma CycleEstimateBounds(cycles: map<string, int>, infos: map<string, TagReadInfo>, trigger: string, evs: seq<LocationEvent>, last: LocationEvent)
    requires Lookup(infos, last.report.epc) == Initial
    requires NoTriggerFor(evs, trigger, last.report.epc)
    requires last.address == trigger && Ready(cycles, last.address)
    ensures
      var total := Sum(cycles, evs + [last], last.report.epc);
      var r := LocationStep(cycles, Replay(cycles, infos, trigger, evs), trigger, last);
      && r.outcome.Fused?
      && (r.outcome.estimate.Invalid? <==> total.confidence == 0.0)
      && (r.outcome.estimate.Position? ==>
          && r.outcome.estimate.x as real <= total.weightedX / total.confidence < r.outcome.estimate.x as real + 1.0
          && r.outcome.estimate.y as real <= total.weightedY / total.confidence < r.outcome.estimate.y as real + 1.0)
  {
    FusionCycleEstimate(cycles, infos, trigger, evs, last);
  }

  // ---------------------------------------------------------------------------
  // Reset
  // ---------------------------------------------------------------------------

  /** After a trigger report the tag's entry exists and is zero, so the next accepted report starts from zero. */
  lemma ResetRestartsAccumulation(cycles: map<string, int>, infos: map<string, TagReadInfo>, trigger: string, first: LocationEvent, next: LocationEvent)
    requires first.address == trigger && Ready(cycles, first.address)
    requires next.report.epc == first.report.epc && Ready(cycles, next.address)
    ensures var s := LocationStep(cycles, infos, trigger, first).infos;
      && first.report.epc in s && s[first.report.epc] == Initial
      && var contribution := Contribution(cycles[next.address], next.report);
      && (next.address != trigger ==> LocationStep(cycles, s, trigger, next).infos[next.report.epc] == contribution)
      && (next.address == trigger ==> LocationStep(cycles, s, trigger, next).outcome == Fused(next.report.epc, FusedEstimate(contribution)))
  {
    var s := LocationStep(cycles, infos, trigger, first).infos;
    var contribution := Contribution(cycles[next.address], next.report);
    assert Plus(Lookup(s, next.report.epc), contribution) == contribution;
  }

  // ---------------------------------------------------------------------------
  // Non-negative confidences
  // ---------------------------------------------------------------------------

  /** With positive cycle lengths and non-negative read counts, a report keeps every confidence sum non-negative. */
  lemma StepKeepsConfidenceNonNegative(cycles: map<string, int>, infos: map<string, TagReadInfo>, trigger: string, ev: LocationEvent)
    requires PositiveCycles(cycles) && ConfidencesNonNegative(infos)
    requires ev.report.readCount >= 0
    ensures ConfidencesNonNegative(LocationStep(cycles, infos, trigger, ev).infos)
  {
    if Ready(cycles, ev.address) {
      var c := Contribution(cycles[ev.address], ev.report);
      assert c.confidence >= 0.0 by {
        assert Multiplier(cycles[ev.address]) > 0;
        assert c.confidence == Confidence(ev.report.readCount, Multiplier(cycles[ev.address]));
      }
      assert Lookup(infos, ev.report.epc).confidence >= 0.0;
    }
  }

  /** The same over any sequence of reports. */
  lemma {:induction false} ReplayKeepsConfidenceNonNegative(cycles: map<string, int>, infos: map<string, TagReadInfo>, trigger: string, evs: seq<LocationEvent>)
    requires PositiveCycles(cycles) && ConfidencesNonNegative(infos)
    requires forall e | e in evs :: e.report.readCount >= 0
    ensures ConfidencesNonNegative(Replay(cycles, infos, trigger, evs))
    decreases |evs|
  {
    if evs != [] {
      assert evs[0] in evs;
      StepKeepsConfidenceNonNegative(cycles, infos, trigger, evs[0]);
      ReplayKeepsConfidenceNonNegative(cycles, LocationStep(cycles, infos, trigger, evs[0]).infos, trigger, evs[1..]);
    }
  }

  /** Any diagnostic keeps every cycle length positive, provided an end-of-cycle report carries a positive length. */
  lemma RecordCycleKeepsPositive(cycles: map<string, int>, address: string, metrics: seq<int>)
    requires PositiveCycles(cycles)
    requires |metrics| >= 2 && metrics[0] == EndOfCycle ==> metrics[1] > 0
    ensures PositiveCycles(RecordCycle(cycles, address, metrics).0)
  {
  }
}
