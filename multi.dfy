/**
 * Confidence-weighted fusion of location reports from several xArray readers.
 *
 * Two tables are kept: the last end-of-cycle duration reported by each reader
 * (keyed by reader address) and, per tag EPC, the running weighted sums of
 * the positions reported for it. A location report from the designated
 * trigger reader (the last configured xArray) closes the fusion cycle of its
 * tag: the weighted average is emitted and the tag's sums are reset to zero.
 *
 * Java `double` arithmetic is modelled by exact `real` arithmetic.
 */
module XArrayLocationMulti {

  /** Averaging window configured on every xArray, in seconds. */
  const ComputeWindowSec: int := 30

  /** Diagnostic metric code that reports the end of a scan cycle. */
  const EndOfCycle: int := 100

  /** Static configuration of one xArray (the orientation is never assigned, so it stays 0). */
  datatype XArray = XArray(hostname: string, heightCm: int, facilityXcm: int, facilityYcm: int, session: int)

  /** A location report: the tag it is about, its position and its read count. */
  datatype LocationReport = LocationReport(epc: string, xCm: int, yCm: int, readCount: int)

  /** A location report together with the address of the reader that sent it. */
  datatype LocationEvent = LocationEvent(address: string, report: LocationReport)

  /** Per-tag accumulator. */
  datatype TagReadInfo = TagReadInfo(weightedX: real, weightedY: real, confidence: real)

  /** The state `TagReadInfo.initialize()` puts an accumulator in. */
  const Initial: TagReadInfo := TagReadInfo(0.0, 0.0, 0.0)

  /** The fused position of a tag, or the marker for a cycle whose confidence sum is zero. */
  datatype Estimate = Position(x: int, y: int) | Invalid

  /** What a location report led to. */
  datatype Outcome = Dropped | Accumulated | Fused(epc: string, estimate: Estimate)

  /** What a diagnostic report led to. */
  datatype DiagnosticOutcome = CycleRecorded | Ignored | Malformed

  /** New accumulator table and outcome of one location report. */
  datatype Step = Step(infos: map<string, TagReadInfo>, outcome: Outcome)

  function Plus(a: TagReadInfo, b: TagReadInfo): TagReadInfo
  {
    TagReadInfo(a.weightedX + b.weightedX, a.weightedY + b.weightedY, a.confidence + b.confidence)
  }

  /** The accumulator of `epc`, created in its initial state when absent. */
  function Lookup(infos: map<string, TagReadInfo>, epc: string): TagReadInfo
  {
    if epc in infos then infos[epc] else Initial
  }

  /** Whether the reader at `address` has reported a non-zero cycle length. */
  predicate Ready(cycles: map<string, int>, address: string)
  {
    address in cycles && cycles[address] != 0
  }

  /**
   * Number of scan cycles expected in the compute window: the floor of the
   * window (in microseconds) over the cycle length, replaced by 1 when it is 0.
   */
  function Multiplier(cycleLen: int): (m: int)
    requires cycleLen != 0
    ensures m != 0
    ensures cycleLen > 0 ==> m >= 1
    ensures cycleLen < 0 ==> m < 0
  {
    var q := ((ComputeWindowSec * 1000000) as real / cycleLen as real).Floor;
    if q == 0 then 1 else q
  }

  /** Read count normalised by the expected number of cycles. */
  function Confidence(readCount: int, mult: int): (c: real)
    requires mult != 0
    ensures c * mult as real == readCount as real
    ensures readCount >= 0 && mult > 0 ==> c >= 0.0
  {
    readCount as real / mult as real
  }

  /** What one accepted report adds to its tag's accumulator. */
  function Contribution(cycleLen: int, report: LocationReport): (r: TagReadInfo)
    requires cycleLen != 0
    ensures r.confidence * Multiplier(cycleLen) as real == report.readCount as real
    ensures r.weightedX == r.confidence * report.xCm as real
    ensures r.weightedY == r.confidence * report.yCm as real
  {
    var c := Confidence(report.readCount, Multiplier(cycleLen));
    TagReadInfo(c * report.xCm as real, c * report.yCm as real, c)
  }

  /** The weighted average of an accumulator, floored, or Invalid when its confidence is zero. */
  function FusedEstimate(info: TagReadInfo): (e: Estimate)
    ensures e.Invalid? <==> info.confidence == 0.0
    ensures e.Position? ==>
      && e.x as real <= info.weightedX / info.confidence < e.x as real + 1.0
      && e.y as real <= info.weightedY / info.confidence < e.y as real + 1.0
  {
    if info.confidence != 0.0 then
      Position((info.weightedX / info.confidence).Floor, (info.weightedY / info.confidence).Floor)
    else
      Invalid
  }

  /** Cycle table and outcome after a diagnostic report with the given metrics. */
  function RecordCycle(cycles: map<string, int>, address: string, metrics: seq<int>): (r: (map<string, int>, DiagnosticOutcome))
    ensures r.1 == CycleRecorded <==> |metrics| >= 2 && metrics[0] == EndOfCycle
    ensures r.1 == Malformed <==> |metrics| == 0 || (|metrics| == 1 && metrics[0] == EndOfCycle)
    ensures r.1 == CycleRecorded ==> r.0.Keys == cycles.Keys + {address} && r.0[address] == metrics[1]
    ensures r.1 != CycleRecorded ==> r.0 == cycles
    ensures forall a :: a in cycles && a != address ==> a in r.0 && r.0[a] == cycles[a]
  {
    if |metrics| == 0 then (cycles, Malformed)
    else if metrics[0] != EndOfCycle then (cycles, Ignored)
    else if |metrics| < 2 then (cycles, Malformed)
    else (cycles[address := metrics[1]], CycleRecorded)
  }

  /** Accumulator table and outcome after one location report, given the trigger reader's address. */
  function LocationStep(cycles: map<string, int>, infos: map<string, TagReadInfo>, trigger: string, ev: LocationEvent): (r: Step)
    ensures !Ready(cycles, ev.address) ==> r == Step(infos, Dropped)
    ensures Ready(cycles, ev.address) ==> r.infos.Keys == infos.Keys + {ev.report.epc}
    ensures forall k :: k in infos && k != ev.report.epc ==> k in r.infos && r.infos[k] == infos[k]
    ensures Ready(cycles, ev.address) && ev.address != trigger ==>
      && r.outcome == Accumulated
      && r.infos[ev.report.epc] == Plus(Lookup(infos, ev.report.epc), Contribution(cycles[ev.address], ev.report))
    ensures Ready(cycles, ev.address) && ev.address == trigger ==>
      && r.outcome == Fused(ev.report.epc, FusedEstimate(Plus(Lookup(infos, ev.report.epc), Contribution(cycles[ev.address], ev.report))))
      && r.infos[ev.report.epc] == Initial
  {
    if !Ready(cycles, ev.address) then
      Step(infos, Dropped)
    else
      var epc := ev.report.epc;
      var info := Plus(Lookup(infos, epc), Contribution(cycles[ev.address], ev.report));
      if ev.address == trigger then Step(infos[epc := Initial], Fused(epc, FusedEstimate(info)))
      else Step(infos[epc := info], Accumulated)
  }

  /** Accumulator table after the reports `evs`, in order, with the cycle table fixed. */
  function Replay(cycles: map<string, int>, infos: map<string, TagReadInfo>, trigger: string, evs: seq<LocationEvent>): (r: map<string, TagReadInfo>)
    ensures infos.Keys <= r.Keys
    decreases |evs|
  {
    if evs == [] then infos
    else Replay(cycles, LocationStep(cycles, infos, trigger, evs[0]).infos, trigger, evs[1..])
  }

  /** Sum of the contributions of the reports in `evs` that are accepted and about `epc`. */
  function Sum(cycles: map<string, int>, evs: seq<LocationEvent>, epc: string): TagReadInfo
  {
    if evs == [] then Initial
    else if Ready(cycles, evs[0].address) && evs[0].report.epc == epc then
      Plus(Contribution(cycles[evs[0].address], evs[0].report), Sum(cycles, evs[1..], epc))
    else Sum(cycles, evs[1..], epc)
  }

  /** The engine: the two tables the report listeners share, and the trigger reader. */
  class Engine {
    const trigger: string
    var cycleLengths: map<string, int>
    var tagReadInfos: map<string, TagReadInfo>

    constructor (xArrays: seq<XArray>)
      requires |xArrays| > 0
      ensures trigger == xArrays[|xArrays| - 1].hostname
      ensures cycleLengths == map[] && tagReadInfos == map[]
    {
      trigger := xArrays[|xArrays| - 1].hostname;
      cycleLengths := map[];
      tagReadInfos := map[];
    }

    /** Diagnostics listener: stores the cycle length carried by an end-of-cycle report. */
    method OnDiagnosticsReported(address: string, metrics: seq<int>) returns (outcome: DiagnosticOutcome)
      modifies this
      ensures (cycleLengths, outcome) == RecordCycle(old(cycleLengths), address, metrics)
      ensures tagReadInfos == old(tagReadInfos)
    {
      if |metrics| == 0 {
        return Malformed;
      }
      if metrics[0] == EndOfCycle {
        if |metrics| < 2 {
          return Malformed;
        }
        cycleLengths := cycleLengths[address := metrics[1]];
        outcome := CycleRecorded;
      } else {
        outcome := Ignored;
      }
    }

    /** Location listener: accumulates the weighted report and, for the trigger reader, emits and resets. */
    method OnLocationReported(address: string, report: LocationReport) returns (outcome: Outcome)
      modifies this
      ensures Step(tagReadInfos, outcome) == LocationStep(old(cycleLengths), old(tagReadInfos), trigger, LocationEvent(address, report))
      ensures cycleLengths == old(cycleLengths)
    {
      var epc := report.epc;
      if address !in cycleLengths || cycleLengths[address] == 0 {
        return Dropped;
      }
      ghost var before := tagReadInfos;
      if epc !in tagReadInfos {
        tagReadInfos := tagReadInfos[epc := Initial];
      }
      var mult := Multiplier(cycleLengths[address]);
      var confidence := Confidence(report.readCount, mult);
      var wgtX := confidence * report.xCm as real;
      var wgtY := confidence * report.yCm as real;
      var info := tagReadInfos[epc];
      info := info.(weightedX := info.weightedX + wgtX);
      info := info.(weightedY := info.weightedY + wgtY);
      info := info.(confidence := info.confidence + confidence);
      assert info == Plus(Lookup(before, epc), Contribution(cycleLengths[address], report));
      tagReadInfos := tagReadInfos[epc := info];
      if address == trigger {
        outcome := Fused(epc, FusedEstimate(info));
        tagReadInfos := tagReadInfos[epc := Initial];
        assert tagReadInfos == before[epc := Initial];
      } else {
        assert tagReadInfos == before[epc := info];
        outcome := Accumulated;
      }
    }
  }
}
