/**
 * The per-event analysis of the cut-based dark-matter selection: twelve
 * ordered cuts on the trigger decision, the fiducial region, ECAL shower
 * features and the HCAL veto, and the histogram fills of the forward,
 * reverse and N-1 cut-flows that follow from them.
 *
 * The framework's event objects are inputs (an `Event`), the `fiducial`
 * configuration flag is a parameter, and the floating-point square root is
 * a parameter `sqrt` so that the recoil momenta are modelled without
 * committing to a floating-point semantics.
 */
module CutBasedDM {
  import opened Options
  import opened Seqs
  import opened CutFlow
  import opened Histograms

  /** The value the ECAL veto result reports for an unavailable quantity. */
  const Sentinel: real := -9999.0

  /** `sizeof(passedCutsArray)`: twelve cuts, which holds because `sizeof(bool) == 1`. */
  const NumCuts: nat := 12

  datatype Vec3 = Vec3(x: real, y: real, z: real)

  /** The quantities the analyzer reads from the ECAL veto result. */
  datatype EcalVetoResult = EcalVetoResult(
    recoilX: real,
    avgLayerHit: real,
    deepestLayerHit: real,
    ecalBackEnergy: real,
    epAng: real,
    epSep: real,
    firstNearPhLayer: real,
    maxCellDep: real,
    nReadoutHits: real,
    stdLayerHit: real,
    nStraightTracks: real,
    nLinRegTracks: real,
    summedDet: real,
    summedTightIso: real,
    showerRMS: real,
    xStd: real,
    yStd: real,
    recoilMomentum: Vec3)

  /** One event as the analyzer sees it: ECAL veto result, trigger and HCAL veto decisions. */
  datatype Event = Event(veto: EcalVetoResult, triggerPassed: bool, hcalPassesVeto: bool)

  function FeatureValue(f: Feature, v: EcalVetoResult): real {
    match f
    case RecoilX => v.recoilX
    case AvgLayerHit => v.avgLayerHit
    case DeepestLayerHit => v.deepestLayerHit
    case EcalBackEnergy => v.ecalBackEnergy
    case EpAng => v.epAng
    case EpSep => v.epSep
    case FirstNearPhLayerZ => v.firstNearPhLayer
    case MaxCellDep => v.maxCellDep
    case NReadoutHits => v.nReadoutHits
    case StdLayerHit => v.stdLayerHit
    case Straight => v.nStraightTracks
    case LinRegNew => v.nLinRegTracks
    case SummedDet => v.summedDet
    case SummedTightIso => v.summedTightIso
    case ShowerRMS => v.showerRMS
    case XStd => v.xStd
    case YStd => v.yStd
  }

  /** The veto result with feature `f` replaced by `x` and everything else kept. */
  function WithFeature(v: EcalVetoResult, f: Feature, x: real): (w: EcalVetoResult)
    ensures FeatureValue(f, w) == x
    ensures forall g :: g != f ==> FeatureValue(g, w) == FeatureValue(g, v)
    ensures w.recoilMomentum == v.recoilMomentum
  {
    match f
    case RecoilX => v.(recoilX := x)
    case AvgLayerHit => v.(avgLayerHit := x)
    case DeepestLayerHit => v.(deepestLayerHit := x)
    case EcalBackEnergy => v.(ecalBackEnergy := x)
    case EpAng => v.(epAng := x)
    case EpSep => v.(epSep := x)
    case FirstNearPhLayerZ => v.(firstNearPhLayer := x)
    case MaxCellDep => v.(maxCellDep := x)
    case NReadoutHits => v.(nReadoutHits := x)
    case StdLayerHit => v.(stdLayerHit := x)
    case Straight => v.(nStraightTracks := x)
    case LinRegNew => v.(nLinRegTracks := x)
    case SummedDet => v.(summedDet := x)
    case SummedTightIso => v.(summedTightIso := x)
    case ShowerRMS => v.(showerRMS := x)
    case XStd => v.(xStd := x)
    case YStd => v.(yStd := x)
  }

  /** Cuts 2..10 in order: the feature compared and the strict upper bound it must stay below. */
  const Thresholds: seq<(Feature, real)> := [
    (SummedDet, 3500.0),
    (SummedTightIso, 800.0),
    (EcalBackEnergy, 250.0),
    (NReadoutHits, 70.0),
    (ShowerRMS, 110.0),
    (YStd, 70.0),
    (MaxCellDep, 300.0),
    (StdLayerHit, 5.0),
    (Straight, 6.0)
  ]

  /**
   * The fiducial cut: in fiducial mode the recoil must have a position at
   * the ECAL face (recoilX is not the sentinel); otherwise it must not.
   */
  function FiducialCut(fiducial: bool, recoilX: real): (pass: bool)
    ensures pass <==> (fiducial == (recoilX != Sentinel))
    ensures fiducial && pass ==> recoilX != Sentinel
    ensures !fiducial && pass ==> recoilX == Sentinel
  {
    (fiducial && recoilX != Sentinel) || (!fiducial && recoilX == Sentinel)
  }

  /** The twelve cut outcomes of one event, in cut-flow order. */
  function CutVector(e: Event, fiducial: bool): (cuts: seq<bool>)
    ensures |cuts| == NumCuts
    ensures cuts[0] == e.triggerPassed
    ensures cuts[1] <==> (fiducial == (e.veto.recoilX != Sentinel))
    ensures forall k :: 2 <= k < NumCuts - 1 ==>
      (cuts[k] <==> FeatureValue(Thresholds[k - 2].0, e.veto) < Thresholds[k - 2].1)
    ensures cuts[11] == e.hcalPassesVeto
  {
    [e.triggerPassed, FiducialCut(fiducial, e.veto.recoilX)]
    + seq(|Thresholds|, k requires 0 <= k < |Thresholds| =>
        FeatureValue(Thresholds[k].0, e.veto) < Thresholds[k].1)
    + [e.hcalPassesVeto]
  }

  /** Cut by cut, the thresholds of the shower-feature cuts 2..10: each a strict `<`. */
  lemma CutThresholds(e: Event, fiducial: bool)
    ensures var cuts := CutVector(e, fiducial);
      && (cuts[2] <==> e.veto.summedDet < 3500.0)
      && (cuts[3] <==> e.veto.summedTightIso < 800.0)
      && (cuts[4] <==> e.veto.ecalBackEnergy < 250.0)
      && (cuts[5] <==> e.veto.nReadoutHits < 70.0)
      && (cuts[6] <==> e.veto.showerRMS < 110.0)
      && (cuts[7] <==> e.veto.yStd < 70.0)
      && (cuts[8] <==> e.veto.maxCellDep < 300.0)
      && (cuts[9] <==> e.veto.stdLayerHit < 5.0)
      && (cuts[10] <==> e.veto.nStraightTracks < 6.0)
  {
  }

  /** The features of the threshold cuts are all different, and none is the fiducial recoilX. */
  lemma ThresholdFeaturesDistinct()
    ensures forall a, b :: 0 <= a < b < |Thresholds| ==> Thresholds[a].0 != Thresholds[b].0
    ensures forall a :: 0 <= a < |Thresholds| ==> Thresholds[a].0 != RecoilX
  {
  }

  /**
   * A threshold cut only depends on its own feature: setting that feature to
   * any value leaves every other cut of the event as it was.
   */
  lemma ThresholdCutDependsOnlyOnOwnFeature(e: Event, fiducial: bool, k: nat, x: real)
    requires 2 <= k < NumCuts - 1
    ensures var e' := e.(veto := WithFeature(e.veto, Thresholds[k - 2].0, x));
      forall j :: 0 <= j < NumCuts && j != k ==> CutVector(e', fiducial)[j] == CutVector(e, fiducial)[j]
  {
    ThresholdFeaturesDistinct();
  }

  /**
   * Lowering the feature of a threshold cut never turns a pass into a
   * failure, and leaves every other cut as it was.
   */
  lemma ThresholdCutsAreDownwardClosed(e: Event, fiducial: bool, k: nat, x: real)
    requires 2 <= k < NumCuts - 1
    requires x <= FeatureValue(Thresholds[k - 2].0, e.veto)
    ensures var e' := e.(veto := WithFeature(e.veto, Thresholds[k - 2].0, x));
      CutVector(e, fiducial)[k] ==> CutVector(e', fiducial)[k]
    ensures var e' := e.(veto := WithFeature(e.veto, Thresholds[k - 2].0, x));
      forall j :: 0 <= j < NumCuts && j != k ==> CutVector(e', fiducial)[j] == CutVector(e, fiducial)[j]
  {
    ThresholdCutDependsOnlyOnOwnFeature(e, fiducial, k, x);
    var e' := e.(veto := WithFeature(e.veto, Thresholds[k - 2].0, x));
    assert CutVector(e', fiducial)[k] <==> FeatureValue(Thresholds[k - 2].0, e'.veto) < Thresholds[k - 2].1;
  }

  /**
   * The recoil pZ as histogrammed: a negative pZ that is not the sentinel
   * is replaced by -5, so it lands in the lowest bin of RecoilPZ.
   */
  function ClampPZ(pz: real): (r: real)
    ensures r == pz || r == -5.0
    ensures r >= 0.0 <==> pz >= 0.0
    ensures pz == Sentinel ==> r == Sentinel
    ensures r < 0.0 ==> r == -5.0 || r == Sentinel
  {
    if pz < 0.0 && pz != Sentinel then -5.0 else pz
  }

  /** Clamping an already clamped pZ changes nothing. */
  lemma ClampPZIdempotent(pz: real)
    ensures ClampPZ(ClampPZ(pz)) == ClampPZ(pz)
  {
  }

  /** The recoil momenta the analyzer histograms. */
  datatype Recoil = Recoil(pT: real, pZ: real, p: real)

  /**
   * Transverse, longitudinal and total recoil momentum. With exact
   * arithmetic the squared sums are never negative, so the -9999 defaults
   * are never kept; the total momentum uses the clamped pZ.
   */
  function RecoilKinematics(mom: Vec3, sqrt: real -> real): (k: Recoil)
    ensures k.pT == sqrt(mom.x * mom.x + mom.y * mom.y)
    ensures k.pZ == ClampPZ(mom.z)
    ensures k.p == sqrt(mom.x * mom.x + mom.y * mom.y + k.pZ * k.pZ)
  {
    var pT2 := mom.x * mom.x + mom.y * mom.y;
    assert mom.x * mom.x >= 0.0 && mom.y * mom.y >= 0.0;
    var pT := if pT2 >= 0.0 then sqrt(pT2) else Sentinel;
    var pZ := ClampPZ(mom.z);
    assert pZ * pZ >= 0.0;
    var totMom2 := if pT2 >= 0.0 then pT2 + pZ * pZ else Sentinel;
    var totMom := if totMom2 >= 0.0 then sqrt(totMom2) else Sentinel;
    Recoil(pT, pZ, totMom)
  }

  /** The value filled for an observable. */
  function Reading(o: Observable, v: EcalVetoResult, k: Recoil): real {
    match o
    case EcalVeto(f) => FeatureValue(f, v)
    case RecoilPT => k.pT
    case RecoilPZ => k.pZ
    case RecoilP => k.p
  }

  /** The histograms of the forward cut-flow, in the order they are filled. */
  const ForwardObservables: seq<Observable> := [
    EcalVeto(RecoilX), EcalVeto(AvgLayerHit), EcalVeto(DeepestLayerHit),
    EcalVeto(EcalBackEnergy), EcalVeto(EpAng), EcalVeto(EpSep),
    EcalVeto(FirstNearPhLayerZ), EcalVeto(MaxCellDep), EcalVeto(NReadoutHits),
    EcalVeto(StdLayerHit), EcalVeto(Straight), EcalVeto(LinRegNew),
    EcalVeto(SummedDet), EcalVeto(SummedTightIso), EcalVeto(ShowerRMS),
    EcalVeto(XStd), EcalVeto(YStd), RecoilPT, RecoilPZ, RecoilP
  ]

  /** The histograms of the reverse cut-flow, in the order they are filled. */
  const ReverseObservables: seq<Observable> := [
    EcalVeto(AvgLayerHit), EcalVeto(DeepestLayerHit), EcalVeto(EcalBackEnergy),
    EcalVeto(EpAng), EcalVeto(EpSep), EcalVeto(FirstNearPhLayerZ),
    EcalVeto(MaxCellDep), EcalVeto(NReadoutHits), EcalVeto(StdLayerHit),
    EcalVeto(Straight), EcalVeto(LinRegNew), EcalVeto(SummedDet),
    EcalVeto(SummedTightIso), EcalVeto(ShowerRMS), EcalVeto(XStd), EcalVeto(YStd)
  ]

  /**
   * The N-1 histogram filled for cut `i`: the feature that cut compares, for
   * the threshold cuts 2..10, and none for any other index.
   */
  function N1Feature(i: nat): (r: Option<Feature>)
    ensures r.Some? <==> 2 <= i < NumCuts - 1
    ensures r.Some? ==> r.value == Thresholds[i - 2].0
  {
    if i == 2 then Some(SummedDet)
    else if i == 3 then Some(SummedTightIso)
    else if i == 4 then Some(EcalBackEnergy)
    else if i == 5 then Some(NReadoutHits)
    else if i == 6 then Some(ShowerRMS)
    else if i == 7 then Some(YStd)
    else if i == 8 then Some(MaxCellDep)
    else if i == 9 then Some(StdLayerHit)
    else if i == 10 then Some(Straight)
    else None
  }

  /**
   * The N-1 condition for cut `i`: trigger and fiducial cut pass and every
   * cut 2..11 except `i` passes.
   */
  predicate NMinusOneCondition(e: Event, fiducial: bool, i: nat) {
    && e.triggerPassed
    && FiducialCut(fiducial, e.veto.recoilX)
    && AllOthersPassed(CutVector(e, fiducial), 2, i)
  }

  /**
   * The reference semantics of one event's fills: which (histogram, stage,
   * value) triples the analysis is meant to produce. A forward histogram
   * gets stage s when the first s cuts passed, a reverse histogram when the
   * last s cuts passed (stage 0 in both for every event), and the N-1
   * histogram of cut i gets stage i+1 under the N-1 condition. Values are
   * the event's own readings.
   */
  predicate Expected(e: Event, fiducial: bool, sqrt: real -> real, f: Fill) {
    && f.value == Reading(f.obs, e.veto, RecoilKinematics(e.veto.recoilMomentum, sqrt))
    && match f.flow
       case Standard => ForwardReached(e, fiducial, f.obs, f.stage)
       case Reversed => ReverseReached(e, fiducial, f.obs, f.stage)
       case NMinusOne => NMinusOneReached(e, fiducial, f.obs, f.stage)
  }

  /** Forward histogram `o` gets stage s when cuts 0..s-1 all passed. */
  predicate ForwardReached(e: Event, fiducial: bool, o: Observable, stage: nat) {
    o in ForwardObservables && stage <= NumCuts && PassedThrough(CutVector(e, fiducial), stage)
  }

  /** Reverse histogram `o` gets stage s when the last s cuts all passed. */
  predicate ReverseReached(e: Event, fiducial: bool, o: Observable, stage: nat) {
    o in ReverseObservables && stage <= NumCuts && PassedFrom(CutVector(e, fiducial), NumCuts - stage)
  }

  /** The N-1 histogram of cut i gets stage i+1 under the N-1 condition for i. */
  predicate NMinusOneReached(e: Event, fiducial: bool, o: Observable, stage: nat) {
    && 3 <= stage
    && o.EcalVeto?
    && N1Feature(stage - 1) == Some(o.feature)
    && NMinusOneCondition(e, fiducial, stage - 1)
  }

  /** Stages 0..|stages| in order are distinct. */
  lemma CountingStagesAreDistinct(stages: seq<nat>)
    requires forall n :: 0 <= n < |stages| ==> stages[n] == n + 1
    ensures Distinct([0] + stages)
  {
    var all := [0] + stages;
    assert forall n :: 0 <= n < |all| ==> all[n] == n;
  }

  /** The value filled for `o` in this event. */
  function EventReading(e: Event, sqrt: real -> real): Observable -> real {
    var recoil := RecoilKinematics(e.veto.recoilMomentum, sqrt);
    (o: Observable) => Reading(o, e.veto, recoil)
  }

  /** Position of an observable in the forward fill order. */
  function Rank(o: Observable): nat {
    match o
    case EcalVeto(f) => FeatureRank(f)
    case RecoilPT => 17
    case RecoilPZ => 18
    case RecoilP => 19
  }

  function FeatureRank(f: Feature): nat {
    match f
    case RecoilX => 0
    case AvgLayerHit => 1
    case DeepestLayerHit => 2
    case EcalBackEnergy => 3
    case EpAng => 4
    case EpSep => 5
    case FirstNearPhLayerZ => 6
    case MaxCellDep => 7
    case NReadoutHits => 8
    case StdLayerHit => 9
    case Straight => 10
    case LinRegNew => 11
    case SummedDet => 12
    case SummedTightIso => 13
    case ShowerRMS => 14
    case XStd => 15
    case YStd => 16
  }

  lemma ObservableListsAreDistinct()
    ensures Distinct(ForwardObservables)
    ensures Distinct(ReverseObservables)
  {
    assert forall n :: 0 <= n < |ForwardObservables| ==> Rank(ForwardObservables[n]) == n;
    assert forall n :: 0 <= n < |ReverseObservables| ==> Rank(ReverseObservables[n]) == n + 1;
  }

  /** The stage list [0] + scan result names exactly the stages whose prefix passed. */
  lemma ScannedStages(cuts: seq<bool>, scanned: seq<nat>)
    requires forall n :: 0 <= n < |scanned| ==> scanned[n] == n + 1
    requires forall s :: s in scanned <==> 1 <= s <= |cuts| && PassedThrough(cuts, s)
    ensures Distinct([0] + scanned)
    ensures forall s: nat :: s in [0] + scanned <==> s <= |cuts| && PassedThrough(cuts, s)
  {
    CountingStagesAreDistinct(scanned);
    var stages := [0] + scanned;
    forall s: nat
      ensures s in stages <==> s <= |cuts| && PassedThrough(cuts, s)
    {
      if s != 0 {
        assert s in stages <==> s in scanned;
      } else {
        assert stages[0] == 0;
      }
    }
  }

  /** The forward cut-flow: stage 0 always, stage i+1 once cuts 0..i passed. */
  method ForwardFlow(e: Event, fiducial: bool, sqrt: real -> real) returns (fills: multiset<Fill>)
    ensures forall f :: fills[f] == if f.flow == Standard && Expected(e, fiducial, sqrt, f) then 1 else 0
  {
    var read := EventReading(e, sqrt);
    var cuts := CutVector(e, fiducial);
    ObservableListsAreDistinct();
    var forward := ForwardScan(cuts);
    ScannedStages(cuts, forward);
    fills := FlowFills(Standard, ForwardObservables, [0] + forward, read);
    ForwardFillsExpected(e, fiducial, sqrt, [0] + forward, fills);
  }

  lemma ForwardFillsExpected(e: Event, fiducial: bool, sqrt: real -> real, stages: seq<nat>, fills: multiset<Fill>)
    requires forall s: nat :: s in stages <==> s <= NumCuts && PassedThrough(CutVector(e, fiducial), s)
    requires forall f :: fills[f] == if f.flow == Standard && f.stage in stages && f.obs in ForwardObservables
      && f.value == EventReading(e, sqrt)(f.obs) then 1 else 0
    ensures forall f :: fills[f] == if f.flow == Standard && Expected(e, fiducial, sqrt, f) then 1 else 0
  {
    forall f
      ensures fills[f] == if f.flow == Standard && Expected(e, fiducial, sqrt, f) then 1 else 0
    {
      if f.flow == Standard {
        assert Expected(e, fiducial, sqrt, f)
          <==> f.value == EventReading(e, sqrt)(f.obs) && ForwardReached(e, fiducial, f.obs, f.stage);
      }
    }
  }

  /** The reverse cut-flow: the same scan over the reversed outcome vector. */
  method ReverseFlow(e: Event, fiducial: bool, sqrt: real -> real) returns (fills: multiset<Fill>)
    ensures forall f :: fills[f] == if f.flow == Reversed && Expected(e, fiducial, sqrt, f) then 1 else 0
  {
    var read := EventReading(e, sqrt);
    var cuts := CutVector(e, fiducial);
    ObservableListsAreDistinct();
    var passedCutsArrayReverse := Reverse(cuts);
    var backward := ReverseScan(passedCutsArrayReverse);
    ScannedStages(passedCutsArrayReverse, backward);
    fills := FlowFills(Reversed, ReverseObservables, [0] + backward, read);
    ReverseFillsExpected(e, fiducial, sqrt, [0] + backward, fills);
  }

  lemma ReverseFillsExpected(e: Event, fiducial: bool, sqrt: real -> real, stages: seq<nat>, fills: multiset<Fill>)
    requires forall s: nat :: s in stages <==> s <= NumCuts && PassedThrough(Reverse(CutVector(e, fiducial)), s)
    requires forall f :: fills[f] == if f.flow == Reversed && f.stage in stages && f.obs in ReverseObservables
      && f.value == EventReading(e, sqrt)(f.obs) then 1 else 0
    ensures forall f :: fills[f] == if f.flow == Reversed && Expected(e, fiducial, sqrt, f) then 1 else 0
  {
    var cuts := CutVector(e, fiducial);
    forall f
      ensures fills[f] == if f.flow == Reversed && Expected(e, fiducial, sqrt, f) then 1 else 0
    {
      if f.flow == Reversed {
        if f.stage <= NumCuts {
          ReverseStagesAreSuffixes(cuts, f.stage);
        }
        assert Expected(e, fiducial, sqrt, f)
          <==> f.value == EventReading(e, sqrt)(f.obs) && ReverseReached(e, fiducial, f.obs, f.stage);
      }
    }
  }

  /** The N-1 plots for cuts 2..11; cut 11 has no histogram. */
  method NMinusOneFlow(e: Event, fiducial: bool, sqrt: real -> real) returns (fills: multiset<Fill>)
    ensures forall f :: fills[f] == if f.flow == NMinusOne && Expected(e, fiducial, sqrt, f) then 1 else 0
  {
    var read := EventReading(e, sqrt);
    var cuts := CutVector(e, fiducial);
    fills := multiset{};
    var i := 2;
    while i < NumCuts
      invariant 2 <= i <= NumCuts
      invariant forall f :: fills[f] == if f.flow == NMinusOne && f.stage <= i && Expected(e, fiducial, sqrt, f) then 1 else 0
    {
      var allOtherCutsPassed := OthersPass(cuts, 2, i);
      if allOtherCutsPassed && e.triggerPassed && FiducialCut(fiducial, e.veto.recoilX) {
        match N1Feature(i)
        case Some(feature) =>
          fills := fills + multiset{Fill(NMinusOne, EcalVeto(feature), i + 1, read(EcalVeto(feature)))};
        case None =>
      }
      i := i + 1;
    }
  }

  /**
   * One event's analysis. Every fill the analysis makes is one the reference
   * semantics calls for, and each of those is made exactly once.
   */
  method Analyze(e: Event, fiducial: bool, sqrt: real -> real) returns (fills: multiset<Fill>)
    ensures forall f :: fills[f] == if Expected(e, fiducial, sqrt, f) then 1 else 0
  {
    var standard := ForwardFlow(e, fiducial, sqrt);
    var reversed := ReverseFlow(e, fiducial, sqrt);
    var n1 := NMinusOneFlow(e, fiducial, sqrt);
    fills := standard + reversed + n1;
  }

  /** Every event fills stage 0 of every forward and reverse histogram. */
  lemma StageZeroAlwaysFilled(e: Event, fiducial: bool, sqrt: real -> real, o: Observable)
    ensures var v := Reading(o, e.veto, RecoilKinematics(e.veto.recoilMomentum, sqrt));
      && (o in ForwardObservables ==> Expected(e, fiducial, sqrt, Fill(Standard, o, 0, v)))
      && (o in ReverseObservables ==> Expected(e, fiducial, sqrt, Fill(Reversed, o, 0, v)))
  {
  }

  /**
   * Prefix closure of the forward flow: stage s is filled exactly when s
   * does not pass the first failed cut, so reaching a stage means reaching
   * every earlier one.
   */
  lemma ForwardStopsAtFirstFailure(e: Event, fiducial: bool, sqrt: real -> real, o: Observable, s: nat)
    requires o in ForwardObservables
    ensures var f := Fill(Standard, o, s, Reading(o, e.veto, RecoilKinematics(e.veto.recoilMomentum, sqrt)));
      Expected(e, fiducial, sqrt, f) <==> s <= FirstFail(CutVector(e, fiducial))
    ensures forall t: nat :: t <= s ==>
      var v := Reading(o, e.veto, RecoilKinematics(e.veto.recoilMomentum, sqrt));
      Expected(e, fiducial, sqrt, Fill(Standard, o, s, v)) ==> Expected(e, fiducial, sqrt, Fill(Standard, o, t, v))
  {
    var cuts := CutVector(e, fiducial);
    if s <= NumCuts {
      ReachedStagesArePrefix(cuts, s);
    }
  }

  /**
   * The reverse flow is the forward scan of the reversed outcome vector:
   * stage s is filled exactly when the scan of `Reverse(cuts)` reaches it.
   */
  lemma ReverseFlowScansReversedCuts(e: Event, fiducial: bool, sqrt: real -> real, o: Observable, s: nat)
    requires o in ReverseObservables
    ensures var f := Fill(Reversed, o, s, Reading(o, e.veto, RecoilKinematics(e.veto.recoilMomentum, sqrt)));
      Expected(e, fiducial, sqrt, f) <==> s <= FirstFail(Reverse(CutVector(e, fiducial)))
  {
    var cuts := CutVector(e, fiducial);
    if s <= NumCuts {
      ReverseStagesAreSuffixes(cuts, s);
      ReachedStagesArePrefix(Reverse(cuts), s);
    }
  }

  /**
   * Forward and reverse flows both reach the last stage exactly when all
   * twelve cuts pass, that is when no cut fails.
   */
  lemma FlowsCompleteTogether(e: Event, fiducial: bool, sqrt: real -> real, o: Observable, o': Observable)
    requires o in ForwardObservables && o' in ReverseObservables
    ensures var k := RecoilKinematics(e.veto.recoilMomentum, sqrt);
      Expected(e, fiducial, sqrt, Fill(Standard, o, NumCuts, Reading(o, e.veto, k)))
      <==> Expected(e, fiducial, sqrt, Fill(Reversed, o', NumCuts, Reading(o', e.veto, k)))
    ensures var k := RecoilKinematics(e.veto.recoilMomentum, sqrt);
      Expected(e, fiducial, sqrt, Fill(Standard, o, NumCuts, Reading(o, e.veto, k)))
      <==> FirstFail(CutVector(e, fiducial)) == NumCuts
  {
    FullFlowsAgree(CutVector(e, fiducial));
  }

  /**
   * An N-1 histogram ignores its own cut: changing the feature cut i compares
   * leaves the N-1 condition for i as it was.
   */
  lemma NMinusOneBlindToOwnFeature(e: Event, fiducial: bool, i: nat, x: real)
    requires 2 <= i < NumCuts - 1
    ensures var e' := e.(veto := WithFeature(e.veto, Thresholds[i - 2].0, x));
      NMinusOneCondition(e', fiducial, i) <==> NMinusOneCondition(e, fiducial, i)
  {
    var e' := e.(veto := WithFeature(e.veto, Thresholds[i - 2].0, x));
    var cuts, cuts' := CutVector(e, fiducial), CutVector(e', fiducial);
    forall j | 2 <= j < NumCuts && j != i
      ensures cuts'[j] == cuts[j]
    {
      if j < NumCuts - 1 {
        ThresholdFeaturesDistinct();
        assert Thresholds[j - 2].0 != Thresholds[i - 2].0;
      }
    }
    assert cuts' == cuts[i := cuts'[i]];
    AllOthersPassedIgnoresSkipped(cuts, 2, i, cuts'[i]);
  }

  /**
   * An event fills the N-1 histogram of cut i and also passes cut i exactly
   * when it passes all twelve cuts.
   */
  lemma NMinusOneWithOwnCutIsFullPass(e: Event, fiducial: bool, i: nat)
    requires 2 <= i < NumCuts - 1
    ensures NMinusOneCondition(e, fiducial, i) && CutVector(e, fiducial)[i]
      <==> PassedThrough(CutVector(e, fiducial), NumCuts)
  {
    var cuts := CutVector(e, fiducial);
    if PassedThrough(cuts, NumCuts) {
      assert cuts[0] && cuts[1];
    }
  }

  /**
   * The N-1 condition checks trigger and fiducial cut apart from the loop
   * over cuts 2..11, but together they are "every cut except i passed".
   */
  lemma NMinusOneIsAllButOne(e: Event, fiducial: bool, i: nat)
    requires 2 <= i < NumCuts
    ensures NMinusOneCondition(e, fiducial, i) <==> AllOthersPassed(CutVector(e, fiducial), 0, i)
  {
    var cuts := CutVector(e, fiducial);
    if AllOthersPassed(cuts, 0, i) {
      assert cuts[0] && cuts[1];
    }
  }

  /** Every fill goes to a booked histogram, at a stage on the 0..19 axis. */
  lemma FillsAreBooked(e: Event, fiducial: bool, sqrt: real -> real, f: Fill)
    requires Expected(e, fiducial, sqrt, f)
    ensures Booked(f.flow, f.obs)
    ensures f.stage <= NumCuts
  {
  }

  /**
   * An event that passes trigger and fiducial cut but has a summed ECAL
   * energy of at least 3500 fills exactly stages 0, 1 and 2 of the forward flow.
   */
  lemma SummedDetRejection(e: Event, fiducial: bool, sqrt: real -> real, o: Observable, s: nat)
    requires o in ForwardObservables
    requires e.triggerPassed && FiducialCut(fiducial, e.veto.recoilX)
    requires e.veto.summedDet >= 3500.0
    ensures var f := Fill(Standard, o, s, Reading(o, e.veto, RecoilKinematics(e.veto.recoilMomentum, sqrt)));
      Expected(e, fiducial, sqrt, f) <==> s <= 2
  {
    var cuts := CutVector(e, fiducial);
    assert !cuts[2];
    if s <= 2 {
      assert PassedThrough(cuts, s);
    }
  }
}
