/**
 * The histograms the analyzer books and fills, modelled abstractly: a
 * histogram is identified by its flow (plain, `Rev_` or `N1_` prefix) and
 * the observable on its value axis, and a run of the analyzer is a multiset
 * of fills (histogram, cut stage, value). Binning and persistence belong to
 * the histogramming library and are not modelled.
 */
module Histograms {
  import opened Options
  import opened Seqs

  /** The three families of cut-flow histograms. */
  datatype Flow = Standard | Reversed | NMinusOne

  /** Shower and event summaries read from the ECAL veto result. */
  datatype Feature =
    | RecoilX | AvgLayerHit | DeepestLayerHit | EcalBackEnergy | EpAng | EpSep
    | FirstNearPhLayerZ | MaxCellDep | NReadoutHits | StdLayerHit | Straight
    | LinRegNew | SummedDet | SummedTightIso | ShowerRMS | XStd | YStd

  /** What a histogram's value axis shows: an ECAL veto feature or a recoil momentum. */
  datatype Observable = EcalVeto(feature: Feature) | RecoilPT | RecoilPZ | RecoilP

  /** One `fill(name, stage, value)` call. */
  datatype Fill = Fill(flow: Flow, obs: Observable, stage: nat, value: real)

  /** The histograms created at process start, one per (flow, observable). */
  predicate Booked(flow: Flow, obs: Observable) {
    match flow
    case Standard => true
    case Reversed => obs.EcalVeto? && obs.feature != RecoilX
    case NMinusOne =>
      obs.EcalVeto? && obs.feature in
        {EcalBackEnergy, MaxCellDep, NReadoutHits, StdLayerHit, Straight,
         SummedDet, SummedTightIso, ShowerRMS, YStd}
  }

  function FeatureName(f: Feature): string {
    match f
    case RecoilX => "RecoilX"
    case AvgLayerHit => "AvgLayerHit"
    case DeepestLayerHit => "DeepestLayerHit"
    case EcalBackEnergy => "EcalBackEnergy"
    case EpAng => "EpAng"
    case EpSep => "EpSep"
    case FirstNearPhLayerZ => "FirstNearPhLayerZ"
    case MaxCellDep => "MaxCellDep"
    case NReadoutHits => "NReadoutHits"
    case StdLayerHit => "StdLayerHit"
    case Straight => "Straight"
    case LinRegNew => "LinRegNew"
    case SummedDet => "SummedDet"
    case SummedTightIso => "SummedTightIso"
    case ShowerRMS => "ShowerRMS"
    case XStd => "XStd"
    case YStd => "YStd"
  }

  /** The name of an observable, as its forward histogram is registered. */
  function ObservableName(obs: Observable): string {
    match obs
    case EcalVeto(f) => FeatureName(f)
    case RecoilPT => "RecoilPT"
    case RecoilPZ => "RecoilPZ"
    case RecoilP => "RecoilP"
  }

  /** The registry name of a histogram, e.g. `Rev_YStd` or `N1_SummedDet`. */
  function HistName(flow: Flow, obs: Observable): string {
    var prefix := match flow
      case Standard => ""
      case Reversed => "Rev_"
      case NMinusOne => "N1_";
    prefix + ObservableName(obs)
  }

  /** The observable a histogram name without its flow prefix refers to, if any. */
  function ObservableNamed(name: string): Option<Observable> {
    if name == "RecoilX" then Some(EcalVeto(RecoilX))
    else if name == "AvgLayerHit" then Some(EcalVeto(AvgLayerHit))
    else if name == "DeepestLayerHit" then Some(EcalVeto(DeepestLayerHit))
    else if name == "EcalBackEnergy" then Some(EcalVeto(EcalBackEnergy))
    else if name == "EpAng" then Some(EcalVeto(EpAng))
    else if name == "EpSep" then Some(EcalVeto(EpSep))
    else if name == "FirstNearPhLayerZ" then Some(EcalVeto(FirstNearPhLayerZ))
    else if name == "MaxCellDep" then Some(EcalVeto(MaxCellDep))
    else if name == "NReadoutHits" then Some(EcalVeto(NReadoutHits))
    else if name == "StdLayerHit" then Some(EcalVeto(StdLayerHit))
    else if name == "Straight" then Some(EcalVeto(Straight))
    else if name == "LinRegNew" then Some(EcalVeto(LinRegNew))
    else if name == "SummedDet" then Some(EcalVeto(SummedDet))
    else if name == "SummedTightIso" then Some(EcalVeto(SummedTightIso))
    else if name == "ShowerRMS" then Some(EcalVeto(ShowerRMS))
    else if name == "XStd" then Some(EcalVeto(XStd))
    else if name == "YStd" then Some(EcalVeto(YStd))
    else if name == "RecoilPT" then Some(RecoilPT)
    else if name == "RecoilPZ" then Some(RecoilPZ)
    else if name == "RecoilP" then Some(RecoilP)
    else None
  }

  /** Reads a registry name back as (flow, observable): the `Rev_` or `N1_` prefix gives the flow. */
  function ParseHistName(name: string): Option<(Flow, Observable)> {
    var (flow, rest) :=
      if |name| >= 4 && name[..4] == "Rev_" then (Reversed, name[4..])
      else if |name| >= 3 && name[..3] == "N1_" then (NMinusOne, name[3..])
      else (Standard, name);
    match ObservableNamed(rest)
    case Some(obs) => Some((flow, obs))
    case None => None
  }

  /**
   * Identifying a histogram by (flow, observable) instead of by its registry
   * name loses nothing: the name of every booked histogram reads back as
   * that histogram, so two booked histograms with the same name are the
   * same histogram.
   */
  lemma HistNameRoundTrip(flow: Flow, obs: Observable)
    requires Booked(flow, obs)
    ensures ParseHistName(HistName(flow, obs)) == Some((flow, obs))
  {
    var name := ObservableName(obs);
    ObservableNameRoundTrip(obs);
    match flow
    case Standard =>
      assert HistName(flow, obs) == name;
      assert !(|name| >= 4 && name[..4] == "Rev_") && !(|name| >= 3 && name[..3] == "N1_") by {
        ObservableNameHasNoPrefix(obs);
        assert name[..4][3] != "Rev_"[3] && name[..3][2] != "N1_"[2];
      }
    case Reversed =>
      assert ("Rev_" + name)[..4] == "Rev_" && ("Rev_" + name)[4..] == name;
    case NMinusOne =>
      assert ("N1_" + name)[..3] == "N1_" && ("N1_" + name)[3..] == name;
      assert ("N1_" + name)[..4] != "Rev_" by {
        assert ("N1_" + name)[0] == 'N';
      }
  }

  /** No observable's name starts like a `Rev_` or `N1_` prefix. */
  lemma ObservableNameHasNoPrefix(obs: Observable)
    ensures |ObservableName(obs)| >= 4
    ensures ObservableName(obs)[2] != '_' && ObservableName(obs)[3] != '_'
  {
    match obs
    case EcalVeto(f) => assert ObservableName(obs) == FeatureName(f);
    case _ =>
  }

  /** Every observable's name reads back as that observable. */
  lemma ObservableNameRoundTrip(obs: Observable)
    ensures ObservableNamed(ObservableName(obs)) == Some(obs)
  {
  }

  lemma HistNameInjective(flow: Flow, obs: Observable, flow': Flow, obs': Observable)
    requires Booked(flow, obs) && Booked(flow', obs')
    requires HistName(flow, obs) == HistName(flow', obs')
    ensures flow == flow' && obs == obs'
  {
    HistNameRoundTrip(flow, obs);
    HistNameRoundTrip(flow', obs');
  }

  /**
   * One stage's block of fills: every observable of `obs` is filled into
   * its `flow` histogram at `stage` with the value `read` gives it.
   */
  function StageFills(flow: Flow, obs: seq<Observable>, stage: nat, read: Observable -> real): (r: multiset<Fill>)
    requires Distinct(obs)
    ensures forall f :: r[f] == if f.flow == flow && f.stage == stage && f.obs in obs && f.value == read(f.obs) then 1 else 0
  {
    if |obs| == 0 then multiset{}
    else
      var rest := StageFills(flow, obs[1..], stage, read);
      assert forall o :: o in obs <==> o == obs[0] || o in obs[1..];
      assert obs[0] !in obs[1..];
      multiset{Fill(flow, obs[0], stage, read(obs[0]))} + rest
  }

  /** The fills of one flow: a stage block for each reached stage in `stages`. */
  function FlowFills(flow: Flow, obs: seq<Observable>, stages: seq<nat>, read: Observable -> real): (r: multiset<Fill>)
    requires Distinct(obs)
    requires Distinct(stages)
    ensures forall f :: r[f] == if f.flow == flow && f.stage in stages && f.obs in obs && f.value == read(f.obs) then 1 else 0
  {
    if |stages| == 0 then multiset{}
    else
      var rest := FlowFills(flow, obs, stages[1..], read);
      assert forall s :: s in stages <==> s == stages[0] || s in stages[1..];
      assert stages[0] !in stages[1..];
      StageFills(flow, obs, stages[0], read) + rest
  }
}
