/**
 * Stage labels on the cut-stage axis of the cut-flow histograms. That axis
 * has 20 unit-wide bins from -0.5, and the histogramming library numbers
 * bins from 1, so bin b shows stage b - 1.
 */
module StageLabels {
  import opened Seqs
  import opened Histograms

  /** Labels of the forward cut-flow; entry s names stage s (entry 0: every event). */
  const ForwardLabels: seq<string> := [
    "All",
    "Triggerred",
    "Fiducial",
    "E_{sum} < 3500",
    "E_{SumTight} < 800",
    "E_{back} < 250",
    "N_{hits} < 70",
    "RMS_{shower} < 110",
    "RMS_{shower,Y} < 70",
    "E_{cell,max} < 300",
    "RMS_{Layer,hit} < 5",
    "N_{straight} < 6",
    "PASS_{HCalVeto}",
    ""
  ]

  /** Labels of the reverse cut-flow. */
  const ReverseLabels: seq<string> := [
    "All",
    "PASS_{HCalVeto}",
    "N_{straight} < 6",
    "RMS_{Layer,hit} < 5",
    "E_{cell,max} < 300",
    "RMS_{shower,Y} < 70",
    "RMS_{shower} < 110",
    "N_{hits} < 70",
    "E_{back} < 250",
    "E_{SumTight} < 800",
    "E_{sum} < 3500",
    "Fiducial",
    "Triggerred",
    ""
  ]

  /** The bin of the stage axis that holds stage `stage`. */
  function BinOfStage(stage: nat): nat {
    stage + 1
  }

  /**
   * The labelling loop run at process start: bins 1..|labels|-1 get the
   * label one position before them, so the last entry of `labels` is never
   * used and stage s shows `labels[s]`.
   */
  method LabelAxis(labels: seq<string>) returns (axis: map<nat, string>)
    ensures forall b :: b in axis <==> 1 <= b < |labels|
    ensures forall s: nat :: s + 1 < |labels| ==> BinOfStage(s) in axis && axis[BinOfStage(s)] == labels[s]
  {
    axis := map[];
    var ilabel := 1;
    while ilabel < |labels|
      invariant 1 <= ilabel
      invariant ilabel <= |labels| || |labels| == 0
      invariant forall b :: b in axis <==> 1 <= b < ilabel && b < |labels|
      invariant forall b :: b in axis ==> 1 <= b && axis[b] == labels[b - 1]
    {
      axis := axis[ilabel := labels[ilabel - 1]];
      ilabel := ilabel + 1;
    }
  }

  /**
   * The histograms the forward labels are put on, in the order the
   * analyzer lists them: the forward histograms except RecoilP, then the
   * N-1 histograms.
   */
  const ForwardLabelled: seq<(Flow, Observable)> := [
    (Standard, EcalVeto(AvgLayerHit)),
    (Standard, EcalVeto(DeepestLayerHit)),
    (Standard, EcalVeto(EcalBackEnergy)),
    (Standard, EcalVeto(EpAng)),
    (Standard, EcalVeto(EpSep)),
    (Standard, EcalVeto(FirstNearPhLayerZ)),
    (Standard, EcalVeto(MaxCellDep)),
    (Standard, EcalVeto(NReadoutHits)),
    (Standard, EcalVeto(StdLayerHit)),
    (Standard, EcalVeto(Straight)),
    (Standard, EcalVeto(LinRegNew)),
    (Standard, EcalVeto(SummedDet)),
    (Standard, EcalVeto(SummedTightIso)),
    (Standard, EcalVeto(ShowerRMS)),
    (Standard, EcalVeto(XStd)),
    (Standard, EcalVeto(YStd)),
    (Standard, EcalVeto(RecoilX)),
    (Standard, RecoilPT),
    (Standard, RecoilPZ),
    (NMinusOne, EcalVeto(EcalBackEnergy)),
    (NMinusOne, EcalVeto(MaxCellDep)),
    (NMinusOne, EcalVeto(NReadoutHits)),
    (NMinusOne, EcalVeto(StdLayerHit)),
    (NMinusOne, EcalVeto(Straight)),
    (NMinusOne, EcalVeto(SummedDet)),
    (NMinusOne, EcalVeto(SummedTightIso)),
    (NMinusOne, EcalVeto(ShowerRMS)),
    (NMinusOne, EcalVeto(YStd))
  ]

  /** The histograms the reverse labels are put on: every `Rev_` histogram. */
  const ReverseLabelled: seq<(Flow, Observable)> := [
    (Reversed, EcalVeto(AvgLayerHit)),
    (Reversed, EcalVeto(DeepestLayerHit)),
    (Reversed, EcalVeto(EcalBackEnergy)),
    (Reversed, EcalVeto(EpAng)),
    (Reversed, EcalVeto(EpSep)),
    (Reversed, EcalVeto(FirstNearPhLayerZ)),
    (Reversed, EcalVeto(MaxCellDep)),
    (Reversed, EcalVeto(NReadoutHits)),
    (Reversed, EcalVeto(StdLayerHit)),
    (Reversed, EcalVeto(Straight)),
    (Reversed, EcalVeto(LinRegNew)),
    (Reversed, EcalVeto(SummedDet)),
    (Reversed, EcalVeto(SummedTightIso)),
    (Reversed, EcalVeto(ShowerRMS)),
    (Reversed, EcalVeto(XStd)),
    (Reversed, EcalVeto(YStd))
  ]

  /**
   * The labels a histogram's stage axis ends up with: those of the list it
   * is in, or none. Every booked histogram but the forward RecoilP is in
   * exactly one list, and each flow gets the labels of its own direction.
   */
  function LabelsOf(flow: Flow, obs: Observable): (labels: seq<string>)
    ensures labels != [] ==> Booked(flow, obs)
    ensures Booked(flow, obs) ==> (labels == [] <==> flow == Standard && obs == RecoilP)
    ensures labels != [] && flow == Reversed ==> labels == ReverseLabels
    ensures labels != [] && flow != Reversed ==> labels == ForwardLabels
  {
    LabelledListsAreBooked(flow, obs);
    if (flow, obs) in ForwardLabelled then ForwardLabels
    else if (flow, obs) in ReverseLabelled then ReverseLabels
    else []
  }

  /**
   * The two labelled lists hold exactly the booked histograms but the
   * forward RecoilP; the forward list holds no reverse histogram and the
   * reverse list nothing else.
   */
  lemma LabelledListsAreBooked(flow: Flow, obs: Observable)
    ensures (flow, obs) in ForwardLabelled || (flow, obs) in ReverseLabelled
      <==> Booked(flow, obs) && !(flow == Standard && obs == RecoilP)
    ensures (flow, obs) in ForwardLabelled ==> flow != Reversed
    ensures (flow, obs) in ReverseLabelled ==> flow == Reversed
  {
    if (flow, obs) in ForwardLabelled {
      var k :| 0 <= k < |ForwardLabelled| && ForwardLabelled[k] == (flow, obs);
      ForwardLabelledAreBooked();
    }
    if (flow, obs) in ReverseLabelled {
      var k :| 0 <= k < |ReverseLabelled| && ReverseLabelled[k] == (flow, obs);
      ReverseLabelledAreBooked();
    }
    if Booked(flow, obs) && !(flow == Standard && obs == RecoilP) {
      BookedAreLabelled(flow, obs);
    }
  }

  /** Every booked histogram but the forward RecoilP is in one of the two labelled lists. */
  lemma BookedAreLabelled(flow: Flow, obs: Observable)
    requires Booked(flow, obs) && !(flow == Standard && obs == RecoilP)
    ensures (flow, obs) in ForwardLabelled || (flow, obs) in ReverseLabelled
  {
    match flow {
    case Standard =>
      match obs {
      case EcalVeto(AvgLayerHit) => assert ForwardLabelled[0] == (flow, obs);
      case EcalVeto(DeepestLayerHit) => assert ForwardLabelled[1] == (flow, obs);
      case EcalVeto(EcalBackEnergy) => assert ForwardLabelled[2] == (flow, obs);
      case EcalVeto(EpAng) => assert ForwardLabelled[3] == (flow, obs);
      case EcalVeto(EpSep) => assert ForwardLabelled[4] == (flow, obs);
      case EcalVeto(FirstNearPhLayerZ) => assert ForwardLabelled[5] == (flow, obs);
      case EcalVeto(MaxCellDep) => assert ForwardLabelled[6] == (flow, obs);
      case EcalVeto(NReadoutHits) => assert ForwardLabelled[7] == (flow, obs);
      case EcalVeto(StdLayerHit) => assert ForwardLabelled[8] == (flow, obs);
      case EcalVeto(Straight) => assert ForwardLabelled[9] == (flow, obs);
      case EcalVeto(LinRegNew) => assert ForwardLabelled[10] == (flow, obs);
      case EcalVeto(SummedDet) => assert ForwardLabelled[11] == (flow, obs);
      case EcalVeto(SummedTightIso) => assert ForwardLabelled[12] == (flow, obs);
      case EcalVeto(ShowerRMS) => assert ForwardLabelled[13] == (flow, obs);
      case EcalVeto(XStd) => assert ForwardLabelled[14] == (flow, obs);
      case EcalVeto(YStd) => assert ForwardLabelled[15] == (flow, obs);
      case EcalVeto(RecoilX) => assert ForwardLabelled[16] == (flow, obs);
      case RecoilPT => assert ForwardLabelled[17] == (flow, obs);
      case RecoilPZ => assert ForwardLabelled[18] == (flow, obs);
      case _ =>
      }
    case Reversed =>
      match obs {
      case EcalVeto(AvgLayerHit) => assert ReverseLabelled[0] == (flow, obs);
      case EcalVeto(DeepestLayerHit) => assert ReverseLabelled[1] == (flow, obs);
      case EcalVeto(EcalBackEnergy) => assert ReverseLabelled[2] == (flow, obs);
      case EcalVeto(EpAng) => assert ReverseLabelled[3] == (flow, obs);
      case EcalVeto(EpSep) => assert ReverseLabelled[4] == (flow, obs);
      case EcalVeto(FirstNearPhLayerZ) => assert ReverseLabelled[5] == (flow, obs);
      case EcalVeto(MaxCellDep) => assert ReverseLabelled[6] == (flow, obs);
      case EcalVeto(NReadoutHits) => assert ReverseLabelled[7] == (flow, obs);
      case EcalVeto(StdLayerHit) => assert ReverseLabelled[8] == (flow, obs);
      case EcalVeto(Straight) => assert ReverseLabelled[9] == (flow, obs);
      case EcalVeto(LinRegNew) => assert ReverseLabelled[10] == (flow, obs);
      case EcalVeto(SummedDet) => assert ReverseLabelled[11] == (flow, obs);
      case EcalVeto(SummedTightIso) => assert ReverseLabelled[12] == (flow, obs);
      case EcalVeto(ShowerRMS) => assert ReverseLabelled[13] == (flow, obs);
      case EcalVeto(XStd) => assert ReverseLabelled[14] == (flow, obs);
      case EcalVeto(YStd) => assert ReverseLabelled[15] == (flow, obs);
      case EcalVeto(_) =>
      case _ =>
      }
    case NMinusOne =>
      match obs {
      case EcalVeto(EcalBackEnergy) => assert ForwardLabelled[19] == (flow, obs);
      case EcalVeto(MaxCellDep) => assert ForwardLabelled[20] == (flow, obs);
      case EcalVeto(NReadoutHits) => assert ForwardLabelled[21] == (flow, obs);
      case EcalVeto(StdLayerHit) => assert ForwardLabelled[22] == (flow, obs);
      case EcalVeto(Straight) => assert ForwardLabelled[23] == (flow, obs);
      case EcalVeto(SummedDet) => assert ForwardLabelled[24] == (flow, obs);
      case EcalVeto(SummedTightIso) => assert ForwardLabelled[25] == (flow, obs);
      case EcalVeto(ShowerRMS) => assert ForwardLabelled[26] == (flow, obs);
      case EcalVeto(YStd) => assert ForwardLabelled[27] == (flow, obs);
      case EcalVeto(_) =>
      case _ =>
      }
    }
  }

  lemma ForwardLabelledAreBooked()
    ensures forall k :: 0 <= k < |ForwardLabelled| ==>
      var (flow, obs) := ForwardLabelled[k];
      Booked(flow, obs) && flow != Reversed && obs != RecoilP
  {
  }

  lemma ReverseLabelledAreBooked()
    ensures forall k :: 0 <= k < |ReverseLabelled| ==>
      var (flow, obs) := ReverseLabelled[k];
      Booked(flow, obs) && flow == Reversed
  {
  }

  /**
   * The reverse labels are the forward ones mirrored: reverse stage s adds
   * original cut 12-s, whose forward stage is 13-s.
   */
  lemma ReverseLabelsMirrorForward()
    ensures |ReverseLabels| == |ForwardLabels|
    ensures ReverseLabels[0] == ForwardLabels[0]
    ensures ReverseLabels[1..13] == Reverse(ForwardLabels[1..13])
    ensures forall s :: 1 <= s <= 12 ==> ReverseLabels[s] == ForwardLabels[13 - s]
  {
    var r := Reverse(ForwardLabels[1..13]);
    var mirrored := ReverseLabels[1..13];
    assert forall k :: 0 <= k < 12 ==> mirrored[k] == ReverseLabels[k + 1];
    assert forall k :: 0 <= k < 12 ==> r[k] == ForwardLabels[12 - k];
    assert forall k :: 0 <= k < 12 ==> r[k] == mirrored[k];
  }

  /** Every booked histogram but RecoilP shows the label of each stage it can be filled at. */
  lemma StageLabelsCoverFilledStages(flow: Flow, obs: Observable, stage: nat)
    requires Booked(flow, obs) && !(flow == Standard && obs == RecoilP)
    requires stage <= 12
    ensures stage < |LabelsOf(flow, obs)| - 1
    ensures LabelsOf(flow, obs)[stage] != ""
  {
    assert LabelsOf(flow, obs) == ForwardLabels || LabelsOf(flow, obs) == ReverseLabels;
  }
}
