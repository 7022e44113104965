# Cut-based dark-matter selection: per-event cut-flow model

This project models the per-event analysis of the `CutBasedDM` analyzer.
For each event the analyzer does the following:

- It evaluates twelve ordered cuts:
  - cut 0: trigger;
  - cut 1: fiducial region;
  - cuts 2–10: strict `<` thresholds on ECAL shower features;
  - cut 11: HCAL veto.
- It fills three families of cut-flow histograms:
  - **forward** histograms: stage 0 for every event, and stage `i+1` once cuts `0..i` have all passed;
  - **reverse** (`Rev_`) histograms: the same scan run over the reversed cut vector;
  - **N-1** (`N1_`) histograms: the histogram of threshold cut `i` is filled at stage `i+1` when every other cut passes.

It also models the stage-axis labelling done at process start and the unused `passPreselection` helper.

Histograms are modelled abstractly. A histogram is a (flow, observable) pair, and one event's output is a multiset of `Fill(flow, observable, stage, value)`. `CutBasedDM.Analyze` returns exactly the fills of the reference predicate `CutBasedDM.Expected`, each once.

Modules:

- `Options`, `Seqs`: optional values, `Reverse`, `Distinct`.
- `CutFlow`: the generic scans over a `seq<bool>` of cut outcomes. These are the forward scan with `break`, the reverse scan without it, the N-1 inner loop and `passPreselection`.
- `Histograms`: flows, features, observables, fills, the booked histograms, and the fill multisets of one stage and of one flow.
- `StageLabels`: the forward and reverse label vectors and the axis-labelling loop.
- `CutBasedDM`: the event record, the cut vector, the pZ clamp, the recoil momenta, the reference semantics and `Analyze`.

Modelling decisions:

- Feature values are `real`. The analyzer only compares them and copies them into fills.
- The `fiducial` configuration flag is a parameter.
- The trigger result, the ECAL veto result and the HCAL veto result are fields of `Event`.
- The loop bounds use `sizeof(passedCutsArray)`. This is taken to be 12, which holds because `sizeof(bool) == 1` on the platforms the analyzer runs on.
- The recoil momenta `pT` and `p` need a square root. This is a parameter `sqrt: real -> real`.

Two facts about the code shape the model:

- The reverse flow reverses the already computed cut vector with `reverse_copy`. The cuts are not evaluated again.
- Stages are numbered `i+1` (1..12), with stage 0 for all events. So a fully passing event reaches stage 12.

## Model

| member | source | states |
|---|---|---|
| `CutBasedDM.CutVector` | CutBasedDM.cxx:218-232 | There are twelve cuts. Cut 0 is the trigger decision and cut 11 the HCAL veto decision. Cut 1 holds iff the fiducial flag equals "recoilX is not -9999". Cut k in 2..10 holds iff the k-2nd feature of the threshold table is strictly below its bound. |
| `CutBasedDM.CutThresholds` | CutBasedDM.cxx:223-231 | Cuts 2..10, cut by cut: SummedDet<3500, SummedTightIso<800, EcalBackEnergy<250, NReadoutHits<70, ShowerRMS<110, YStd<70, MaxCellDep<300, StdLayerHit<5, NStraightTracks<6. |
| `CutBasedDM.FiducialCut` | CutBasedDM.cxx:222 | The fiducial cut passes iff `fiducial == (recoilX != -9999)`. In fiducial mode it accepts only non-sentinel recoilX; otherwise it accepts only the sentinel. |
| `CutBasedDM.ThresholdCutDependsOnlyOnOwnFeature` | CutBasedDM.cxx:223-231 | Setting the feature a threshold cut compares to any value, raised or lowered, leaves every other cut of the event unchanged. |
| `CutBasedDM.ThresholdCutsAreDownwardClosed` | CutBasedDM.cxx:223-231 | Lowering the feature a threshold cut compares never turns a pass of its own cut into a failure, and leaves every other cut unchanged. |
| `CutBasedDM.ClampPZ` | CutBasedDM.cxx:211-212 | The result is pZ itself or -5. It is non-negative exactly when pZ is. The -9999 sentinel is kept. A negative result is -5 or the sentinel. |
| `CutBasedDM.ClampPZIdempotent` | CutBasedDM.cxx:212 | Clamping twice equals clamping once. |
| `CutBasedDM.RecoilKinematics` | CutBasedDM.cxx:203-214 | pT is the root of px²+py², and the -9999 default is never kept. pZ is the clamped pZ. The total momentum is computed with the clamped pZ. |
| `CutBasedDM.N1Feature` | CutBasedDM.cxx:368-376 | Cut i has an N-1 histogram iff 2 <= i <= 10. That histogram plots exactly the feature cut i compares. Cut 11 has none. |
| `CutBasedDM.ForwardFlow` | CutBasedDM.cxx:234-301 | Forward histogram o gets one fill at stage s iff o is among the 20 forward observables, s <= 12 and cuts 0..s-1 passed. The value is the event's reading of o. |
| `CutBasedDM.ReverseFlow` | CutBasedDM.cxx:305-349 | Reverse histogram o gets one fill at stage s iff o is among the 16 reverse observables, s <= 12 and the last s cuts passed. |
| `CutBasedDM.NMinusOneFlow` | CutBasedDM.cxx:353-385 | The N-1 histogram of cut i gets one fill at stage i+1 iff the trigger and the fiducial cut pass and every cut 2..11 other than i passes. |
| `CutBasedDM.Analyze` | CutBasedDM.cxx:197-386 | An event's fills are exactly the fills of the reference semantics, each with multiplicity one. |
| `CutBasedDM.StageZeroAlwaysFilled` | CutBasedDM.cxx:234-320 | The forward stage-0 block (lines 234-253) and the reverse one (lines 305-320) run unconditionally: every event fills stage 0 of every forward and every reverse histogram, whatever the cut outcomes. |
| `CutBasedDM.ForwardStopsAtFirstFailure` | CutBasedDM.cxx:255-301 | Prefix closure: a forward stage s is filled iff s <= index of the first failed cut. Filling stage s implies filling every earlier stage. |
| `CutBasedDM.ReverseFlowScansReversedCuts` | CutBasedDM.cxx:322-349 | Reverse stage s is filled iff the forward scan of the reversed cut vector reaches s. |
| `CutBasedDM.FlowsCompleteTogether` | CutBasedDM.cxx:255-349 | Forward and reverse flows reach stage 12 together. They do so iff no cut failed. |
| `CutBasedDM.NMinusOneBlindToOwnFeature` | CutBasedDM.cxx:356-367 | Changing the feature that cut i compares leaves the N-1 condition for i unchanged. |
| `CutBasedDM.NMinusOneWithOwnCutIsFullPass` | CutBasedDM.cxx:356-367 | The N-1 condition of cut i together with cut i itself holds iff all twelve cuts pass. |
| `CutBasedDM.NMinusOneIsAllButOne` | CutBasedDM.cxx:356-367 | The separate trigger and fiducial checks plus the loop over cuts 2..11 amount to "every cut except i passed". |
| `CutBasedDM.FillsAreBooked` | CutBasedDM.cxx:38-91 | Every fill goes to a histogram created at process start, at a stage within 0..12 of the 20-bin stage axis. |
| `CutBasedDM.SummedDetRejection` | CutBasedDM.cxx:220-231 | Take an event that passes trigger and fiducial cut but has SummedDet >= 3500. It fills exactly forward stages 0, 1 and 2. |
| `CutFlow.FirstFail` | CutBasedDM.cxx:255-262 | The returned index is within the vector. All cuts before it passed, and the cut at it failed if it is in range. |
| `CutFlow.ReachedStagesArePrefix` | CutBasedDM.cxx:255-262 | Cuts 0..n-1 all pass iff n <= the first failed index. |
| `CutFlow.ForwardScan` | CutBasedDM.cxx:255-263 | The nested scan with early `break` reports stages 1..FirstFail in order. A stage is reported iff its prefix of cuts passed. |
| `CutFlow.ReverseScan` | CutBasedDM.cxx:324-331 | The same scan without `break` reports the same stages. The missing `break` changes nothing. |
| `CutFlow.ReverseStagesAreSuffixes` | CutBasedDM.cxx:322-330 | On the reversed vector, stage n is reached iff the last n original cuts passed. |
| `CutFlow.FullFlowsAgree` | CutBasedDM.cxx:255-262 | The forward and reversed scans reach the end together. They do so exactly when the first failed index is the vector's length. |
| `CutFlow.OthersPass` | CutBasedDM.cxx:357-365 | The N-1 inner loop returns true iff every cut from index `from` on (2 in the analyzer), except the skipped one, passed. |
| `CutFlow.AllOthersPassedIgnoresSkipped` | CutBasedDM.cxx:359 | Overwriting the skipped cut with any value leaves the N-1 check unchanged. |
| `CutFlow.PassPreselection` | CutBasedDM.cxx:407-414 | Returns "failed at" the first false entry, and inspects nothing after it. It falls off the end, with no return value, exactly when every entry is true. |
| `Seqs.Reverse` | CutBasedDM.cxx:322-323 | Reversal keeps the length and maps position i to position n-1-i. |
| `Seqs.ReverseKeepsElements` | CutBasedDM.cxx:323 | Reversal keeps the multiset of cut outcomes: only the order changes. |
| `Histograms.StageFills` | CutBasedDM.cxx:280-299 | One stage block fills each listed observable once at that stage, with its reading. There are no other fills. |
| `Histograms.FlowFills` | CutBasedDM.cxx:255-301 | A flow's fills are one stage block per distinct reached stage. Each (observable, stage) is filled exactly once. |
| `StageLabels.LabelAxis` | CutBasedDM.cxx:148-193 | The forward labelling loop (lines 148-152) and the reverse one (lines 189-193) are the same loop over different label vectors. Bins 1..n-1 are labelled, so the last label is never used. The bin holding stage s shows `labels[s]`. |
| `StageLabels.ReverseLabelsMirrorForward` | CutBasedDM.cxx:93-168 | The reverse labels are the forward labels 1..12 in reverse order. Reverse stage s shows the label of forward stage 13-s, the cut it adds. |
| `StageLabels.LabelsOf` | CutBasedDM.cxx:109-193 | A histogram gets the labels of the list it is in. Only booked histograms get labels. Every booked histogram except the forward RecoilP gets some. The `Rev_` histograms get the reverse labels, and the forward and `N1_` histograms get the forward ones. |
| `StageLabels.LabelledListsAreBooked` | CutBasedDM.cxx:109-187 | The forward list (19 forward histograms, then the 9 `N1_` ones) and the reverse list (the 16 `Rev_` ones) together hold exactly the booked histograms except the forward RecoilP. The forward list holds no `Rev_` histogram, and the reverse list holds nothing else. |
| `Histograms.HistNameRoundTrip` | CutBasedDM.cxx:38-91 | The registry name of every booked histogram (its `Rev_` or `N1_` prefix, then the observable's name) reads back as that same (flow, observable). |
| `Histograms.HistNameInjective` | CutBasedDM.cxx:38-91 | Two booked histograms with the same registry name are the same (flow, observable), so naming histograms by that pair loses nothing. |
| `StageLabels.StageLabelsCoverFilledStages` | CutBasedDM.cxx:109-193 | Take any booked histogram except RecoilP. Every stage 0..12 it can be filled at carries a non-empty label. |

## Left out

- Histogram binning, axis titles and persistence (CutBasedDM.cxx:36-91), and the `SetBinLabel` call that stores a label on a ROOT axis object. These belong to the histogramming library. Histograms are a multiset of fills, and booking is the predicate `Histograms.Booked`. The labelling loops themselves are modelled by `StageLabels.LabelAxis`, and which histograms they label, with which labels, by `StageLabels.LabelsOf`.
- Retrieving the event objects and loading the configuration (CutBasedDM.cxx:27-33, 199-201). These are framework calls, and their results are inputs.
- Floating-point arithmetic. Values are exact reals, and NaN, infinities and rounding are not modelled. Under exact arithmetic the `pT2 >= 0` and `totMom2 >= 0` guards always hold.
- CutBasedDM.RecoilKinematics: the square root is the parameter `sqrt`, so the contract states the momenta in terms of it rather than as numbers.
- CutFlow.PassPreselection: the debug log line printed for the failing cut when `verbose` is set is not modelled. The loop bound `sizeof(T) * n` is taken as `n`, which holds for `T = bool`. The missing return at the end is modelled as the outcome `FellOffEnd` and is not given a value.
- String lookup of histograms by name. The model identifies histograms by (flow, observable), and `Histograms.HistNameInjective` shows that no two booked histograms share a name.
- The plotting scripts, batch submission, histogram merging and job configuration files (compareCutflow.py, compareWithArguementList2D.py, submit_skim_volt.py, submit_sdf_50.py, haddHistos.py, cfg_ana_cutBasedDM.py, cutBasedDM_cfg.py, cutBasedDM_sig_cfg.py) are not part of this model. They are ROOT plotting, shell orchestration and framework wiring.
- The analyzer has no HCAL max-PE selection, target scoring-plane projection, tracking or BDT cut-flow logic. Its only HCAL input is the veto decision, which is a field of `Event`.
