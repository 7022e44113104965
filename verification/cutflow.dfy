/**
 * The cut-flow scans of the analyzer, stated over a plain vector of per-cut
 * outcomes. `cuts[k]` is true when the event passed cut `k`; a scan reports
 * the stages it reaches, where stage `n` (1 <= n <= |cuts|) means "cuts
 * 0..n-1 all passed". Stage 0 ("All") needs no cut and is not reported here.
 */
module CutFlow {
  import opened Seqs

  /** Cuts 0..n-1 all passed: a forward scan reaches stage n. */
  predicate PassedThrough(cuts: seq<bool>, n: nat)
    requires n <= |cuts|
  {
    forall j :: 0 <= j < n ==> cuts[j]
  }

  /** Cuts n..|cuts|-1 all passed. */
  predicate PassedFrom(cuts: seq<bool>, n: nat)
    requires n <= |cuts|
  {
    forall j :: n <= j < |cuts| ==> cuts[j]
  }

  /** Index of the first failed cut, or |cuts| when every cut passed. */
  function FirstFail(cuts: seq<bool>): (k: nat)
    ensures k <= |cuts|
    ensures PassedThrough(cuts, k)
    ensures k < |cuts| ==> !cuts[k]
  {
    if |cuts| == 0 || !cuts[0] then 0
    else
      var rest := FirstFail(cuts[1..]);
      assert forall j :: 1 <= j < 1 + rest ==> cuts[j] == cuts[1..][j - 1];
      1 + rest
  }

  /** Prefix closure: the stages a forward scan reaches are exactly 1..FirstFail(cuts). */
  lemma ReachedStagesArePrefix(cuts: seq<bool>, n: nat)
    requires n <= |cuts|
    ensures PassedThrough(cuts, n) <==> n <= FirstFail(cuts)
  {
  }

  /**
   * The forward scan of the analyzer: for every i it re-checks cuts 0..i,
   * leaving the inner loop at the first failed cut, and reports stage i+1
   * when none failed. The outer loop never stops early.
   */
  method ForwardScan(cuts: seq<bool>) returns (stages: seq<nat>)
    ensures |stages| == FirstFail(cuts)
    ensures forall n :: 0 <= n < |stages| ==> stages[n] == n + 1
    ensures forall s :: s in stages <==> 1 <= s <= |cuts| && PassedThrough(cuts, s)
  {
    stages := [];
    var i := 0;
    while i < |cuts|
      invariant 0 <= i <= |cuts|
      invariant |stages| == if i <= FirstFail(cuts) then i else FirstFail(cuts)
      invariant forall n :: 0 <= n < |stages| ==> stages[n] == n + 1
    {
      var allCutsPassedSoFar := true;
      var j := 0;
      while j <= i
        invariant 0 <= j <= i + 1
        invariant allCutsPassedSoFar && PassedThrough(cuts, j)
      {
        if !cuts[j] {
          allCutsPassedSoFar := false;
          break;
        }
        j := j + 1;
      }
      ReachedStagesArePrefix(cuts, i + 1);
      if allCutsPassedSoFar {
        stages := stages + [i + 1];
      }
      i := i + 1;
    }
    forall s | s in stages
      ensures 1 <= s <= |cuts| && PassedThrough(cuts, s)
    {
      var n :| 0 <= n < |stages| && stages[n] == s;
      ReachedStagesArePrefix(cuts, s);
    }
    forall s | 1 <= s <= |cuts| && PassedThrough(cuts, s)
      ensures s in stages
    {
      ReachedStagesArePrefix(cuts, s);
      assert stages[s - 1] == s;
    }
  }

  /**
   * The scan the analyzer runs over the reversed outcome vector. Its inner
   * loop has no `break`: it keeps checking after a failed cut, which cannot
   * turn the verdict back to true, so it reports the same stages as
   * ForwardScan.
   */
  method ReverseScan(cuts: seq<bool>) returns (stages: seq<nat>)
    ensures |stages| == FirstFail(cuts)
    ensures forall n :: 0 <= n < |stages| ==> stages[n] == n + 1
    ensures forall s :: s in stages <==> 1 <= s <= |cuts| && PassedThrough(cuts, s)
  {
    stages := [];
    var i := 0;
    while i < |cuts|
      invariant 0 <= i <= |cuts|
      invariant |stages| == if i <= FirstFail(cuts) then i else FirstFail(cuts)
      invariant forall n :: 0 <= n < |stages| ==> stages[n] == n + 1
    {
      var allCutsPassedSoFar := true;
      var j := 0;
      while j <= i
        invariant 0 <= j <= i + 1
        invariant allCutsPassedSoFar <==> PassedThrough(cuts, j)
      {
        if !cuts[j] {
          allCutsPassedSoFar := false;
        }
        j := j + 1;
      }
      ReachedStagesArePrefix(cuts, i + 1);
      if allCutsPassedSoFar {
        stages := stages + [i + 1];
      }
      i := i + 1;
    }
    forall s | s in stages
      ensures 1 <= s <= |cuts| && PassedThrough(cuts, s)
    {
      var n :| 0 <= n < |stages| && stages[n] == s;
      ReachedStagesArePrefix(cuts, s);
    }
    forall s | 1 <= s <= |cuts| && PassedThrough(cuts, s)
      ensures s in stages
    {
      ReachedStagesArePrefix(cuts, s);
      assert stages[s - 1] == s;
    }
  }

  /** Scanning the reversed vector, stage n means the LAST n cuts all passed. */
  lemma ReverseStagesAreSuffixes(cuts: seq<bool>, n: nat)
    requires n <= |cuts|
    ensures PassedThrough(Reverse(cuts), n) <==> PassedFrom(cuts, |cuts| - n)
  {
    var r := Reverse(cuts);
    if PassedThrough(r, n) {
      forall j | |cuts| - n <= j < |cuts|
        ensures cuts[j]
      {
        assert r[|cuts| - 1 - j] == cuts[j];
      }
    }
    if PassedFrom(cuts, |cuts| - n) {
      forall j | 0 <= j < n
        ensures r[j]
      {
        assert r[j] == cuts[|cuts| - 1 - j];
      }
    }
  }

  /**
   * The forward and the reverse flow both run to the last stage exactly
   * when every cut passed; before that they may stop at different stages.
   */
  lemma FullFlowsAgree(cuts: seq<bool>)
    ensures PassedThrough(cuts, |cuts|) <==> PassedThrough(Reverse(cuts), |cuts|)
    ensures PassedThrough(cuts, |cuts|) <==> FirstFail(cuts) == |cuts|
    ensures PassedThrough(cuts, |cuts|) <==> FirstFail(Reverse(cuts)) == |cuts|
  {
    ReverseStagesAreSuffixes(cuts, |cuts|);
    ReachedStagesArePrefix(cuts, |cuts|);
    ReachedStagesArePrefix(Reverse(cuts), |cuts|);
  }

  /**
   * The inner loop of the N-1 scan: checks cuts from..|cuts|-1, skipping
   * cut `skip`, and stops at the first failed one.
   */
  method OthersPass(cuts: seq<bool>, from: nat, skip: nat) returns (ok: bool)
    ensures ok <==> forall j :: from <= j < |cuts| && j != skip ==> cuts[j]
  {
    ok := true;
    var j := from;
    while j < |cuts|
      invariant from <= j
      invariant ok
      invariant forall k :: from <= k < j && k < |cuts| && k != skip ==> cuts[k]
    {
      if j == skip {
        j := j + 1;
        continue;
      }
      if !cuts[j] {
        ok := false;
        break;
      }
      j := j + 1;
    }
  }

  /** Every cut from..|cuts|-1 other than `skip` passed. */
  predicate AllOthersPassed(cuts: seq<bool>, from: nat, skip: nat) {
    forall j :: from <= j < |cuts| && j != skip ==> cuts[j]
  }

  /** Whether cut `skip` itself passed has no bearing on the N-1 check for it. */
  lemma AllOthersPassedIgnoresSkipped(cuts: seq<bool>, from: nat, skip: nat, b: bool)
    requires skip < |cuts|
    ensures AllOthersPassed(cuts[skip := b], from, skip) <==> AllOthersPassed(cuts, from, skip)
  {
    forall j | from <= j < |cuts| && j != skip
      ensures cuts[skip := b][j] == cuts[j]
    {
    }
  }

  /**
   * Outcome of `passPreselection`: it returns false at the first failed
   * cut (logging that cut's name when verbose), and when every cut passed it
   * runs off the end of a non-void function, which leaves its result undefined.
   */
  datatype Preselection = FailedAt(index: nat) | FellOffEnd

  method PassPreselection(cuts: seq<bool>) returns (r: Preselection)
    ensures r.FellOffEnd? <==> PassedThrough(cuts, |cuts|)
    ensures r.FailedAt? ==> r.index == FirstFail(cuts)
  {
    var i := 0;
    while i < |cuts|
      invariant 0 <= i <= |cuts|
      invariant PassedThrough(cuts, i)
    {
      if cuts[i] {
      } else {
        ReachedStagesArePrefix(cuts, i);
        ReachedStagesArePrefix(cuts, i + 1);
        return FailedAt(i);
      }
      i := i + 1;
    }
    return FellOffEnd;
  }
}
