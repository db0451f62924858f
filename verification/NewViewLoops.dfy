/** The loops of on_viewchange and on_newview over V, proved against NewViews. */
module NewViewLoops {
  import opened Messages
  import opened Collections
  import opened NewViews

  /** Proofs of a longer prefix of V. */
  lemma ProofsStep(V: seq<ViewChangeMsg>, k: nat)
    requires k < |V|
    ensures Proofs(V[..k + 1]) == Proofs(V[..k]) + V[k].preparedProofs
    ensures MinS(V[..k + 1]) == Max(MinS(V[..k]), V[k].lastStable)
  {
    assert V[..k + 1][..k] == V[..k];
  }

  lemma MaxSStep(proofs: seq<PrepareProof>, p: PrepareProof, from: nat)
    ensures MaxS(proofs + [p], from) == Max(MaxS(proofs, from), p.seqNum)
  {
    assert (proofs + [p])[..|proofs|] == proofs;
  }

  lemma ChooseStep(proofs: seq<PrepareProof>, p: PrepareProof, n: nat)
    ensures Choose(proofs + [p], n) ==
            if p.seqNum == n && p.view > ViewOf(Choose(proofs, n)) then Some(p) else Choose(proofs, n)
  {
    assert (proofs + [p])[..|proofs|] == proofs;
  }

  /** The highest sequence number of the proofs of one view change, from a start value. */
  method ScanProofs(proofs: seq<PrepareProof>, ghost seen: seq<PrepareProof>, start: nat, ghost from: nat) returns (maxS: nat)
    requires start == MaxS(seen, from)
    ensures maxS == MaxS(seen + proofs, from)
  {
    hide MaxS;
    maxS := start;
    assert seen + proofs[..0] == seen;
    for j := 0 to |proofs|
      invariant maxS == MaxS(seen + proofs[..j], from)
    {
      MaxSStep(seen + proofs[..j], proofs[j], from);
      assert seen + proofs[..j] + [proofs[j]] == seen + proofs[..j + 1];
      maxS := Max(maxS, proofs[j].seqNum);
    }
    assert proofs[..|proofs|] == proofs;
  }

  /** The builder's bounds: one pass over V, both starting from 0. */
  method Bounds(V: seq<ViewChangeMsg>) returns (minS: nat, maxS: nat)
    ensures minS == MinS(V) && maxS == MaxS(Proofs(V), 0)
  {
    minS, maxS := 0, 0;
    for k := 0 to |V|
      invariant minS == MinS(V[..k]) && maxS == MaxS(Proofs(V[..k]), 0)
    {
      ProofsStep(V, k);
      minS := Max(minS, V[k].lastStable);
      maxS := ScanProofs(V[k].preparedProofs, Proofs(V[..k]), maxS, 0);
    }
    assert V[..|V|] == V;
  }

  /** The best proof for n within one view change, given the best one so far. */
  method Improve(proofs: seq<PrepareProof>, ghost seen: seq<PrepareProof>, n: nat, best: Option<PrepareProof>)
    returns (best': Option<PrepareProof>)
    requires best == Choose(seen, n)
    ensures best' == Choose(seen + proofs, n)
  {
    hide Choose;
    best' := best;
    assert seen + proofs[..0] == seen;
    for j := 0 to |proofs|
      invariant best' == Choose(seen + proofs[..j], n)
    {
      ChooseStep(seen + proofs[..j], proofs[j], n);
      assert seen + proofs[..j] + [proofs[j]] == seen + proofs[..j + 1];
      if proofs[j].seqNum == n && proofs[j].view > ViewOf(best') {
        best' := Some(proofs[j]);
      }
    }
    assert proofs[..|proofs|] == proofs;
  }

  /** The pre-prepare for slot n. */
  method BuildSlot(nullDigest: Digest, V: seq<ViewChangeMsg>, view: nat, n: nat) returns (o: PrePrepareMsg)
    ensures o == Reproposal(nullDigest, Proofs(V), view, n)
  {
    var best: Option<PrepareProof> := None;
    for k := 0 to |V|
      invariant best == Choose(Proofs(V[..k]), n)
    {
      ProofsStep(V, k);
      best := Improve(V[k].preparedProofs, Proofs(V[..k]), n, best);
    }
    assert V[..|V|] == V;
    o := PrePrepareMsg(view, n, if best.Some? then best.value.digest else nullDigest, NullRequest);
  }

  method BuildO(nullDigest: Digest, V: seq<ViewChangeMsg>, view: nat) returns (O: seq<PrePrepareMsg>)
    ensures O == OSet(nullDigest, V, view)
  {
    var minS, maxS := Bounds(V);
    O := [];
    var n := minS + 1;
    while n <= maxS
      invariant minS + 1 <= n && (n <= maxS + 1 || n == minS + 1)
      invariant O == Reproposals(nullDigest, Proofs(V), view, minS, n - minS - 1)
    {
      var o := BuildSlot(nullDigest, V, view, n);
      O := O + [o];
      n := n + 1;
    }
  }

  /** The validator's min_s. */
  method HighestStable(V: seq<ViewChangeMsg>) returns (minS: nat)
    ensures minS == MinS(V)
  {
    minS := 0;
    for k := 0 to |V|
      invariant minS == MinS(V[..k])
    {
      ProofsStep(V, k);
      minS := Max(minS, V[k].lastStable);
    }
    assert V[..|V|] == V;
  }

  /** The validator's max_s, which starts from min_s. */
  method HighestProof(V: seq<ViewChangeMsg>, start: nat) returns (maxS: nat)
    ensures maxS == MaxS(Proofs(V), start)
  {
    maxS := start;
    for k := 0 to |V|
      invariant maxS == MaxS(Proofs(V[..k]), start)
    {
      ProofsStep(V, k);
      maxS := ScanProofs(V[k].preparedProofs, Proofs(V[..k]), maxS, start);
    }
    assert V[..|V|] == V;
  }

  method Validate(f: nat, m: NewViewMsg) returns (ok: bool)
    ensures ok <==> Acceptable(f, m)
  {
    hide MinS, Proofs;
    if |m.viewChanges| < 2 * f + 1 {
      return false;
    }
    var minS := HighestStable(m.viewChanges);
    var maxS := HighestProof(m.viewChanges, minS);
    return |m.prePrepares| == maxS - minS;
  }
}
