/**
 * The V and O sets of a NEW-VIEW: what the new primary builds (src/node.cc:535-583)
 * and what a backup checks (src/node.cc:609-627).
 */
module NewViews {
  import opened Messages
  import opened Collections

  /** All prepare proofs of V, message by message. */
  function Proofs(V: seq<ViewChangeMsg>): (r: seq<PrepareProof>)
    ensures forall i, p :: 0 <= i < |V| && p in V[i].preparedProofs ==> p in r
    ensures forall p :: p in r ==> exists i :: 0 <= i < |V| && p in V[i].preparedProofs
  {
    if V == [] then [] else
      var init := V[..|V| - 1];
      assert forall i :: 0 <= i < |V| - 1 ==> init[i] == V[i];
      Proofs(init) + V[|V| - 1].preparedProofs
  }

  /** The highest stable checkpoint any member of V reports. */
  function MinS(V: seq<ViewChangeMsg>): (m: nat)
    ensures forall i :: 0 <= i < |V| ==> V[i].lastStable <= m
    ensures m == 0 || exists i :: 0 <= i < |V| && V[i].lastStable == m
  {
    if V == [] then 0 else
      var init := V[..|V| - 1];
      assert forall i :: 0 <= i < |V| - 1 ==> init[i] == V[i];
      Max(MinS(init), V[|V| - 1].lastStable)
  }

  /** The highest sequence number in a list of proofs, but at least `from`. */
  function MaxS(proofs: seq<PrepareProof>, from: nat): (m: nat)
    ensures from <= m
    ensures forall i :: 0 <= i < |proofs| ==> proofs[i].seqNum <= m
    ensures m == from || exists i :: 0 <= i < |proofs| && proofs[i].seqNum == m
  {
    if proofs == [] then from else
      var init := proofs[..|proofs| - 1];
      assert forall i :: 0 <= i < |proofs| - 1 ==> init[i] == proofs[i];
      Max(MaxS(init, from), proofs[|proofs| - 1].seqNum)
  }

  function ViewOf(p: Option<PrepareProof>): nat {
    if p.Some? then p.value.view else 0
  }

  /**
   * The proof the new primary picks for sequence number n: the first one of the
   * highest view. The search starts from view 0 with a strict comparison, so a
   * proof of view 0 is never picked.
   */
  function Choose(proofs: seq<PrepareProof>, n: nat): (best: Option<PrepareProof>)
    ensures best.Some? ==> best.value in proofs && best.value.seqNum == n && best.value.view >= 1
    ensures forall i :: 0 <= i < |proofs| && proofs[i].seqNum == n ==> proofs[i].view <= ViewOf(best)
  {
    if proofs == [] then None else
      var p := proofs[|proofs| - 1];
      var init := proofs[..|proofs| - 1];
      assert forall i :: 0 <= i < |proofs| - 1 ==> init[i] == proofs[i];
      var best := Choose(init, n);
      if p.seqNum == n && p.view > ViewOf(best) then Some(p) else best
  }

  /** One element of O. */
  function Reproposal(nullDigest: Digest, proofs: seq<PrepareProof>, view: nat, n: nat): PrePrepareMsg {
    match Choose(proofs, n)
    case Some(p) => PrePrepareMsg(view, n, p.digest, NullRequest)
    case None => PrePrepareMsg(view, n, nullDigest, NullRequest)
  }

  /** The pre-prepares for min_s+1 .. min_s+count, in order. */
  function Reproposals(nullDigest: Digest, proofs: seq<PrepareProof>, view: nat, minS: nat, count: nat): (O: seq<PrePrepareMsg>)
    ensures |O| == count
    ensures forall k :: 0 <= k < count ==> O[k] == Reproposal(nullDigest, proofs, view, minS + 1 + k)
  {
    seq(count, k requires 0 <= k => Reproposal(nullDigest, proofs, view, minS + 1 + k))
  }

  /** The O set that the new primary broadcasts. */
  function OSet(nullDigest: Digest, V: seq<ViewChangeMsg>, view: nat): seq<PrePrepareMsg> {
    var minS := MinS(V);
    var maxS := MaxS(Proofs(V), 0);
    Reproposals(nullDigest, Proofs(V), view, minS, if maxS < minS then 0 else maxS - minS)
  }

  /** The two size checks of a backup; note that its max_s starts from min_s, not from 0. */
  predicate Acceptable(f: nat, m: NewViewMsg) {
    && |m.viewChanges| >= 2 * f + 1
    && |m.prePrepares| == MaxS(Proofs(m.viewChanges), MinS(m.viewChanges)) - MinS(m.viewChanges)
  }

  /** Starting the maximum from a larger number only matters below that number. */
  lemma {:induction false} MaxSFrom(proofs: seq<PrepareProof>, from: nat)
    ensures MaxS(proofs, from) == Max(MaxS(proofs, 0), from)
  {
    if proofs != [] {
      MaxSFrom(proofs[..|proofs| - 1], from);
    }
  }

  /**
   * Builder and validator agree: whatever V holds, even when every proof lies
   * below the highest stable checkpoint, the O set built from V passes the
   * validator's size check.
   */
  lemma BuilderPassesValidator(f: nat, nullDigest: Digest, V: seq<ViewChangeMsg>, view: nat)
    ensures Acceptable(f, NewViewMsg(view, V, OSet(nullDigest, V, view))) <==> |V| >= 2 * f + 1
  {
    MaxSFrom(Proofs(V), MinS(V));
  }

  /** Some view change in V carries p. */
  ghost predicate Reported(V: seq<ViewChangeMsg>, p: PrepareProof) {
    exists i :: 0 <= i < |V| && p in V[i].preparedProofs
  }

  /** O has an element for sequence number n. */
  ghost predicate Lists(O: seq<PrePrepareMsg>, n: nat) {
    exists k :: 0 <= k < |O| && O[k].seqNum == n
  }

  /** n lies above every reported stable checkpoint and not above every reported proof. */
  ghost predicate Needed(V: seq<ViewChangeMsg>, n: nat) {
    && 0 < n
    && (forall i :: 0 <= i < |V| ==> V[i].lastStable < n)
    && (exists p :: Reported(V, p) && n <= p.seqNum)
  }

  /** A reported proof that counts for sequence number n. */
  ghost predicate Counts(V: seq<ViewChangeMsg>, p: PrepareProof, n: nat) {
    Reported(V, p) && p.seqNum == n && p.view >= 1
  }

  /** The digest o carries is that of a proof of maximal view, or null when no proof counts. */
  ghost predicate RightDigest(V: seq<ViewChangeMsg>, nullDigest: Digest, o: PrePrepareMsg) {
    if exists p :: Counts(V, p, o.seqNum) then
      exists p :: && Counts(V, p, o.seqNum)
                  && p.digest == o.digest
                  && (forall q :: Counts(V, q, o.seqNum) ==> q.view <= p.view)
    else
      o.digest == nullDigest
  }

  /**
   * What O contains, said without the search: exactly the needed numbers, in
   * ascending order without gaps and in the new view, each with the right digest.
   */
  lemma OSetMeaning(nullDigest: Digest, V: seq<ViewChangeMsg>, view: nat)
    ensures forall n: nat :: Lists(OSet(nullDigest, V, view), n) <==> Needed(V, n)
    ensures
      var O := OSet(nullDigest, V, view);
      && (forall k :: 0 <= k < |O| ==> O[k].view == view && O[k].req == NullRequest)
      && (forall k :: 0 < k < |O| ==> O[k].seqNum == O[k - 1].seqNum + 1)
      && (forall k :: 0 <= k < |O| ==> RightDigest(V, nullDigest, O[k]))
  {
    var O := OSet(nullDigest, V, view);
    forall n: nat ensures Lists(O, n) <==> Needed(V, n) {
      OSetNumbers(nullDigest, V, view, n);
    }
    forall k | 0 <= k < |O| ensures RightDigest(V, nullDigest, O[k]) {
      OSetDigests(nullDigest, V, view, k);
    }
  }

  /** The numbers that O covers. */
  lemma OSetNumbers(nullDigest: Digest, V: seq<ViewChangeMsg>, view: nat, n: nat)
    ensures Lists(OSet(nullDigest, V, view), n) <==> Needed(V, n)
  {
    var O := OSet(nullDigest, V, view);
    var proofs := Proofs(V);
    var minS := MinS(V);
    var maxS := MaxS(proofs, 0);
    if Lists(O, n) {
      assert minS < n <= maxS;
      var i :| 0 <= i < |proofs| && proofs[i].seqNum == maxS;
      assert proofs[i] in proofs;
      assert Reported(V, proofs[i]);
    }
    if Needed(V, n) {
      var p :| Reported(V, p) && n <= p.seqNum;
      assert p in proofs;
      assert minS < n <= maxS;
      assert O[n - minS - 1].seqNum == n;
    }
  }

  /** The digest that O gives to one slot. */
  lemma OSetDigests(nullDigest: Digest, V: seq<ViewChangeMsg>, view: nat, k: nat)
    requires k < |OSet(nullDigest, V, view)|
    ensures RightDigest(V, nullDigest, OSet(nullDigest, V, view)[k])
  {
    var o := OSet(nullDigest, V, view)[k];
    var proofs := Proofs(V);
    var best := Choose(proofs, o.seqNum);
    forall q | Counts(V, q, o.seqNum) ensures q.view <= ViewOf(best) {
      assert q in proofs;
    }
    if best.Some? {
      assert best.value in proofs;
      assert Counts(V, best.value, o.seqNum);
    }
  }

  /**
   * When a reported digest survives into O: provided the null digest is nobody's
   * request, exactly when the slot has a proof of view at least 1.
   */
  lemma DigestSurvives(nullDigest: Digest, V: seq<ViewChangeMsg>, view: nat, k: nat)
    requires k < |OSet(nullDigest, V, view)|
    requires forall p :: Reported(V, p) ==> p.digest != nullDigest
    ensures
      var o := OSet(nullDigest, V, view)[k];
      (exists p :: Reported(V, p) && p.seqNum == o.seqNum && p.digest == o.digest) <==>
      (exists p :: Counts(V, p, o.seqNum))
  {
    OSetDigests(nullDigest, V, view, k);
  }

  /** p is a proof for n of a higher view than all proofs for n in ps. */
  ghost predicate Beats(p: PrepareProof, ps: seq<PrepareProof>, n: nat) {
    forall q :: q in ps && q.seqNum == n ==> q.view < p.view
  }

  lemma {:induction false} ChoiceIsFirst(proofs: seq<PrepareProof>, n: nat) returns (k: nat)
    requires Choose(proofs, n).Some?
    ensures k < |proofs| && proofs[k] == Choose(proofs, n).value && Beats(proofs[k], proofs[..k], n)
  {
    var init, p := proofs[..|proofs| - 1], proofs[|proofs| - 1];
    var best := Choose(init, n);
    if p.seqNum == n && p.view > ViewOf(best) {
      k := |proofs| - 1;
      forall q | q in init && q.seqNum == n ensures q.view < p.view {
        var i :| 0 <= i < |init| && init[i] == q;
      }
    } else {
      k := ChoiceIsFirst(init, n);
      assert init[..k] == proofs[..k];
    }
  }

  /** Where the k-th proof comes from; what V lists before it comes earlier. */
  lemma {:induction false} ProofOrigin(V: seq<ViewChangeMsg>, k: nat) returns (i: nat, j: nat)
    requires k < |Proofs(V)|
    ensures i < |V| && j < |V[i].preparedProofs| && V[i].preparedProofs[j] == Proofs(V)[k]
    ensures forall i' :: 0 <= i' < i ==> forall q :: q in V[i'].preparedProofs ==> q in Proofs(V)[..k]
    ensures forall q :: q in V[i].preparedProofs[..j] ==> q in Proofs(V)[..k]
  {
    var init, last := V[..|V| - 1], V[|V| - 1].preparedProofs;
    var a := Proofs(init);
    assert Proofs(V) == a + last;
    if k < |a| {
      i, j := ProofOrigin(init, k);
      assert Proofs(V)[..k] == a[..k];
    } else {
      i, j := |V| - 1, k - |a|;
      assert Proofs(V)[..k] == a + last[..j];
      forall i', q | 0 <= i' < i && q in V[i'].preparedProofs ensures q in a {
        assert init[i'] == V[i'];
      }
    }
  }

  /**
   * Among proofs of the same highest view, the one listed first in V decides: by the order
   * of the view changes, and within one by its own order.
   */
  lemma FirstProofWins(nullDigest: Digest, V: seq<ViewChangeMsg>, view: nat, s: nat) returns (i: nat, j: nat)
    requires s < |OSet(nullDigest, V, view)|
    requires exists p :: Counts(V, p, OSet(nullDigest, V, view)[s].seqNum)
    ensures
      var o := OSet(nullDigest, V, view)[s];
      && i < |V| && j < |V[i].preparedProofs|
      && (var p := V[i].preparedProofs[j];
          && p.seqNum == o.seqNum && p.digest == o.digest
          && Beats(p, V[i].preparedProofs[..j], o.seqNum)
          && forall i' :: 0 <= i' < i ==> Beats(p, V[i'].preparedProofs, o.seqNum))
  {
    hide Proofs, MinS, MaxS, Choose;
    var n := OSet(nullDigest, V, view)[s].seqNum;
    var p :| Counts(V, p, n);
    assert p in Proofs(V);
    var x :| 0 <= x < |Proofs(V)| && Proofs(V)[x] == p;
    assert Choose(Proofs(V), n).Some?;
    var k := ChoiceIsFirst(Proofs(V), n);
    i, j := ProofOrigin(V, k);
  }

  /** Every member of V reports no stable checkpoint and the same proofs. */
  ghost predicate Unanimous(V: seq<ViewChangeMsg>, proofs: seq<PrepareProof>) {
    forall i :: 0 <= i < |V| ==> V[i].lastStable == 0 && V[i].preparedProofs == proofs
  }

  /** What becomes of the one request that all of V report. */
  lemma UnanimousO(nullDigest: Digest, V: seq<ViewChangeMsg>, view: nat, p: PrepareProof)
    requires V != [] && Unanimous(V, [p]) && p.seqNum == 1
    ensures OSet(nullDigest, V, view) == [PrePrepareMsg(view, 1, if p.view >= 1 then p.digest else nullDigest, NullRequest)]
  {
    var proofs := Proofs(V);
    assert p in V[0].preparedProofs;
    assert forall q :: q in proofs ==> q == p;
    hide Proofs;
    assert MinS(V) == 0;
    OnlyProof(proofs, p);
    hide MaxS, MinS, Choose;
  }

  lemma OnlyProof(proofs: seq<PrepareProof>, p: PrepareProof)
    requires p in proofs && p.seqNum == 1 && forall q :: q in proofs ==> q == p
    ensures MaxS(proofs, 0) == 1 && Choose(proofs, 1) == if p.view >= 1 then Some(p) else None
  {
    hide MaxS, Choose;
    assert forall i :: 0 <= i < |proofs| ==> proofs[i] in proofs;
    var i :| 0 <= i < |proofs| && proofs[i] == p;
  }

  lemma NothingReported(nullDigest: Digest, V: seq<ViewChangeMsg>, view: nat)
    requires Unanimous(V, [])
    ensures OSet(nullDigest, V, view) == []
  {
    NoProofs(V);
    assert MinS(V) == 0;
  }

  lemma {:induction false} NoProofs(V: seq<ViewChangeMsg>)
    requires Unanimous(V, [])
    ensures Proofs(V) == []
  {
    if V != [] {
      NoProofs(V[..|V| - 1]);
    }
  }

  /**
   * So a request that prepared in view 0 is replaced by the null request, even if all 2f+1
   * members of a V set that the code accepts report it.
   */
  lemma ViewZeroProofIsLost(f: nat, nullDigest: Digest, V: seq<ViewChangeMsg>, view: nat, d: Digest)
    requires |V| >= 2 * f + 1 && Unanimous(V, [PrepareProof(0, 1, d)])
    ensures Reported(V, PrepareProof(0, 1, d))
    ensures OSet(nullDigest, V, view) == [PrePrepareMsg(view, 1, nullDigest, NullRequest)]
    ensures Acceptable(f, NewViewMsg(view, V, OSet(nullDigest, V, view)))
  {
    assert PrepareProof(0, 1, d) in V[0].preparedProofs;
    UnanimousO(nullDigest, V, view, PrepareProof(0, 1, d));
    BuilderPassesValidator(f, nullDigest, V, view);
  }
}
