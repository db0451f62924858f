/** Where each field of a message stands in its encoding. */
module Layout {
  import opened Messages
  import opened Codec

  /** The w bytes from position `at` on are the digits of x to base 256, least significant first. */
  predicate NumberAt(b: Bytes, at: nat, x: nat, w: nat) {
    at + w <= |b| && forall i :: 0 <= i < w ==> b[at + i] == x / Pow256(i) % 256
  }

  /** The bytes from position `at` on are s. */
  predicate BytesAt(b: Bytes, at: nat, s: Bytes) {
    at + |s| <= |b| && b[at..at + |s|] == s
  }

  lemma DivTwice(x: nat, p: nat)
    requires p > 0
    ensures x / 256 / p == x / (256 * p)
  {
    var q, r := x / 256 / p, (x / 256) % p;
    assert x / 256 == q * p + r;
    var low := x % 256 + 256 * r;
    assert 256 * (q * p) == q * (256 * p);
    assert x == q * (256 * p) + low;
    assert 0 <= low < 256 * p by {
      assert r <= p - 1;
    }
    DivUnique(x, 256 * p, q, low);
  }

  lemma DivUnique(x: nat, m: nat, q: nat, r: nat)
    requires m > 0 && r < m && x == q * m + r
    ensures x / m == q
  {
    var q' := x / m;
    if q < q' {
      MulGap(q, q', m);
    } else if q' < q {
      MulGap(q', q, m);
    }
  }

  lemma {:induction false} Digit(x: nat, w: nat, i: nat)
    requires i < w
    ensures Le(x, w)[i] == x / Pow256(i) % 256
  {
    if i > 0 {
      Digit(x / 256, w - 1, i - 1);
      DivTwice(x, Pow256(i - 1));
      assert Le(x, w)[i] == Le(x / 256, w - 1)[i - 1];
    }
  }

  /** An encoded number in the middle of other bytes. */
  lemma NumberIn(a: Bytes, x: nat, w: nat, rest: Bytes)
    ensures NumberAt(a + Le(x, w) + rest, |a|, x, w)
  {
    hide Le;
    var b := a + Le(x, w) + rest;
    forall i | 0 <= i < w ensures b[|a| + i] == x / Pow256(i) % 256 {
      Digit(x, w, i);
      assert b[|a| + i] == Le(x, w)[i];
    }
  }

  lemma NumberFirst(x: nat, w: nat, rest: Bytes)
    ensures NumberAt(Le(x, w) + rest, 0, x, w)
  {
    NumberIn([], x, w, rest);
    assert [] + Le(x, w) + rest == Le(x, w) + rest;
  }

  lemma RequestLayout(m: RequestMsg)
    ensures
      var b, n := PutRequest(m), |m.operation|;
      && |b| == n + 16
      && NumberAt(b, 0, n, 4) && BytesAt(b, 4, m.operation)
      && NumberAt(b, 4 + n, m.timestamp, 8) && NumberAt(b, 12 + n, m.clientId, 4)
  {
    hide Le, NumberAt;
    var t, u := Le(m.timestamp, 8), Le(m.clientId, 4);
    var b, n := PutRequest(m), |m.operation|;
    assert b == Le(n, 4) + (m.operation + t + u);
    NumberFirst(n, 4, m.operation + t + u);
    assert b == PutString(m.operation) + t + u;
    NumberIn(PutString(m.operation), m.timestamp, 8, u);
    NumberIn(PutString(m.operation) + t, m.clientId, 4, []);
    assert PutString(m.operation) + t + u + [] == b;
  }

  lemma ReplyLayout(m: ReplyMsg)
    ensures
      var b, n := PutReply(m), |m.result|;
      && |b| == n + 24
      && NumberAt(b, 0, m.view, 4) && NumberAt(b, 4, m.timestamp, 8) && NumberAt(b, 12, m.clientId, 4)
      && NumberAt(b, 16, m.replicaId, 4) && NumberAt(b, 20, n, 4) && BytesAt(b, 24, m.result)
  {
    hide Le, NumberAt;
    var v, t, u, r, l := Le(m.view, 4), Le(m.timestamp, 8), Le(m.clientId, 4), Le(m.replicaId, 4), Le(|m.result|, 4);
    var b := PutReply(m);
    assert b == v + (t + u + r + l + m.result) == v + t + (u + r + l + m.result) == v + t + u + (r + l + m.result)
             == v + t + u + r + (l + m.result) == v + t + u + r + l + m.result;
    NumberFirst(m.view, 4, t + u + r + l + m.result);
    NumberIn(v, m.timestamp, 8, u + r + l + m.result);
    NumberIn(v + t, m.clientId, 4, r + l + m.result);
    NumberIn(v + t + u, m.replicaId, 4, l + m.result);
    NumberIn(v + t + u + r, |m.result|, 4, m.result);
  }

  /** View, number and digest stand at the same places in PRE-PREPARE, PREPARE, COMMIT and proof. */
  lemma VoteLayout(view: nat, seqNum: nat, digest: Digest, rest: Bytes)
    ensures
      var b := Le(view, 4) + Le(seqNum, 8) + Le(digest, 32) + rest;
      && |b| == 44 + |rest| && BytesAt(b, 44, rest)
      && NumberAt(b, 0, view, 4) && NumberAt(b, 4, seqNum, 8) && NumberAt(b, 12, digest, 32)
  {
    hide Le, NumberAt;
    var v, n, d := Le(view, 4), Le(seqNum, 8), Le(digest, 32);
    var b := v + n + d + rest;
    assert b == v + (n + d + rest) == v + n + (d + rest);
    NumberFirst(view, 4, n + d + rest);
    NumberIn(v, seqNum, 8, d + rest);
    NumberIn(v + n, digest, 32, rest);
  }

  lemma PrePrepareLayout(m: PrePrepareMsg)
    ensures
      var b := PutPrePrepare(m);
      && NumberAt(b, 0, m.view, 4) && NumberAt(b, 4, m.seqNum, 8) && NumberAt(b, 12, m.digest, 32)
      && b[44..] == PutRequest(m.req)
  {
    hide Le, NumberAt;
    VoteLayout(m.view, m.seqNum, m.digest, PutRequest(m.req));
  }

  lemma PrepareLayout(m: PrepareMsg)
    ensures
      var b := PutPrepare(m);
      && |b| == 48
      && NumberAt(b, 0, m.view, 4) && NumberAt(b, 4, m.seqNum, 8) && NumberAt(b, 12, m.digest, 32)
      && NumberAt(b, 44, m.replicaId, 4)
  {
    hide Le, NumberAt;
    VoteLayout(m.view, m.seqNum, m.digest, Le(m.replicaId, 4));
    NumberIn(Le(m.view, 4) + Le(m.seqNum, 8) + Le(m.digest, 32), m.replicaId, 4, []);
    assert PutPrepare(m) + [] == PutPrepare(m);
  }

  lemma ProofLayout(m: PrepareProof)
    ensures
      var b := PutProof(m);
      |b| == 44 && NumberAt(b, 0, m.view, 4) && NumberAt(b, 4, m.seqNum, 8) && NumberAt(b, 12, m.digest, 32)
  {
    hide Le, NumberAt;
    VoteLayout(m.view, m.seqNum, m.digest, []);
    assert PutProof(m) + [] == PutProof(m);
  }

  lemma CheckpointLayout(m: CheckpointMsg)
    ensures
      var b := PutCheckpoint(m);
      |b| == 44 && NumberAt(b, 0, m.seqNum, 8) && NumberAt(b, 8, m.digest, 32) && NumberAt(b, 40, m.replicaId, 4)
  {
    hide Le, NumberAt;
    var s, d, r := Le(m.seqNum, 8), Le(m.digest, 32), Le(m.replicaId, 4);
    assert PutCheckpoint(m) == s + (d + r) == s + d + r + [];
    NumberFirst(m.seqNum, 8, d + r);
    NumberIn(s, m.digest, 32, r);
    NumberIn(s + d, m.replicaId, 4, []);
  }

  /** Elements follow each other in order. */
  lemma {:induction false} ElementAt<T>(put: T -> Bytes, xs: seq<T>, i: nat)
    requires i < |xs|
    ensures BytesAt(PutAll(put, xs), |PutAll(put, xs[..i])|, put(xs[i]))
  {
    var init := xs[..|xs| - 1];
    if i == |xs| - 1 {
      assert xs[..i] == init;
    } else {
      ElementAt(put, init, i);
      assert init[..i] == xs[..i];
      var at, p := |PutAll(put, xs[..i])|, put(xs[i]);
      assert PutAll(put, xs)[at..at + |p|] == PutAll(put, init)[at..at + |p|];
    }
  }

  /** A vector is its length and then its elements. */
  lemma VectorLayout<T>(put: T -> Bytes, xs: seq<T>)
    ensures
      var b := PutVector(put, xs);
      && NumberAt(b, 0, |xs|, 4) && |b| == 4 + |PutAll(put, xs)|
      && forall i :: 0 <= i < |xs| ==> BytesAt(b, 4 + |PutAll(put, xs[..i])|, put(xs[i]))
  {
    hide Le, NumberAt, PutAll;
    var b, all := PutVector(put, xs), PutAll(put, xs);
    NumberFirst(|xs|, 4, all);
    forall i | 0 <= i < |xs| ensures BytesAt(b, 4 + |PutAll(put, xs[..i])|, put(xs[i])) {
      ElementAt(put, xs, i);
      var at, p := |PutAll(put, xs[..i])|, put(xs[i]);
      assert b[4 + at..4 + at + |p|] == all[at..at + |p|];
    }
  }

  lemma ViewChangeLayout(m: ViewChangeMsg)
    ensures
      var b, C, P := PutViewChange(m), PutVector(PutCheckpoint, m.checkpointProof), PutVector(PutProof, m.preparedProofs);
      && NumberAt(b, 0, m.nextView, 8) && NumberAt(b, 8, m.lastStable, 8) && NumberAt(b, 16, m.replicaId, 4)
      && BytesAt(b, 20, C) && BytesAt(b, 20 + |C|, P) && |b| == 20 + |C| + |P|
  {
    hide Le, NumberAt, PutVector;
    var v, s, r := Le(m.nextView, 8), Le(m.lastStable, 8), Le(m.replicaId, 4);
    var C, P := PutVector(PutCheckpoint, m.checkpointProof), PutVector(PutProof, m.preparedProofs);
    assert PutViewChange(m) == v + (s + r + C + P) == v + s + (r + C + P) == v + s + r + (C + P) == v + s + r + C + P;
    NumberFirst(m.nextView, 8, s + r + C + P);
    NumberIn(v, m.lastStable, 8, r + C + P);
    NumberIn(v + s, m.replicaId, 4, C + P);
  }

  lemma NewViewLayout(m: NewViewMsg)
    ensures
      var b, V, O := PutNewView(m), PutVector(PutViewChange, m.viewChanges), PutVector(PutPrePrepare, m.prePrepares);
      NumberAt(b, 0, m.nextView, 8) && BytesAt(b, 8, V) && BytesAt(b, 8 + |V|, O) && |b| == 8 + |V| + |O|
  {
    hide Le, NumberAt, PutVector;
    var V, O := PutVector(PutViewChange, m.viewChanges), PutVector(PutPrePrepare, m.prePrepares);
    assert PutNewView(m) == Le(m.nextView, 8) + (V + O);
    NumberFirst(m.nextView, 8, V + O);
  }
}
