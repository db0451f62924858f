/**
 * The wire format of include/pbft/messages.hh and include/pbft/serialization.hh:
 * fixed-width little-endian numbers, and strings and vectors after a 32-bit count.
 */
module Codec {
  import opened Messages

  /** The outcome of reading from a stream: running out of bytes fails. */
  datatype Parsed<+T> = Failed | Parsed(value: T, rest: Bytes) {
    predicate IsFailure() { Failed? }
    function PropagateFailure<U>(): Parsed<U> requires Failed? { Failed }
    function Extract(): (T, Bytes) requires Parsed? { (value, rest) }
  }

  // ---------------------------------------------------------------- numbers

  function Pow256(w: nat): (p: nat)
    ensures p > 0
  {
    if w == 0 then 1 else 256 * Pow256(w - 1)
  }

  /** The low w bytes of x, least significant first; a cast to a narrower type cuts off the rest. */
  function Le(x: nat, w: nat): (b: Bytes)
    ensures |b| == w
  {
    if w == 0 then [] else [x % 256] + Le(x / 256, w - 1)
  }

  function FromLe(b: Bytes): (x: nat)
    ensures x < Pow256(|b|)
  {
    if b == [] then 0 else b[0] + 256 * FromLe(b[1..])
  }

  lemma {:induction false} LeRoundTrip(x: nat, w: nat)
    ensures FromLe(Le(x, w)) == x % Pow256(w)
  {
    if w > 0 {
      LeRoundTrip(x / 256, w - 1);
      assert Le(x, w)[1..] == Le(x / 256, w - 1);
      ModSplit(x, Pow256(w - 1));
    }
  }

  /** x mod 256p from its last byte and the rest. */
  lemma ModSplit(x: nat, p: nat)
    requires p > 0
    ensures x % (256 * p) == x % 256 + 256 * ((x / 256) % p)
  {
    var q, r := x / 256 / p, (x / 256) % p;
    assert x / 256 == q * p + r;
    assert x == 256 * (x / 256) + x % 256;
    var low := x % 256 + 256 * r;
    assert 256 * (q * p) == q * (256 * p);
    assert x == q * (256 * p) + low;
    assert 0 <= low < 256 * p by {
      assert r <= p - 1;
    }
    ModUnique(x, 256 * p, q, low);
  }

  lemma ModUnique(x: nat, m: nat, q: nat, r: nat)
    requires m > 0 && r < m && x == q * m + r
    ensures x % m == r
  {
    var q', r' := x / m, x % m;
    if q < q' {
      MulGap(q, q', m);
    } else if q' < q {
      MulGap(q', q, m);
    }
  }

  /** Multiples of m with different factors are at least m apart. */
  lemma MulGap(a: nat, b: nat, m: nat)
    requires a < b
    ensures a * m + m <= b * m
  {
    assert b * m == a * m + (b - a) * m;
    assert (b - a) * m == m + (b - a - 1) * m;
  }

  predicate Expressible(x: nat, w: nat) {
    x < Pow256(w)
  }

  lemma ExpressibleMod(x: nat, w: nat)
    requires Expressible(x, w)
    ensures x % Pow256(w) == x
  {
    ModUnique(x, Pow256(w), 0, x);
  }

  function GetInt(b: Bytes, w: nat): (r: Parsed<nat>)
    ensures r.Parsed? ==> Expressible(r.value, w)
  {
    if |b| < w then Failed else Parsed(FromLe(b[..w]), b[w..])
  }

  lemma IntRoundTrip(x: nat, w: nat, rest: Bytes)
    ensures GetInt(Le(x, w) + rest, w) == Parsed(x % Pow256(w), rest)
    ensures Expressible(x, w) ==> GetInt(Le(x, w) + rest, w) == Parsed(x, rest)
  {
    var b := Le(x, w) + rest;
    assert b[..w] == Le(x, w) && b[w..] == rest;
    LeRoundTrip(x, w);
    if Expressible(x, w) {
      ExpressibleMod(x, w);
    }
  }

  // ---------------------------------------------------------------- strings

  function PutString(s: Bytes): Bytes {
    Le(|s|, 4) + s
  }

  function GetString(b: Bytes): (r: Parsed<Bytes>)
    ensures r.Parsed? ==> Expressible(|r.value|, 4)
  {
    var (n, b1) :- GetInt(b, 4);
    if |b1| < n then Failed else Parsed(b1[..n], b1[n..])
  }

  lemma StringRoundTrip(s: Bytes, rest: Bytes)
    requires Expressible(|s|, 4)
    ensures GetString(PutString(s) + rest) == Parsed(s, rest)
  {
    IntRoundTrip(|s|, 4, s + rest);
    assert PutString(s) + rest == Le(|s|, 4) + (s + rest);
    assert (s + rest)[..|s|] == s && (s + rest)[|s|..] == rest;
  }

  // ---------------------------------------------------------------- vectors

  function PutAll<T>(put: T -> Bytes, xs: seq<T>): Bytes {
    if xs == [] then [] else PutAll(put, xs[..|xs| - 1]) + put(xs[|xs| - 1])
  }

  function GetAll<T>(get: Bytes -> Parsed<T>, n: nat, b: Bytes): (r: Parsed<seq<T>>)
    ensures r.Parsed? ==> |r.value| == n
  {
    if n == 0 then Parsed([], b) else
      var (xs, b1) :- GetAll(get, n - 1, b);
      var (x, b2) :- get(b1);
      Parsed(xs + [x], b2)
  }

  function PutVector<T>(put: T -> Bytes, xs: seq<T>): Bytes {
    Le(|xs|, 4) + PutAll(put, xs)
  }

  function GetVector<T>(get: Bytes -> Parsed<T>, b: Bytes): (r: Parsed<seq<T>>)
    ensures r.Parsed? ==> Expressible(|r.value|, 4)
  {
    var (n, b1) :- GetInt(b, 4);
    GetAll(get, n, b1)
  }

  /** Reading back each element of xs restores it, whatever follows. */
  ghost predicate Restores<T(!new)>(put: T -> Bytes, get: Bytes -> Parsed<T>, x: T) {
    forall rest :: get(put(x) + rest) == Parsed(x, rest)
  }

  lemma {:induction false} AllRoundTrip<T(!new)>(put: T -> Bytes, get: Bytes -> Parsed<T>, xs: seq<T>, rest: Bytes)
    requires forall i :: 0 <= i < |xs| ==> Restores(put, get, xs[i])
    ensures GetAll(get, |xs|, PutAll(put, xs) + rest) == Parsed(xs, rest)
  {
    if xs == [] {
      assert PutAll(put, xs) + rest == rest;
    } else {
      var init, x := xs[..|xs| - 1], xs[|xs| - 1];
      AllRoundTrip(put, get, init, put(x) + rest);
      assert PutAll(put, xs) + rest == PutAll(put, init) + (put(x) + rest);
      assert Restores(put, get, x);
      assert get(put(x) + rest) == Parsed(x, rest);
      assert init + [x] == xs;
    }
  }

  lemma VectorRoundTrip<T(!new)>(put: T -> Bytes, get: Bytes -> Parsed<T>, xs: seq<T>, rest: Bytes)
    requires Expressible(|xs|, 4)
    requires forall i :: 0 <= i < |xs| ==> Restores(put, get, xs[i])
    ensures GetVector(get, PutVector(put, xs) + rest) == Parsed(xs, rest)
  {
    IntRoundTrip(|xs|, 4, PutAll(put, xs) + rest);
    assert PutVector(put, xs) + rest == Le(|xs|, 4) + (PutAll(put, xs) + rest);
    AllRoundTrip(put, get, xs, rest);
  }

  /** What every single reading guarantees holds of all elements read. */
  lemma {:induction false} AllSatisfy<T(!new)>(get: Bytes -> Parsed<T>, ok: T -> bool, n: nat, b: Bytes)
    requires forall s :: get(s).Parsed? ==> ok(get(s).value)
    requires GetAll(get, n, b).Parsed?
    ensures forall i :: 0 <= i < n ==> ok(GetAll(get, n, b).value[i])
  {
    if n > 0 {
      AllSatisfy(get, ok, n - 1, b);
    }
  }

  // ---------------------------------------------------------------- messages

  function PutRequest(m: RequestMsg): Bytes {
    PutString(m.operation) + Le(m.timestamp, 8) + Le(m.clientId, 4)
  }

  function GetRequest(b: Bytes): Parsed<RequestMsg> {
    var (operation, b1) :- GetString(b);
    var (timestamp, b2) :- GetInt(b1, 8);
    var (clientId, b3) :- GetInt(b2, 4);
    Parsed(RequestMsg(operation, timestamp, clientId), b3)
  }

  function PutReply(m: ReplyMsg): Bytes {
    Le(m.view, 4) + Le(m.timestamp, 8) + Le(m.clientId, 4) + Le(m.replicaId, 4) + PutString(m.result)
  }

  function GetReply(b: Bytes): Parsed<ReplyMsg> {
    var (view, b1) :- GetInt(b, 4);
    var (timestamp, b2) :- GetInt(b1, 8);
    var (clientId, b3) :- GetInt(b2, 4);
    var (replicaId, b4) :- GetInt(b3, 4);
    var (result, b5) :- GetString(b4);
    Parsed(ReplyMsg(view, timestamp, clientId, replicaId, result), b5)
  }

  function PutPrePrepare(m: PrePrepareMsg): Bytes {
    Le(m.view, 4) + Le(m.seqNum, 8) + Le(m.digest, 32) + PutRequest(m.req)
  }

  function GetPrePrepare(b: Bytes): Parsed<PrePrepareMsg> {
    var (view, b1) :- GetInt(b, 4);
    var (seqNum, b2) :- GetInt(b1, 8);
    var (digest, b3) :- GetInt(b2, 32);
    var (req, b4) :- GetRequest(b3);
    Parsed(PrePrepareMsg(view, seqNum, digest, req), b4)
  }

  /** PREPARE; a COMMIT has the same layout. */
  function PutPrepare(m: PrepareMsg): Bytes {
    Le(m.view, 4) + Le(m.seqNum, 8) + Le(m.digest, 32) + Le(m.replicaId, 4)
  }

  function GetPrepare(b: Bytes): Parsed<PrepareMsg> {
    var (view, b1) :- GetInt(b, 4);
    var (seqNum, b2) :- GetInt(b1, 8);
    var (digest, b3) :- GetInt(b2, 32);
    var (replicaId, b4) :- GetInt(b3, 4);
    Parsed(PrepareMsg(view, seqNum, digest, replicaId), b4)
  }

  function PutCheckpoint(m: CheckpointMsg): Bytes {
    Le(m.seqNum, 8) + Le(m.digest, 32) + Le(m.replicaId, 4)
  }

  function GetCheckpoint(b: Bytes): Parsed<CheckpointMsg> {
    var (seqNum, b1) :- GetInt(b, 8);
    var (digest, b2) :- GetInt(b1, 32);
    var (replicaId, b3) :- GetInt(b2, 4);
    Parsed(CheckpointMsg(seqNum, digest, replicaId), b3)
  }

  /** The set of preparing replicas is not part of the wire format. */
  function PutProof(m: PrepareProof): Bytes {
    Le(m.view, 4) + Le(m.seqNum, 8) + Le(m.digest, 32)
  }

  function GetProof(b: Bytes): Parsed<PrepareProof> {
    var (view, b1) :- GetInt(b, 4);
    var (seqNum, b2) :- GetInt(b1, 8);
    var (digest, b3) :- GetInt(b2, 32);
    Parsed(PrepareProof(view, seqNum, digest), b3)
  }

  function PutViewChange(m: ViewChangeMsg): Bytes {
    Le(m.nextView, 8) + Le(m.lastStable, 8) + Le(m.replicaId, 4) +
    PutVector(PutCheckpoint, m.checkpointProof) + PutVector(PutProof, m.preparedProofs)
  }

  function GetViewChange(b: Bytes): Parsed<ViewChangeMsg> {
    var (nextView, b1) :- GetInt(b, 8);
    var (lastStable, b2) :- GetInt(b1, 8);
    var (replicaId, b3) :- GetInt(b2, 4);
    var (C, b4) :- GetVector(GetCheckpoint, b3);
    var (P, b5) :- GetVector(GetProof, b4);
    Parsed(ViewChangeMsg(nextView, lastStable, replicaId, C, P), b5)
  }

  function PutNewView(m: NewViewMsg): Bytes {
    Le(m.nextView, 8) + PutVector(PutViewChange, m.viewChanges) + PutVector(PutPrePrepare, m.prePrepares)
  }

  function GetNewView(b: Bytes): Parsed<NewViewMsg> {
    var (nextView, b1) :- GetInt(b, 8);
    var (V, b2) :- GetVector(GetViewChange, b1);
    var (O, b3) :- GetVector(GetPrePrepare, b2);
    Parsed(NewViewMsg(nextView, V, O), b3)
  }

  // ---------------------------------------------------------------- widths and sizes

  /** The widths of the fields, which the C++ types guarantee. */
  predicate TypedRequest(m: RequestMsg) {
    Expressible(m.timestamp, 8) && Expressible(m.clientId, 4)
  }

  predicate TypedReply(m: ReplyMsg) {
    Expressible(m.view, 4) && Expressible(m.timestamp, 8) && Expressible(m.clientId, 4) && Expressible(m.replicaId, 4)
  }

  predicate TypedPrePrepare(m: PrePrepareMsg) {
    Expressible(m.view, 4) && Expressible(m.seqNum, 8) && Expressible(m.digest, 32) && TypedRequest(m.req)
  }

  predicate TypedPrepare(m: PrepareMsg) {
    Expressible(m.view, 4) && Expressible(m.seqNum, 8) && Expressible(m.digest, 32) && Expressible(m.replicaId, 4)
  }

  predicate TypedCheckpoint(m: CheckpointMsg) {
    Expressible(m.seqNum, 8) && Expressible(m.digest, 32) && Expressible(m.replicaId, 4)
  }

  predicate TypedProof(m: PrepareProof) {
    Expressible(m.view, 4) && Expressible(m.seqNum, 8) && Expressible(m.digest, 32)
  }

  predicate TypedViewChange(m: ViewChangeMsg) {
    && Expressible(m.nextView, 8) && Expressible(m.lastStable, 8) && Expressible(m.replicaId, 4)
    && (forall i :: 0 <= i < |m.checkpointProof| ==> TypedCheckpoint(m.checkpointProof[i]))
    && (forall i :: 0 <= i < |m.preparedProofs| ==> TypedProof(m.preparedProofs[i]))
  }

  predicate TypedNewView(m: NewViewMsg) {
    && Expressible(m.nextView, 8)
    && (forall i :: 0 <= i < |m.viewChanges| ==> TypedViewChange(m.viewChanges[i]))
    && (forall i :: 0 <= i < |m.prePrepares| ==> TypedPrePrepare(m.prePrepares[i]))
  }

  /** The sizes that a 32-bit count can express, which nothing guarantees. */
  predicate SizedRequest(m: RequestMsg) { Expressible(|m.operation|, 4) }

  predicate SizedReply(m: ReplyMsg) { Expressible(|m.result|, 4) }

  predicate SizedPrePrepare(m: PrePrepareMsg) { SizedRequest(m.req) }

  predicate SizedViewChange(m: ViewChangeMsg) {
    Expressible(|m.checkpointProof|, 4) && Expressible(|m.preparedProofs|, 4)
  }

  predicate SizedNewView(m: NewViewMsg) {
    && Expressible(|m.viewChanges|, 4) && Expressible(|m.prePrepares|, 4)
    && (forall i :: 0 <= i < |m.viewChanges| ==> SizedViewChange(m.viewChanges[i]))
    && (forall i :: 0 <= i < |m.prePrepares| ==> SizedPrePrepare(m.prePrepares[i]))
  }

  // ---------------------------------------------------------------- round trips

  /**
   * A request survives the wire exactly when its operation is shorter than 2^32 bytes:
   * a longer one is written whole under a truncated count.
   */
  lemma RequestRoundTrip(m: RequestMsg, rest: Bytes)
    requires TypedRequest(m)
    ensures GetRequest(PutRequest(m) + rest) == Parsed(m, rest) <==> SizedRequest(m)
  {
    hide Le, FromLe, Pow256;
    if SizedRequest(m) {
      var b2 := Le(m.clientId, 4) + rest;
      var b1 := Le(m.timestamp, 8) + b2;
      assert PutRequest(m) + rest == PutString(m.operation) + b1;
      StringRoundTrip(m.operation, b1);
      IntRoundTrip(m.timestamp, 8, b2);
      IntRoundTrip(m.clientId, 4, rest);
    }
  }

  lemma ReplyRoundTrip(m: ReplyMsg, rest: Bytes)
    requires TypedReply(m)
    ensures GetReply(PutReply(m) + rest) == Parsed(m, rest) <==> SizedReply(m)
  {
    hide Le, FromLe, Pow256, PutString;
    if SizedReply(m) {
      var b4 := PutString(m.result) + rest;
      var b3 := Le(m.replicaId, 4) + b4;
      var b2 := Le(m.clientId, 4) + b3;
      var b1 := Le(m.timestamp, 8) + b2;
      assert PutReply(m) + rest == Le(m.view, 4) + b1;
      IntRoundTrip(m.view, 4, b1);
      IntRoundTrip(m.timestamp, 8, b2);
      IntRoundTrip(m.clientId, 4, b3);
      IntRoundTrip(m.replicaId, 4, b4);
      StringRoundTrip(m.result, rest);
    }
  }

  lemma PrePrepareRoundTrip(m: PrePrepareMsg, rest: Bytes)
    requires TypedPrePrepare(m)
    ensures GetPrePrepare(PutPrePrepare(m) + rest) == Parsed(m, rest) <==> SizedPrePrepare(m)
  {
    hide Le, FromLe, Pow256, PutRequest;
    var b3 := PutRequest(m.req) + rest;
    var b2 := Le(m.digest, 32) + b3;
    var b1 := Le(m.seqNum, 8) + b2;
    assert PutPrePrepare(m) + rest == Le(m.view, 4) + b1;
    IntRoundTrip(m.view, 4, b1);
    IntRoundTrip(m.seqNum, 8, b2);
    IntRoundTrip(m.digest, 32, b3);
    RequestRoundTrip(m.req, rest);
  }

  lemma PrepareRoundTrip(m: PrepareMsg, rest: Bytes)
    requires TypedPrepare(m)
    ensures GetPrepare(PutPrepare(m) + rest) == Parsed(m, rest)
  {
    hide Le, FromLe, Pow256;
    var b3 := Le(m.replicaId, 4) + rest;
    var b2 := Le(m.digest, 32) + b3;
    var b1 := Le(m.seqNum, 8) + b2;
    assert PutPrepare(m) + rest == Le(m.view, 4) + b1;
    IntRoundTrip(m.view, 4, b1);
    IntRoundTrip(m.seqNum, 8, b2);
    IntRoundTrip(m.digest, 32, b3);
    IntRoundTrip(m.replicaId, 4, rest);
  }

  lemma CheckpointRoundTrip(m: CheckpointMsg, rest: Bytes)
    requires TypedCheckpoint(m)
    ensures GetCheckpoint(PutCheckpoint(m) + rest) == Parsed(m, rest)
  {
    hide Le, FromLe, Pow256;
    var b2 := Le(m.replicaId, 4) + rest;
    var b1 := Le(m.digest, 32) + b2;
    assert PutCheckpoint(m) + rest == Le(m.seqNum, 8) + b1;
    IntRoundTrip(m.seqNum, 8, b1);
    IntRoundTrip(m.digest, 32, b2);
    IntRoundTrip(m.replicaId, 4, rest);
  }

  lemma ProofRoundTrip(m: PrepareProof, rest: Bytes)
    requires TypedProof(m)
    ensures GetProof(PutProof(m) + rest) == Parsed(m, rest)
  {
    hide Le, FromLe, Pow256;
    var b2 := Le(m.digest, 32) + rest;
    var b1 := Le(m.seqNum, 8) + b2;
    assert PutProof(m) + rest == Le(m.view, 4) + b1;
    IntRoundTrip(m.view, 4, b1);
    IntRoundTrip(m.seqNum, 8, b2);
    IntRoundTrip(m.digest, 32, rest);
  }

  lemma ViewChangeForth(m: ViewChangeMsg, rest: Bytes)
    requires TypedViewChange(m) && SizedViewChange(m)
    ensures GetViewChange(PutViewChange(m) + rest) == Parsed(m, rest)
  {
    hide Le, FromLe, Pow256, PutCheckpoint, GetCheckpoint, PutProof, GetProof, PutVector, GetVector;
    var b4 := PutVector(PutProof, m.preparedProofs) + rest;
    var b3 := PutVector(PutCheckpoint, m.checkpointProof) + b4;
    var b2 := Le(m.replicaId, 4) + b3;
    var b1 := Le(m.lastStable, 8) + b2;
    assert PutViewChange(m) + rest == Le(m.nextView, 8) + b1;
    IntRoundTrip(m.nextView, 8, b1);
    IntRoundTrip(m.lastStable, 8, b2);
    IntRoundTrip(m.replicaId, 4, b3);
    forall i, r | 0 <= i < |m.checkpointProof|
      ensures GetCheckpoint(PutCheckpoint(m.checkpointProof[i]) + r) == Parsed(m.checkpointProof[i], r)
    {
      CheckpointRoundTrip(m.checkpointProof[i], r);
    }
    forall i, r | 0 <= i < |m.preparedProofs|
      ensures GetProof(PutProof(m.preparedProofs[i]) + r) == Parsed(m.preparedProofs[i], r)
    {
      ProofRoundTrip(m.preparedProofs[i], r);
    }
    VectorRoundTrip(PutCheckpoint, GetCheckpoint, m.checkpointProof, b4);
    VectorRoundTrip(PutProof, GetProof, m.preparedProofs, rest);
  }

  /** A view change survives exactly when both its vectors have fewer than 2^32 elements. */
  lemma ViewChangeRoundTrip(m: ViewChangeMsg, rest: Bytes)
    requires TypedViewChange(m)
    ensures GetViewChange(PutViewChange(m) + rest) == Parsed(m, rest) <==> SizedViewChange(m)
  {
    if SizedViewChange(m) {
      ViewChangeForth(m, rest);
    } else {
      ViewChangeSized(PutViewChange(m) + rest);
    }
  }

  lemma ViewChangeSized(b: Bytes)
    ensures GetViewChange(b).Parsed? ==> SizedViewChange(GetViewChange(b).value)
  {
    hide GetInt, Expressible;
  }

  lemma NewViewForth(m: NewViewMsg, rest: Bytes)
    requires TypedNewView(m) && SizedNewView(m)
    ensures GetNewView(PutNewView(m) + rest) == Parsed(m, rest)
  {
    hide Le, FromLe, Pow256, PutViewChange, GetViewChange, PutPrePrepare, GetPrePrepare, PutVector, GetVector;
    var b2 := PutVector(PutPrePrepare, m.prePrepares) + rest;
    var b1 := PutVector(PutViewChange, m.viewChanges) + b2;
    assert PutNewView(m) + rest == Le(m.nextView, 8) + b1;
    IntRoundTrip(m.nextView, 8, b1);
    forall i, r | 0 <= i < |m.viewChanges|
      ensures GetViewChange(PutViewChange(m.viewChanges[i]) + r) == Parsed(m.viewChanges[i], r)
    {
      ViewChangeForth(m.viewChanges[i], r);
    }
    forall i, r | 0 <= i < |m.prePrepares|
      ensures GetPrePrepare(PutPrePrepare(m.prePrepares[i]) + r) == Parsed(m.prePrepares[i], r)
    {
      PrePrepareRoundTrip(m.prePrepares[i], r);
    }
    VectorRoundTrip(PutViewChange, GetViewChange, m.viewChanges, b2);
    VectorRoundTrip(PutPrePrepare, GetPrePrepare, m.prePrepares, rest);
  }

  lemma VectorSatisfies<T(!new)>(get: Bytes -> Parsed<T>, ok: T -> bool, b: Bytes)
    requires forall s :: get(s).Parsed? ==> ok(get(s).value)
    requires GetVector(get, b).Parsed?
    ensures forall i :: 0 <= i < |GetVector(get, b).value| ==> ok(GetVector(get, b).value[i])
  {
    AllSatisfy(get, ok, GetInt(b, 4).value, GetInt(b, 4).rest);
  }

  lemma NewViewSized(b: Bytes)
    ensures GetNewView(b).Parsed? ==> SizedNewView(GetNewView(b).value)
  {
    hide GetInt, GetVector, GetViewChange, GetPrePrepare, SizedViewChange, SizedPrePrepare, Expressible;
    if GetNewView(b).Parsed? {
      forall s ensures GetViewChange(s).Parsed? ==> SizedViewChange(GetViewChange(s).value) {
        ViewChangeSized(s);
      }
      forall s ensures GetPrePrepare(s).Parsed? ==> SizedPrePrepare(GetPrePrepare(s).value) {
        PrePrepareSized(s);
      }
      var b1 := GetInt(b, 8).rest;
      VectorSatisfies(GetViewChange, SizedViewChange, b1);
      VectorSatisfies(GetPrePrepare, SizedPrePrepare, GetVector(GetViewChange, b1).rest);
    }
  }

  lemma PrePrepareSized(b: Bytes)
    ensures GetPrePrepare(b).Parsed? ==> SizedPrePrepare(GetPrePrepare(b).value)
  {
    hide GetInt, Expressible;
  }

  /**
   * A NEW-VIEW survives the wire, with everything nested in it and whatever follows it,
   * exactly when all its vectors and strings are shorter than 2^32.
   */
  lemma NewViewRoundTrip(m: NewViewMsg, rest: Bytes)
    requires TypedNewView(m)
    ensures GetNewView(PutNewView(m) + rest) == Parsed(m, rest) <==> SizedNewView(m)
  {
    if SizedNewView(m) {
      NewViewForth(m, rest);
    } else {
      NewViewSized(PutNewView(m) + rest);
    }
  }

  /** Distinct requests have distinct encodings, so an injective hash tells them apart. */
  lemma RequestsDiffer(m: RequestMsg, m': RequestMsg)
    requires TypedRequest(m) && SizedRequest(m) && TypedRequest(m') && SizedRequest(m')
    requires PutRequest(m) == PutRequest(m')
    ensures m == m'
  {
    RequestRoundTrip(m, []);
    RequestRoundTrip(m', []);
  }
}
