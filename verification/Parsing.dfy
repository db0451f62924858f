/**
 * Parsers accept nothing but encodings: what they return encodes to exactly the bytes they
 * consumed. With the round trips of Codec.dfy this says when parsing succeeds and with what.
 */
module Parsing {
  import opened Messages
  import opened Codec

  /** The outcome, if any, accounts for all of b. */
  ghost predicate Accounts<T>(put: T -> Bytes, b: Bytes, r: Parsed<T>) {
    r.Parsed? ==> b == put(r.value) + r.rest
  }

  lemma {:induction false} BytesOfNumber(b: Bytes)
    ensures Le(FromLe(b), |b|) == b
  {
    if b != [] {
      var x := FromLe(b[1..]);
      assert FromLe(b) == b[0] + 256 * x;
      assert FromLe(b) % 256 == b[0] && FromLe(b) / 256 == x;
      BytesOfNumber(b[1..]);
    }
  }

  lemma IntAccounts(b: Bytes, w: nat)
    ensures GetInt(b, w).Parsed? ==> b == Le(GetInt(b, w).value, w) + GetInt(b, w).rest
    ensures GetInt(b, w).Parsed? <==> |b| >= w
  {
    if |b| >= w {
      BytesOfNumber(b[..w]);
    }
  }

  lemma StringAccounts(b: Bytes)
    ensures Accounts(PutString, b, GetString(b))
  {
    hide Le, FromLe;
    IntAccounts(b, 4);
    var n := GetInt(b, 4);
    hide GetInt;
    if n.Parsed? && |n.rest| >= n.value {
      assert n.rest == n.rest[..n.value] + n.rest[n.value..];
    }
  }

  lemma {:induction false} AllAccounts<T(!new)>(put: T -> Bytes, get: Bytes -> Parsed<T>, n: nat, b: Bytes)
    requires forall s :: Accounts(put, s, get(s))
    requires GetAll(get, n, b).Parsed?
    ensures b == PutAll(put, GetAll(get, n, b).value) + GetAll(get, n, b).rest
  {
    if n > 0 {
      AllAccounts(put, get, n - 1, b);
      var a := GetAll(get, n - 1, b);
      var x := get(a.rest);
      assert Accounts(put, a.rest, x);
      var xs := a.value + [x.value];
      assert xs[..|xs| - 1] == a.value;
      assert b == PutAll(put, a.value) + put(x.value) + x.rest;
    }
  }

  lemma VectorAccounts<T(!new)>(put: T -> Bytes, get: Bytes -> Parsed<T>, b: Bytes)
    requires forall s :: Accounts(put, s, get(s))
    ensures GetVector(get, b).Parsed? ==> b == PutVector(put, GetVector(get, b).value) + GetVector(get, b).rest
  {
    hide Le, FromLe;
    IntAccounts(b, 4);
    var n := GetInt(b, 4);
    hide GetInt, PutAll;
    if GetVector(get, b).Parsed? {
      AllAccounts(put, get, n.value, n.rest);
      var r := GetAll(get, n.value, n.rest);
      assert b == Le(n.value, 4) + PutAll(put, r.value) + r.rest;
    }
  }

  lemma RequestAccounts(b: Bytes)
    ensures Accounts(PutRequest, b, GetRequest(b))
  {
    hide Le, FromLe, PutString;
    var r := GetRequest(b);
    if r.Parsed? {
      StringAccounts(b);
      var b1 := GetString(b).rest;
      IntAccounts(b1, 8);
      var b2 := GetInt(b1, 8).rest;
      IntAccounts(b2, 4);
      hide GetInt, GetString;
      assert b == PutString(r.value.operation) + b1;
      assert b1 == Le(r.value.timestamp, 8) + b2;
      assert b2 == Le(r.value.clientId, 4) + r.rest;
    }
  }

  lemma ReplyAccounts(b: Bytes)
    ensures Accounts(PutReply, b, GetReply(b))
  {
    hide Le, FromLe, PutString;
    var r := GetReply(b);
    if r.Parsed? {
      IntAccounts(b, 4);
      var b1 := GetInt(b, 4).rest;
      IntAccounts(b1, 8);
      var b2 := GetInt(b1, 8).rest;
      IntAccounts(b2, 4);
      var b3 := GetInt(b2, 4).rest;
      IntAccounts(b3, 4);
      var b4 := GetInt(b3, 4).rest;
      StringAccounts(b4);
      hide GetInt, GetString;
      assert b == Le(r.value.view, 4) + b1;
      assert b1 == Le(r.value.timestamp, 8) + b2;
      assert b2 == Le(r.value.clientId, 4) + b3;
      assert b3 == Le(r.value.replicaId, 4) + b4;
      assert b4 == PutString(r.value.result) + r.rest;
    }
  }

  /** View, number and digest at the head of several messages. */
  lemma HeadAccounts(b: Bytes)
    ensures |b| >= 44 ==>
      var b1 := GetInt(b, 4).rest;
      var b2 := GetInt(b1, 8).rest;
      && GetInt(b, 4).Parsed? && GetInt(b1, 8).Parsed? && GetInt(b2, 32).Parsed?
      && b == Le(GetInt(b, 4).value, 4) + Le(GetInt(b1, 8).value, 8) + Le(GetInt(b2, 32).value, 32) + GetInt(b2, 32).rest
  {
    hide Le, FromLe;
    if |b| >= 44 {
      IntAccounts(b, 4);
      var b1 := GetInt(b, 4).rest;
      IntAccounts(b1, 8);
      var b2 := GetInt(b1, 8).rest;
      IntAccounts(b2, 32);
      hide GetInt;
      assert b == Le(GetInt(b, 4).value, 4) + b1;
      assert b1 == Le(GetInt(b1, 8).value, 8) + b2;
      assert b2 == Le(GetInt(b2, 32).value, 32) + GetInt(b2, 32).rest;
    }
  }

  lemma PrePrepareAccounts(b: Bytes)
    ensures Accounts(PutPrePrepare, b, GetPrePrepare(b))
  {
    hide Le, FromLe, PutRequest, GetRequest;
    var r := GetPrePrepare(b);
    if r.Parsed? {
      HeadAccounts(b);
      RequestAccounts(GetInt(GetInt(GetInt(b, 4).rest, 8).rest, 32).rest);
    }
  }

  lemma PrepareAccounts(b: Bytes)
    ensures Accounts(PutPrepare, b, GetPrepare(b))
  {
    hide Le, FromLe;
    var r := GetPrepare(b);
    if r.Parsed? {
      HeadAccounts(b);
      IntAccounts(GetInt(GetInt(GetInt(b, 4).rest, 8).rest, 32).rest, 4);
    }
  }

  lemma ProofAccounts(b: Bytes)
    ensures Accounts(PutProof, b, GetProof(b))
  {
    hide Le, FromLe;
    if GetProof(b).Parsed? {
      HeadAccounts(b);
    }
  }

  lemma CheckpointAccounts(b: Bytes)
    ensures Accounts(PutCheckpoint, b, GetCheckpoint(b))
  {
    hide Le, FromLe;
    var r := GetCheckpoint(b);
    if r.Parsed? {
      IntAccounts(b, 8);
      var b1 := GetInt(b, 8).rest;
      IntAccounts(b1, 32);
      var b2 := GetInt(b1, 32).rest;
      IntAccounts(b2, 4);
      hide GetInt;
      assert b == Le(r.value.seqNum, 8) + b1;
      assert b1 == Le(r.value.digest, 32) + b2;
      assert b2 == Le(r.value.replicaId, 4) + r.rest;
    }
  }

  lemma ViewChangeAccounts(b: Bytes)
    ensures Accounts(PutViewChange, b, GetViewChange(b))
  {
    hide Le, FromLe, PutVector, GetVector, GetCheckpoint, PutCheckpoint, GetProof, PutProof;
    var r := GetViewChange(b);
    if r.Parsed? {
      IntAccounts(b, 8);
      var b1 := GetInt(b, 8).rest;
      IntAccounts(b1, 8);
      var b2 := GetInt(b1, 8).rest;
      IntAccounts(b2, 4);
      var b3 := GetInt(b2, 4).rest;
      hide GetInt;
      forall s ensures Accounts(PutCheckpoint, s, GetCheckpoint(s)) && Accounts(PutProof, s, GetProof(s)) {
        CheckpointAccounts(s);
        ProofAccounts(s);
      }
      hide Accounts;
      VectorAccounts(PutCheckpoint, GetCheckpoint, b3);
      var b4 := GetVector(GetCheckpoint, b3).rest;
      VectorAccounts(PutProof, GetProof, b4);
      assert b == Le(r.value.nextView, 8) + b1;
      assert b1 == Le(r.value.lastStable, 8) + b2;
      assert b2 == Le(r.value.replicaId, 4) + b3;
      assert b3 == PutVector(PutCheckpoint, r.value.checkpointProof) + b4;
      assert b4 == PutVector(PutProof, r.value.preparedProofs) + r.rest;
      assert b == PutViewChange(r.value) + r.rest;
    }
    assert r.Parsed? ==> b == PutViewChange(r.value) + r.rest;
  }

  lemma NewViewAccounts(b: Bytes)
    ensures Accounts(PutNewView, b, GetNewView(b))
  {
    hide Le, FromLe, PutVector, GetVector, GetViewChange, PutViewChange, GetPrePrepare, PutPrePrepare;
    var r := GetNewView(b);
    if r.Parsed? {
      IntAccounts(b, 8);
      var b1 := GetInt(b, 8).rest;
      hide GetInt;
      forall s ensures Accounts(PutViewChange, s, GetViewChange(s)) && Accounts(PutPrePrepare, s, GetPrePrepare(s)) {
        ViewChangeAccounts(s);
        PrePrepareAccounts(s);
      }
      VectorAccounts(PutViewChange, GetViewChange, b1);
      var b2 := GetVector(GetViewChange, b1).rest;
      VectorAccounts(PutPrePrepare, GetPrePrepare, b2);
      assert b == Le(r.value.nextView, 8) + b1;
      assert b1 == PutVector(PutViewChange, r.value.viewChanges) + b2;
      assert b2 == PutVector(PutPrePrepare, r.value.prePrepares) + r.rest;
    }
  }
}
