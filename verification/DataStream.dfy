/**
 * The stream operators as they are written: appending to and consuming a byte buffer
 * field by field, with loops over strings and vectors. Proved against Codec.
 */
module DataStreams {
  import opened Messages
  import opened Codec

  /** What reading from a buffer with outcome p must return and leave. */
  ghost predicate Reads<T>(p: Parsed<T>, r: Option<T>, data: Bytes) {
    match p
    case Failed => r == None
    case Parsed(v, rest) => r == Some(v) && data == rest
  }

  /** A vector cannot be read if a prefix of it cannot. */
  lemma {:induction false} FailsEarly<T>(get: Bytes -> Parsed<T>, k: nat, n: nat, b: Bytes)
    requires k <= n && GetAll(get, k, b).Failed?
    ensures GetAll(get, n, b).Failed?
    decreases n
  {
    if k < n {
      FailsEarly(get, k, n - 1, b);
    }
  }

  lemma {:induction false} FromLeAppend(a: Bytes, x: byte)
    ensures FromLe(a + [x]) == FromLe(a) + Pow256(|a|) * x
  {
    if a == [] {
      assert (a + [x])[1..] == [];
      assert FromLe(a + [x]) == x + 256 * FromLe([]);
    } else {
      assert (a + [x])[1..] == a[1..] + [x];
      FromLeAppend(a[1..], x);
      assert 256 * (Pow256(|a| - 1) * x) == Pow256(|a|) * x;
    }
  }

  class DataStream {
    var data: Bytes

    constructor ()
      ensures data == []
    {
      data := [];
    }

    method WriteInt(x: nat, w: nat)
      modifies this
      ensures data == old(data) + Le(x, w)
    {
      var y := x;
      for i := 0 to w
        invariant data + Le(y, w - i) == old(data) + Le(x, w)
      {
        data := data + [y % 256];
        y := y / 256;
      }
    }

    method ReadInt(w: nat) returns (r: Option<nat>)
      modifies this
      ensures Reads(GetInt(old(data), w), r, data)
    {
      if |data| < w {
        return None;
      }
      var x: nat, scale: nat := 0, 1;
      for i := 0 to w
        invariant x == FromLe(old(data)[..i]) && scale == Pow256(i)
        invariant data == old(data)[i..]
      {
        FromLeAppend(old(data)[..i], data[0]);
        assert old(data)[..i] + [data[0]] == old(data)[..i + 1];
        x := x + scale * data[0];
        scale := 256 * scale;
        data := data[1..];
      }
      return Some(x);
    }

    method WriteString(s: Bytes)
      modifies this
      ensures data == old(data) + PutString(s)
    {
      WriteInt(|s|, 4);
      data := data + s;
    }

    method ReadString() returns (r: Option<Bytes>)
      modifies this
      ensures Reads(GetString(old(data)), r, data)
    {
      hide GetInt;
      var n := ReadInt(4);
      if n.None? || |data| < n.value {
        return None;
      }
      r := Some(data[..n.value]);
      data := data[n.value..];
    }

    method WriteRequest(m: RequestMsg)
      modifies this
      ensures data == old(data) + PutRequest(m)
    {
      hide PutString, Le;
      WriteString(m.operation);
      WriteInt(m.timestamp, 8);
      WriteInt(m.clientId, 4);
    }

    method ReadRequest() returns (r: Option<RequestMsg>)
      modifies this
      ensures Reads(GetRequest(old(data)), r, data)
    {
      hide GetInt, GetString;
      var operation := ReadString();
      if operation.None? { return None; }
      var timestamp := ReadInt(8);
      if timestamp.None? { return None; }
      var clientId := ReadInt(4);
      if clientId.None? { return None; }
      return Some(RequestMsg(operation.value, timestamp.value, clientId.value));
    }

    method WritePrePrepare(m: PrePrepareMsg)
      modifies this
      ensures data == old(data) + PutPrePrepare(m)
    {
      hide PutRequest, Le;
      WriteInt(m.view, 4);
      WriteInt(m.seqNum, 8);
      WriteInt(m.digest, 32);
      WriteRequest(m.req);
    }

    method ReadPrePrepare() returns (r: Option<PrePrepareMsg>)
      modifies this
      ensures Reads(GetPrePrepare(old(data)), r, data)
    {
      hide GetInt, GetRequest;
      var view := ReadInt(4);
      if view.None? { return None; }
      var seqNum := ReadInt(8);
      if seqNum.None? { return None; }
      var digest := ReadInt(32);
      if digest.None? { return None; }
      var req := ReadRequest();
      if req.None? { return None; }
      return Some(PrePrepareMsg(view.value, seqNum.value, digest.value, req.value));
    }

    method WriteCheckpoint(m: CheckpointMsg)
      modifies this
      ensures data == old(data) + PutCheckpoint(m)
    {
      hide Le;
      WriteInt(m.seqNum, 8);
      WriteInt(m.digest, 32);
      WriteInt(m.replicaId, 4);
    }

    method ReadCheckpoint() returns (r: Option<CheckpointMsg>)
      modifies this
      ensures Reads(GetCheckpoint(old(data)), r, data)
    {
      hide GetInt;
      var seqNum := ReadInt(8);
      if seqNum.None? { return None; }
      var digest := ReadInt(32);
      if digest.None? { return None; }
      var replicaId := ReadInt(4);
      if replicaId.None? { return None; }
      return Some(CheckpointMsg(seqNum.value, digest.value, replicaId.value));
    }

    method WriteProof(m: PrepareProof)
      modifies this
      ensures data == old(data) + PutProof(m)
    {
      hide Le;
      WriteInt(m.view, 4);
      WriteInt(m.seqNum, 8);
      WriteInt(m.digest, 32);
    }

    method ReadProof() returns (r: Option<PrepareProof>)
      modifies this
      ensures Reads(GetProof(old(data)), r, data)
    {
      hide GetInt;
      var view := ReadInt(4);
      if view.None? { return None; }
      var seqNum := ReadInt(8);
      if seqNum.None? { return None; }
      var digest := ReadInt(32);
      if digest.None? { return None; }
      return Some(PrepareProof(view.value, seqNum.value, digest.value));
    }

    method WriteCheckpoints(xs: seq<CheckpointMsg>)
      modifies this
      ensures data == old(data) + PutVector(PutCheckpoint, xs)
    {
      hide PutCheckpoint, Le;
      WriteInt(|xs|, 4);
      for i := 0 to |xs|
        invariant data == old(data) + (Le(|xs|, 4) + PutAll(PutCheckpoint, xs[..i]))
      {
        assert xs[..i + 1][..i] == xs[..i];
        WriteCheckpoint(xs[i]);
      }
      assert xs[..|xs|] == xs;
    }

    method ReadCheckpoints() returns (r: Option<seq<CheckpointMsg>>)
      modifies this
      ensures Reads(GetVector(GetCheckpoint, old(data)), r, data)
    {
      hide GetInt, GetCheckpoint;
      var n := ReadInt(4);
      if n.None? { return None; }
      var xs: seq<CheckpointMsg> := [];
      ghost var start := data;
      for i := 0 to n.value
        invariant GetAll(GetCheckpoint, i, start) == Parsed(xs, data)
      {
        var x := ReadCheckpoint();
        if x.None? {
          FailsEarly(GetCheckpoint, i + 1, n.value, start);
          return None;
        }
        xs := xs + [x.value];
      }
      return Some(xs);
    }

    method WriteProofs(xs: seq<PrepareProof>)
      modifies this
      ensures data == old(data) + PutVector(PutProof, xs)
    {
      hide PutProof, Le;
      WriteInt(|xs|, 4);
      for i := 0 to |xs|
        invariant data == old(data) + (Le(|xs|, 4) + PutAll(PutProof, xs[..i]))
      {
        assert xs[..i + 1][..i] == xs[..i];
        WriteProof(xs[i]);
      }
      assert xs[..|xs|] == xs;
    }

    method ReadProofs() returns (r: Option<seq<PrepareProof>>)
      modifies this
      ensures Reads(GetVector(GetProof, old(data)), r, data)
    {
      hide GetInt, GetProof;
      var n := ReadInt(4);
      if n.None? { return None; }
      var xs: seq<PrepareProof> := [];
      ghost var start := data;
      for i := 0 to n.value
        invariant GetAll(GetProof, i, start) == Parsed(xs, data)
      {
        var x := ReadProof();
        if x.None? {
          FailsEarly(GetProof, i + 1, n.value, start);
          return None;
        }
        xs := xs + [x.value];
      }
      return Some(xs);
    }

    method WriteViewChange(m: ViewChangeMsg)
      modifies this
      ensures data == old(data) + PutViewChange(m)
    {
      hide PutVector, PutCheckpoint, PutProof, Le;
      WriteInt(m.nextView, 8);
      WriteInt(m.lastStable, 8);
      WriteInt(m.replicaId, 4);
      WriteCheckpoints(m.checkpointProof);
      WriteProofs(m.preparedProofs);
    }

    method ReadViewChange() returns (r: Option<ViewChangeMsg>)
      modifies this
      ensures Reads(GetViewChange(old(data)), r, data)
    {
      hide GetInt, GetVector, GetCheckpoint, GetProof;
      var nextView := ReadInt(8);
      if nextView.None? { return None; }
      var lastStable := ReadInt(8);
      if lastStable.None? { return None; }
      var replicaId := ReadInt(4);
      if replicaId.None? { return None; }
      var C := ReadCheckpoints();
      if C.None? { return None; }
      var P := ReadProofs();
      if P.None? { return None; }
      return Some(ViewChangeMsg(nextView.value, lastStable.value, replicaId.value, C.value, P.value));
    }

    /** The first loop of the constructor that writes a NEW-VIEW. */
    method WriteViewChanges(xs: seq<ViewChangeMsg>)
      modifies this
      ensures data == old(data) + PutVector(PutViewChange, xs)
    {
      hide PutViewChange, Le;
      WriteInt(|xs|, 4);
      for i := 0 to |xs|
        invariant data == old(data) + (Le(|xs|, 4) + PutAll(PutViewChange, xs[..i]))
      {
        assert xs[..i + 1][..i] == xs[..i];
        WriteViewChange(xs[i]);
      }
      assert xs[..|xs|] == xs;
    }

    /** Its second loop. */
    method WritePrePrepares(xs: seq<PrePrepareMsg>)
      modifies this
      ensures data == old(data) + PutVector(PutPrePrepare, xs)
    {
      hide PutPrePrepare, Le;
      WriteInt(|xs|, 4);
      for i := 0 to |xs|
        invariant data == old(data) + (Le(|xs|, 4) + PutAll(PutPrePrepare, xs[..i]))
      {
        assert xs[..i + 1][..i] == xs[..i];
        WritePrePrepare(xs[i]);
      }
      assert xs[..|xs|] == xs;
    }

    method WriteNewView(m: NewViewMsg)
      modifies this
      ensures data == old(data) + PutNewView(m)
    {
      hide PutVector, Le;
      WriteInt(m.nextView, 8);
      WriteViewChanges(m.viewChanges);
      WritePrePrepares(m.prePrepares);
    }

    /** The constructor that parses a NEW-VIEW, with its two loops. */
    method ReadNewView() returns (r: Option<NewViewMsg>)
      modifies this
      ensures Reads(GetNewView(old(data)), r, data)
    {
      hide GetInt, GetViewChange, GetPrePrepare;
      var nextView := ReadInt(8);
      if nextView.None? { return None; }
      var count := ReadInt(4);
      if count.None? { return None; }
      var V: seq<ViewChangeMsg> := [];
      ghost var start := data;
      for i := 0 to count.value
        invariant GetAll(GetViewChange, i, start) == Parsed(V, data)
      {
        var x := ReadViewChange();
        if x.None? {
          FailsEarly(GetViewChange, i + 1, count.value, start);
          return None;
        }
        V := V + [x.value];
      }
      count := ReadInt(4);
      if count.None? { return None; }
      var O: seq<PrePrepareMsg> := [];
      start := data;
      for i := 0 to count.value
        invariant GetAll(GetPrePrepare, i, start) == Parsed(O, data)
      {
        var x := ReadPrePrepare();
        if x.None? {
          FailsEarly(GetPrePrepare, i + 1, count.value, start);
          return None;
        }
        O := O + [x.value];
      }
      return Some(NewViewMsg(nextView.value, V, O));
    }
  }
}
