/** The protocol messages of include/pbft/messages.hh, as values. */
module Messages {
  datatype Option<+T> = None | Some(value: T)

  type byte = x: int | 0 <= x < 256
  type Bytes = seq<byte>

  /** A 256-bit hash, as a number. */
  type Digest = nat

  datatype RequestMsg = RequestMsg(operation: Bytes, timestamp: nat, clientId: nat)

  datatype ReplyMsg = ReplyMsg(view: nat, timestamp: nat, clientId: nat, replicaId: nat, result: Bytes)

  datatype PrePrepareMsg = PrePrepareMsg(view: nat, seqNum: nat, digest: Digest, req: RequestMsg)

  datatype PrepareMsg = PrepareMsg(view: nat, seqNum: nat, digest: Digest, replicaId: nat)

  datatype CommitMsg = CommitMsg(view: nat, seqNum: nat, digest: Digest, replicaId: nat)

  datatype CheckpointMsg = CheckpointMsg(seqNum: nat, digest: Digest, replicaId: nat)

  /** One element of the P set of a view change. */
  datatype PrepareProof = PrepareProof(view: nat, seqNum: nat, digest: Digest)

  datatype ViewChangeMsg = ViewChangeMsg(
    nextView: nat, lastStable: nat, replicaId: nat,
    checkpointProof: seq<CheckpointMsg>, preparedProofs: seq<PrepareProof>)

  datatype NewViewMsg = NewViewMsg(
    nextView: nat, viewChanges: seq<ViewChangeMsg>, prePrepares: seq<PrePrepareMsg>)

  datatype Message =
    | Request(request: RequestMsg)
    | Reply(reply: ReplyMsg)
    | PrePrepare(prePrepare: PrePrepareMsg)
    | Prepare(prepare: PrepareMsg)
    | Commit(commit: CommitMsg)
    | Checkpoint(checkpoint: CheckpointMsg)
    | ViewChange(viewChange: ViewChangeMsg)
    | NewView(newView: NewViewMsg)

  /** A message together with the replica that really sent it. */
  datatype Packet = Packet(from: nat, msg: Message)

  /** The request carried by every re-proposal in a NEW-VIEW. */
  const NullRequest := RequestMsg([], 0, 0)

  /** A replica id inside a message names its true sender. */
  predicate SignedBy(msg: Message, from: nat) {
    match msg
    case Reply(m) => m.replicaId == from
    case Prepare(m) => m.replicaId == from
    case Commit(m) => m.replicaId == from
    case Checkpoint(m) => m.replicaId == from
    case ViewChange(m) => m.replicaId == from
    case _ => true
  }
}
