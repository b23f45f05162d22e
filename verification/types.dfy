/** Ballot numbers: a proposal id paired with the id of the node that issued it. */
module Ballots {

  datatype Ballot = Ballot(pid: nat, node: nat)

  const NO_BALLOT := Ballot(0, 0)

  /** Lexicographic order, proposal id first. */
  predicate Less(x: Ballot, y: Ballot) {
    if x.pid == y.pid then x.node < y.node else x.pid < y.pid
  }

  predicate Leq(x: Ballot, y: Ballot) {
    x == y || Less(x, y)
  }

  /** The order is a strict total order, so two acceptors can always be compared. */
  lemma TotalOrder(x: Ballot, y: Ballot, z: Ballot)
    ensures !Less(x, x)
    ensures Less(x, y) && Less(y, z) ==> Less(x, z)
    ensures Less(x, y) || x == y || Less(y, x)
    ensures Leq(x, y) <==> !Less(y, x)
  {
  }
}

/** The paxos messages, the stored record and the value of one instance. */
module Messages {
  import opened Ballots

  datatype Option<T> = None | Some(value: T)

  datatype Value = Value(id: nat, machine: nat, data: string)

  const NO_VALUE := Value(0, 0, "")

  /** What the log keeps for one instance. */
  datatype Record = Record(inst: nat, promised: Ballot, accepted: Ballot, value: Value)

  /** `src` is the sender; replies and learner messages also name the addressee. */
  datatype Msg =
    | Prepare(src: nat, inst: nat, pid: nat)
    | PrepareReply(src: nat, dst: nat, inst: nat, pid: nat, rejected: nat, pre: Ballot, value: Value)
    | Accept(src: nat, inst: nat, pid: nat, value: Value)
    | AcceptReply(src: nat, dst: nat, inst: nat, pid: nat, rejected: nat)
    | NewChosen(src: nat, inst: nat, pid: nat)
    | AskForLearn(src: nat, inst: nat)
    | SendLearned(src: nat, dst: nat, inst: nat, pid: nat, pnode: nat, value: Value)
    | SendNow(src: nat, dst: nat, inst: nat, now: nat, minChosen: nat)
    | ConfirmAsk(src: nat, dst: nat, inst: nat)
    | AskForCheckpoint(src: nat, dst: nat, inst: nat)
}
