/** The driver object of one group: the acceptor, proposer, counter and learner it embeds, updated
    in place by its message handlers. Each handler is proved to do what its function does, nested
    calls included, and what the object's users rely on is stated of the entry points: between calls
    `LocalInv` holds, and one call moves the object on as `Moved` says. */
module InstanceObject {
  import opened Ballots
  import opened Messages
  import opened NodeModel
  import opened Progress

  class Instance {
    const cfg: Config

    var acc: AcceptorState
    var prop: ProposerState
    var lrn: LearnerState
    var inst: nat
    var proposing: bool
    var timer: bool
    var proposal: Value
    var log: map<nat, Record>
    var minChosen: nat
    var maxChosen: nat
    var executed: seq<Value>
    var done: seq<Outcome>
    var out: set<Msg>
    var byLearner: set<nat>
    var ignored: set<Msg>

    /** The object's state as the functions see it. */
    function State(): Node
      reads this
    {
      Node(acc, prop, lrn, inst, proposing, timer, proposal, log, minChosen, maxChosen, executed, done, out,
           byLearner, ignored)
    }

    constructor (cfg: Config)
      ensures this.cfg == cfg && State() == FRESH && LocalInv(State())
    {
      this.cfg := cfg;
      acc := AcceptorState(1, NO_BALLOT, NO_BALLOT, NO_VALUE);
      prop := ProposerState(1, 1, 0, NO_BALLOT, NO_VALUE, false, false, false, false, NO_ROUND, None);
      lrn := LearnerState(1, false, false, NO_VALUE, false, false);
      inst, proposing, timer, proposal := 1, false, false, NO_VALUE;
      log, minChosen, maxChosen, executed, done, out := map[], 0, 1, [], [], {};
      byLearner, ignored := {}, {};
    }

    method Send(m: Msg)
      modifies this`out
      ensures out == old(out) + {m}
    {
      out := out + {m};
    }

    // -------------------------------------------------------------- acceptor

    method WriteAcceptorRecord()
      modifies this`log, this`byLearner
      ensures State() == StoreAcceptor(old(State()))
    {
      log := log[acc.inst := Record(acc.inst, acc.promised, acc.accepted, acc.value)];
      byLearner := byLearner - {acc.inst};
    }

    method AnswerPrepare(m: Msg) returns (reply: Msg)
      requires m.Prepare?
      modifies this`acc, this`log, this`byLearner, this`out
      ensures State() == Promise(cfg, old(State()), m) && reply == PromiseReply(cfg, old(State()), m)
    {
      var b := Ballot(m.pid, m.src);
      var rejectedId, pre, value := 0, NO_BALLOT, NO_VALUE;
      if Leq(acc.promised, b) {
        acc := acc.(promised := b);
        if acc.accepted.pid > 0 {
          pre, value := acc.accepted, acc.value;
        }
        WriteAcceptorRecord();
      } else {
        rejectedId := acc.promised.pid;
      }
      reply := PrepareReply(cfg.me, m.src, m.inst, m.pid, rejectedId, pre, value);
      Send(reply);
    }

    method HandlePrepare(m: Msg)
      requires m.Prepare?
      modifies this
      ensures State() == OnPrepare(cfg, old(State()), m)
      decreases 5, 2
    {
      if m.inst == acc.inst {
        var reply := AnswerPrepare(m);
        if m.src == cfg.me {
          Deliver(reply);
        }
      } else if m.inst == acc.inst + 1 {
        Deliver(NewChosen(m.src, acc.inst, m.pid));
      }
    }

    method AnswerAccept(m: Msg) returns (reply: Msg)
      requires m.Accept?
      modifies this`acc, this`log, this`byLearner, this`out
      ensures State() == Vote(cfg, old(State()), m) && reply == VoteReply(cfg, old(State()), m)
    {
      var b := Ballot(m.pid, m.src);
      var rejectedId := 0;
      if Leq(acc.promised, b) {
        acc := acc.(promised := b, accepted := b, value := m.value);
        WriteAcceptorRecord();
      } else {
        rejectedId := acc.promised.pid;
      }
      reply := AcceptReply(cfg.me, m.src, m.inst, m.pid, rejectedId);
      Send(reply);
    }

    method HandleAccept(m: Msg)
      requires m.Accept?
      modifies this
      ensures State() == OnAccept(cfg, old(State()), m)
      decreases 3, 2
    {
      if m.inst == acc.inst {
        var reply := AnswerAccept(m);
        if m.src == cfg.me {
          Deliver(reply);
        }
      } else if m.inst == acc.inst + 1 {
        Deliver(NewChosen(m.src, acc.inst, m.pid));
      }
    }

    // -------------------------------------------------------------- proposer

    method Count(from: nat, rejectedId: nat)
      modifies this`prop
      ensures prop == old(prop).(counter := Received(old(prop).counter, from, rejectedId))
    {
      var k := prop.counter.(received := prop.counter.received + {from});
      if rejectedId == 0 {
        k := k.(promisors := k.promisors + {from});
      } else {
        k := k.(rejectors := k.rejectors + {from});
      }
      prop := prop.(counter := k);
    }

    method BeginPrepare(renew: bool) returns (m: Msg)
      modifies this`prop, this`out
      ensures State() == StartPrepare(cfg, old(State()), renew) && m == PrepareMsg(cfg, State())
    {
      prop := prop.(preparing := true, accepting := false, skip := false, rejected := false, maxBallot := NO_BALLOT);
      if renew {
        if prop.pid < prop.maxPid {
          prop := prop.(pid := prop.maxPid);
        }
        prop := prop.(pid := prop.pid + 1);
      }
      m := Msg.Prepare(cfg.me, prop.inst, prop.pid);
      prop := prop.(counter := NO_ROUND, retry := Some(prop.inst));
      Send(m);
    }

    method RunPrepare(renew: bool)
      modifies this
      ensures State() == PreparePhase(cfg, old(State()), renew)
      decreases 5, 5
    {
      var m := BeginPrepare(renew);
      Deliver(m);
    }

    method BeginAccept() returns (m: Msg)
      modifies this`prop, this`out
      ensures State() == StartAccept(cfg, old(State())) && m == AcceptMsg(cfg, old(State()))
    {
      prop := prop.(preparing := false, accepting := true);
      m := Msg.Accept(cfg.me, prop.inst, prop.pid, prop.value);
      prop := prop.(counter := NO_ROUND, retry := Some(prop.inst));
      Send(m);
    }

    method RunAccept()
      modifies this
      ensures State() == AcceptPhase(cfg, old(State()))
      decreases 3, 5
    {
      var m := BeginAccept();
      Deliver(m);
    }

    method SetMaxProposalId(rejectedId: nat)
      modifies this`prop
      ensures State() == NoteRejection(old(State()), rejectedId)
    {
      if rejectedId >= prop.pid {
        prop := prop.(rejected := true);
      }
      if prop.maxPid < rejectedId {
        prop := prop.(maxPid := rejectedId);
      }
    }

    method CountPrepareReply(m: Msg)
      requires m.PrepareReply?
      modifies this`prop
      ensures State() == CountPromise(old(State()), m)
    {
      Count(m.src, m.rejected);
      if m.rejected == 0 && Less(prop.maxBallot, m.pre) {
        prop := prop.(maxBallot := m.pre, value := m.value);
      }
    }

    method HandlePrepareReply(m: Msg)
      requires m.PrepareReply?
      modifies this
      ensures State() == OnPrepareReply(cfg, old(State()), m)
      decreases 4, 2
    {
      if prop.preparing && m.inst == prop.inst {
        CountPrepareReply(m);
        if |prop.counter.promisors| >= Majority(cfg.members) {
          prop := prop.(preparing := false, skip := true, retry := None);
          RunAccept();
        } else if |prop.counter.rejectors| >= Majority(cfg.members) || |prop.counter.received| >= |cfg.members| {
          prop := prop.(preparing := false, retry := Some(prop.inst));
        }
      }
      SetMaxProposalId(m.rejected);
    }

    method RunAnnounce()
      modifies this
      ensures State() == AnnouncePhase(cfg, old(State()))
      decreases 1, 5
    {
      prop := prop.(accepting := false, retry := None);
      var m := NewChosen(cfg.me, prop.inst, prop.pid);
      Send(m);
      assert State() == StartAnnounce(cfg, old(State()));
      Deliver(m);
    }

    method HandleAcceptReply(m: Msg)
      requires m.AcceptReply?
      modifies this
      ensures State() == OnAcceptReply(cfg, old(State()), m)
      decreases 2, 2
    {
      if prop.accepting && m.inst == prop.inst {
        Count(m.src, m.rejected);
        assert State() == CountVote(old(State()), m);
        if |prop.counter.promisors| >= Majority(cfg.members) {
          RunAnnounce();
        } else if |prop.counter.rejectors| >= Majority(cfg.members) || |prop.counter.received| >= |cfg.members| {
          prop := prop.(accepting := false, retry := Some(prop.inst));
        }
      }
      SetMaxProposalId(m.rejected);
    }

    // -------------------------------------------------------------- learner

    method Finish(b: Ballot, v: Value)
      modifies this`lrn, this`out
      ensures State() == FinishLearn(cfg, old(State()), b, v)
    {
      lrn := lrn.(learned := true, value := v);
      out := out + ToFollowers(cfg, lrn.inst, b, v);
    }

    method HandleNewChosen(m: Msg)
      requires m.NewChosen?
      modifies this
      ensures State() == OnNewChosen(cfg, old(State()), m)
    {
      if m.inst == lrn.inst && Ballot(m.pid, m.src) == acc.accepted {
        Finish(acc.accepted, acc.value);
      }
    }

    method HandleSendLearned(m: Msg)
      requires m.SendLearned?
      modifies this
      ensures State() == OnSendLearned(cfg, old(State()), m)
    {
      if m.inst == lrn.inst {
        var b := Ballot(m.pid, m.src);
        log := log[m.inst := Record(m.inst, b, b, m.value)];
        byLearner := byLearner + {m.inst};
        Finish(b, m.value);
      }
    }

    /** Sends the records from `from` up to `end`, stopping at the first one missing. */
    method ASyncSend(dst: nat, from: nat, end: nat)
      modifies this`out
      ensures out == old(out) + set x | x in Batch(cfg.me, dst, log, from, end)
    {
      var next := from;
      ghost var sent: seq<Msg> := [];
      while next < end && next in log
        invariant from <= next
        invariant out == old(out) + set x | x in sent
        invariant Batch(cfg.me, dst, log, from, end) == sent + Batch(cfg.me, dst, log, next, end)
        decreases end - next
      {
        var m := LearnedMsg(cfg.me, dst, log[next]);
        out := out + {m};
        sent := sent + [m];
        next := next + 1;
      }
      assert Batch(cfg.me, dst, log, from, end) == sent;
    }

    method HandleLearnRequest(m: Msg)
      requires Rank(m) == 0 && !m.SendLearned?
      modifies this
      ensures State() == Dispatch(cfg, old(State()), m)
    {
      match m
      case AskForLearn(src, k) =>
        if k < lrn.inst {
          if k == lrn.inst - 1 {
            if k in log {
              Send(LearnedMsg(cfg.me, src, log[k]));
            }
          } else if !lrn.sending {
            Send(SendNow(cfg.me, src, k, lrn.inst, minChosen));
          }
        }
      case SendNow(src, _, k, now, oldest) =>
        if k == lrn.inst && now > lrn.inst {
          if oldest > lrn.inst {
            if !lrn.receiving {
              Send(AskForCheckpoint(cfg.me, src, lrn.inst));
              lrn := lrn.(receiving := true);
            }
          } else if !lrn.receiving && !lrn.learning {
            Send(ConfirmAsk(cfg.me, src, lrn.inst));
            lrn := lrn.(learning := true);
          }
        }
      case ConfirmAsk(src, _, from) =>
        ASyncSend(src, from, lrn.inst);
      case AskForCheckpoint(_, _, _) =>
    }

    // -------------------------------------------------------------- driver

    method AdvanceInstance()
      modifies this
      ensures State() == NextInstance(old(State()))
    {
      inst := inst + 1;
      acc := acc.(inst := acc.inst + 1, accepted := NO_BALLOT, value := NO_VALUE);
      prop := prop.(inst := prop.inst + 1);
      maxChosen := lrn.inst;
      lrn := lrn.(inst := lrn.inst + 1, learned := false, value := NO_VALUE);
    }

    /** Completes the waiting proposal, if there is one. */
    method Report(o: Outcome)
      modifies this`done, this`proposing, this`timer
      ensures State() == if !old(proposing) then old(State())
                         else old(State()).(done := old(done) + [o], proposing := false, timer := false)
    {
      if proposing {
        done := done + [o];
        proposing, timer := false, false;
      }
    }

    method RunLearned()
      modifies this
      ensures State() == CheckLearn(cfg, old(State()))
    {
      if lrn.learned {
        var v := lrn.value;
        var my := proposing && proposal.id == v.id;
        var ok := cfg.exec(inst, v);
        if ok {
          executed := executed + [v];
        }
        Report(if !ok then MachineError else if my then Done else Conflict);
        if ok {
          AdvanceInstance();
        } else {
          prop := prop.(skip := false);
        }
      }
    }

    method HandleDispatch(m: Msg)
      modifies this
      ensures State() == Dispatch(cfg, old(State()), m)
      decreases Rank(m), 3
    {
      match m
      case Prepare(_, _, _) => HandlePrepare(m);
      case Accept(_, _, _, _) => HandleAccept(m);
      case PrepareReply(_, _, _, _, _, _, _) => HandlePrepareReply(m);
      case AcceptReply(_, _, _, _, _) => HandleAcceptReply(m);
      case NewChosen(_, _, _) => HandleNewChosen(m);
      case SendLearned(_, _, _, _, _, _) => HandleSendLearned(m);
      case _ => HandleLearnRequest(m);
    }

    /** Handles a message, also one the object sends itself in the middle of another. */
    method Deliver(m: Msg)
      modifies this
      ensures State() == OnPaxosMessage(cfg, old(State()), m)
      decreases Rank(m), 4
    {
      if lrn.receiving {
        ignored := ignored + {m};
      } else {
        HandleDispatch(m);
        RunLearned();
      }
    }

    method StartProposal(v: Value)
      modifies this
      ensures State() == NewPropose(cfg, old(State()), v)
    {
      prop := prop.(value := v);
      if prop.skip && !prop.rejected {
        RunAccept();
      } else {
        RunPrepare(prop.rejected);
      }
    }

    method Begin(v: Value)
      requires !proposing
      modifies this
      ensures State() == OnPropose(cfg, old(State()), v)
    {
      if cfg.me !in cfg.members {
        done := done + [InvalidNode];
        return;
      }
      proposing, timer, proposal := true, true, v;
      StartProposal(v);
    }

    // -------------------------------------------------------------- entry points

    method HandleMessage(m: Msg)
      requires LocalInv(State()) && Plausible(m)
      modifies this
      ensures State() == OnPaxosMessage(cfg, old(State()), m)
      ensures Moved(cfg, old(State()), State())
    {
      MessageMoves(cfg, State(), m);
      Deliver(m);
    }

    /** A proposal arrives from the queue, which waits for each outcome before sending the next. Refused
        outside the membership; otherwise it now waits, or has been settled within the call. */
    method HandlePropose(v: Value)
      requires LocalInv(State()) && !proposing
      modifies this
      ensures State() == OnPropose(cfg, old(State()), v)
      ensures cfg.me in cfg.members ==>
        Moved(cfg, old(State()).(proposing := true, timer := true, proposal := v), State())
      ensures cfg.me !in cfg.members ==> State() == old(State()).(done := old(done) + [InvalidNode])
    {
      if cfg.me in cfg.members {
        ProposeMoves(cfg, State(), v);
      }
      Begin(v);
    }

    /** The waiting proposal is settled as timed out; nothing sent, promised or stored changes. */
    method HandleProposeTimeout()
      requires LocalInv(State()) && timer
      modifies this
      ensures State() == OnProposeTimeout(old(State()))
      ensures LocalInv(State()) && !proposing && done == old(done) + [TimedOut] && Heeds(old(State()), State())
      ensures !prop.preparing && !prop.accepting && prop.retry.None?
      ensures State() == old(State()).(prop := prop, proposing := false, timer := false, done := done)
    {
      prop := prop.(preparing := false, accepting := false, retry := None);
      proposing, timer := false, false;
      done := done + [TimedOut];
    }

    method HandleRetry()
      requires LocalInv(State()) && prop.retry.Some?
      modifies this
      ensures State() == OnRetryTimer(cfg, old(State()))
      ensures Moved(cfg, old(State()), State())
    {
      RetryMoves(cfg, State());
      var k := prop.retry.value;
      prop := prop.(retry := None);
      if k == prop.inst {
        RunPrepare(prop.rejected);
      }
    }
  }
}
