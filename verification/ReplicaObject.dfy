/** The replica as the program keeps it: one object, updated in place by handlers that loop over batches. */
module ReplicaObject {
  import opened Model
  import R = ReplicaRules
  import B = Batches
  import H = History
  import O = Outcomes

  class Replica {
    const id: Id
    const policy: Policy
    const activeReplicas: nat

    var role: Role
    var currentTerm: nat
    var electionTerm: nat
    var votedFor: Id
    var votesReceived: nat
    var voters: set<Id>
    var electing: bool
    var again: bool
    var timerArmed: bool
    var o1: bool
    var o2: bool
    var log: seq<LogEntry>
    ghost var trace: seq<Event>

    ghost function State(): ReplicaState
      reads this
    {
      ReplicaState(id, role, currentTerm, electionTerm, votedFor, votesReceived, voters, electing, again, timerArmed, o1, o2, log, trace)
    }

    /** `initialize_replica` */
    constructor (id: Id, policy: Policy, activeReplicas: nat)
      ensures this.id == id && this.policy == policy && this.activeReplicas == activeReplicas
      ensures State() == R.Initial(id)
      ensures role == FOLLOWER && currentTerm == 0 && votedFor == VOTED_NONE && !electing && log == []
      ensures !timerArmed && o1 && !o2
    {
      this.id, this.policy, this.activeReplicas := id, policy, activeReplicas;
      role, currentTerm, electionTerm, votedFor := FOLLOWER, 0, 0, VOTED_NONE;
      votesReceived, voters, electing, again := 0, {}, false, false;
      timerArmed, o1, o2 := false, true, false;
      log, trace := [], [Entered(0)];
    }

    method BecomeLeader()
      modifies this
      ensures State() == R.BecomeLeader(policy, old(State()))
    {
      if role == LEADER {
        return;
      }
      o1 := false;
      o2 := true;
      role := LEADER;
      if policy.clearOnLead {
        votedFor := VOTED_NONE;
      }
      timerArmed := true;
      trace := trace + [Led(currentTerm)];
    }

    method BecomeFollower(term: nat)
      modifies this
      ensures State() == R.BecomeFollower(policy, old(State()), term)
    {
      ghost var s := State();
      o1 := true;
      o2 := false;
      trace := trace + [if term == currentTerm then SteppedDown(term) else Entered(term)];
      if term != currentTerm || policy.clearOnStepDown {
        votedFor := VOTED_NONE;
      }
      currentTerm := term;
      role := FOLLOWER;
      timerArmed := false;
      assert State() == R.BecomeFollower(policy, s, term);
    }

    /** The start of one pass of `run_leader_election`, up to the request it sends. */
    method StartElection() returns (request: VoteRequest)
      modifies this
      ensures State() == R.BeginElection(old(State()))
      ensures request == VoteRequest(old(currentTerm) + 1, id)
    {
      ghost var s := State();
      trace := trace + [Ran(currentTerm + 1), Voted(currentTerm + 1, id)];
      role := CANDIDATE;
      currentTerm := currentTerm + 1;
      electionTerm := currentTerm;
      votedFor := id;
      votesReceived := 1;
      voters := {id};
      electing, again := true, false;
      request := VoteRequest(currentTerm, votedFor);
      assert State() == R.BeginElection(s);
    }

    /** `handle_vote_message`. The flag `voteGranted` is never lowered inside the batch; state and claims
        are those of a handler that lowers it before each message. */
    method HandleVoteMessage(batch: seq<Sample<VoteRequest>>) returns (replies: seq<VoteReply>)
      modifies this
      ensures (State(), replies) == R.OnRequests(policy, old(State()), batch, false)
      ensures State() == B.OnRequestsFresh(policy, old(State()), batch).0
      ensures B.Claims(replies) == B.Claims(B.OnRequestsFresh(policy, old(State()), batch).1)
      ensures O.AfterRequests(old(State()), B.Messages(batch), State()) && |replies| == |B.Messages(batch)|
      ensures forall k | 0 <= k < |replies| :: O.Reports(old(State()), B.Messages(batch), k, replies[k])
    {
      hide O.AfterRequests, O.Reports;
      replies := [];
      var voteGranted := false;
      ghost var all := R.OnRequests(policy, State(), batch, false);
      var i := 0;
      while i < |batch|
        invariant i <= |batch|
        invariant R.OnRequests(policy, State(), batch[i..], voteGranted).0 == all.0
        invariant replies + R.OnRequests(policy, State(), batch[i..], voteGranted).1 == all.1
      {
        assert batch[i..][1..] == batch[i + 1..];
        if batch[i].Valid? {
          var m := batch[i].msg;
          ghost var s := State();
          if m.term > currentTerm {
            BecomeFollower(m.term);
          }
          if m.term == currentTerm && (votedFor == VOTED_NONE || votedFor == m.sender) {
            votedFor := m.sender;
            voteGranted := true;
            trace := trace + [Voted(currentTerm, m.sender)];
          }
          assert State() == R.OnRequest(policy, s, m);
          replies := replies + [VoteReply(id, currentTerm, votedFor, voteGranted)];
        }
        i := i + 1;
      }
      assert batch[i..] == [] && replies + [] == replies;
      B.StickyFlagHarmless(policy, old(State()), batch);
      O.RequestsExact(policy, old(State()), batch);
    }

    /** `handle_vote_reply_message`. It leaves the batch early; the state is that of handling all of it. */
    method HandleVoteReplyMessage(batch: seq<Sample<VoteReply>>)
      modifies this
      ensures State() == R.OnReplies(policy, activeReplicas, old(State()), batch)
      ensures if old(role) == CANDIDATE then
                O.AfterReplies(policy, activeReplicas, old(State()), B.Messages(batch), State())
              else State() == old(State())
    {
      hide O.AfterReplies;
      if role == CANDIDATE {
        O.RepliesExact(policy, activeReplicas, State(), batch);
      } else {
        B.RestIsSkipped(policy, activeReplicas, State(), batch);
      }
      var i := 0;
      while i < |batch|
        invariant i <= |batch|
        invariant R.OnReplies(policy, activeReplicas, State(), batch[i..])
               == R.OnReplies(policy, activeReplicas, old(State()), batch)
      {
        assert batch[i..][1..] == batch[i + 1..];
        if batch[i].Valid? {
          var m := batch[i].msg;
          ghost var s := State();
          if role != CANDIDATE {
            B.RestIsSkipped(policy, activeReplicas, State(), batch[i..]);
            return;
          }
          if m.term > electionTerm {
            BecomeFollower(m.term);
            B.RestIsSkipped(policy, activeReplicas, State(), batch[i + 1..]);
            return;
          }
          if m.granted && m.term == electionTerm && m.candidate == id {
            if policy.distinctVotes {
              voters := voters + {m.sender};
            } else {
              votesReceived := (votesReceived + 1) % 256;
            }
            var votes := if policy.distinctVotes then |voters| else votesReceived;
            if votes * 2 > activeReplicas {
              BecomeLeader();
              assert State() == R.OnReply(policy, activeReplicas, s, m);
              B.RestIsSkipped(policy, activeReplicas, State(), batch[i + 1..]);
              return;
            }
          }
          assert State() == R.OnReply(policy, activeReplicas, s, m);
        }
        i := i + 1;
      }
    }

    /** The loop of `runElectionTimer` over received heartbeats. */
    method HandleAppendEntries(batch: seq<Sample<AppendEntries>>) returns (replies: seq<AppendReply>)
      modifies this
      ensures State() == R.OnAppends(policy, old(State()), batch)
      ensures replies == R.AppendReplies(policy, old(State()), batch)
      ensures O.AfterAppends(policy, old(State()), B.Messages(batch), State())
      ensures currentTerm == B.Highest(old(currentTerm), B.Messages(batch))
    {
      hide O.AfterAppends;
      replies := [];
      var i := 0;
      while i < |batch|
        invariant i <= |batch|
        invariant R.OnAppends(policy, State(), batch[i..]) == R.OnAppends(policy, old(State()), batch)
        invariant replies + R.AppendReplies(policy, State(), batch[i..]) == R.AppendReplies(policy, old(State()), batch)
      {
        assert batch[i..][1..] == batch[i + 1..];
        if batch[i].Valid? {
          var m := batch[i].msg;
          ghost var s := State();
          if m.term > currentTerm {
            BecomeFollower(m.term);
          }
          var success := false;
          if m.term == currentTerm {
            if role != FOLLOWER {
              BecomeFollower(m.term);
            }
            success := true;
          }
          assert State() == R.OnAppend(policy, s, m);
          replies := replies + [AppendReply(id, currentTerm, success)];
        }
        i := i + 1;
      }
      B.AppendsReachHighest(policy, old(State()), batch);
      O.AppendsExact(policy, old(State()), batch);
    }

    /** The loop of `run_leader_election` over heartbeats received while waiting for votes. */
    method HandleElectionAppendEntries(batch: seq<Sample<AppendEntries>>) returns (finished: bool)
      modifies this
      ensures State() == R.OnAppends(policy, old(State()), batch).(electing := !finished, again := !finished)
      ensures finished <==> exists m | m in B.Messages(batch) :: m.term >= old(currentTerm)
      ensures finished ==> role == FOLLOWER
      ensures currentTerm == B.Highest(old(currentTerm), B.Messages(batch))
    {
      finished := false;
      var i := 0;
      while i < |batch|
        invariant i <= |batch|
        invariant R.OnAppends(policy, State(), batch[i..]) == R.OnAppends(policy, old(State()), batch)
        invariant R.Finishes(policy, old(State()), batch) == (finished || R.Finishes(policy, State(), batch[i..]))
      {
        assert batch[i..][1..] == batch[i + 1..];
        if batch[i].Valid? {
          var m := batch[i].msg;
          ghost var s := State();
          if m.term > currentTerm {
            BecomeFollower(m.term);
          }
          if m.term == currentTerm {
            if role != FOLLOWER {
              BecomeFollower(m.term);
            }
            finished := true;
          }
          assert State() == R.OnAppend(policy, s, m);
        }
        i := i + 1;
      }
      electing, again := !finished, !finished;
      B.ElectionEndsExactly(policy, old(State()), batch);
    }

    /** The wait for votes timed out: the election loop ends, the role stays. */
    method ElectionTimeout()
      modifies this`electing, this`again
      ensures State() == old(State()).(electing := false, again := false)
    {
      electing, again := false, false;
    }

    /** Term and sender of `send_heartbeat`. When the timer is armed, the sender ran in that term, and led
        it if no election is started by a leader. */
    method SendHeartbeat() returns (m: AppendEntries)
      ensures m == AppendEntries(currentTerm, id)
      ensures H.Disciplined(policy, State()) && timerArmed ==>
                Ran(m.term) in trace && (policy.guardStart ==> Led(m.term) in trace)
    {
      m := AppendEntries(currentTerm, id);
      if H.Disciplined(policy, State()) && timerArmed {
        H.ArmedMeans(policy, State());
      }
    }

    method AppendToLog(e: LogEntry)
      modifies this
      ensures State() == R.Append(old(State()), e)
    {
      log := log + [e];
      trace := trace + [Appended(e.term, e.id)];
    }

    /** One wake-up of the input loop in `main` for so many triggered conditions: the body runs at least once. */
    method HandleInput(conditions: nat)
      modifies this
      ensures var rounds := if conditions == 0 then 1 else conditions;
              && State() == R.OnInputs(old(State()), rounds)
              && log == old(log) + B.NewEntries(old(State()), rounds)
    {
      ghost var rounds := if conditions == 0 then 1 else conditions;
      var index := 0;
      while true
        invariant index < rounds
        invariant R.OnInputs(State(), rounds - index) == R.OnInputs(old(State()), rounds)
        decreases rounds - index
      {
        if role == LEADER {
          AppendToLog(LogEntry(|log| + 1, currentTerm));
        }
        index := index + 1;
        if index >= conditions {
          break;
        }
      }
      assert State() == R.OnInputs(State(), 0);
      B.InputsAppend(old(State()), rounds);
    }
  }
}
