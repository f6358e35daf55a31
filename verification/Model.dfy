/** The data of one replica, the messages it exchanges and the policies under study. */
module Model {

  type Id = nat

  /** The value of `voted_for` while no vote is held (replica.h). */
  const VOTED_NONE: Id := 255

  datatype Role = FOLLOWER | CANDIDATE | LEADER

  /** The choices on which election safety turns.
      - `clearOnLead`: `become_leader` clears the vote.
      - `clearOnStepDown`: `become_follower` clears the vote even when the term does not change.
      - `guardStart`: an election pass is never begun by a leader. Without it only the first pass
        of an election is guarded and a re-entered pass is not.
      - `distinctVotes`: granted replies are counted by sender instead of one by one.
      - `skipOwn`: a replica does not read its own messages. The condition for that wakes the
        handlers, but the calls that then take the messages do not pass it. */
  datatype Policy = Policy(clearOnLead: bool, clearOnStepDown: bool, guardStart: bool, distinctVotes: bool, skipOwn: bool)

  const AS_WRITTEN := Policy(true, true, false, false, false)
  const FILTERED := Policy(true, true, false, false, true)
  const MINIMAL := Policy(false, true, true, false, true)
  const REPAIRED := Policy(false, false, true, true, true)

  datatype VoteRequest = VoteRequest(term: nat, sender: Id)
  datatype VoteReply = VoteReply(sender: Id, term: nat, candidate: Id, granted: bool)
  datatype AppendEntries = AppendEntries(term: nat, sender: Id)
  datatype AppendReply = AppendReply(sender: Id, term: nat, success: bool)

  /** One slot of a received batch: `Invalid` is a sample without valid data, which every handler skips. */
  datatype Sample<T> = Valid(msg: T) | Invalid

  datatype LogEntry = LogEntry(id: nat, term: nat)

  /** What a replica did, in order. The program keeps no such record; the theorems are about it.
      `Entered` is a `become_follower` into another term, `SteppedDown` one that keeps the term. */
  datatype Event =
    | Entered(term: nat)
    | Ran(term: nat)
    | Voted(term: nat, candidate: Id)
    | Led(term: nat)
    | SteppedDown(term: nat)
    | Appended(term: nat, id: nat)

  /** `voters` is the tally of `distinctVotes`; `votes` is the tally of the code as written.
      `electing` says that control is inside `run_leader_election`, and `again` that the heartbeats it
      waited for have not ended the election, so that its loop is due for another pass. `o1` and `o2`
      are the two outputs. */
  datatype ReplicaState = ReplicaState(
    id: Id,
    role: Role,
    term: nat,
    electionTerm: nat,
    votedFor: Id,
    votes: nat,
    voters: set<Id>,
    electing: bool,
    again: bool,
    armed: bool,
    o1: bool,
    o2: bool,
    log: seq<LogEntry>,
    trace: seq<Event>)
}
