/** What each handler does to one replica, message by message and batch by batch. */
module ReplicaRules {
  import opened Model

  function BecomeLeader(p: Policy, s: ReplicaState): ReplicaState {
    if s.role == LEADER then s
    else s.(
      role := LEADER,
      votedFor := if p.clearOnLead then VOTED_NONE else s.votedFor,
      armed := true, o1 := false, o2 := true,
      trace := s.trace + [Led(s.term)])
  }

  function BecomeFollower(p: Policy, s: ReplicaState, term: nat): ReplicaState {
    s.(
      role := FOLLOWER,
      term := term,
      votedFor := if term == s.term && !p.clearOnStepDown then s.votedFor else VOTED_NONE,
      armed := false, o1 := true, o2 := false,
      trace := s.trace + [if term == s.term then SteppedDown(term) else Entered(term)])
  }

  /** The replica after `initialize_replica`. */
  function Initial(id: Id): ReplicaState {
    ReplicaState(id, FOLLOWER, 0, 0, VOTED_NONE, 0, {}, false, false, false, true, false, [], [Entered(0)])
  }

  /** The start of one pass of `run_leader_election`. */
  function BeginElection(s: ReplicaState): ReplicaState {
    s.(
      role := CANDIDATE,
      term := s.term + 1,
      electionTerm := s.term + 1,
      votedFor := s.id,
      votes := 1,
      voters := {s.id},
      electing := true,
      again := false,
      trace := s.trace + [Ran(s.term + 1), Voted(s.term + 1, s.id)])
  }

  // ---------- vote requests

  function Catch(p: Policy, s: ReplicaState, term: nat): ReplicaState {
    if term > s.term then BecomeFollower(p, s, term) else s
  }

  predicate CanGrant(s: ReplicaState, m: VoteRequest) {
    m.term == s.term && (s.votedFor == VOTED_NONE || s.votedFor == m.sender)
  }

  function Grant(s: ReplicaState, candidate: Id): ReplicaState {
    s.(votedFor := candidate, trace := s.trace + [Voted(s.term, candidate)])
  }

  predicate Grants(p: Policy, s: ReplicaState, m: VoteRequest) {
    CanGrant(Catch(p, s, m.term), m)
  }

  function OnRequest(p: Policy, s: ReplicaState, m: VoteRequest): ReplicaState {
    var s1 := Catch(p, s, m.term);
    if CanGrant(s1, m) then Grant(s1, m.sender) else s1
  }

  function ReplyOf(s: ReplicaState, granted: bool): VoteReply {
    VoteReply(s.id, s.term, s.votedFor, granted)
  }

  /** A batch of requests. `granted` is the flag the loop carries from one message to the next. */
  function OnRequests(p: Policy, s: ReplicaState, batch: seq<Sample<VoteRequest>>, granted: bool)
    : (ReplicaState, seq<VoteReply>)
    decreases |batch|
  {
    if batch == [] then (s, [])
    else match batch[0]
      case Invalid => OnRequests(p, s, batch[1..], granted)
      case Valid(m) =>
        var s1 := OnRequest(p, s, m);
        var granted1 := granted || Grants(p, s, m);
        var (s2, replies) := OnRequests(p, s1, batch[1..], granted1);
        (s2, [ReplyOf(s1, granted1)] + replies)
  }

  // ---------- vote replies

  /** `voters` and `votes` after one more granted reply; `votes_received` is 8 bits wide. */
  function Count(p: Policy, s: ReplicaState, sender: Id): ReplicaState {
    if p.distinctVotes then s.(voters := s.voters + {sender}) else s.(votes := (s.votes + 1) % 256)
  }

  function Tally(p: Policy, s: ReplicaState): nat {
    if p.distinctVotes then |s.voters| else s.votes
  }

  predicate HasQuorum(p: Policy, n: nat, s: ReplicaState) {
    Tally(p, s) * 2 > n
  }

  predicate Counts(s: ReplicaState, m: VoteReply) {
    m.granted && m.term == s.electionTerm && m.candidate == s.id
  }

  function OnReply(p: Policy, n: nat, s: ReplicaState, m: VoteReply): ReplicaState {
    if s.role != CANDIDATE then s
    else if m.term > s.electionTerm then BecomeFollower(p, s, m.term)
    else if !Counts(s, m) then s
    else
      var s1 := Count(p, s, m.sender);
      if HasQuorum(p, n, s1) then BecomeLeader(p, s1) else s1
  }

  /** Every reply of the batch is handled; the loop of the program leaves early. */
  function OnReplies(p: Policy, n: nat, s: ReplicaState, batch: seq<Sample<VoteReply>>): ReplicaState
    decreases |batch|
  {
    if batch == [] then s
    else OnReplies(p, n, if batch[0].Valid? then OnReply(p, n, s, batch[0].msg) else s, batch[1..])
  }

  // ---------- heartbeats

  function OnAppend(p: Policy, s: ReplicaState, m: AppendEntries): ReplicaState {
    var s1 := Catch(p, s, m.term);
    if m.term == s1.term && s1.role != FOLLOWER then BecomeFollower(p, s1, m.term) else s1
  }

  function OnAppends(p: Policy, s: ReplicaState, batch: seq<Sample<AppendEntries>>): ReplicaState
    decreases |batch|
  {
    if batch == [] then s
    else OnAppends(p, if batch[0].Valid? then OnAppend(p, s, batch[0].msg) else s, batch[1..])
  }

  /** The replies of the election timer thread to a batch of heartbeats. */
  function AppendReplies(p: Policy, s: ReplicaState, batch: seq<Sample<AppendEntries>>): seq<AppendReply>
    decreases |batch|
  {
    if batch == [] then []
    else match batch[0]
      case Invalid => AppendReplies(p, s, batch[1..])
      case Valid(m) =>
        var s1 := OnAppend(p, s, m);
        [AppendReply(s.id, s1.term, m.term == s1.term)] + AppendReplies(p, s1, batch[1..])
  }

  /** Does the candidate's loop over the batch end the election? */
  predicate Finishes(p: Policy, s: ReplicaState, batch: seq<Sample<AppendEntries>>)
    decreases |batch|
  {
    batch != [] &&
    match batch[0]
    case Invalid => Finishes(p, s, batch[1..])
    case Valid(m) =>
      var s1 := OnAppend(p, s, m);
      m.term == s1.term || Finishes(p, s1, batch[1..])
  }

  // ---------- client input

  function Append(s: ReplicaState, e: LogEntry): ReplicaState {
    s.(log := s.log + [e], trace := s.trace + [Appended(e.term, e.id)])
  }

  function OnInput(s: ReplicaState): ReplicaState {
    if s.role != LEADER then s else Append(s, LogEntry(|s.log| + 1, s.term))
  }

  function OnInputs(s: ReplicaState, rounds: nat): ReplicaState
    decreases rounds
  {
    if rounds == 0 then s else OnInputs(OnInput(s), rounds - 1)
  }
}
