/** What each step does to the cluster, said of the messages it delivers: when it happens, what becomes of the
    replica that takes it, and that nothing else changes. A step that does not happen changes nothing. */
module Steps {
  import opened Model
  import opened ReplicaRules
  import opened Protocol
  import opened Batches
  import opened Outcomes

  /** `d` is `c` with replica `i` in state `s`. */
  ghost predicate OnlyChanges(c: Cluster, d: Cluster, i: Id, s: ReplicaState) {
    && d.reps.Keys == c.reps.Keys + {i}
    && (forall x | x in d.reps :: d.reps[x] == if x == i then s else c.reps[x])
    && d.requests == c.requests && d.replies == c.replies && d.appends == c.appends && d.elections == c.elections
  }

  // ---------- which batches are delivered: sent messages, at least one of another replica, and under the
  // filter no other ones

  ghost predicate DeliversRequests(p: Policy, c: Cluster, i: Id, ms: seq<VoteRequest>) {
    && (forall m | m in ms :: m in c.requests && (p.skipOwn ==> m.sender != i))
    && exists m | m in ms :: m.sender != i
  }

  ghost predicate DeliversReplies(p: Policy, c: Cluster, i: Id, ms: seq<VoteReply>) {
    && (forall m | m in ms :: m in c.replies && (p.skipOwn ==> m.sender != i))
    && exists m | m in ms :: m.sender != i
  }

  ghost predicate DeliversAppends(p: Policy, c: Cluster, i: Id, ms: seq<AppendEntries>) {
    && (forall m | m in ms :: m in c.appends && (p.skipOwn ==> m.sender != i))
    && exists m | m in ms :: m.sender != i
  }

  lemma MessageAt<T>(batch: seq<Sample<T>>, m: T) returns (k: nat)
    requires m in Messages(batch)
    ensures k < |batch| && batch[k] == Valid(m)
  {
    InMessages(batch, m);
    k :| k < |batch| && batch[k] == Valid(m);
  }

  lemma SampleIn<T>(batch: seq<Sample<T>>, k: nat)
    requires k < |batch| && batch[k].Valid?
    ensures batch[k].msg in Messages(batch)
  {
    InMessages(batch, batch[k].msg);
  }

  lemma RequestsDelivered(p: Policy, c: Cluster, i: Id, batch: seq<Sample<VoteRequest>>)
    ensures RequestsSent(p, c, i, batch) && RequestsWake(i, batch) <==> DeliversRequests(p, c, i, Messages(batch))
  {
    forall m | m in Messages(batch) ensures exists k :: 0 <= k < |batch| && batch[k] == Valid(m) {
      var k := MessageAt(batch, m);
    }
    forall k: nat | k < |batch| && batch[k].Valid? ensures batch[k].msg in Messages(batch) {
      SampleIn(batch, k);
    }
  }

  lemma RepliesDelivered(p: Policy, c: Cluster, i: Id, batch: seq<Sample<VoteReply>>)
    ensures RepliesSent(p, c, i, batch) && RepliesWake(i, batch) <==> DeliversReplies(p, c, i, Messages(batch))
  {
    forall m | m in Messages(batch) ensures exists k :: 0 <= k < |batch| && batch[k] == Valid(m) {
      var k := MessageAt(batch, m);
    }
    forall k: nat | k < |batch| && batch[k].Valid? ensures batch[k].msg in Messages(batch) {
      SampleIn(batch, k);
    }
  }

  lemma AppendsDelivered(p: Policy, c: Cluster, i: Id, batch: seq<Sample<AppendEntries>>)
    ensures AppendsSent(p, c, i, batch) && AppendsWake(i, batch) <==> DeliversAppends(p, c, i, Messages(batch))
  {
    forall m | m in Messages(batch) ensures exists k :: 0 <= k < |batch| && batch[k] == Valid(m) {
      var k := MessageAt(batch, m);
    }
    forall k: nat | k < |batch| && batch[k].Valid? ensures batch[k].msg in Messages(batch) {
      SampleIn(batch, k);
    }
  }

  // ---------- the handlers

  /** Heartbeats outside an election. */
  lemma HeartbeatsRead(cfg: Config, c: Cluster, i: Id, batch: seq<Sample<AppendEntries>>) returns (r: ReplicaState)
    requires i in cfg.ids && i in c.reps
    ensures var d, s, ms := Apply(cfg, c, HandleAppends(i, batch)), c.reps[i], Messages(batch);
            if !s.electing && DeliversAppends(cfg.policy, c, i, ms) then
              OnlyChanges(c, d, i, r) && AfterAppends(cfg.policy, s, ms, r)
            else d == c
  {
    r := OnAppends(cfg.policy, c.reps[i], batch);
    AppendsDelivered(cfg.policy, c, i, batch);
    AppendsExact(cfg.policy, c.reps[i], batch);
  }

  /** Heartbeats that arrive while a candidate waits: they do the same, and the election is over exactly when
      one of them has at least the old term; otherwise another pass is due. */
  lemma ElectionHeartbeatsRead(cfg: Config, c: Cluster, i: Id, batch: seq<Sample<AppendEntries>>)
    returns (r: ReplicaState)
    requires i in cfg.ids && i in c.reps
    ensures var d, s, ms := Apply(cfg, c, HandleElectionAppends(i, batch)), c.reps[i], Messages(batch);
            var over := exists m | m in ms :: m.term >= s.term;
            if s.electing && !s.again && DeliversAppends(cfg.policy, c, i, ms) then
              && OnlyChanges(c, d, i, r.(electing := !over, again := !over))
              && AfterAppends(cfg.policy, s, ms, r)
              && (over ==> r.role == FOLLOWER)
            else d == c
  {
    r := OnAppends(cfg.policy, c.reps[i], batch);
    AppendsDelivered(cfg.policy, c, i, batch);
    AppendsExact(cfg.policy, c.reps[i], batch);
    ElectionEndsExactly(cfg.policy, c.reps[i], batch);
  }

  /** Vote requests: the network gains exactly one reply for each of them. */
  lemma RequestsRead(cfg: Config, c: Cluster, i: Id, batch: seq<Sample<VoteRequest>>)
    returns (r: ReplicaState, rs: seq<VoteReply>)
    requires i in cfg.ids && i in c.reps
    ensures var d, s, ms := Apply(cfg, c, HandleRequests(i, batch)), c.reps[i], Messages(batch);
            if DeliversRequests(cfg.policy, c, i, ms) then
              && OnlyChanges(c, d.(replies := c.replies), i, r) && AfterRequests(s, ms, r)
              && |rs| == |ms| && (forall x :: x in d.replies <==> x in c.replies || x in rs)
              && forall k | 0 <= k < |ms| ::
                   && Reports(s, ms, k, rs[k])
                   && (rs[k].granted <==> exists j | 0 <= j <= k :: GivesVote(ms, j, rs[j]))
            else d == c
  {
    var (s1, replies) := OnRequests(cfg.policy, c.reps[i], batch, false);
    r, rs := s1, replies;
    RequestsDelivered(cfg.policy, c, i, batch);
    RequestsExact(cfg.policy, c.reps[i], batch);
  }

  /** Vote replies: they matter to a candidate only, and the first deciding one counts. */
  lemma RepliesRead(cfg: Config, c: Cluster, i: Id, batch: seq<Sample<VoteReply>>) returns (r: ReplicaState)
    requires i in cfg.ids && i in c.reps
    ensures var d, s, ms := Apply(cfg, c, HandleReplies(i, batch)), c.reps[i], Messages(batch);
            if s.role == CANDIDATE && DeliversReplies(cfg.policy, c, i, ms) then
              OnlyChanges(c, d, i, r) && AfterReplies(cfg.policy, |cfg.ids|, s, ms, r)
            else d == c
  {
    r := OnReplies(cfg.policy, |cfg.ids|, c.reps[i], batch);
    RepliesDelivered(cfg.policy, c, i, batch);
    if c.reps[i].role == CANDIDATE {
      RepliesExact(cfg.policy, |cfg.ids|, c.reps[i], batch);
    } else {
      RestIsSkipped(cfg.policy, |cfg.ids|, c.reps[i], batch);
      assert With(c, i, c.reps[i]) == c;
    }
  }

  // ---------- the input loop and the timers

  /** Client input: so many rounds append so many entries at a leader, and nothing elsewhere. */
  lemma InputRead(cfg: Config, c: Cluster, i: Id, rounds: nat) returns (r: ReplicaState)
    requires i in cfg.ids && i in c.reps
    ensures var d, s := Apply(cfg, c, ClientInput(i, rounds)), c.reps[i];
            && OnlyChanges(c, d, i, r)
            && r == s.(log := s.log + NewEntries(s, rounds), trace := r.trace)
            && r.trace == s.trace + EventsOf(NewEntries(s, rounds))
  {
    r := OnInputs(c.reps[i], rounds);
    InputsAppend(c.reps[i], rounds);
  }

  /** The heartbeat timer: one heartbeat of the current term if it is armed. */
  lemma HeartbeatSent(cfg: Config, c: Cluster, i: Id)
    requires i in cfg.ids && i in c.reps
    ensures var d, m := Apply(cfg, c, Heartbeat(i)), AppendEntries(c.reps[i].term, i);
            && OnlyChanges(c, d.(appends := c.appends), i, c.reps[i])
            && forall x :: x in d.appends <==> x in c.appends || (c.reps[i].armed && x == m)
  {
  }

  /** The start of a pass: a replica that is no leader begins unless it is still waiting inside an election;
      a leader begins only when a further pass is due and not guarded. */
  lemma ElectionBegun(cfg: Config, c: Cluster, i: Id) returns (r: ReplicaState)
    requires i in cfg.ids && i in c.reps
    ensures var d, s := Apply(cfg, c, StartElection(i)), c.reps[i];
            var due := s.electing && s.again;
            if (s.role != LEADER && (due || !s.electing)) || (s.role == LEADER && due && !cfg.policy.guardStart) then
              && OnlyChanges(c, d.(requests := c.requests, elections := c.elections), i, r)
              && r.role == CANDIDATE && r.term == r.electionTerm == s.term + 1 && r.votedFor == s.id
              && r.votes == 1 && r.voters == {s.id} && r.electing && !r.again
              && r.id == s.id && r.armed == s.armed && r.o1 == s.o1 && r.o2 == s.o2 && r.log == s.log
              && r.trace == s.trace + [Ran(r.term), Voted(r.term, s.id)]
              && (forall x :: x in d.requests <==> x in c.requests || x == VoteRequest(r.term, i))
              && d.elections == c.elections + 1
            else d == c
  {
    r := BeginElection(c.reps[i]);
  }

  /** The end of a wait: whoever waits leaves the election with everything else as it was, and so does a
      leader whose further pass the guard refuses; nobody else does. */
  lemma WaitTimedOut(cfg: Config, c: Cluster, i: Id)
    requires i in cfg.ids && i in c.reps
    ensures var d, s := Apply(cfg, c, ElectionTimeout(i)), c.reps[i];
            if s.electing && (!s.again || (s.role == LEADER && cfg.policy.guardStart)) then
              OnlyChanges(c, d, i, s.(electing := false, again := false))
            else d == c
  {
  }
}
