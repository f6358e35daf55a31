/** How a cluster can be taken from one state to another, move by move. */
module Moves {
  import opened Model
  import opened ReplicaRules
  import opened History
  import opened Protocol
  import opened Network
  import opened Reachable

  /** Some sequence of steps leads from `o` to `c`. */
  ghost predicate Follows(cfg: Config, o: Cluster, c: Cluster) {
    exists steps: seq<Step> :: RunFrom(cfg, o, steps) == c
  }

  lemma FollowsSelf(cfg: Config, o: Cluster)
    ensures Follows(cfg, o, o)
  {
    assert RunFrom(cfg, o, []) == o;
  }

  lemma FollowsStep(cfg: Config, o: Cluster, c: Cluster, step: Step)
    requires Follows(cfg, o, c)
    ensures Follows(cfg, o, Apply(cfg, c, step))
  {
    var steps: seq<Step> :| RunFrom(cfg, o, steps) == c;
    RunFromConcat(cfg, o, steps, [step]);
    assert RunFrom(cfg, c, [step]) == Apply(cfg, c, step);
  }

  // ---------- steps with batches of one message of another replica

  function Asked(p: Policy, c: Cluster, i: Id, m: VoteRequest): Cluster
    requires i in c.reps
  {
    var s := OnRequest(p, c.reps[i], m);
    With(c, i, s).(replies := c.replies + {ReplyOf(s, Grants(p, c.reps[i], m))})
  }

  lemma Ask(cfg: Config, o: Cluster, c: Cluster, i: Id, m: VoteRequest)
    requires Follows(cfg, o, c) && i in cfg.ids && i in c.reps && m in c.requests && m.sender != i
    ensures Follows(cfg, o, Asked(cfg.policy, c, i, m))
  {
    var batch := [Valid(m)];
    var s := OnRequest(cfg.policy, c.reps[i], m);
    var g := Grants(cfg.policy, c.reps[i], m);
    assert OnRequests(cfg.policy, s, batch[1..], g) == (s, []);
    var replies := [ReplyOf(s, g)];
    assert replies + [] == replies;
    assert OnRequests(cfg.policy, c.reps[i], batch, false) == (s, replies);
    assert c.replies + (set r | r in replies) == c.replies + {ReplyOf(s, g)};
    assert batch[0].Valid? && RequestsWake(i, batch);
    FollowsStep(cfg, o, c, HandleRequests(i, batch));
    assert RequestResult(cfg, c, i, batch, false) == Asked(cfg.policy, c, i, m);
  }

  function Told(cfg: Config, c: Cluster, i: Id, m: VoteReply): Cluster
    requires i in c.reps
  {
    With(c, i, OnReply(cfg.policy, |cfg.ids|, c.reps[i], m))
  }

  lemma Tell(cfg: Config, o: Cluster, c: Cluster, i: Id, m: VoteReply)
    requires Follows(cfg, o, c) && i in cfg.ids && i in c.reps && m in c.replies && m.sender != i
    ensures Follows(cfg, o, Told(cfg, c, i, m))
  {
    var batch := [Valid(m)];
    var s := OnReply(cfg.policy, |cfg.ids|, c.reps[i], m);
    assert OnReplies(cfg.policy, |cfg.ids|, s, batch[1..]) == s;
    assert OnReplies(cfg.policy, |cfg.ids|, c.reps[i], batch) == s;
    assert batch[0].Valid? && RepliesWake(i, batch);
    FollowsStep(cfg, o, c, HandleReplies(i, batch));
    assert Apply(cfg, c, HandleReplies(i, batch)) == Told(cfg, c, i, m);
  }

  /** `i`, waiting inside an election, handles the heartbeat `m` of another replica. */
  function Beaten(p: Policy, c: Cluster, i: Id, m: AppendEntries): Cluster
    requires i in c.reps
  {
    var s := OnAppend(p, c.reps[i], m);
    With(c, i, s.(electing := m.term != s.term, again := m.term != s.term))
  }

  lemma BeatArrives(cfg: Config, o: Cluster, c: Cluster, i: Id, m: AppendEntries)
    requires Follows(cfg, o, c) && i in cfg.ids && i in c.reps && c.reps[i].electing && !c.reps[i].again
    requires m in c.appends && m.sender != i
    ensures Follows(cfg, o, Beaten(cfg.policy, c, i, m))
  {
    var batch := [Valid(m)];
    var s := OnAppend(cfg.policy, c.reps[i], m);
    assert OnAppends(cfg.policy, s, batch[1..]) == s && !Finishes(cfg.policy, s, batch[1..]);
    assert OnAppends(cfg.policy, c.reps[i], batch) == s;
    assert Finishes(cfg.policy, c.reps[i], batch) == (m.term == s.term);
    assert batch[0].Valid? && AppendsWake(i, batch);
    FollowsStep(cfg, o, c, HandleElectionAppends(i, batch));
    assert Apply(cfg, c, HandleElectionAppends(i, batch)) == Beaten(cfg.policy, c, i, m);
  }

  /** `i`, outside an election, handles the heartbeat `m` of another replica. */
  function Heard(p: Policy, c: Cluster, i: Id, m: AppendEntries): Cluster
    requires i in c.reps
  {
    With(c, i, OnAppend(p, c.reps[i], m))
  }

  lemma Hear(cfg: Config, o: Cluster, c: Cluster, i: Id, m: AppendEntries)
    requires Follows(cfg, o, c) && i in cfg.ids && i in c.reps && !c.reps[i].electing
    requires m in c.appends && m.sender != i
    ensures Follows(cfg, o, Heard(cfg.policy, c, i, m))
  {
    var batch := [Valid(m)];
    var s := OnAppend(cfg.policy, c.reps[i], m);
    assert OnAppends(cfg.policy, s, batch[1..]) == s;
    assert OnAppends(cfg.policy, c.reps[i], batch) == s;
    assert batch[0].Valid? && AppendsWake(i, batch);
    FollowsStep(cfg, o, c, HandleAppends(i, batch));
    assert Apply(cfg, c, HandleAppends(i, batch)) == Heard(cfg.policy, c, i, m);
  }

  // ---------- what a replica looks like between the steps

  /** `i` is running for term `t` and has counted `v` votes. */
  ghost predicate Running(cfg: Config, c: Cluster, i: Id, t: nat, v: nat) {
    && i in c.reps
    && var s := c.reps[i];
      && s.id == i && s.role == CANDIDATE && s.term == t && s.electionTerm == t && s.electing && !s.again
      && Tally(cfg.policy, s) == v
      && i in s.voters
      && VoteRequest(t, i) in c.requests
  }

  /** `i` has just begun to run for term `t`. */
  ghost predicate Fresh(cfg: Config, c: Cluster, i: Id, t: nat) {
    Running(cfg, c, i, t, 1) && c.reps[i].voters == {i}
  }

  /** `i` leads term `t` from inside its election. */
  ghost predicate Leading(c: Cluster, i: Id, t: nat) {
    && i in c.reps
    && var s := c.reps[i];
      s.id == i && s.role == LEADER && s.term == t && s.electing && !s.again && s.armed && Led(t) in s.trace
  }

  /** `y` will grant a request of term `t`. */
  ghost predicate Free(c: Cluster, y: Id, t: nat) {
    && y in c.reps && c.reps[y].id == y
    && (c.reps[y].term < t || (c.reps[y].term == t && c.reps[y].votedFor == VOTED_NONE))
  }

  /** Between `c` and `d` replica `y` gave its vote of term `t` to `x` and did nothing else. */
  ghost predicate VotesFor(c: Cluster, d: Cluster, y: Id, x: Id, t: nat) {
    && y in c.reps && y in d.reps
    && var s, s' := c.reps[y], d.reps[y];
      && s'.id == y && s'.term == t && Voted(t, x) in s'.trace
      && s'.log == s.log && s'.electing == s.electing && s'.again == s.again && s.trace <= s'.trace
      && s'.role == if s.term < t then FOLLOWER else s.role
  }

  /** `d` differs from `c` at the replicas in `ids` only, and has every message of `c`. */
  ghost predicate Touches(c: Cluster, d: Cluster, ids: set<Id>) {
    && d.reps.Keys == c.reps.Keys
    && (forall x | x in c.reps && x !in ids :: d.reps[x] == c.reps[x])
    && c.requests <= d.requests && c.appends <= d.appends
  }

  // ---------- longer moves

  lemma StartRun(cfg: Config, o: Cluster, c: Cluster, i: Id) returns (d: Cluster)
    requires Follows(cfg, o, c) && i in cfg.ids && i in c.reps && c.reps[i].id == i && CanStart(cfg.policy, c.reps[i])
    ensures Follows(cfg, o, d) && Touches(c, d, {i}) && Fresh(cfg, d, i, c.reps[i].term + 1)
    ensures d.reps[i].armed == c.reps[i].armed && d.reps[i].log == c.reps[i].log
    ensures Ran(c.reps[i].term + 1) in d.reps[i].trace
  {
    FollowsStep(cfg, o, c, StartElection(i));
    d := Apply(cfg, c, StartElection(i));
    assert d.reps[i].trace[|c.reps[i].trace|] == Ran(c.reps[i].term + 1);
    assert |{i}| == 1;
  }

  /** A candidate whose wait timed out runs again. */
  lemma RunAgain(cfg: Config, o: Cluster, c: Cluster, i: Id) returns (d: Cluster)
    requires Follows(cfg, o, c) && i in cfg.ids && i in c.reps && c.reps[i].id == i
    requires c.reps[i].electing && !c.reps[i].again && c.reps[i].role != LEADER
    ensures Follows(cfg, o, d) && Touches(c, d, {i}) && Fresh(cfg, d, i, c.reps[i].term + 1)
    ensures d.reps[i].log == c.reps[i].log
  {
    FollowsStep(cfg, o, c, ElectionTimeout(i));
    var c1 := Apply(cfg, c, ElectionTimeout(i));
    d := StartRun(cfg, o, c1, i);
  }

  lemma Granted(p: Policy, s: ReplicaState, m: VoteRequest)
    requires s.term < m.term || (s.term == m.term && s.votedFor == VOTED_NONE)
    ensures Grants(p, s, m)
    ensures var s1 := OnRequest(p, s, m);
            && s1.id == s.id && s1.term == m.term && s1.votedFor == m.sender
            && s1.electing == s.electing && s1.again == s.again && s1.log == s.log && s.trace <= s1.trace
            && s1.trace[|s1.trace| - 1] == Voted(m.term, m.sender)
            && s1.role == if s.term < m.term then FOLLOWER else s.role
  {
  }

  /** `y` grants the request of `x`, which is among those sent. */
  lemma GrantTo(cfg: Config, o: Cluster, c: Cluster, y: Id, x: Id, t: nat) returns (d: Cluster)
    requires Follows(cfg, o, c) && y in cfg.ids && Free(c, y, t) && x != y && VoteRequest(t, x) in c.requests
    ensures Follows(cfg, o, d) && Touches(c, d, {y}) && VotesFor(c, d, y, x, t)
    ensures VoteReply(y, t, x, true) in d.replies
    ensures d == Asked(cfg.policy, c, y, VoteRequest(t, x))
  {
    Granted(cfg.policy, c.reps[y], VoteRequest(t, x));
    Ask(cfg, o, c, y, VoteRequest(t, x));
    d := Asked(cfg.policy, c, y, VoteRequest(t, x));
  }

  lemma CountsOneMore(p: Policy, s: ReplicaState, sender: Id)
    requires sender !in s.voters && Tally(p, s) < 255
    ensures Tally(p, Count(p, s, sender)) == Tally(p, s) + 1
  {
  }

  lemma CountedOnce(p: Policy, n: nat, s: ReplicaState, m: VoteReply)
    requires s.role == CANDIDATE && m.term == s.electionTerm && Counts(s, m)
    requires m.sender !in s.voters && Tally(p, s) < 255
    ensures var s1 := OnReply(p, n, s, m);
            if (Tally(p, s) + 1) * 2 > n then s1 == BecomeLeader(p, Count(p, s, m.sender))
            else s1 == Count(p, s, m.sender) && Tally(p, s1) == Tally(p, s) + 1
  {
    CountsOneMore(p, s, m.sender);
  }

  /** What one more vote does to the candidate `x`. */
  ghost predicate Counted(cfg: Config, c: Cluster, d: Cluster, x: Id, y: Id, t: nat, v: nat) {
    && x in c.reps && x in d.reps
    && d.reps[x].log == c.reps[x].log && c.reps[x].trace <= d.reps[x].trace
    && if (v + 1) * 2 > |cfg.ids| then
         Leading(d, x, t) && d.reps[x].votedFor == if cfg.policy.clearOnLead then VOTED_NONE else c.reps[x].votedFor
       else
         Running(cfg, d, x, t, v + 1) && d.reps[x].voters <= c.reps[x].voters + {y}
         && d.reps[x].votedFor == c.reps[x].votedFor
  }

  lemma CountVote(cfg: Config, o: Cluster, c: Cluster, x: Id, r: VoteReply, v: nat) returns (d: Cluster)
    requires Follows(cfg, o, c) && x in cfg.ids && v < 255 && Running(cfg, c, x, r.term, v)
    requires r in c.replies && r.granted && r.candidate == x && r.sender != x && r.sender !in c.reps[x].voters
    ensures Follows(cfg, o, d) && Touches(c, d, {x}) && Counted(cfg, c, d, x, r.sender, r.term, v)
  {
    Tell(cfg, o, c, x, r);
    d := Told(cfg, c, x, r);
    hide Follows;
    CountedOnce(cfg.policy, |cfg.ids|, c.reps[x], r);
    if (v + 1) * 2 > |cfg.ids| {
      WinsNow(cfg, c, d, x, r);
    }
  }

  lemma WinsNow(cfg: Config, c: Cluster, d: Cluster, x: Id, r: VoteReply)
    requires x in c.reps && c.reps[x].id == x && c.reps[x].role == CANDIDATE && c.reps[x].electing && !c.reps[x].again
    requires c.reps[x].term == r.term && d == With(c, x, BecomeLeader(cfg.policy, Count(cfg.policy, c.reps[x], r.sender)))
    ensures Leading(d, x, r.term) && d.reps[x].log == c.reps[x].log && c.reps[x].trace <= d.reps[x].trace
    ensures d.reps[x].votedFor == if cfg.policy.clearOnLead then VOTED_NONE else c.reps[x].votedFor
  {
    assert d.reps[x].trace[|c.reps[x].trace|] == Led(r.term);
  }

  /** `y` votes for the candidate `x`, which counts the vote. */
  lemma GiveVote(cfg: Config, o: Cluster, c: Cluster, x: Id, y: Id, t: nat, v: nat) returns (d: Cluster)
    requires Follows(cfg, o, c) && x in cfg.ids && y in cfg.ids && x != y && v < 255
    requires Running(cfg, c, x, t, v) && y !in c.reps[x].voters && Free(c, y, t)
    ensures Follows(cfg, o, d) && Touches(c, d, {x, y}) && VotesFor(c, d, y, x, t) && Counted(cfg, c, d, x, y, t, v)
  {
    hide Follows;
    var c1 := GrantTo(cfg, o, c, y, x, t);
    d := CountVote(cfg, o, c1, x, VoteReply(y, t, x, true), v);
  }

  /** The replicas of `ys` vote for the candidate `x` one after another; the last one elects it. */
  lemma {:induction false} CollectVotes(cfg: Config, o: Cluster, c: Cluster, x: Id, ys: set<Id>, t: nat, v: nat) returns (d: Cluster)
    requires Follows(cfg, o, c) && |cfg.ids| <= 255 && x in cfg.ids && ys <= cfg.ids - {x}
    requires Running(cfg, c, x, t, v) && c.reps[x].voters !! ys && forall y | y in ys :: Free(c, y, t)
    requires ys != {} && v + |ys| == |cfg.ids| / 2 + 1
    ensures Follows(cfg, o, d) && Touches(c, d, ys + {x}) && Leading(d, x, t)
    ensures forall y | y in ys :: VotesFor(c, d, y, x, t)
    ensures d.reps[x].log == c.reps[x].log && c.reps[x].trace <= d.reps[x].trace
    ensures d.reps[x].votedFor == if cfg.policy.clearOnLead then VOTED_NONE else c.reps[x].votedFor
    decreases |ys|
  {
    hide Follows, Free, VotesFor, Running, Leading;
    var y :| y in ys;
    var rest := ys - {y};
    assert |rest| == |ys| - 1;
    RunningSelf(cfg, c, x, t, v);
    var c1 := GiveVote(cfg, o, c, x, y, t, v);
    if rest == {} {
      assert ys == {y};
      d := c1;
    } else {
      assert |rest| >= 1;
      FreeStays(c, c1, {x, y}, rest, t);
      d := CollectVotes(cfg, o, c1, x, rest, t, v + 1);
      VotesStay(c, c1, d, x, y, rest, t);
      assert ys == rest + {y};
    }
  }

  lemma RunningSelf(cfg: Config, c: Cluster, x: Id, t: nat, v: nat)
    requires Running(cfg, c, x, t, v)
    ensures x in c.reps && x in c.reps[x].voters
  {
  }

  lemma FreeStays(c: Cluster, d: Cluster, ids: set<Id>, ys: set<Id>, t: nat)
    requires Touches(c, d, ids) && ys !! ids && forall y | y in ys :: Free(c, y, t)
    ensures forall y | y in ys :: Free(d, y, t)
  {
    forall y | y in ys ensures Free(d, y, t) {
      assert Free(c, y, t) && d.reps[y] == c.reps[y];
    }
  }

  /** First `y` voted for `x`, then the replicas of `rest` did. */
  lemma VotesStay(c: Cluster, c1: Cluster, d: Cluster, x: Id, y: Id, rest: set<Id>, t: nat)
    requires Touches(c, c1, {x, y}) && Touches(c1, d, rest + {x}) && y !in rest && x !in rest && x != y
    requires VotesFor(c, c1, y, x, t) && forall z | z in rest :: VotesFor(c1, d, z, x, t)
    ensures forall z | z in rest + {y} :: VotesFor(c, d, z, x, t)
  {
    forall z | z in rest + {y} ensures VotesFor(c, d, z, x, t) {
      if z == y {
        assert d.reps[y] == c1.reps[y];
      } else {
        assert VotesFor(c1, d, z, x, t) && c1.reps[z] == c.reps[z];
      }
    }
  }

  lemma Elect(cfg: Config, o: Cluster, c: Cluster, x: Id, ys: set<Id>, t: nat) returns (d: Cluster)
    requires Follows(cfg, o, c) && 2 <= |cfg.ids| <= 255 && x in cfg.ids && ys <= cfg.ids - {x} && |ys| == |cfg.ids| / 2
    requires Fresh(cfg, c, x, t) && forall y | y in ys :: Free(c, y, t)
    ensures Follows(cfg, o, d) && Touches(c, d, ys + {x}) && Leading(d, x, t)
    ensures forall y | y in ys :: VotesFor(c, d, y, x, t)
    ensures d.reps[x].log == c.reps[x].log && c.reps[x].trace <= d.reps[x].trace
    ensures d.reps[x].votedFor == if cfg.policy.clearOnLead then VOTED_NONE else c.reps[x].votedFor
  {
    assert ys != {};
    d := CollectVotes(cfg, o, c, x, ys, t, 1);
  }

  /** The leader `x` appends the first entry of its log. */
  lemma Feed(cfg: Config, o: Cluster, c: Cluster, x: Id) returns (d: Cluster)
    requires Follows(cfg, o, c) && x in cfg.ids && x in c.reps && c.reps[x].role == LEADER && c.reps[x].log == []
    ensures Follows(cfg, o, d) && Touches(c, d, {x}) && Happened(d, x, Appended(c.reps[x].term, 1))
    ensures d.reps[x] == Append(c.reps[x], LogEntry(1, c.reps[x].term))
  {
    assert OnInputs(c.reps[x], 1) == OnInput(c.reps[x]);
    FollowsStep(cfg, o, c, ClientInput(x, 1));
    d := Apply(cfg, c, ClientInput(x, 1));
    assert d.reps[x].trace[|c.reps[x].trace|] == Appended(c.reps[x].term, 1);
  }

  lemma SendBeat(cfg: Config, o: Cluster, c: Cluster, i: Id) returns (d: Cluster)
    requires Follows(cfg, o, c) && i in cfg.ids && i in c.reps && c.reps[i].armed
    ensures Follows(cfg, o, d) && d == c.(appends := c.appends + {AppendEntries(c.reps[i].term, i)})
  {
    FollowsStep(cfg, o, c, Heartbeat(i));
    d := Apply(cfg, c, Heartbeat(i));
  }

  /** A heartbeat of an older term changes nothing but makes another pass due. */
  lemma StaleBeat(cfg: Config, o: Cluster, c: Cluster, i: Id, m: AppendEntries) returns (d: Cluster)
    requires Follows(cfg, o, c) && i in cfg.ids && i in c.reps && c.reps[i].electing && !c.reps[i].again
    requires m in c.appends && m.sender != i && m.term < c.reps[i].term
    ensures Follows(cfg, o, d) && d == With(c, i, c.reps[i].(again := true))
  {
    BeatArrives(cfg, o, c, i, m);
    d := Beaten(cfg.policy, c, i, m);
  }

  /** A heartbeat of its own term makes a replica in office step down and forget its vote. */
  lemma StepDown(cfg: Config, o: Cluster, c: Cluster, y: Id, m: AppendEntries) returns (d: Cluster)
    requires Follows(cfg, o, c) && cfg.policy.clearOnStepDown && y in cfg.ids && y in c.reps && c.reps[y].id == y
    requires m in c.appends && m.sender != y && m.term == c.reps[y].term
    requires c.reps[y].electing && !c.reps[y].again && c.reps[y].role != FOLLOWER
    ensures Follows(cfg, o, d) && Touches(c, d, {y}) && Free(d, y, m.term) && c.reps[y].trace <= d.reps[y].trace
    ensures d == Beaten(cfg.policy, c, y, m)
  {
    BeatArrives(cfg, o, c, y, m);
    d := Beaten(cfg.policy, c, y, m);
  }

  /** Without the filter a leader that an old heartbeat wakes up reads its own heartbeat with it. */
  lemma OwnStepDown(cfg: Config, o: Cluster, c: Cluster, y: Id, m: AppendEntries) returns (d: Cluster)
    requires Follows(cfg, o, c) && cfg.policy.clearOnStepDown && !cfg.policy.skipOwn && y in cfg.ids && y in c.reps
    requires Leading(c, y, c.reps[y].term) && m in c.appends && m.sender != y && m.term < c.reps[y].term
    requires AppendEntries(c.reps[y].term, y) in c.appends
    ensures Follows(cfg, o, d) && Touches(c, d, {y}) && Free(d, y, c.reps[y].term) && c.reps[y].trace <= d.reps[y].trace
  {
    var own := AppendEntries(c.reps[y].term, y);
    var batch := [Valid(m), Valid(own)];
    var s := c.reps[y];
    assert OnAppend(cfg.policy, s, m) == s;
    var s1 := OnAppend(cfg.policy, s, own);
    assert batch[1..] == [Valid(own)] && batch[1..][1..] == [];
    assert OnAppends(cfg.policy, s1, []) == s1;
    assert OnAppends(cfg.policy, s, batch[1..]) == s1;
    assert OnAppends(cfg.policy, s, batch) == s1;
    assert batch[0].Valid? && AppendsWake(y, batch);
    FollowsStep(cfg, o, c, HandleElectionAppends(y, batch));
    d := Apply(cfg, c, HandleElectionAppends(y, batch));
  }

  // ---------- choosing replicas

  lemma {:induction false} Subset(s: set<Id>, n: nat) returns (sub: set<Id>)
    requires n <= |s|
    ensures sub <= s && |sub| == n
    decreases n
  {
    if n == 0 {
      sub := {};
    } else {
      var x :| x in s;
      assert |s - {x}| == |s| - 1;
      sub := Subset(s - {x}, n - 1);
      assert x !in sub;
      sub := sub + {x};
    }
  }
}
