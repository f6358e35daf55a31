/** At most one leader per term: for which policies, and why. */
module Safety {
  import opened Model
  import opened ReplicaRules
  import opened History
  import opened Voting
  import opened Protocol
  import opened Network
  import opened Reachable

  ghost predicate OneLeaderPerTerm(c: Cluster) {
    forall i, j, t | Happened(c, i, Led(t)) && Happened(c, j, Led(t)) :: i == j
  }

  ghost predicate TwoLeaders(c: Cluster, t: nat, i: Id, j: Id) {
    i != j && Happened(c, i, Led(t)) && Happened(c, j, Led(t))
  }

  predicate KeepsVote(p: Policy) {
    !p.clearOnLead && !p.clearOnStepDown
  }

  /** A leader keeps its vote: it does not lose it by leading, nor by stepping down, because it never
      steps down in its own term when only leaders send heartbeats and it does not read its own. */
  predicate LeadersKeepVote(p: Policy) {
    !p.clearOnLead && (!p.clearOnStepDown || (p.guardStart && p.skipOwn))
  }

  /** Winning means a majority, and the majorities of two leaders of a term cannot have just the earlier
      leader in common: in an even cluster two majorities have two replicas in common. */
  predicate SafeCount(cfg: Config) {
    CountsMajorities(cfg) && (|cfg.ids| % 2 == 0 || LeadersKeepVote(cfg.policy))
  }

  /** The settings in which no run has two leaders of one term. */
  predicate SafeSetting(cfg: Config) {
    |cfg.ids| <= 1 || SafeCount(cfg)
  }

  lemma PairSize(a: Id, b: Id, s: set<Id>)
    requires a in s && b in s && a != b
    ensures |s| >= 2
  {
    SubsetSize({a, b}, s);
  }

  lemma TripleSize(a: Id, b: Id, c: Id, s: set<Id>)
    requires a in s && b in s && c in s && a != b && b != c && a != c
    ensures |s| >= 3
  {
    SubsetSize({a, b, c}, s);
  }

  lemma QuorumsMeet(ids: set<Id>, a: set<Id>, b: set<Id>)
    requires a <= ids && b <= ids && |a| * 2 > |ids| && |b| * 2 > |ids|
    ensures a * b != {}
    ensures |ids| % 2 == 0 ==> |a * b| >= 2
  {
    SubsetSize(a + b, ids);
    assert |a + b| == |a| + |b| - |a * b|;
  }

  // ---------- who votes twice

  /** Who votes for two candidates of a term ran in it and cleared its vote in it; if it is neither of
      the two, it cleared its vote twice. */
  lemma VotedForBoth(p: Policy, s: ReplicaState, t: nat, a: Id, b: Id)
    requires Disciplined(p, s) && Voted(t, a) in s.trace && Voted(t, b) in s.trace && a != b
    ensures Ran(t) in s.trace && OfficeCount(p, s.trace, t) >= 1
    ensures s.id != a && s.id != b ==> OfficeCount(p, s.trace, t) == 2
  {
    hide Disciplined;
    VotesPerTerm(p, s, t);
    InBallots(s.trace, t, a);
    InBallots(s.trace, t, b);
    PairSize(a, b, Ballots(s.trace, t));
    if s.id != a && s.id != b && s.id in Ballots(s.trace, t) {
      TripleSize(a, b, s.id, Ballots(s.trace, t));
    }
  }

  /** While `i` is the only leader of the term and `j` still a candidate of it, nobody but `i` has voted
      for both, and `i` only after clearing its own vote. */
  lemma OnlyTheLeaderSwitched(cfg: Config, c: Cluster, t: nat, i: Id, j: Id, x: Id)
    requires Inv(cfg, c) && OneLeaderPerTerm(c) && i != j && Happened(c, i, Led(t))
    requires j in c.reps && c.reps[j].role == CANDIDATE && c.reps[j].term == t
    requires x in Supporters(c, t, i) && x in Supporters(c, t, j)
    ensures x == i && OfficeCount(cfg.policy, c.reps[i].trace, t) >= 1
  {
    hide Disciplined;
    VotedForBoth(cfg.policy, c.reps[x], t, i, j);
    CandidateHoldsNoOffice(cfg.policy, c.reps[j]);
    assert Led(t) in c.reps[x].trace ==> Happened(c, x, Led(t));
  }

  lemma CandidateHoldsNoOffice(p: Policy, s: ReplicaState)
    requires Disciplined(p, s) && s.role == CANDIDATE
    ensures OfficeCount(p, s.trace, s.term) == 0
  {
  }

  /** Where leaders keep their vote, the only leader of a term has not cleared it. */
  lemma LeaderStays(cfg: Config, c: Cluster, i: Id, t: nat)
    requires StepDownsExplained(cfg.policy, c) && OneLeaderPerTerm(c) && Happened(c, i, Led(t))
    requires LeadersKeepVote(cfg.policy)
    ensures OfficeCount(cfg.policy, c.reps[i].trace, t) == 0
  {
    assert cfg.policy.clearOnStepDown && Happened(c, i, SteppedDown(t)) ==> LedByOther(c, t, i);
  }

  // ---------- the first leader of a term is the only one

  /** A candidate with the votes of a majority is the first leader of its term. The majority of an earlier
      leader would meet its own in that leader alone; an even cluster needs a second replica there, and a
      leader that keeps its vote is not there either. */
  lemma FirstLeader(cfg: Config, c: Cluster, j: Id, i: Id, t: nat)
    requires Inv(cfg, c) && OneLeaderPerTerm(c) && SafeCount(cfg)
    requires j in c.reps && c.reps[j].role == CANDIDATE && t == c.reps[j].term && LeaderEarned(cfg, c, t, j)
    ensures i != j ==> !Happened(c, i, Led(t))
  {
    hide Disciplined;
    if i != j && Happened(c, i, Led(t)) {
      var both := Supporters(c, t, i) * Supporters(c, t, j);
      assert LeaderEarned(cfg, c, t, i);
      QuorumsMeet(cfg.ids, Supporters(c, t, i), Supporters(c, t, j));
      forall x | x in both ensures x == i && OfficeCount(cfg.policy, c.reps[i].trace, t) >= 1 {
        OnlyTheLeaderSwitched(cfg, c, t, i, j, x);
      }
      SubsetSize(both, {i});
      if LeadersKeepVote(cfg.policy) { LeaderStays(cfg, c, i, t); }
    }
  }

  lemma ReplyStaysSafe(cfg: Config, c: Cluster, i: Id, m: VoteReply)
    requires Inv(cfg, c) && OneLeaderPerTerm(c) && SafeCount(cfg)
    requires i in c.reps && m in c.replies && (cfg.policy.skipOwn ==> m.sender != i)
    ensures OneLeaderPerTerm(With(c, i, OnReply(cfg.policy, |cfg.ids|, c.reps[i], m)))
  {
    hide Disciplined;
    var s := OnReply(cfg.policy, |cfg.ids|, c.reps[i], m);
    var d := With(c, i, s);
    OnReplyKeeps(cfg.policy, |cfg.ids|, c.reps[i], m);
    MoveReplicas(cfg, c, i, s);
    CandidateTerm(cfg.policy, c.reps[i]);
    ReplyEvents(cfg.policy, |cfg.ids|, c.reps[i], m);
    assert ReplyTrue(c, m);
    ReplyTally(cfg, c, i, m, s);
    forall x, y, t | Happened(d, x, Led(t)) && Happened(d, y, Led(t)) ensures x == y {
      if Led(t) !in c.reps[i].trace && Led(t) in s.trace {
        FirstLeader(cfg, c, i, x, t);
        FirstLeader(cfg, c, i, y, t);
        assert x != i ==> Happened(c, x, Led(t));
        assert y != i ==> Happened(c, y, Led(t));
      } else {
        assert Happened(c, x, Led(t)) && Happened(c, y, Led(t));
      }
    }
  }

  lemma {:induction false} ReplyBatchStaysSafe(cfg: Config, c: Cluster, i: Id, batch: seq<Sample<VoteReply>>)
    requires Inv(cfg, c) && OneLeaderPerTerm(c) && SafeCount(cfg)
    requires i in c.reps && RepliesSent(cfg.policy, c, i, batch)
    ensures OneLeaderPerTerm(With(c, i, OnReplies(cfg.policy, |cfg.ids|, c.reps[i], batch)))
    decreases |batch|
  {
    hide Disciplined, Inv, OneLeaderPerTerm;
    var p, n := cfg.policy, |cfg.ids|;
    if batch == [] {
      assert With(c, i, c.reps[i]) == c;
    } else if batch[0] == Invalid {
      ReplyBatchStaysSafe(cfg, c, i, batch[1..]);
    } else {
      var m := batch[0].msg;
      var c1 := With(c, i, OnReply(p, n, c.reps[i], m));
      ReplyKeeps(cfg, c, i, m);
      ReplyStaysSafe(cfg, c, i, m);
      ReplyBatchStaysSafe(cfg, c1, i, batch[1..]);
      assert With(c1, i, OnReplies(p, n, c1.reps[i], batch[1..])) == With(c, i, OnReplies(p, n, c.reps[i], batch));
    }
  }

  // The other handlers make nobody a leader.

  lemma {:induction false} RequestsMakeNoLeader(p: Policy, s: ReplicaState, batch: seq<Sample<VoteRequest>>, granted: bool, t: nat)
    ensures Led(t) in OnRequests(p, s, batch, granted).0.trace ==> Led(t) in s.trace
    decreases |batch|
  {
    if batch == [] {
    } else {
      match batch[0]
      case Invalid => RequestsMakeNoLeader(p, s, batch[1..], granted, t);
      case Valid(m) =>
        RequestsMakeNoLeader(p, OnRequest(p, s, m), batch[1..], granted || Grants(p, s, m), t);
        RequestEvents(p, s, m);
        assert Office(Led(t));
    }
  }

  lemma {:induction false} AppendsMakeNoLeader(p: Policy, s: ReplicaState, batch: seq<Sample<AppendEntries>>, t: nat)
    ensures Led(t) in OnAppends(p, s, batch).trace ==> Led(t) in s.trace
    decreases |batch|
  {
    if batch == [] {
    } else {
      match batch[0]
      case Invalid => AppendsMakeNoLeader(p, s, batch[1..], t);
      case Valid(m) =>
        AppendsMakeNoLeader(p, OnAppend(p, s, m), batch[1..], t);
        AppendEvents(p, s, m);
        assert Office(Led(t));
    }
  }

  lemma {:induction false} InputsMakeNoLeader(s: ReplicaState, rounds: nat, t: nat)
    ensures Led(t) in OnInputs(s, rounds).trace ==> Led(t) in s.trace
    decreases rounds
  {
    if rounds == 0 {
    } else {
      InputsMakeNoLeader(OnInput(s), rounds - 1, t);
    }
  }

  lemma SameLeaders(c: Cluster, d: Cluster)
    requires OneLeaderPerTerm(c)
    requires forall i, t | Happened(d, i, Led(t)) :: Happened(c, i, Led(t))
    ensures OneLeaderPerTerm(d)
  {
  }

  lemma OtherStepsMakeNoLeader(cfg: Config, c: Cluster, step: Step)
    requires !step.HandleReplies?
    ensures forall i, t | Happened(Apply(cfg, c, step), i, Led(t)) :: Happened(c, i, Led(t))
  {
    if Enabled(cfg, c, step) {
      var s := c.reps[step.id];
      forall i, t | Happened(Apply(cfg, c, step), i, Led(t)) ensures Happened(c, i, Led(t)) {
        match step
        case HandleRequests(_, batch) => RequestsMakeNoLeader(cfg.policy, s, batch, false, t);
        case HandleAppends(_, batch) => AppendsMakeNoLeader(cfg.policy, s, batch, t);
        case HandleElectionAppends(_, batch) => AppendsMakeNoLeader(cfg.policy, s, batch, t);
        case ClientInput(_, rounds) => InputsMakeNoLeader(s, rounds, t);
        case _ =>
      }
    }
  }

  lemma {:induction false} RunStaysSafe(cfg: Config, c: Cluster, steps: seq<Step>)
    requires ValidConfig(cfg) && Inv(cfg, c) && OneLeaderPerTerm(c) && SafeCount(cfg)
    ensures OneLeaderPerTerm(RunFrom(cfg, c, steps))
    decreases |steps|
  {
    hide Disciplined, Inv, OneLeaderPerTerm;
    if steps == [] {
    } else {
      var step := steps[0];
      ApplyKeeps(cfg, c, step);
      if step.HandleReplies? {
        if Enabled(cfg, c, step) { ReplyBatchStaysSafe(cfg, c, step.id, step.replies); }
      } else {
        OtherStepsMakeNoLeader(cfg, c, step);
        SameLeaders(c, Apply(cfg, c, step));
      }
      RunStaysSafe(cfg, Apply(cfg, c, step), steps[1..]);
    }
  }

  lemma OneReplica(cfg: Config, c: Cluster)
    requires c.reps.Keys == cfg.ids && |cfg.ids| <= 1
    ensures OneLeaderPerTerm(c)
  {
    forall i: Id, j: Id, t: nat | Happened(c, i, Led(t)) && Happened(c, j, Led(t)) ensures i == j {
      if i != j { SubsetSize({i, j}, cfg.ids); }
    }
  }

  /** In a safe setting no run has two leaders of one term. */
  lemma ElectionSafety(cfg: Config, steps: seq<Step>)
    requires ValidConfig(cfg) && SafeSetting(cfg)
    ensures OneLeaderPerTerm(Run(cfg, steps))
  {
    hide Disciplined;
    InitInv(cfg);
    RunInv(cfg, steps);
    if |cfg.ids| <= 1 {
      OneReplica(cfg, Run(cfg, steps));
    } else {
      assert OneLeaderPerTerm(Init(cfg));
      RunStaysSafe(cfg, Init(cfg), steps);
    }
  }
}
