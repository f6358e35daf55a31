/** For exactly which settings the promises of the protocol hold in all runs. */
module Exactness {
  import opened Model
  import opened History
  import opened Voting
  import opened Protocol
  import opened Network
  import opened Reachable
  import opened Safety
  import opened Elections
  import opened Moves
  import opened Witness

  // ---------- choosing replicas

  lemma TwoIds(ids: set<Id>) returns (a: Id, k: Id)
    requires |ids| >= 2
    ensures a in ids && k in ids && a != k
  {
    a :| a in ids;
    assert |ids - {a}| >= 1;
    k :| k in ids - {a};
  }

  lemma FourIds(ids: set<Id>) returns (a: Id, k: Id, b: Id, e: Id)
    requires |ids| >= 4
    ensures {a, k, b, e} <= ids && a !in {k, b, e} && k !in {b, e} && b != e
  {
    a, k := TwoIds(ids);
    var others := ids - {a} - {k};
    assert |others| >= 2;
    b, e := TwoIds(others);
  }

  // ---------- one leader per term

  /** Two leaders of one term that have not appended anything append their first entry. */
  lemma BothAppend(cfg: Config, c: Cluster, a: Id, k: Id) returns (d: Cluster)
    requires Reaches(cfg, c) && a in cfg.ids && k in cfg.ids && a != k && LeadsWithEmptyLog(c, a) && LeadsWithEmptyLog(c, k)
    ensures Reaches(cfg, d) && TwoLeaders(d, 1, a, k)
    ensures Happened(d, a, Appended(1, 1)) && Happened(d, k, Appended(1, 1))
  {
    hide Follows, Init;
    var c1 := Feed(cfg, Init(cfg), c, a);
    d := Feed(cfg, Init(cfg), c1, k);
  }

  /** A run in which two replicas lead one term by too small a count, and both append its entry 1. */
  lemma MiscountRun(cfg: Config) returns (c: Cluster, a: Id, k: Id)
    requires ValidConfig(cfg) && 2 <= |cfg.ids| <= 255 && !CountsMajorities(cfg)
    ensures Reaches(cfg, c) && TwoLeaders(c, 1, a, k)
    ensures Happened(c, a, Appended(1, 1)) && Happened(c, k, Appended(1, 1))
  {
    hide Follows, Init, LeadsWithEmptyLog, Run, FlagSteps;
    if cfg.policy.skipOwn {
      var b, e;
      a, k, b, e := FourIds(cfg.ids);
      var starts, xs, ys := FlagElectsTwo(cfg, a, k, b, e);
      var steps := starts + FlagSteps(cfg.policy, a, k, b, e, xs, ys);
      ReachedBy(cfg, steps);
      c := BothAppend(cfg, Run(cfg, steps), a, k);
    } else {
      a, k := TwoIds(cfg.ids);
      var c1 := OwnVotesElectTwo(cfg, a, k);
      c := BothAppend(cfg, c1, a, k);
    }
  }

  /** A run in which two replicas lead one term because a replica of both majorities voted twice. */
  lemma ForgottenVoteRun(cfg: Config) returns (c: Cluster, t: nat, a: Id, k: Id)
    requires ValidConfig(cfg) && 3 <= |cfg.ids| <= 255 && |cfg.ids| % 2 == 1 && !LeadersKeepVote(cfg.policy)
    ensures Reaches(cfg, c) && TwoLeaders(c, t, a, k)
    ensures Happened(c, a, Appended(t, 1)) && Happened(c, k, Appended(t, 1))
  {
    hide Follows, Init;
    var most, rest;
    a, k, most, rest := ShareOut(cfg.ids);
    if cfg.policy.clearOnLead {
      t := 1;
      c := LeaderElectsRival(cfg, a, k, most, rest);
    } else {
      assert most != {};
      var b :| b in most;
      if cfg.policy.skipOwn {
        t := 3;
        c := CandidateBeats(cfg, a, b, k, most, rest);
      } else {
        t := 2;
        c := LeaderBeatsItself(cfg, a, b, k, most, rest);
      }
    }
  }

  lemma UnsafeRun(cfg: Config) returns (c: Cluster, t: nat, a: Id, k: Id)
    requires ValidConfig(cfg) && |cfg.ids| <= 255 && !SafeSetting(cfg)
    ensures Reaches(cfg, c) && TwoLeaders(c, t, a, k)
    ensures Happened(c, a, Appended(t, 1)) && Happened(c, k, Appended(t, 1))
  {
    hide Follows, Init;
    if CountsMajorities(cfg) {
      c, t, a, k := ForgottenVoteRun(cfg);
    } else {
      t := 1;
      c, a, k := MiscountRun(cfg);
    }
  }

  /** Any policy and up to 255 replicas: no run has two leaders in one term if and only if there are not
      two replicas, or winning means a majority and either the cluster is even or leaders keep their vote. */
  lemma ElectionSafetyExactly(cfg: Config)
    requires ValidConfig(cfg) && |cfg.ids| <= 255
    ensures (forall steps: seq<Step> :: OneLeaderPerTerm(Run(cfg, steps))) <==> SafeSetting(cfg)
  {
    if SafeSetting(cfg) {
      forall steps: seq<Step> ensures OneLeaderPerTerm(Run(cfg, steps)) {
        ElectionSafety(cfg, steps);
      }
    } else {
      var c, t, a, k := UnsafeRun(cfg);
      var steps := RunTo(cfg, c);
      assert !OneLeaderPerTerm(Run(cfg, steps));
    }
  }

  /** Votes that are never cleared: counting granted replies one by one is safe exactly for one replica, and
      with the filter for up to three; counting their senders always is. */
  lemma CountingExactly(cfg: Config)
    requires ValidConfig(cfg) && |cfg.ids| <= 255 && KeepsVote(cfg.policy)
    ensures (forall steps: seq<Step> :: OneLeaderPerTerm(Run(cfg, steps))) <==>
            |cfg.ids| <= 1 || cfg.policy.distinctVotes || (cfg.policy.skipOwn && |cfg.ids| <= 3)
  {
    ElectionSafetyExactly(cfg);
  }

  /** Under the same condition, and only then, no log entry is appended twice. */
  lemma EntriesUniqueExactly(cfg: Config)
    requires ValidConfig(cfg) && |cfg.ids| <= 255
    ensures (forall steps: seq<Step> :: EntriesUnique(Run(cfg, steps))) <==> SafeSetting(cfg)
  {
    if SafeSetting(cfg) {
      forall steps: seq<Step> ensures EntriesUnique(Run(cfg, steps)) {
        EntriesUniqueSafe(cfg, steps);
      }
    } else {
      var c, t, a, k := UnsafeRun(cfg);
      var steps := RunTo(cfg, c);
      assert !EntriesUnique(Run(cfg, steps));
    }
  }

  // ---------- leaders have the vote of another replica

  ghost predicate LeadersBacked(c: Cluster) {
    forall i, t | Happened(c, i, Led(t)) :: Backed(c, t, i)
  }

  lemma BackedWhenCounted(cfg: Config, c: Cluster)
    requires Inv(cfg, c) && (cfg.policy.skipOwn || (cfg.policy.distinctVotes && |cfg.ids| >= 2))
    ensures LeadersBacked(c)
  {
    hide Disciplined;
    forall i, t | Happened(c, i, Led(t)) ensures Backed(c, t, i) {
      assert LeaderEarned(cfg, c, t, i);
      var supporters := Supporters(c, t, i);
      if supporters <= {i} { SubsetSize(supporters, {i}); }
      assert supporters - {i} != {} ==> exists b :: b in supporters && b != i;
      assert forall b | b in supporters :: Happened(c, b, Voted(t, i));
    }
  }

  /** A lone replica hears nobody, and so never counts a reply. */
  lemma {:induction false} LoneReplica(cfg: Config, c: Cluster, steps: seq<Step>)
    requires |cfg.ids| <= 1 && c.reps.Keys == cfg.ids && ValidConfig(cfg) && Inv(cfg, c)
    requires forall i, t | Happened(c, i, Led(t)) :: false
    ensures forall i, t | Happened(RunFrom(cfg, c, steps), i, Led(t)) :: false
    decreases |steps|
  {
    hide Disciplined;
    if steps == [] {
    } else {
      ApplyKeeps(cfg, c, steps[0]);
      LoneStep(cfg, c, steps[0]);
      LoneReplica(cfg, Apply(cfg, c, steps[0]), steps[1..]);
    }
  }

  lemma LoneStep(cfg: Config, c: Cluster, step: Step)
    requires |cfg.ids| <= 1 && Inv(cfg, c)
    requires forall i, t | Happened(c, i, Led(t)) :: false
    ensures forall i, t | Happened(Apply(cfg, c, step), i, Led(t)) :: false
  {
    hide Disciplined;
    if step.HandleReplies? {
      if Enabled(cfg, c, step) {
        var k :| 0 <= k < |step.replies| && step.replies[k].Valid? && step.replies[k].msg.sender != step.id;
        assert ReplyTrue(c, step.replies[k].msg);
        SubsetSize({step.id, step.replies[k].msg.sender}, cfg.ids);
      }
    } else {
      OtherStepsMakeNoLeader(cfg, c, step);
    }
  }

  /** Every leader has the vote of another replica, in all runs, if and only if there is at most one
      replica, or replicas skip their own messages, or replies are counted by sender. */
  lemma LeadersBackedExactly(cfg: Config)
    requires ValidConfig(cfg) && |cfg.ids| <= 255
    ensures (forall steps: seq<Step> :: LeadersBacked(Run(cfg, steps))) <==>
            |cfg.ids| <= 1 || cfg.policy.skipOwn || cfg.policy.distinctVotes
  {
    hide Disciplined;
    if |cfg.ids| <= 1 {
      InitInv(cfg);
      forall steps: seq<Step> ensures LeadersBacked(Run(cfg, steps)) {
        LoneReplica(cfg, Init(cfg), steps);
      }
    } else if cfg.policy.skipOwn || cfg.policy.distinctVotes {
      forall steps: seq<Step> ensures LeadersBacked(Run(cfg, steps)) {
        RunInv(cfg, steps);
        BackedWhenCounted(cfg, Run(cfg, steps));
      }
    } else {
      var a, k := TwoIds(cfg.ids);
      var c := OwnVotesElectTwo(cfg, a, k);
      var steps := RunTo(cfg, c);
      assert !LeadersBacked(Run(cfg, steps));
    }
  }

  // ---------- one vote per term

  ghost predicate OneVotePerTerm(c: Cluster) {
    forall i, t, x, y | Happened(c, i, Voted(t, x)) && Happened(c, i, Voted(t, y)) :: x == y
  }

  lemma KeptVotes(cfg: Config, c: Cluster)
    requires Inv(cfg, c) && KeepsVote(cfg.policy)
    ensures OneVotePerTerm(c)
  {
    hide Disciplined;
    forall i, t, x, y | Happened(c, i, Voted(t, x)) && Happened(c, i, Voted(t, y)) ensures x == y {
      VotesPerTerm(cfg.policy, c.reps[i], t);
      InBallots(c.reps[i].trace, t, x);
      InBallots(c.reps[i].trace, t, y);
      if x != y { PairSize(x, y, Ballots(c.reps[i].trace, t)); }
    }
  }

  /** A run in which a replica votes for itself and for another in one term. */
  lemma SecondVoteRun(cfg: Config) returns (c: Cluster, x: Id, y: Id)
    requires ValidConfig(cfg) && 3 <= |cfg.ids| <= 255 && !KeepsVote(cfg.policy)
    ensures Reaches(cfg, c) && x != y && Happened(c, x, Voted(1, x)) && Happened(c, x, Voted(1, y))
  {
    hide Disciplined;
    var a, k, most, rest := ShareOut(cfg.ids);
    if cfg.policy.clearOnLead {
      c := LeaderVotes(cfg, a, k, most, rest);
      x, y := a, k;
    } else {
      c := VotesAgain(cfg, a, k, most, rest);
      x, y := k, a;
    }
    var steps := RunTo(cfg, c);
    RunInv(cfg, steps);
    RanVotedSelf(cfg.policy, c.reps[x], 1);
  }

  /** Three or more replicas: every replica votes for one candidate per term, in all runs, if and only if
      neither leading nor stepping down clears the vote. */
  lemma OneVoteExactly(cfg: Config)
    requires ValidConfig(cfg) && 3 <= |cfg.ids| <= 255
    ensures (forall steps: seq<Step> :: OneVotePerTerm(Run(cfg, steps))) <==> KeepsVote(cfg.policy)
  {
    if KeepsVote(cfg.policy) {
      forall steps: seq<Step> ensures OneVotePerTerm(Run(cfg, steps)) {
        RunInv(cfg, steps);
        KeptVotes(cfg, Run(cfg, steps));
      }
    } else {
      var c, x, y := SecondVoteRun(cfg);
      var steps := RunTo(cfg, c);
      assert !OneVotePerTerm(Run(cfg, steps));
    }
  }

  // ---------- the heartbeat timer

  /** The timer runs, `O_2` is on and `O_1` is off exactly at the leaders, and only leaders sent heartbeats. */
  ghost predicate OnlyLeadersBeat(c: Cluster) {
    && (forall i | i in c.reps ::
          var s := c.reps[i];
          (s.armed <==> s.role == LEADER) && (s.o2 <==> s.role == LEADER) && (s.o1 <==> s.role != LEADER))
    && (forall m | m in c.appends :: Happened(c, m.sender, Led(m.term)))
  }

  lemma GuardedBeats(cfg: Config, c: Cluster)
    requires Inv(cfg, c) && cfg.policy.guardStart
    ensures OnlyLeadersBeat(c)
  {
    forall m | m in c.appends ensures Happened(c, m.sender, Led(m.term)) {
      assert AppendTrue(cfg.policy, c, m);
    }
  }

  /** Any policy: the two outputs and the timer go together, leaders have them on, followers off. */
  lemma OutputsFollowTimer(cfg: Config, steps: seq<Step>, i: Id)
    requires ValidConfig(cfg) && i in cfg.ids
    ensures i in Run(cfg, steps).reps && TimerMatches(cfg.policy, Run(cfg, steps).reps[i])
  {
    RunInv(cfg, steps);
    assert Disciplined(cfg.policy, Run(cfg, steps).reps[i]);
  }

  /** Any policy: a heartbeat comes from a replica that ran in its term. */
  lemma HeartbeatsFromRunners(cfg: Config, steps: seq<Step>, m: AppendEntries)
    requires ValidConfig(cfg) && m in Run(cfg, steps).appends
    ensures Happened(Run(cfg, steps), m.sender, Ran(m.term))
  {
    RunInv(cfg, steps);
    assert AppendTrue(cfg.policy, Run(cfg, steps), m);
  }

  /** Three or more replicas: only leaders have the timer armed and send heartbeats, in all runs, if and
      only if no election is started by a leader. */
  lemma OnlyLeadersBeatExactly(cfg: Config)
    requires ValidConfig(cfg) && 3 <= |cfg.ids| <= 255
    ensures (forall steps: seq<Step> :: OnlyLeadersBeat(Run(cfg, steps))) <==> cfg.policy.guardStart
  {
    if cfg.policy.guardStart {
      forall steps: seq<Step> ensures OnlyLeadersBeat(Run(cfg, steps)) {
        RunInv(cfg, steps);
        GuardedBeats(cfg, Run(cfg, steps));
      }
    } else {
      var a, k, most, rest := ShareOut(cfg.ids);
      assert most != {};
      var b :| b in most;
      var c := ArmedCandidate(cfg, a, b, k, most, rest);
      var steps := RunTo(cfg, c);
      assert !OnlyLeadersBeat(Run(cfg, steps));
    }
  }
}
