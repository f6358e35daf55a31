/** What each choice of a policy does to the runs, and what the named policies therefore do. */
module Policies {
  import opened Model
  import opened ReplicaRules
  import opened History
  import opened Voting
  import opened Protocol
  import opened Network
  import opened Reachable
  import opened Safety
  import opened Elections
  import opened Moves
  import opened Witness
  import opened Exactness
  import B = Batches
  import O = Outcomes
  import S = Steps

  // ---------- what can be seen in a run

  ghost predicate VotesTwice(c: Cluster, i: Id, t: nat) {
    exists x, y :: x != y && Happened(c, i, Voted(t, x)) && Happened(c, i, Voted(t, y))
  }

  /** Some run has a replica that votes for two candidates of a term in which it never stepped down. */
  ghost predicate LeadersRevote(cfg: Config) {
    exists steps: seq<Step>, i, t ::
      VotesTwice(Run(cfg, steps), i, t) && !Happened(Run(cfg, steps), i, SteppedDown(t))
  }

  /** Some run has a replica that votes for two candidates of a term that it never led. */
  ghost predicate OthersRevote(cfg: Config) {
    exists steps: seq<Step>, i, t ::
      VotesTwice(Run(cfg, steps), i, t) && !Happened(Run(cfg, steps), i, Led(t))
  }

  /** Some run has a heartbeat of a replica that did not lead its term. */
  ghost predicate OthersBeat(cfg: Config) {
    exists steps: seq<Step>, m :: m in Run(cfg, steps).appends && !Happened(Run(cfg, steps), m.sender, Led(m.term))
  }

  ghost predicate SelfGrant(r: VoteReply) {
    r.granted && r.candidate == r.sender
  }

  /** Some run has a replica that grants its own request. */
  ghost predicate SelfGrants(cfg: Config) {
    exists steps: seq<Step>, r :: r in Run(cfg, steps).replies && SelfGrant(r)
  }

  /** Some run has a leader without the vote of another replica. */
  ghost predicate LonelyLeaders(cfg: Config) {
    exists steps: seq<Step> :: !LeadersBacked(Run(cfg, steps))
  }

  /** Some run has two leaders of one term. */
  ghost predicate Splits(cfg: Config) {
    exists steps: seq<Step> :: !OneLeaderPerTerm(Run(cfg, steps))
  }

  // ---------- clearing votes

  lemma TwiceMeansCleared(cfg: Config, steps: seq<Step>, i: Id, t: nat)
    requires ValidConfig(cfg) && VotesTwice(Run(cfg, steps), i, t)
    ensures i in Run(cfg, steps).reps && OfficeCount(cfg.policy, Run(cfg, steps).reps[i].trace, t) >= 1
  {
    hide Disciplined;
    var c := Run(cfg, steps);
    RunInv(cfg, steps);
    var x, y :| x != y && Happened(c, i, Voted(t, x)) && Happened(c, i, Voted(t, y));
    VotedForBoth(cfg.policy, c.reps[i], t, x, y);
  }

  lemma LeadersRevoteExactly(cfg: Config)
    requires ValidConfig(cfg) && 3 <= |cfg.ids| <= 255
    ensures LeadersRevote(cfg) <==> cfg.policy.clearOnLead
  {
    if LeadersRevote(cfg) {
      var steps: seq<Step>, i, t :|
        VotesTwice(Run(cfg, steps), i, t) && !Happened(Run(cfg, steps), i, SteppedDown(t));
      TwiceMeansCleared(cfg, steps, i, t);
    }
    if cfg.policy.clearOnLead {
      var a, k, most, rest := ShareOut(cfg.ids);
      var c := LeaderVotes(cfg, a, k, most, rest);
      var steps := RunTo(cfg, c);
      RunnerVotesTwice(cfg, steps, a, k);
    }
  }

  lemma OthersRevoteExactly(cfg: Config)
    requires ValidConfig(cfg) && 3 <= |cfg.ids| <= 255
    ensures OthersRevote(cfg) <==> cfg.policy.clearOnStepDown
  {
    if OthersRevote(cfg) {
      var steps: seq<Step>, i, t :| VotesTwice(Run(cfg, steps), i, t) && !Happened(Run(cfg, steps), i, Led(t));
      TwiceMeansCleared(cfg, steps, i, t);
    }
    if cfg.policy.clearOnStepDown {
      var a, k, most, rest := ShareOut(cfg.ids);
      var c := VotesAgain(cfg, a, k, most, rest);
      var steps := RunTo(cfg, c);
      RunnerVotesTwice(cfg, steps, k, a);
    }
  }

  lemma RunnerVotesTwice(cfg: Config, steps: seq<Step>, i: Id, x: Id)
    requires ValidConfig(cfg) && i != x
    requires Happened(Run(cfg, steps), i, Ran(1)) && Happened(Run(cfg, steps), i, Voted(1, x))
    ensures VotesTwice(Run(cfg, steps), i, 1)
  {
    hide Disciplined;
    RunInv(cfg, steps);
    RanVotedSelf(cfg.policy, Run(cfg, steps).reps[i], 1);
    assert Happened(Run(cfg, steps), i, Voted(1, i));
  }

  // ---------- heartbeats

  lemma OthersBeatExactly(cfg: Config)
    requires ValidConfig(cfg) && 3 <= |cfg.ids| <= 255
    ensures OthersBeat(cfg) <==> !cfg.policy.guardStart
  {
    if OthersBeat(cfg) {
      var steps: seq<Step>, m :|
        m in Run(cfg, steps).appends && !Happened(Run(cfg, steps), m.sender, Led(m.term));
      RunInv(cfg, steps);
      assert AppendTrue(cfg.policy, Run(cfg, steps), m);
    }
    if !cfg.policy.guardStart {
      var a, k, most, rest := ShareOut(cfg.ids);
      assert most != {};
      var b :| b in most;
      var c := ArmedCandidate(cfg, a, b, k, most, rest);
      var steps := RunTo(cfg, c);
      assert AppendEntries(3, a) in Run(cfg, steps).appends;
    }
  }

  // ---------- own messages

  ghost predicate NoSelfGrants(c: Cluster) {
    forall r | r in c.replies :: !SelfGrant(r)
  }

  lemma {:induction false} AskerIsSender(t: nat, ms: seq<VoteRequest>)
    ensures O.FirstAsker(t, ms) == VOTED_NONE || exists m | m in ms :: m.sender == O.FirstAsker(t, ms)
    decreases |ms|
  {
    if ms == [] {
    } else {
      AskerIsSender(t, ms[1..]);
      assert ms == [ms[0]] + ms[1..];
    }
  }

  /** If the vote reported after request `k` is for oneself, it was so before any request. */
  lemma OwnVoteStands(s: ReplicaState, ms: seq<VoteRequest>, j: nat, q: VoteReply, k: nat, r: VoteReply)
    requires s.id != VOTED_NONE && forall m | m in ms :: m.sender != s.id
    requires j <= k < |ms| && O.Reports(s, ms, j, q) && O.Reports(s, ms, k, r) && r.candidate == s.id
    ensures q.candidate == s.id
  {
    AskerIsSender(r.term, ms[..k + 1]);
    assert r.term == s.term && s.votedFor == s.id;
    assert ms[..j + 1] == ms[..k + 1][..j + 1];
    assert q.term == s.term;
  }

  /** A replica that reads only requests of others grants none to itself, whatever the carried flag says. */
  lemma RepliesToOthers(s: ReplicaState, ms: seq<VoteRequest>, rs: seq<VoteReply>, k: nat)
    requires s.id != VOTED_NONE && forall m | m in ms :: m.sender != s.id
    requires |rs| == |ms| && forall j | 0 <= j < |ms| :: O.Reports(s, ms, j, rs[j])
    requires k < |ms| && (rs[k].granted <==> exists j | 0 <= j <= k :: O.GivesVote(ms, j, rs[j]))
    ensures !SelfGrant(rs[k])
  {
    if rs[k].candidate == s.id {
      forall j | 0 <= j <= k ensures !O.GivesVote(ms, j, rs[j]) {
        OwnVoteStands(s, ms, j, rs[j], k, rs[k]);
        assert ms[j] in ms;
      }
    }
  }

  lemma FilteredStep(cfg: Config, c: Cluster, step: Step)
    requires ValidConfig(cfg) && Inv(cfg, c) && NoSelfGrants(c) && cfg.policy.skipOwn
    ensures NoSelfGrants(Apply(cfg, c, step))
  {
    hide Disciplined;
    if step.HandleRequests? && Enabled(cfg, c, step) {
      var ms := B.Messages(step.requests);
      var r, rs := S.RequestsRead(cfg, c, step.id, step.requests);
      if S.DeliversRequests(cfg.policy, c, step.id, ms) {
        forall k: nat | k < |ms| ensures !SelfGrant(rs[k]) {
          RepliesToOthers(c.reps[step.id], ms, rs, k);
        }
      }
    }
  }

  lemma {:induction false} FilteredRun(cfg: Config, c: Cluster, steps: seq<Step>)
    requires ValidConfig(cfg) && Inv(cfg, c) && NoSelfGrants(c) && cfg.policy.skipOwn
    ensures NoSelfGrants(RunFrom(cfg, c, steps))
    decreases |steps|
  {
    hide Disciplined, Inv, NoSelfGrants;
    if steps == [] {
    } else {
      ApplyKeeps(cfg, c, steps[0]);
      FilteredStep(cfg, c, steps[0]);
      FilteredRun(cfg, Apply(cfg, c, steps[0]), steps[1..]);
    }
  }

  lemma SelfGrantsExactly(cfg: Config)
    requires ValidConfig(cfg) && |cfg.ids| >= 2
    ensures SelfGrants(cfg) <==> !cfg.policy.skipOwn
  {
    if cfg.policy.skipOwn {
      InitInv(cfg);
      forall steps: seq<Step> ensures NoSelfGrants(Run(cfg, steps)) {
        FilteredRun(cfg, Init(cfg), steps);
      }
    } else {
      var a, k := TwoIds(cfg.ids);
      var c := BothAnswer(cfg, a, k);
      Answer(c, a);
      var steps := RunTo(cfg, c);
      assert VoteReply(a, 1, a, true) in Run(cfg, steps).replies && SelfGrant(VoteReply(a, 1, a, true));
    }
  }

  // ---------- every choice shows

  lemma SplitsExactly(cfg: Config)
    requires ValidConfig(cfg) && |cfg.ids| <= 255
    ensures Splits(cfg) <==> !SafeSetting(cfg)
  {
    ElectionSafetyExactly(cfg);
  }

  lemma LonelyLeadersExactly(cfg: Config)
    requires ValidConfig(cfg) && 2 <= |cfg.ids| <= 255
    ensures LonelyLeaders(cfg) <==> !cfg.policy.skipOwn && !cfg.policy.distinctVotes
  {
    LeadersBackedExactly(cfg);
  }

  /** Three or more replicas: each of four choices decides alone whether one kind of run exists; the fifth
      decides alone whether an even cluster of four or more can have two leaders of one term. */
  lemma EachChoiceShows(cfg: Config)
    requires ValidConfig(cfg) && 3 <= |cfg.ids| <= 255
    ensures LeadersRevote(cfg) <==> cfg.policy.clearOnLead
    ensures OthersRevote(cfg) <==> cfg.policy.clearOnStepDown
    ensures OthersBeat(cfg) <==> !cfg.policy.guardStart
    ensures SelfGrants(cfg) <==> !cfg.policy.skipOwn
    ensures |cfg.ids| % 2 == 0 ==> (Splits(cfg) <==> !cfg.policy.distinctVotes)
  {
    LeadersRevoteExactly(cfg);
    OthersRevoteExactly(cfg);
    OthersBeatExactly(cfg);
    SelfGrantsExactly(cfg);
    SplitsExactly(cfg);
  }

  /** Two policies under which an even cluster of four or more has the same kinds of runs are the same. */
  lemma RunsTellPolicies(ids: set<Id>, p: Policy, q: Policy)
    requires ValidConfig(Config(ids, p)) && 4 <= |ids| <= 255 && |ids| % 2 == 0
    requires LeadersRevote(Config(ids, p)) <==> LeadersRevote(Config(ids, q))
    requires OthersRevote(Config(ids, p)) <==> OthersRevote(Config(ids, q))
    requires OthersBeat(Config(ids, p)) <==> OthersBeat(Config(ids, q))
    requires SelfGrants(Config(ids, p)) <==> SelfGrants(Config(ids, q))
    requires Splits(Config(ids, p)) <==> Splits(Config(ids, q))
    ensures p == q
  {
    hide LeadersRevote, OthersRevote, OthersBeat, SelfGrants, Splits;
    EachChoiceShows(Config(ids, p));
    EachChoiceShows(Config(ids, q));
  }

  // ---------- the named policies

  /** The code in clusters of three or more: leaders and others vote twice in a term, replicas that do not
      lead send heartbeats, replicas grant their own requests, some lead without the vote of another, and
      two lead one term. */
  lemma TheCode(ids: set<Id>)
    requires VOTED_NONE !in ids && 3 <= |ids| <= 255
    ensures var cfg := Config(ids, AS_WRITTEN);
            && LeadersRevote(cfg) && OthersRevote(cfg) && OthersBeat(cfg) && SelfGrants(cfg) && LonelyLeaders(cfg) && Splits(cfg)
  {
    hide LeadersRevote, OthersRevote, OthersBeat, SelfGrants, LonelyLeaders, Splits;
    var cfg := Config(ids, AS_WRITTEN);
    EachChoiceShows(cfg);
    LonelyLeadersExactly(cfg);
    SplitsExactly(cfg);
  }

  /** The filter removes the granted requests of one's own and the lonely leaders, and nothing else. */
  lemma TheFilter(ids: set<Id>)
    requires VOTED_NONE !in ids && 3 <= |ids| <= 255
    ensures var cfg := Config(ids, FILTERED);
            && LeadersRevote(cfg) && OthersRevote(cfg) && OthersBeat(cfg) && !SelfGrants(cfg) && !LonelyLeaders(cfg) && Splits(cfg)
  {
    hide LeadersRevote, OthersRevote, OthersBeat, SelfGrants, LonelyLeaders, Splits;
    var cfg := Config(ids, FILTERED);
    EachChoiceShows(cfg);
    LonelyLeadersExactly(cfg);
    SplitsExactly(cfg);
  }

  /** The minimal repair is safe exactly up to three replicas, although candidates still vote twice; the full
      repair has none of these runs. */
  lemma TheRepairs(ids: set<Id>)
    requires VOTED_NONE !in ids && 3 <= |ids| <= 255
    ensures var cfg := Config(ids, MINIMAL);
            && !LeadersRevote(cfg) && OthersRevote(cfg) && !OthersBeat(cfg) && !SelfGrants(cfg) && !LonelyLeaders(cfg)
            && (Splits(cfg) <==> |ids| > 3)
    ensures var cfg := Config(ids, REPAIRED);
            && !LeadersRevote(cfg) && !OthersRevote(cfg) && !OthersBeat(cfg) && !SelfGrants(cfg) && !LonelyLeaders(cfg)
            && !Splits(cfg)
  {
    hide LeadersRevote, OthersRevote, OthersBeat, SelfGrants, LonelyLeaders, Splits;
    EachChoiceShows(Config(ids, MINIMAL));
    LonelyLeadersExactly(Config(ids, MINIMAL));
    SplitsExactly(Config(ids, MINIMAL));
    EachChoiceShows(Config(ids, REPAIRED));
    LonelyLeadersExactly(Config(ids, REPAIRED));
    SplitsExactly(Config(ids, REPAIRED));
  }

  /** The full repair in clusters of any size: one vote per replica and term, one leader per term. */
  lemma RepairedAlways(ids: set<Id>, steps: seq<Step>)
    requires VOTED_NONE !in ids
    ensures OneVotePerTerm(Run(Config(ids, REPAIRED), steps)) && OneLeaderPerTerm(Run(Config(ids, REPAIRED), steps))
  {
    hide Disciplined;
    var cfg := Config(ids, REPAIRED);
    RunInv(cfg, steps);
    KeptVotes(cfg, Run(cfg, steps));
    ElectionSafety(cfg, steps);
  }

  /** How many candidates replica `i` has voted for in term `t`. */
  ghost function VoteCount(c: Cluster, i: Id, t: nat): nat {
    if i in c.reps then |Ballots(c.reps[i].trace, t)| else 0
  }

  /** Under the code a replica votes for at most three candidates of a term, and in some run one does. */
  lemma ThreeVotesAttained(ids: set<Id>)
    requires VOTED_NONE !in ids && 3 <= |ids| <= 255
    ensures forall steps: seq<Step>, i, t :: VoteCount(Run(Config(ids, AS_WRITTEN), steps), i, t) <= 3
    ensures exists steps: seq<Step>, i, t :: VoteCount(Run(Config(ids, AS_WRITTEN), steps), i, t) == 3
  {
    var cfg := Config(ids, AS_WRITTEN);
    forall steps: seq<Step>, i, t ensures VoteCount(Run(cfg, steps), i, t) <= 3 {
      AtMostThree(cfg, steps, i, t);
    }
    var a, k := TwoIds(ids);
    assert |ids - {a} - {k}| >= 1;
    var b :| b in ids - {a} - {k};
    var c := ThreeVotes(cfg, a, k, b);
    var steps := RunTo(cfg, c);
    ThreeBallots(c.reps[k].trace, a, k, b);
    assert VoteCount(Run(cfg, steps), k, 1) == 3;
  }

  lemma AtMostThree(cfg: Config, steps: seq<Step>, i: Id, t: nat)
    requires ValidConfig(cfg)
    ensures VoteCount(Run(cfg, steps), i, t) <= 3
  {
    RunInv(cfg, steps);
    if i in cfg.ids { VotesInTerm(cfg, steps, i, t); }
  }

  lemma ThreeBallots(tr: seq<Event>, a: Id, k: Id, b: Id)
    requires Voted(1, a) in tr && Voted(1, k) in tr && Voted(1, b) in tr && a != k && a != b && k != b
    ensures |Ballots(tr, 1)| >= 3
  {
    InBallots(tr, 1, a);
    InBallots(tr, 1, k);
    InBallots(tr, 1, b);
    TripleSize(a, k, b, Ballots(tr, 1));
  }
}
