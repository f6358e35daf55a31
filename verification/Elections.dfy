/** What every run shows about votes, roles, leaders and logs, whatever the policy. */
module Elections {
  import opened Model
  import opened ReplicaRules
  import opened History
  import opened Voting
  import opened Protocol
  import opened Network
  import opened Reachable
  import opened Safety
  import B = Batches

  /** From any point of any run to any later point no term goes down, a role moves inside a term only
      from candidate over leader to follower, and histories and logs are only extended. */
  lemma NothingGoesBack(cfg: Config, before: seq<Step>, after: seq<Step>, i: Id)
    requires ValidConfig(cfg) && i in cfg.ids
    ensures i in Run(cfg, before).reps && i in Run(cfg, before + after).reps
    ensures Advances(Run(cfg, before).reps[i], Run(cfg, before + after).reps[i])
  {
    hide Disciplined, Advances;
    RunInv(cfg, before);
    RunFromConcat(cfg, Init(cfg), before, after);
    RunKeeps(cfg, Run(cfg, before), after);
  }

  /** A replica that has led a term and no longer does never leads it again. */
  lemma LeadsOnce(cfg: Config, before: seq<Step>, after: seq<Step>, i: Id, t: nat)
    requires ValidConfig(cfg) && i in cfg.ids && Happened(Run(cfg, before), i, Led(t))
    requires !(Run(cfg, before).reps[i].role == LEADER && Run(cfg, before).reps[i].term == t)
    ensures i in Run(cfg, before + after).reps
    ensures !(Run(cfg, before + after).reps[i].role == LEADER && Run(cfg, before + after).reps[i].term == t)
  {
    hide Disciplined;
    NothingGoesBack(cfg, before, after, i);
    RunInv(cfg, before);
    LedTerm(cfg.policy, Run(cfg, before).reps[i], t);
  }

  lemma LedTerm(p: Policy, s: ReplicaState, t: nat)
    requires Disciplined(p, s) && Led(t) in s.trace
    ensures t <= s.term && (s.role == CANDIDATE ==> t < s.term)
  {
    var k :| 0 <= k < |s.trace| && s.trace[k] == Led(t);
    assert s.trace[k].term <= s.term;
  }

  /** A candidate runs in its current term and holds its own vote; with three replicas it has counted
      no vote but its own. */
  lemma CandidatesHoldTheirVote(cfg: Config, steps: seq<Step>, i: Id)
    requires ValidConfig(cfg) && i in cfg.ids
    ensures i in Run(cfg, steps).reps
    ensures var s := Run(cfg, steps).reps[i];
            && (s.role != FOLLOWER ==> s.electionTerm == s.term)
            && (s.role == CANDIDATE ==> s.votedFor == i)
            && (s.role == CANDIDATE && |cfg.ids| == 3 && !cfg.policy.distinctVotes ==> s.votes == 1)
  {
    RunInv(cfg, steps);
    assert TallyTrue(cfg, Run(cfg, steps), Run(cfg, steps).reps[i]);
  }

  /** A granted reply names a candidate its sender voted for in that term. */
  lemma GrantedRepliesTrue(cfg: Config, steps: seq<Step>, r: VoteReply)
    requires ValidConfig(cfg) && r in Run(cfg, steps).replies && r.granted
    ensures Happened(Run(cfg, steps), r.sender, Voted(r.term, r.candidate))
  {
    RunInv(cfg, steps);
    assert ReplyTrue(Run(cfg, steps), r);
  }

  /** Whoever led a term ran in it. Another replica voted for it if replicas skip their own messages,
      and a majority did if the count means majorities. */
  lemma LeadersEarnedVotes(cfg: Config, steps: seq<Step>, i: Id, t: nat)
    requires ValidConfig(cfg) && Happened(Run(cfg, steps), i, Led(t))
    ensures Happened(Run(cfg, steps), i, Ran(t))
    ensures cfg.policy.skipOwn ==> Backed(Run(cfg, steps), t, i)
    ensures CountsMajorities(cfg) ==> |Supporters(Run(cfg, steps), t, i)| * 2 > |cfg.ids|
  {
    RunInv(cfg, steps);
    OfficeRan(cfg.policy, Run(cfg, steps).reps[i], Led(t));
    assert LeaderEarned(cfg, Run(cfg, steps), t, i);
  }

  /** How many candidates a replica votes for in one term: one if it entered the term as a follower;
      if it ran, itself first and at most one more per kind of clearing of its policy. */
  lemma VotesInTerm(cfg: Config, steps: seq<Step>, i: Id, t: nat)
    requires ValidConfig(cfg) && i in cfg.ids
    ensures i in Run(cfg, steps).reps
    ensures var tr := Run(cfg, steps).reps[i].trace;
            && (Entered(t) in tr ==> |Ballots(tr, t)| <= 1)
            && (forall k | 0 <= k < |tr| && tr[k] == Ran(t) ::
                  k + 1 < |tr| && tr[k + 1] == Voted(t, i)
                  && forall j | 0 <= j < |tr| && tr[j].Voted? && tr[j].term == t :: j > k)
            && |Ballots(tr, t)| <= 1 + (if cfg.policy.clearOnLead then 1 else 0) + (if cfg.policy.clearOnStepDown then 1 else 0)
  {
    hide Disciplined;
    RunInv(cfg, steps);
    var s := Run(cfg, steps).reps[i];
    VotesPerTerm(cfg.policy, s, t);
    if Entered(t) in s.trace { EnteredNotRan(cfg.policy, s, t); }
    StartsUnique(cfg.policy, s, t);
  }

  lemma EnteredNotRan(p: Policy, s: ReplicaState, t: nat)
    requires Disciplined(p, s) && Entered(t) in s.trace
    ensures Ran(t) !in s.trace
  {
    var tr := s.trace;
    var j :| 0 <= j < |tr| && tr[j] == Entered(t);
    assert Starts(tr[j]);
    forall k | 0 <= k < |tr| ensures tr[k] != Ran(t) {
      assert Starts(tr[k]) <==> tr[k].Ran? || tr[k].Entered?;
    }
  }

  lemma StartsUnique(p: Policy, s: ReplicaState, t: nat)
    requires Disciplined(p, s)
    ensures forall k | 0 <= k < |s.trace| && s.trace[k] == Ran(t) ::
              k + 1 < |s.trace| && s.trace[k + 1] == Voted(t, s.id)
              && forall j | 0 <= j < |s.trace| && s.trace[j].Voted? && s.trace[j].term == t :: j > k
  {
    var tr := s.trace;
    forall k | 0 <= k < |tr| && tr[k] == Ran(t)
      ensures forall j | 0 <= j < |tr| && tr[j].Voted? && tr[j].term == t :: j > k
    {
      assert Starts(tr[k]);
    }
  }

  /** Where only leaders send heartbeats and nobody reads its own, whoever steps down in its own term gives
      way to another replica that led that term. */
  lemma StepDownsShowLeader(cfg: Config, steps: seq<Step>, i: Id, t: nat)
    requires ValidConfig(cfg) && cfg.policy.guardStart && cfg.policy.skipOwn
    requires Happened(Run(cfg, steps), i, SteppedDown(t))
    ensures Happened(Run(cfg, steps), i, Ran(t)) && LedByOther(Run(cfg, steps), t, i)
  {
    RunInv(cfg, steps);
    OfficeRan(cfg.policy, Run(cfg, steps).reps[i], SteppedDown(t));
  }

  // ---------- leading without looking at traces

  /** After `k` steps of the run replica `i` is the leader of term `t`. */
  ghost predicate LeadsAt(cfg: Config, steps: seq<Step>, k: int, i: Id, t: nat) {
    && 0 <= k <= |steps|
    && var c := Run(cfg, steps[..k]);
      i in c.reps && c.reps[i].role == LEADER && c.reps[i].term == t
  }

  lemma ReplyNewLeader(p: Policy, n: nat, s: ReplicaState, m: VoteReply, t: nat)
    requires Led(t) !in s.trace && Led(t) in OnReply(p, n, s, m).trace
    ensures OnReply(p, n, s, m).role == LEADER && OnReply(p, n, s, m).term == t
  {
    if s.role == CANDIDATE && m.term > s.electionTerm {
      var e := if m.term == s.term then SteppedDown(m.term) else Entered(m.term);
      InSnoc(s.trace, e, Led(t));
    } else {
      InSnoc(s.trace, Led(s.term), Led(t));
    }
  }

  lemma {:induction false} NewLeaderLeads(p: Policy, n: nat, s: ReplicaState, batch: seq<Sample<VoteReply>>, t: nat)
    requires Led(t) !in s.trace && Led(t) in OnReplies(p, n, s, batch).trace
    ensures OnReplies(p, n, s, batch).role == LEADER && OnReplies(p, n, s, batch).term == t
    decreases |batch|
  {
    hide OnReply;
    if batch == [] {
    } else {
      var s1 := if batch[0].Valid? then OnReply(p, n, s, batch[0].msg) else s;
      if Led(t) in s1.trace {
        ReplyNewLeader(p, n, s, batch[0].msg, t);
        B.RestIsSkipped(p, n, s1, batch[1..]);
      } else {
        NewLeaderLeads(p, n, s1, batch[1..], t);
      }
    }
  }

  lemma {:induction false} LedWasLeader(cfg: Config, steps: seq<Step>, i: Id, t: nat) returns (k: nat)
    requires ValidConfig(cfg) && Happened(Run(cfg, steps), i, Led(t))
    ensures LeadsAt(cfg, steps, k, i, t)
    decreases |steps|
  {
    if steps == [] {
      assert false;
    } else {
      var n := |steps| - 1;
      var pre, step := steps[..n], steps[n];
      assert steps == pre + [step] && steps[..n + 1] == steps;
      RunSnoc(cfg, pre, step);
      if Happened(Run(cfg, pre), i, Led(t)) {
        k := LedWasLeader(cfg, pre, i, t);
        assert pre[..k] == steps[..k];
      } else {
        k := n + 1;
        NewLeaderStep(cfg, Run(cfg, pre), step, i, t);
      }
    }
  }

  lemma NewLeaderStep(cfg: Config, c: Cluster, step: Step, i: Id, t: nat)
    requires !Happened(c, i, Led(t)) && Happened(Apply(cfg, c, step), i, Led(t))
    ensures Apply(cfg, c, step).reps[i].role == LEADER && Apply(cfg, c, step).reps[i].term == t
  {
    if !step.HandleReplies? {
      OtherStepsMakeNoLeader(cfg, c, step);
    } else {
      assert step.id == i;
      NewLeaderLeads(cfg.policy, |cfg.ids|, c.reps[i], step.replies, t);
    }
  }

  lemma LeaderTrace(p: Policy, s: ReplicaState)
    requires Disciplined(p, s) && s.role == LEADER
    ensures Led(s.term) in s.trace
  {
  }

  lemma LeaderHasLed(cfg: Config, steps: seq<Step>, k: nat, i: Id, t: nat)
    requires ValidConfig(cfg) && LeadsAt(cfg, steps, k, i, t)
    ensures Happened(Run(cfg, steps), i, Led(t))
  {
    hide Disciplined;
    RunInv(cfg, steps[..k]);
    LeaderTrace(cfg.policy, Run(cfg, steps[..k]).reps[i]);
    assert steps == steps[..k] + steps[k..];
    NothingGoesBack(cfg, steps[..k], steps[k..], i);
  }

  /** One leader per term means that no two replicas are leaders of one term at any two points of the run. */
  lemma OneLeaderMeans(cfg: Config, steps: seq<Step>)
    requires ValidConfig(cfg)
    ensures OneLeaderPerTerm(Run(cfg, steps)) <==>
            forall i, j, k, l, t | LeadsAt(cfg, steps, k, i, t) && LeadsAt(cfg, steps, l, j, t) :: i == j
  {
    if OneLeaderPerTerm(Run(cfg, steps)) {
      forall i, j, k, l, t | LeadsAt(cfg, steps, k, i, t) && LeadsAt(cfg, steps, l, j, t) ensures i == j {
        LeaderHasLed(cfg, steps, k, i, t);
        LeaderHasLed(cfg, steps, l, j, t);
      }
    } else {
      var i, j, t :| Happened(Run(cfg, steps), i, Led(t)) && Happened(Run(cfg, steps), j, Led(t)) && i != j;
      var k := LedWasLeader(cfg, steps, i, t);
      var l := LedWasLeader(cfg, steps, j, t);
    }
  }

  // ---------- two leaders of one term

  /** At `j` the replica votes for itself, at `r` it clears that vote, at `k` it votes for a rival. */
  ghost predicate SwitchesAt(p: Policy, s: ReplicaState, t: nat, j: nat, r: nat, k: nat) {
    && j < r < k < |s.trace|
    && s.trace[j] == Voted(t, s.id) && Clears(p, s.trace[r], t)
    && s.trace[k].Voted? && s.trace[k].term == t && s.trace[k].candidate != s.id
  }

  ghost predicate Switches(p: Policy, s: ReplicaState, t: nat) {
    Ran(t) in s.trace && exists j: nat, r: nat, k: nat :: SwitchesAt(p, s, t, j, r, k)
  }

  lemma RivalVote(p: Policy, s: ReplicaState, t: nat, rival: Id)
    requires Disciplined(p, s) && Ran(t) in s.trace && Voted(t, rival) in s.trace && rival != s.id
    ensures Switches(p, s, t)
  {
    StartsUnique(p, s, t);
    var q :| 0 <= q < |s.trace| && s.trace[q] == Ran(t);
    var k :| 0 <= k < |s.trace| && s.trace[k] == Voted(t, rival);
    assert s.trace[q + 1] == Voted(t, s.id);
    assert ClearedBetween(p, s.trace, q + 1, k, t);
    var r :| q + 1 < r < k && 0 <= r < |s.trace| && Clears(p, s.trace[r], t);
    assert SwitchesAt(p, s, t, q + 1, r, k);
  }

  lemma SwitcherExists(cfg: Config, c: Cluster, t: nat, i: Id, j: Id) returns (x: Id)
    requires Inv(cfg, c) && CountsMajorities(cfg) && TwoLeaders(c, t, i, j)
    ensures x in c.reps && Switches(cfg.policy, c.reps[x], t)
  {
    hide Disciplined, Switches;
    assert LeaderEarned(cfg, c, t, i) && LeaderEarned(cfg, c, t, j);
    QuorumsMeet(cfg.ids, Supporters(c, t, i), Supporters(c, t, j));
    x :| x in Supporters(c, t, i) && x in Supporters(c, t, j);
    VotedForBoth(cfg.policy, c.reps[x], t, i, j);
    RivalVote(cfg.policy, c.reps[x], t, if x == i then j else i);
  }

  /** Any policy, wherever the count means majorities: when two replicas lead one term, some replica that
      ran in it voted for itself, then cleared its vote by leading or stepping down in that term, then
      voted for a rival. */
  lemma TwoLeadersNeedSwitch(cfg: Config, steps: seq<Step>, t: nat, i: Id, j: Id)
    requires ValidConfig(cfg) && CountsMajorities(cfg) && TwoLeaders(Run(cfg, steps), t, i, j)
    ensures exists x | x in Run(cfg, steps).reps :: Switches(cfg.policy, Run(cfg, steps).reps[x], t)
  {
    RunInv(cfg, steps);
    var x := SwitcherExists(cfg, Run(cfg, steps), t, i, j);
  }

  // ---------- logs

  /** Every log is numbered from 1 without gaps, its terms never go down, and each is a term its replica led. */
  lemma LogsInOrder(cfg: Config, steps: seq<Step>, i: Id)
    requires ValidConfig(cfg) && i in cfg.ids
    ensures i in Run(cfg, steps).reps
    ensures var s := Run(cfg, steps).reps[i];
            && (forall k | 0 <= k < |s.log| :: s.log[k].id == k + 1 && Led(s.log[k].term) in s.trace)
            && (forall j, k | 0 <= j < k < |s.log| :: s.log[j].term <= s.log[k].term)
  {
    RunInv(cfg, steps);
    assert Disciplined(cfg.policy, Run(cfg, steps).reps[i]);
  }

  /** No (term, id) pair is appended twice anywhere in the cluster. */
  ghost predicate EntriesUnique(c: Cluster) {
    forall i, j, k, l | i in c.reps && j in c.reps && 0 <= k < |c.reps[i].trace| && 0 <= l < |c.reps[j].trace|
                        && c.reps[i].trace[k].Appended? && c.reps[i].trace[k] == c.reps[j].trace[l] ::
      i == j && k == l
  }

  lemma AppendsByLeader(p: Policy, s: ReplicaState, k: nat)
    requires Disciplined(p, s) && k < |s.trace| && s.trace[k].Appended?
    ensures Led(s.trace[k].term) in s.trace
    ensures forall l | 0 <= l < |s.trace| && s.trace[l] == s.trace[k] :: l == k
  {
  }

  lemma UniqueWithOneLeader(cfg: Config, c: Cluster)
    requires Inv(cfg, c) && OneLeaderPerTerm(c)
    ensures EntriesUnique(c)
  {
    hide Disciplined;
    forall i, j, k, l | i in c.reps && j in c.reps && 0 <= k < |c.reps[i].trace| && 0 <= l < |c.reps[j].trace|
                        && c.reps[i].trace[k].Appended? && c.reps[i].trace[k] == c.reps[j].trace[l]
      ensures i == j && k == l
    {
      AppendsByLeader(cfg.policy, c.reps[i], k);
      AppendsByLeader(cfg.policy, c.reps[j], l);
      assert Happened(c, i, Led(c.reps[i].trace[k].term)) && Happened(c, j, Led(c.reps[i].trace[k].term));
    }
  }

  /** In a safe setting no entry is appended twice. */
  lemma EntriesUniqueSafe(cfg: Config, steps: seq<Step>)
    requires ValidConfig(cfg) && SafeSetting(cfg)
    ensures EntriesUnique(Run(cfg, steps))
  {
    RunInv(cfg, steps);
    ElectionSafety(cfg, steps);
    UniqueWithOneLeader(cfg, Run(cfg, steps));
  }
}
