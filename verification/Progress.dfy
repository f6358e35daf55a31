/** What can still happen from every reachable cluster. */
module Progress {
  import opened Model
  import opened ReplicaRules
  import opened History
  import opened Voting
  import opened Protocol
  import opened Network
  import opened Reachable
  import opened Moves
  import opened Steps

  lemma ReplicaThere(cfg: Config, before: seq<Step>, i: Id)
    requires ValidConfig(cfg) && i in cfg.ids
    ensures i in Run(cfg, before).reps && Run(cfg, before).reps[i].id == i
  {
    RunInv(cfg, before);
  }

  // ---------- the election loop goes on

  /** After every run a replica that is no leader can run in its next term by at most two steps of its own:
      one when it is outside an election or a further pass is due, otherwise after its wait. */
  lemma RunsSoon(cfg: Config, before: seq<Step>, i: Id) returns (after: seq<Step>)
    requires ValidConfig(cfg) && i in cfg.ids
    requires i in Run(cfg, before).reps && Run(cfg, before).reps[i].role != LEADER
    ensures var c, d := Run(cfg, before), Run(cfg, before + after);
            var s := c.reps[i];
            && (after == if s.electing && !s.again then [ElectionTimeout(i), StartElection(i)] else [StartElection(i)])
            && i in d.reps && d.reps[i].role == CANDIDATE && d.reps[i].term == s.term + 1
            && d.reps[i].votedFor == i && d.reps[i].electing && VoteRequest(s.term + 1, i) in d.requests
  {
    var c := Run(cfg, before);
    ReplicaThere(cfg, before, i);
    if c.reps[i].electing && !c.reps[i].again {
      after := [ElectionTimeout(i), StartElection(i)];
      RunSnoc(cfg, before, ElectionTimeout(i));
      RunSnoc(cfg, before + [ElectionTimeout(i)], StartElection(i));
      assert before + [ElectionTimeout(i)] + [StartElection(i)] == before + after;
      var c1 := Run(cfg, before + [ElectionTimeout(i)]);
      WaitTimedOut(cfg, c, i);
      var r := ElectionBegun(cfg, c1, i);
    } else {
      after := [StartElection(i)];
      RunSnoc(cfg, before, StartElection(i));
      var r := ElectionBegun(cfg, c, i);
    }
  }

  /** After every run a replica that waits inside an election, whatever its role, leaves it when the wait
      times out. A leader with a pass due leaves under the guard, and runs again without it. */
  lemma LeavesElection(cfg: Config, before: seq<Step>, i: Id)
    requires ValidConfig(cfg) && i in cfg.ids && i in Run(cfg, before).reps && Run(cfg, before).reps[i].electing
    ensures var c, d, e := Run(cfg, before), Run(cfg, before + [ElectionTimeout(i)]), Run(cfg, before + [StartElection(i)]);
            var s := c.reps[i];
            && (!s.again || (s.role == LEADER && cfg.policy.guardStart) ==>
                  OnlyChanges(c, d, i, s.(electing := false, again := false)) && e == c)
            && (s.again && (s.role != LEADER || !cfg.policy.guardStart) ==>
                  d == c && i in e.reps && e.reps[i].role == CANDIDATE && e.reps[i].term == s.term + 1)
  {
    var c := Run(cfg, before);
    RunSnoc(cfg, before, ElectionTimeout(i));
    RunSnoc(cfg, before, StartElection(i));
    WaitTimedOut(cfg, c, i);
    var r := ElectionBegun(cfg, c, i);
  }

  // ---------- everybody can become leader

  /** Replicas know their id and leaders have their timer armed. */
  ghost predicate InOrder(cfg: Config, c: Cluster) {
    && c.reps.Keys == cfg.ids
    && forall i | i in c.reps :: c.reps[i].id == i && (c.reps[i].role == LEADER ==> c.reps[i].armed)
  }

  lemma RunInOrder(cfg: Config, before: seq<Step>)
    requires ValidConfig(cfg)
    ensures InOrder(cfg, Run(cfg, before))
  {
    RunInv(cfg, before);
    forall i | i in cfg.ids ensures i in Run(cfg, before).reps && TimerMatches(cfg.policy, Run(cfg, before).reps[i]) {
      assert Disciplined(cfg.policy, Run(cfg, before).reps[i]);
    }
  }

  lemma {:induction false} Ceiling(c: Cluster, ids: set<Id>) returns (t: nat)
    requires ids <= c.reps.Keys
    ensures forall i | i in ids :: c.reps[i].term < t
    decreases |ids|
  {
    if ids == {} {
      t := 0;
    } else {
      var i :| i in ids;
      assert |ids - {i}| == |ids| - 1;
      t := Ceiling(c, ids - {i});
      t := if c.reps[i].term < t then t else c.reps[i].term + 1;
    }
  }

  /** A replica that is no leader runs in its next term. */
  lemma Campaign(cfg: Config, o: Cluster, c: Cluster, i: Id) returns (d: Cluster)
    requires Follows(cfg, o, c) && i in cfg.ids && i in c.reps && c.reps[i].id == i && c.reps[i].role != LEADER
    ensures Follows(cfg, o, d) && Touches(c, d, {i}) && Fresh(cfg, d, i, c.reps[i].term + 1)
  {
    if c.reps[i].electing && !c.reps[i].again {
      d := RunAgain(cfg, o, c, i);
    } else {
      d := StartRun(cfg, o, c, i);
    }
  }

  /** It runs again and again until its term is `t` or more. */
  lemma {:induction false} RunUp(cfg: Config, o: Cluster, c: Cluster, i: Id, t: nat) returns (d: Cluster)
    requires Follows(cfg, o, c) && i in cfg.ids && i in c.reps && c.reps[i].id == i && c.reps[i].role != LEADER
    ensures Follows(cfg, o, d) && Touches(c, d, {i}) && i in d.reps && d.reps[i].term >= t
    ensures Fresh(cfg, d, i, d.reps[i].term)
    decreases if t > c.reps[i].term then t - c.reps[i].term else 0
  {
    hide Follows;
    d := Campaign(cfg, o, c, i);
    if d.reps[i].term < t {
      var c1 := d;
      d := RunUp(cfg, o, c1, i, t);
      assert Touches(c, d, {i});
    }
  }

  /** A heartbeat that is not old leaves no leader. */
  lemma ReadBeat(cfg: Config, o: Cluster, c: Cluster, i: Id, m: AppendEntries) returns (d: Cluster)
    requires Follows(cfg, o, c) && i in cfg.ids && i in c.reps && c.reps[i].id == i
    requires m in c.appends && m.sender != i && m.term >= c.reps[i].term
    ensures Follows(cfg, o, d) && Touches(c, d, {i}) && i in d.reps && d.reps[i].id == i && d.reps[i].role != LEADER
  {
    hide Follows;
    if c.reps[i].electing && !c.reps[i].again {
      BeatArrives(cfg, o, c, i, m);
      d := Beaten(cfg.policy, c, i, m);
    } else if c.reps[i].electing && CanStart(cfg.policy, c.reps[i]) {
      d := StartRun(cfg, o, c, i);
    } else {
      var c1 := c;
      if c.reps[i].electing {
        FollowsStep(cfg, o, c, ElectionTimeout(i));
        c1 := Apply(cfg, c, ElectionTimeout(i));
      }
      Hear(cfg, o, c1, i, m);
      d := Heard(cfg.policy, c1, i, m);
    }
  }

  /** `j`, no leader, runs up to a term above that of `i` and makes it a follower. */
  lemma Overtake(cfg: Config, o: Cluster, c: Cluster, i: Id, j: Id) returns (d: Cluster)
    requires Follows(cfg, o, c) && i in cfg.ids && j in cfg.ids && i != j && i in c.reps && j in c.reps
    requires c.reps[i].id == i && c.reps[j].id == j && c.reps[j].role != LEADER
    ensures Follows(cfg, o, d) && Touches(c, d, {i, j}) && i in d.reps && d.reps[i].id == i && d.reps[i].role != LEADER
    ensures j in d.reps && d.reps[j].id == j
  {
    hide Follows;
    var c1 := RunUp(cfg, o, c, j, c.reps[i].term + 1);
    d := GrantTo(cfg, o, c1, i, j, c1.reps[j].term);
  }

  /** Of two leaders the one of the lower term hears the other; if that is `j`, it then overtakes `i`. */
  lemma Outrank(cfg: Config, o: Cluster, c: Cluster, i: Id, j: Id) returns (d: Cluster)
    requires Follows(cfg, o, c) && i in cfg.ids && j in cfg.ids && i != j && i in c.reps && j in c.reps
    requires c.reps[i].id == i && c.reps[j].id == j && c.reps[i].armed && c.reps[j].armed
    ensures Follows(cfg, o, d) && Touches(c, d, {i, j}) && i in d.reps && d.reps[i].id == i && d.reps[i].role != LEADER
    ensures j in d.reps && d.reps[j].id == j
  {
    hide Follows;
    if c.reps[j].term >= c.reps[i].term {
      var c1 := SendBeat(cfg, o, c, j);
      d := ReadBeat(cfg, o, c1, i, AppendEntries(c.reps[j].term, j));
    } else {
      var c1 := SendBeat(cfg, o, c, i);
      var c2 := ReadBeat(cfg, o, c1, j, AppendEntries(c.reps[i].term, i));
      d := Overtake(cfg, o, c2, i, j);
    }
  }

  /** In a cluster of two or more every replica can be made to lead no longer. */
  lemma Demote(cfg: Config, o: Cluster, c: Cluster, i: Id) returns (d: Cluster)
    requires Follows(cfg, o, c) && i in cfg.ids && |cfg.ids| >= 2 && InOrder(cfg, c)
    ensures Follows(cfg, o, d) && i in d.reps && d.reps[i].role != LEADER
    ensures d.reps.Keys == cfg.ids && forall x | x in d.reps :: d.reps[x].id == x
  {
    hide Follows;
    if c.reps[i].role != LEADER {
      d := c;
    } else {
      assert |cfg.ids - {i}| >= 1;
      var j :| j in cfg.ids - {i};
      if c.reps[j].role != LEADER {
        d := Overtake(cfg, o, c, i, j);
      } else {
        d := Outrank(cfg, o, c, i, j);
      }
    }
  }

  /** A replica that is no leader gets ahead of everybody and is elected by half of the others. */
  lemma Win(cfg: Config, o: Cluster, c: Cluster, i: Id) returns (d: Cluster, ys: set<Id>)
    requires Follows(cfg, o, c) && i in cfg.ids && 2 <= |cfg.ids| <= 255 && c.reps.Keys == cfg.ids
    requires c.reps[i].role != LEADER && forall x | x in c.reps :: c.reps[x].id == x
    ensures Follows(cfg, o, d) && d.reps.Keys == cfg.ids && Leading(d, i, d.reps[i].term)
    ensures forall x | x in c.reps :: c.reps[x].term < d.reps[i].term
    ensures ys <= cfg.ids - {i} && |ys| == |cfg.ids| / 2
    ensures forall y | y in ys :: Happened(d, y, Voted(d.reps[i].term, i))
  {
    hide Follows;
    var top := Ceiling(c, cfg.ids);
    var c1 := RunUp(cfg, o, c, i, top);
    var t := c1.reps[i].term;
    assert |cfg.ids - {i}| == |cfg.ids| - 1;
    ys := Subset(cfg.ids - {i}, |cfg.ids| / 2);
    forall y | y in ys ensures Free(c1, y, t) {
      assert c1.reps[y] == c.reps[y];
    }
    d := Elect(cfg, o, c1, i, ys, t);
    forall y | y in ys ensures Happened(d, y, Voted(t, i)) {
      assert VotesFor(c1, d, y, i, t);
    }
  }

  /** Elections never get stuck. Whatever the policy and whatever has happened, every replica, leader or not,
      can come to lead a term above all terms reached so far, with the votes of a majority. */
  lemma EverybodyCanLead(cfg: Config, before: seq<Step>, i: Id) returns (after: seq<Step>)
    requires ValidConfig(cfg) && 2 <= |cfg.ids| <= 255 && i in cfg.ids
    ensures var c, d := Run(cfg, before), Run(cfg, before + after);
            && i in d.reps && d.reps[i].role == LEADER
            && (forall j | j in c.reps :: c.reps[j].term < d.reps[i].term)
            && |Supporters(d, d.reps[i].term, i)| * 2 > |cfg.ids|
  {
    hide Disciplined, Follows, Inv;
    var c := Run(cfg, before);
    RunInOrder(cfg, before);
    FollowsSelf(cfg, c);
    var c1 := Demote(cfg, c, c, i);
    var d, ys := Win(cfg, c, c1, i);
    after := StepsTo(cfg, before, d);
    var first := StepsTo(cfg, before, c1);
    RunInv(cfg, before);
    RunKeeps(cfg, c, first);
    RunInv(cfg, before + after);
    LeaderHasMajority(cfg, d, i, ys);
  }

  lemma StepsTo(cfg: Config, before: seq<Step>, d: Cluster) returns (after: seq<Step>)
    requires Follows(cfg, Run(cfg, before), d)
    ensures RunFrom(cfg, Run(cfg, before), after) == d && Run(cfg, before + after) == d
  {
    after :| RunFrom(cfg, Run(cfg, before), after) == d;
    RunFromConcat(cfg, Init(cfg), before, after);
  }

  lemma LeaderHasMajority(cfg: Config, d: Cluster, i: Id, ys: set<Id>)
    requires Inv(cfg, d) && i in d.reps && d.reps[i].role == LEADER && Led(d.reps[i].term) in d.reps[i].trace
    requires ys <= cfg.ids - {i} && |ys| == |cfg.ids| / 2
    requires forall y | y in ys :: Happened(d, y, Voted(d.reps[i].term, i))
    ensures |Supporters(d, d.reps[i].term, i)| * 2 > |cfg.ids|
  {
    hide Disciplined;
    OfficeRan(cfg.policy, d.reps[i], Led(d.reps[i].term));
    RanVotedSelf(cfg.policy, d.reps[i], d.reps[i].term);
    SubsetSize(ys + {i}, Supporters(d, d.reps[i].term, i));
  }
}
