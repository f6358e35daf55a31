/** The invariant of Network holds after every run. */
module Reachable {
  import opened Model
  import opened ReplicaRules
  import opened History
  import opened Protocol
  import opened Network

  lemma SameReplicas(cfg: Config, c: Cluster, d: Cluster)
    requires Inv(cfg, c) && d.reps == c.reps && MessagesTrue(cfg.policy, d)
    ensures Inv(cfg, d) && Evolves(c, d)
  {
    hide Disciplined;
    forall i, t | Happened(d, i, Led(t)) ensures LeaderEarned(cfg, d, t, i) {
      assert Happened(c, i, Led(t));
      EarnedStays(cfg, c, d, t, i);
    }
    if cfg.policy.guardStart && cfg.policy.skipOwn {
      forall i, t | Happened(d, i, SteppedDown(t)) ensures LedByOther(d, t, i) {
        assert Happened(c, i, SteppedDown(t));
        LedByOtherStays(c, d, t, i);
      }
    }
    forall i | i in d.reps ensures TallyTrue(cfg, d, d.reps[i]) {
      assert TallyTrue(cfg, c, c.reps[i]);
      SupportersGrow(c, d, d.reps[i].term, d.reps[i].id);
    }
  }

  lemma EvolvesSelf(c: Cluster)
    ensures Evolves(c, c)
  {
  }

  // ---------- batches

  /** While the flag is up, the reply a replica sends reports its current vote, which it really gave. */
  lemma FlagMeansVote(p: Policy, s: ReplicaState, m: VoteRequest, granted: bool)
    requires Disciplined(p, s) && m.sender != VOTED_NONE && (granted ==> s.votedFor != VOTED_NONE)
    ensures var s1 := OnRequest(p, s, m);
            granted || Grants(p, s, m) ==> s1.votedFor != VOTED_NONE && Voted(s1.term, s1.votedFor) in s1.trace
  {
    OnRequestKeeps(p, s, m);
    assert Disciplined(p, OnRequest(p, s, m));
  }

  lemma {:induction false} RequestBatchKeeps(cfg: Config, c: Cluster, i: Id, batch: seq<Sample<VoteRequest>>, granted: bool)
    requires ValidConfig(cfg) && Inv(cfg, c) && i in c.reps && RequestsSent(cfg.policy, c, i, batch)
    requires granted ==> c.reps[i].votedFor != VOTED_NONE
    ensures var d := RequestResult(cfg, c, i, batch, granted);
            Inv(cfg, d) && Evolves(c, d)
    decreases |batch|
  {
    hide Disciplined, Evolves;
    EvolvesSelf(c);
    var d := RequestResult(cfg, c, i, batch, granted);
    if batch == [] {
      assert d.reps == c.reps && d == c;
    } else if batch[0] == Invalid {
      assert d == RequestResult(cfg, c, i, batch[1..], granted);
      RequestBatchKeeps(cfg, c, i, batch[1..], granted);
    } else {
      var m := batch[0].msg;
      var s1 := OnRequest(cfg.policy, c.reps[i], m);
      var granted1 := granted || Grants(cfg.policy, c.reps[i], m);
      assert m in c.requests && RequestTrue(c, m);
      RequestKeeps(cfg, c, i, m);
      FlagMeansVote(cfg.policy, c.reps[i], m, granted);
      var c1 := With(c, i, s1);
      var c2 := c1.(replies := c1.replies + {ReplyOf(s1, granted1)});
      RequestReplySent(cfg, c1, i, granted1);
      RequestBatchKeeps(cfg, c2, i, batch[1..], granted1);
      RequestBatchUnfold(cfg, c, i, batch, granted);
      EvolvesTransitive(c, c1, c2);
      EvolvesTransitive(c, c2, d);
    }
  }

  lemma RequestReplySent(cfg: Config, c: Cluster, i: Id, granted: bool)
    requires Inv(cfg, c) && i in c.reps
    requires granted ==> Voted(c.reps[i].term, c.reps[i].votedFor) in c.reps[i].trace
    ensures var d := c.(replies := c.replies + {ReplyOf(c.reps[i], granted)});
            Inv(cfg, d) && Evolves(c, d)
  {
    hide Disciplined;
    var d := c.(replies := c.replies + {ReplyOf(c.reps[i], granted)});
    assert Evolves(c, d);
    MessagesStay(cfg.policy, c, d);
    SameReplicas(cfg, c, d);
  }

  lemma RequestBatchUnfold(cfg: Config, c: Cluster, i: Id, batch: seq<Sample<VoteRequest>>, granted: bool)
    requires i in c.reps && batch != [] && batch[0].Valid?
    ensures var s1 := OnRequest(cfg.policy, c.reps[i], batch[0].msg);
            var granted1 := granted || Grants(cfg.policy, c.reps[i], batch[0].msg);
            RequestResult(cfg, c, i, batch, granted) ==
            RequestResult(cfg, With(c, i, s1).(replies := c.replies + {ReplyOf(s1, granted1)}), i, batch[1..], granted1)
  {
    var s1 := OnRequest(cfg.policy, c.reps[i], batch[0].msg);
    var granted1 := granted || Grants(cfg.policy, c.reps[i], batch[0].msg);
    var r := ReplyOf(s1, granted1);
    var c1 := With(c, i, s1).(replies := c.replies + {r});
    var (s2, rest) := OnRequests(cfg.policy, s1, batch[1..], granted1);
    assert OnRequests(cfg.policy, c.reps[i], batch, granted) == (s2, [r] + rest);
    assert c.reps[i := s2] == c1.reps[i := s2];
    assert (set x | x in [r] + rest) == {r} + set x | x in rest;
    assert c.replies + (set x | x in [r] + rest) == c1.replies + set x | x in rest;
  }

  lemma {:induction false} ReplyBatchKeeps(cfg: Config, c: Cluster, i: Id, batch: seq<Sample<VoteReply>>)
    requires Inv(cfg, c) && i in c.reps && RepliesSent(cfg.policy, c, i, batch)
    ensures var d := With(c, i, OnReplies(cfg.policy, |cfg.ids|, c.reps[i], batch));
            Inv(cfg, d) && Evolves(c, d)
    decreases |batch|
  {
    hide Disciplined, Inv, Evolves;
    EvolvesSelf(c);
    var p, n := cfg.policy, |cfg.ids|;
    var d := With(c, i, OnReplies(p, n, c.reps[i], batch));
    if batch == [] {
      assert d == c;
    } else if batch[0] == Invalid {
      ReplyBatchKeeps(cfg, c, i, batch[1..]);
    } else {
      var m := batch[0].msg;
      var c1 := With(c, i, OnReply(p, n, c.reps[i], m));
      ReplyKeeps(cfg, c, i, m);
      ReplyBatchKeeps(cfg, c1, i, batch[1..]);
      assert d == With(c1, i, OnReplies(p, n, c1.reps[i], batch[1..]));
      EvolvesTransitive(c, c1, d);
    }
  }

  lemma {:induction false} AppendBatchKeeps(cfg: Config, c: Cluster, i: Id, batch: seq<Sample<AppendEntries>>)
    requires Inv(cfg, c) && i in c.reps && AppendsSent(cfg.policy, c, i, batch)
    ensures var d := With(c, i, OnAppends(cfg.policy, c.reps[i], batch));
            Inv(cfg, d) && Evolves(c, d)
    decreases |batch|
  {
    hide Disciplined, Inv, Evolves;
    EvolvesSelf(c);
    var p := cfg.policy;
    var d := With(c, i, OnAppends(p, c.reps[i], batch));
    if batch == [] {
      assert d == c;
    } else if batch[0] == Invalid {
      AppendBatchKeeps(cfg, c, i, batch[1..]);
    } else {
      var m := batch[0].msg;
      var c1 := With(c, i, OnAppend(p, c.reps[i], m));
      AppendKeepsInv(cfg, c, i, m);
      AppendBatchKeeps(cfg, c1, i, batch[1..]);
      assert d == With(c1, i, OnAppends(p, c1.reps[i], batch[1..]));
      EvolvesTransitive(c, c1, d);
    }
  }

  // ---------- the other steps

  lemma ElectingKeeps(cfg: Config, c: Cluster, i: Id, electing: bool, again: bool)
    requires Inv(cfg, c) && i in c.reps
    ensures var d := With(c, i, c.reps[i].(electing := electing, again := again));
            Inv(cfg, d) && Evolves(c, d)
  {
    var s := c.reps[i].(electing := electing, again := again);
    assert Disciplined(cfg.policy, s) && Advances(c.reps[i], s);
    ElectingMoves(cfg, c, i, s);
  }

  lemma ElectingMoves(cfg: Config, c: Cluster, i: Id, s: ReplicaState)
    requires Inv(cfg, c) && i in c.reps && s == c.reps[i].(electing := s.electing, again := s.again)
    requires Disciplined(cfg.policy, s) && Advances(c.reps[i], s)
    ensures Inv(cfg, With(c, i, s)) && Evolves(c, With(c, i, s))
  {
    hide Disciplined;
    MoveReplicas(cfg, c, i, s);
    TallyStays(cfg, c, i, s);
    Move(cfg, c, i, s);
  }

  lemma StartKeeps(cfg: Config, c: Cluster, i: Id)
    requires Inv(cfg, c) && i in c.reps && (cfg.policy.guardStart ==> c.reps[i].role != LEADER)
    ensures var d := With(c, i, BeginElection(c.reps[i]));
            Inv(cfg, d) && Evolves(c, d) && Happened(d, i, Ran(c.reps[i].term + 1))
  {
    hide Disciplined;
    var s := BeginElection(c.reps[i]);
    BeginElectionKeeps(cfg.policy, c.reps[i]);
    MoveReplicas(cfg, c, i, s);
    assert s.trace[|s.trace| - 2] == Ran(s.term) && s.trace[|s.trace| - 1] == Voted(s.term, i);
    assert Happened(With(c, i, s), i, Voted(s.term, i));
    Move(cfg, c, i, s);
  }

  lemma InputKeeps(cfg: Config, c: Cluster, i: Id)
    requires Inv(cfg, c) && i in c.reps
    ensures var d := With(c, i, OnInput(c.reps[i]));
            Inv(cfg, d) && Evolves(c, d)
  {
    hide Disciplined;
    if c.reps[i].role == LEADER {
      AppendKeeps(cfg.policy, c.reps[i]);
      MoveReplicas(cfg, c, i, OnInput(c.reps[i]));
      Move(cfg, c, i, OnInput(c.reps[i]));
    } else {
      assert With(c, i, OnInput(c.reps[i])) == c;
      EvolvesSelf(c);
    }
  }

  lemma {:induction false} InputsKeep(cfg: Config, c: Cluster, i: Id, rounds: nat)
    requires Inv(cfg, c) && i in c.reps
    ensures var d := With(c, i, OnInputs(c.reps[i], rounds));
            Inv(cfg, d) && Evolves(c, d)
    decreases rounds
  {
    hide Disciplined, Inv, Evolves;
    EvolvesSelf(c);
    var d := With(c, i, OnInputs(c.reps[i], rounds));
    if rounds == 0 {
      assert d == c;
    } else {
      var s1 := OnInput(c.reps[i]);
      var c1 := With(c, i, s1);
      InputKeeps(cfg, c, i);
      InputsKeep(cfg, c1, i, rounds - 1);
      assert d == With(c1, i, OnInputs(c1.reps[i], rounds - 1));
      EvolvesTransitive(c, c1, d);
    }
  }

  // ---------- every step, every run

  lemma StartStepKeeps(cfg: Config, c: Cluster, i: Id, d: Cluster)
    requires Inv(cfg, c) && i in c.reps && (cfg.policy.guardStart ==> c.reps[i].role != LEADER)
    requires d == With(c, i, BeginElection(c.reps[i])).(
                    requests := c.requests + {VoteRequest(c.reps[i].term + 1, i)}, elections := c.elections + 1)
    ensures Inv(cfg, d) && Evolves(c, d)
  {
    hide Disciplined, Evolves;
    var c1 := With(c, i, BeginElection(c.reps[i]));
    StartKeeps(cfg, c, i);
    SameReplicas(cfg, c1, d);
    EvolvesTransitive(c, c1, d);
  }

  lemma HeartbeatKeeps(cfg: Config, c: Cluster, i: Id, d: Cluster)
    requires Inv(cfg, c) && i in c.reps && c.reps[i].armed
    requires d == c.(appends := c.appends + {AppendEntries(c.reps[i].term, i)})
    ensures Inv(cfg, d) && Evolves(c, d)
  {
    hide Disciplined, Evolves;
    ArmedMeans(cfg.policy, c.reps[i]);
    SameReplicas(cfg, c, d);
  }

  lemma ApplyKeeps(cfg: Config, c: Cluster, step: Step)
    requires ValidConfig(cfg) && Inv(cfg, c)
    ensures Inv(cfg, Apply(cfg, c, step)) && Evolves(c, Apply(cfg, c, step))
  {
    hide Disciplined, Inv, Evolves;
    var d := Apply(cfg, c, step);
    EvolvesSelf(c);
    if Enabled(cfg, c, step) {
      var p, i, s := cfg.policy, step.id, c.reps[step.id];
      match step
      case StartElection(_) =>
        StartStepKeeps(cfg, c, i, d);
      case ElectionTimeout(_) =>
        ElectingKeeps(cfg, c, i, false, false);
      case HandleRequests(_, batch) =>
        RequestBatchKeeps(cfg, c, i, batch, false);
      case HandleReplies(_, batch) =>
        ReplyBatchKeeps(cfg, c, i, batch);
      case HandleAppends(_, batch) =>
        AppendBatchKeeps(cfg, c, i, batch);
      case HandleElectionAppends(_, batch) =>
        AppendBatchKeeps(cfg, c, i, batch);
        var c1 := With(c, i, OnAppends(p, s, batch));
        var unfinished := !Finishes(p, s, batch);
        ElectingKeeps(cfg, c1, i, unfinished, unfinished);
        assert d == With(c1, i, c1.reps[i].(electing := unfinished, again := unfinished));
        EvolvesTransitive(c, c1, d);
      case Heartbeat(_) =>
        HeartbeatKeeps(cfg, c, i, d);
      case ClientInput(_, rounds) =>
        InputsKeep(cfg, c, i, rounds);
    }
  }

  lemma InitInv(cfg: Config)
    requires ValidConfig(cfg)
    ensures Inv(cfg, Init(cfg))
  {
    var c := Init(cfg);
    forall i | i in c.reps ensures c.reps[i].id == i && Disciplined(cfg.policy, c.reps[i]) {
      InitialDisciplined(cfg.policy, i);
    }
  }

  lemma {:induction false} RunKeeps(cfg: Config, c: Cluster, steps: seq<Step>)
    requires ValidConfig(cfg) && Inv(cfg, c)
    ensures Inv(cfg, RunFrom(cfg, c, steps)) && Evolves(c, RunFrom(cfg, c, steps))
    decreases |steps|
  {
    hide Disciplined, Inv, Evolves;
    EvolvesSelf(c);
    if steps == [] {
    } else {
      var c1 := Apply(cfg, c, steps[0]);
      ApplyKeeps(cfg, c, steps[0]);
      RunKeeps(cfg, c1, steps[1..]);
      EvolvesTransitive(c, c1, RunFrom(cfg, c, steps));
    }
  }

  lemma RunInv(cfg: Config, steps: seq<Step>)
    requires ValidConfig(cfg)
    ensures Inv(cfg, Run(cfg, steps))
  {
    InitInv(cfg);
    RunKeeps(cfg, Init(cfg), steps);
  }
}
