/** Where terms come from, and why 32 bits are enough for them. */
module Terms {
  import opened Model
  import opened ReplicaRules
  import opened History
  import opened Protocol
  import opened Network
  import opened Reachable

  ghost predicate RanBySome(c: Cluster, t: nat) {
    exists k | k in c.reps :: Happened(c, k, Ran(t))
  }

  /** `t` is no higher than some replica's term. */
  ghost predicate Heard(c: Cluster, t: nat) {
    exists j | j in c.reps :: t <= c.reps[j].term
  }

  ghost predicate MessageTerms(c: Cluster) {
    && (forall m | m in c.requests :: m.sender in c.reps && m.term <= c.reps[m.sender].term)
    && (forall r | r in c.replies :: r.sender in c.reps && r.term <= c.reps[r.sender].term)
    && (forall m | m in c.appends :: m.sender in c.reps && m.term <= c.reps[m.sender].term)
  }

  ghost predicate Grounded(c: Cluster, top: nat) {
    forall t: nat | 1 <= t <= top :: RanBySome(c, t)
  }

  ghost predicate TermsEarned(c: Cluster) {
    && (forall i | i in c.reps :: c.reps[i].term <= c.elections && Grounded(c, c.reps[i].term))
    && MessageTerms(c)
  }

  lemma GroundedStays(c: Cluster, d: Cluster, top: nat)
    requires Evolves(c, d) && Grounded(c, top)
    ensures Grounded(d, top)
  {
    forall t: nat | 1 <= t <= top ensures RanBySome(d, t) {
      assert RanBySome(c, t);
      var k :| k in c.reps && Happened(c, k, Ran(t));
      HappenedStays(c, d, k, Ran(t));
    }
  }

  /** Every message of `d` that `c` does not have carries at most the term of its sender. */
  ghost predicate NewMessages(c: Cluster, d: Cluster) {
    && (forall m | m in d.requests && m !in c.requests :: m.sender in d.reps && m.term <= d.reps[m.sender].term)
    && (forall r | r in d.replies && r !in c.replies :: r.sender in d.reps && r.term <= d.reps[r.sender].term)
    && (forall m | m in d.appends && m !in c.appends :: m.sender in d.reps && m.term <= d.reps[m.sender].term)
  }

  lemma MessageTermsStay(c: Cluster, d: Cluster)
    requires MessageTerms(c) && Evolves(c, d) && NewMessages(c, d)
    ensures MessageTerms(d)
  {
  }

  /** Replica `i` moves on to a term that is known in the cluster. */
  lemma MoveTerms(c: Cluster, d: Cluster, i: Id)
    requires TermsEarned(c) && Evolves(c, d) && i in c.reps
    requires forall x | x in c.reps && x != i :: d.reps[x] == c.reps[x]
    requires Heard(c, d.reps[i].term) && d.elections == c.elections && NewMessages(c, d)
    ensures TermsEarned(d)
  {
    MessageTermsStay(c, d);
    forall x | x in d.reps ensures d.reps[x].term <= d.elections && Grounded(d, d.reps[x].term) {
      if x == i {
        var j :| j in c.reps && d.reps[i].term <= c.reps[j].term;
        assert Grounded(c, d.reps[i].term);
      }
      GroundedStays(c, d, d.reps[x].term);
    }
  }

  // ---------- the term a batch leads to

  lemma {:induction false} RequestsTerm(c: Cluster, p: Policy, s: ReplicaState, batch: seq<Sample<VoteRequest>>, granted: bool)
    requires Heard(c, s.term) && forall k | 0 <= k < |batch| && batch[k].Valid? :: Heard(c, batch[k].msg.term)
    ensures var (s1, replies) := OnRequests(p, s, batch, granted);
            && Heard(c, s1.term) && s.term <= s1.term
            && forall r | r in replies :: r.sender == s.id && r.term <= s1.term
    decreases |batch|
  {
    if batch == [] {
    } else {
      assert forall k | 0 <= k < |batch[1..]| :: batch[1..][k] == batch[k + 1];
      match batch[0]
      case Invalid => RequestsTerm(c, p, s, batch[1..], granted);
      case Valid(m) => RequestsTerm(c, p, OnRequest(p, s, m), batch[1..], granted || Grants(p, s, m));
    }
  }

  lemma {:induction false} RepliesTerm(c: Cluster, p: Policy, n: nat, s: ReplicaState, batch: seq<Sample<VoteReply>>)
    requires Heard(c, s.term) && forall k | 0 <= k < |batch| && batch[k].Valid? :: Heard(c, batch[k].msg.term)
    ensures Heard(c, OnReplies(p, n, s, batch).term)
    decreases |batch|
  {
    if batch == [] {
    } else {
      assert forall k | 0 <= k < |batch[1..]| :: batch[1..][k] == batch[k + 1];
      RepliesTerm(c, p, n, if batch[0].Valid? then OnReply(p, n, s, batch[0].msg) else s, batch[1..]);
    }
  }

  lemma {:induction false} AppendsTerm(c: Cluster, p: Policy, s: ReplicaState, batch: seq<Sample<AppendEntries>>)
    requires Heard(c, s.term) && forall k | 0 <= k < |batch| && batch[k].Valid? :: Heard(c, batch[k].msg.term)
    ensures Heard(c, OnAppends(p, s, batch).term)
    decreases |batch|
  {
    if batch == [] {
    } else {
      assert forall k | 0 <= k < |batch[1..]| :: batch[1..][k] == batch[k + 1];
      AppendsTerm(c, p, if batch[0].Valid? then OnAppend(p, s, batch[0].msg) else s, batch[1..]);
    }
  }

  lemma {:induction false} InputsTerm(s: ReplicaState, rounds: nat)
    ensures OnInputs(s, rounds).term == s.term
    decreases rounds
  {
    if rounds == 0 {
    } else {
      InputsTerm(OnInput(s), rounds - 1);
    }
  }

  // ---------- every step

  lemma StartTerms(cfg: Config, c: Cluster, i: Id, d: Cluster)
    requires TermsEarned(c) && Evolves(c, d) && i in c.reps && c.reps[i].id == i
    requires d == With(c, i, BeginElection(c.reps[i])).(
                    requests := c.requests + {VoteRequest(c.reps[i].term + 1, i)}, elections := c.elections + 1)
    ensures TermsEarned(d)
  {
    var s := c.reps[i];
    assert d.reps[i].trace[|s.trace|] == Ran(s.term + 1);
    assert Happened(d, i, Ran(s.term + 1));
    forall x | x in d.reps ensures d.reps[x].term <= d.elections && Grounded(d, d.reps[x].term) {
      GroundedStays(c, d, c.reps[x].term);
    }
  }

  lemma ApplyTerms(cfg: Config, c: Cluster, step: Step)
    requires ValidConfig(cfg) && Inv(cfg, c) && TermsEarned(c)
    ensures TermsEarned(Apply(cfg, c, step))
    ensures c.elections <= Apply(cfg, c, step).elections <= c.elections + (if step.StartElection? then 1 else 0)
  {
    hide Disciplined, Evolves;
    ApplyKeeps(cfg, c, step);
    if Enabled(cfg, c, step) {
      EnabledTerms(cfg, c, step);
    }
  }

  lemma MessagesHeard(c: Cluster)
    requires TermsEarned(c)
    ensures forall m | m in c.requests :: Heard(c, m.term)
    ensures forall r | r in c.replies :: Heard(c, r.term)
    ensures forall m | m in c.appends :: Heard(c, m.term)
  {
  }

  lemma EnabledTerms(cfg: Config, c: Cluster, step: Step)
    requires ReplicasDisciplined(cfg, c) && TermsEarned(c) && Enabled(cfg, c, step) && Evolves(c, Apply(cfg, c, step))
    ensures TermsEarned(Apply(cfg, c, step))
  {
    hide Disciplined, Evolves, TermsEarned;
    var d, p, i, s := Apply(cfg, c, step), cfg.policy, step.id, c.reps[step.id];
    assert Heard(c, s.term);
    MessagesHeard(c);
    match step
    case StartElection(_) => StartTerms(cfg, c, i, d);
    case HandleRequests(_, batch) =>
      RequestsTerm(c, p, s, batch, false);
      MoveTerms(c, d, i);
    case HandleReplies(_, batch) =>
      RepliesTerm(c, p, |cfg.ids|, s, batch);
      MoveTerms(c, d, i);
    case HandleAppends(_, batch) =>
      AppendsTerm(c, p, s, batch);
      MoveTerms(c, d, i);
    case HandleElectionAppends(_, batch) =>
      AppendsTerm(c, p, s, batch);
      MoveTerms(c, d, i);
    case ClientInput(_, rounds) =>
      InputsTerm(s, rounds);
      MoveTerms(c, d, i);
    case _ => MoveTerms(c, d, i);
  }

  function StartSteps(steps: seq<Step>): nat {
    if steps == [] then 0 else (if steps[0].StartElection? then 1 else 0) + StartSteps(steps[1..])
  }

  lemma {:induction false} RunTerms(cfg: Config, c: Cluster, steps: seq<Step>)
    requires ValidConfig(cfg) && Inv(cfg, c) && TermsEarned(c)
    ensures TermsEarned(RunFrom(cfg, c, steps))
    ensures c.elections <= RunFrom(cfg, c, steps).elections <= c.elections + StartSteps(steps)
    decreases |steps|
  {
    hide Disciplined, Inv, TermsEarned;
    if steps == [] {
    } else {
      ApplyKeeps(cfg, c, steps[0]);
      ApplyTerms(cfg, c, steps[0]);
      RunTerms(cfg, Apply(cfg, c, steps[0]), steps[1..]);
    }
  }

  lemma InitTerms(cfg: Config)
    requires ValidConfig(cfg)
    ensures Inv(cfg, Init(cfg)) && TermsEarned(Init(cfg))
  {
    InitInv(cfg);
  }

  /** `t` is the term of a replica or of a message. */
  ghost predicate TermInUse(c: Cluster, t: nat) {
    || (exists i | i in c.reps :: c.reps[i].term == t)
    || (exists m | m in c.requests :: m.term == t)
    || (exists r | r in c.replies :: r.term == t)
    || (exists m | m in c.appends :: m.term == t)
  }

  /** No term in use exceeds the number of elections begun, and somebody ran in every term up to it. */
  lemma TermsAreEarned(cfg: Config, steps: seq<Step>, top: nat)
    requires ValidConfig(cfg) && TermInUse(Run(cfg, steps), top)
    ensures top <= Run(cfg, steps).elections <= StartSteps(steps)
    ensures forall t: nat | 1 <= t <= top :: RanBySome(Run(cfg, steps), t)
  {
    hide Disciplined;
    InitTerms(cfg);
    RunTerms(cfg, Init(cfg), steps);
    var c := Run(cfg, steps);
    assert Heard(c, top);
    var j :| j in c.reps && top <= c.reps[j].term;
    assert Grounded(c, c.reps[j].term);
  }

  // ---------- terms of 32 bits

  const TERM_LIMIT: nat := 0x1_0000_0000

  /** The start of an election pass with a `uint32_t` term. */
  function BeginElection32(s: ReplicaState): ReplicaState {
    var t := (s.term + 1) % TERM_LIMIT;
    BeginElection(s).(term := t, electionTerm := t, trace := s.trace + [Ran(t), Voted(t, s.id)])
  }

  ghost function Apply32(cfg: Config, c: Cluster, step: Step): Cluster {
    if step.StartElection? && Enabled(cfg, c, step) then
      var i := step.id;
      var s := BeginElection32(c.reps[i]);
      With(c, i, s).(requests := c.requests + {VoteRequest(s.term, i)}, elections := c.elections + 1)
    else Apply(cfg, c, step)
  }

  ghost function RunFrom32(cfg: Config, c: Cluster, steps: seq<Step>): Cluster
    decreases |steps|
  {
    if steps == [] then c else RunFrom32(cfg, Apply32(cfg, c, steps[0]), steps[1..])
  }

  lemma {:induction false} SameRun(cfg: Config, c: Cluster, steps: seq<Step>)
    requires ValidConfig(cfg) && Inv(cfg, c) && TermsEarned(c)
    requires RunFrom(cfg, c, steps).elections < TERM_LIMIT
    ensures RunFrom32(cfg, c, steps) == RunFrom(cfg, c, steps)
    decreases |steps|
  {
    hide Disciplined, Inv, Grounded, MessageTerms;
    if steps == [] {
    } else {
      var step := steps[0];
      ApplyKeeps(cfg, c, step);
      ApplyTerms(cfg, c, step);
      RunTerms(cfg, Apply(cfg, c, step), steps[1..]);
      if step.StartElection? && Enabled(cfg, c, step) {
        assert c.reps[step.id].term + 1 <= Apply(cfg, c, step).elections;
        assert BeginElection32(c.reps[step.id]) == BeginElection(c.reps[step.id]);
      }
      assert Apply32(cfg, c, step) == Apply(cfg, c, step);
      SameRun(cfg, Apply(cfg, c, step), steps[1..]);
    }
  }

  /** A run that begins fewer than 2^32 elections is the same with 32-bit terms. */
  lemma TermsFit32(cfg: Config, steps: seq<Step>)
    requires ValidConfig(cfg) && StartSteps(steps) < TERM_LIMIT
    ensures RunFrom32(cfg, Init(cfg), steps) == Run(cfg, steps)
  {
    hide Disciplined, Inv, TermsEarned;
    InitTerms(cfg);
    RunTerms(cfg, Init(cfg), steps);
    SameRun(cfg, Init(cfg), steps);
  }

  // The bound is sharp.

  /** `i` starts so many elections, and every wait for votes times out. */
  function Passes(i: Id, n: nat): seq<Step> {
    if n == 0 then [] else [StartElection(i), ElectionTimeout(i)] + Passes(i, n - 1)
  }

  lemma {:induction false} PassesRun(cfg: Config, c: Cluster, i: Id, n: nat)
    requires i in cfg.ids && i in c.reps && !c.reps[i].electing && c.reps[i].role != LEADER
    ensures StartSteps(Passes(i, n)) == n
    ensures var d := RunFrom(cfg, c, Passes(i, n));
            i in d.reps && !d.reps[i].electing && d.reps[i].role != LEADER && d.reps[i].term == c.reps[i].term + n
    decreases n
  {
    if n == 0 {
    } else {
      var steps, rest := Passes(i, n), Passes(i, n - 1);
      assert steps[1..] == [ElectionTimeout(i)] + rest && steps[1..][1..] == rest;
      PassesRun(cfg, Apply(cfg, Apply(cfg, c, StartElection(i)), ElectionTimeout(i)), i, n - 1);
    }
  }

  lemma {:induction false} RunFrom32Snoc(cfg: Config, c: Cluster, steps: seq<Step>, step: Step)
    ensures RunFrom32(cfg, c, steps + [step]) == Apply32(cfg, RunFrom32(cfg, c, steps), step)
    decreases |steps|
  {
    if steps == [] {
      assert RunFrom32(cfg, Apply32(cfg, c, step), []) == Apply32(cfg, c, step);
    } else {
      assert (steps + [step])[1..] == steps[1..] + [step];
      RunFrom32Snoc(cfg, Apply32(cfg, c, steps[0]), steps[1..], step);
    }
  }

  lemma {:induction false} StartStepsSnoc(steps: seq<Step>, step: Step)
    ensures StartSteps(steps + [step]) == StartSteps(steps) + if step.StartElection? then 1 else 0
    decreases |steps|
  {
    if steps == [] {
    } else {
      assert (steps + [step])[1..] == steps[1..] + [step];
      StartStepsSnoc(steps[1..], step);
    }
  }

  /** With one election more a 32-bit term can be back at 0. */
  lemma TermsWrap(cfg: Config, i: Id) returns (steps: seq<Step>)
    requires ValidConfig(cfg) && i in cfg.ids
    ensures StartSteps(steps) == TERM_LIMIT
    ensures i in Run(cfg, steps).reps && Run(cfg, steps).reps[i].term == TERM_LIMIT
    ensures i in RunFrom32(cfg, Init(cfg), steps).reps && RunFrom32(cfg, Init(cfg), steps).reps[i].term == 0
  {
    hide Passes;
    var before := Passes(i, TERM_LIMIT - 1);
    steps := before + [StartElection(i)];
    PassesRun(cfg, Init(cfg), i, TERM_LIMIT - 1);
    TermsFit32(cfg, before);
    StartStepsSnoc(before, StartElection(i));
    RunSnoc(cfg, before, StartElection(i));
    RunFrom32Snoc(cfg, Init(cfg), before, StartElection(i));
  }
}
