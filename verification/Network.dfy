/** What holds between the replicas and the messages of every reachable cluster. */
module Network {
  import opened Model
  import opened ReplicaRules
  import opened History
  import opened Protocol

  ghost predicate Happened(c: Cluster, j: Id, e: Event) {
    j in c.reps && e in c.reps[j].trace
  }

  /** The replicas that voted for `i` in term `t`. */
  ghost function Supporters(c: Cluster, t: nat, i: Id): set<Id> {
    set x | x in c.reps && Voted(t, i) in c.reps[x].trace
  }

  ghost predicate Backed(c: Cluster, t: nat, i: Id) {
    exists b | b in c.reps && b != i :: Happened(c, b, Voted(t, i))
  }

  ghost predicate LedByOther(c: Cluster, t: nat, i: Id) {
    exists l | l in c.reps && l != i :: Happened(c, l, Led(t))
  }

  ghost predicate ReplicasDisciplined(cfg: Config, c: Cluster) {
    && c.reps.Keys == cfg.ids
    && forall i | i in c.reps :: c.reps[i].id == i && Disciplined(cfg.policy, c.reps[i])
  }

  ghost predicate RequestTrue(c: Cluster, m: VoteRequest) {
    Happened(c, m.sender, Ran(m.term))
  }

  /** A granted reply reports a vote its sender really gave. */
  ghost predicate ReplyTrue(c: Cluster, r: VoteReply) {
    r.sender in c.reps && (r.granted ==> Happened(c, r.sender, Voted(r.term, r.candidate)))
  }

  ghost predicate AppendTrue(p: Policy, c: Cluster, m: AppendEntries) {
    Happened(c, m.sender, Ran(m.term)) && (p.guardStart ==> Happened(c, m.sender, Led(m.term)))
  }

  ghost predicate MessagesTrue(p: Policy, c: Cluster) {
    && (forall m | m in c.requests :: RequestTrue(c, m))
    && (forall r | r in c.replies :: ReplyTrue(c, r))
    && (forall m | m in c.appends :: AppendTrue(p, c, m))
  }

  /** Does winning the count mean having the votes of a majority? */
  predicate CountsMajorities(cfg: Config) {
    cfg.policy.distinctVotes || (cfg.policy.skipOwn && |cfg.ids| <= 3)
  }

  ghost predicate LeaderEarned(cfg: Config, c: Cluster, t: nat, i: Id) {
    && (cfg.policy.skipOwn ==> Backed(c, t, i))
    && (CountsMajorities(cfg) ==> |Supporters(c, t, i)| * 2 > |cfg.ids|)
  }

  ghost predicate LeadersEarned(cfg: Config, c: Cluster) {
    forall i, t | Happened(c, i, Led(t)) :: LeaderEarned(cfg, c, t, i)
  }

  /** With the guard only a leader sends heartbeats, so only another leader makes one step down. */
  ghost predicate StepDownsExplained(p: Policy, c: Cluster) {
    p.guardStart && p.skipOwn ==> forall i, t | Happened(c, i, SteppedDown(t)) :: LedByOther(c, t, i)
  }

  /** What a candidate has counted so far. With three replicas the next granted reply already decides. */
  ghost predicate TallyTrue(cfg: Config, c: Cluster, s: ReplicaState) {
    s.role == CANDIDATE ==>
      && s.id in Supporters(c, s.term, s.id)
      && if cfg.policy.distinctVotes then s.voters <= Supporters(c, s.term, s.id)
         else |cfg.ids| == 3 ==> s.votes == 1
  }

  ghost predicate TalliesTrue(cfg: Config, c: Cluster) {
    forall i | i in c.reps :: c.reps[i].id == i && TallyTrue(cfg, c, c.reps[i])
  }

  ghost predicate Inv(cfg: Config, c: Cluster) {
    && ReplicasDisciplined(cfg, c)
    && MessagesTrue(cfg.policy, c)
    && LeadersEarned(cfg, c)
    && StepDownsExplained(cfg.policy, c)
    && TalliesTrue(cfg, c)
  }

  // ---------- facts that only grow

  ghost predicate Evolves(c: Cluster, d: Cluster) {
    d.reps.Keys == c.reps.Keys && forall j | j in c.reps :: Advances(c.reps[j], d.reps[j])
  }

  lemma EvolvesTransitive(a: Cluster, b: Cluster, c: Cluster)
    requires Evolves(a, b) && Evolves(b, c)
    ensures Evolves(a, c)
  {
    forall j | j in a.reps ensures Advances(a.reps[j], c.reps[j]) {
      AdvancesTransitive(a.reps[j], b.reps[j], c.reps[j]);
    }
  }

  lemma HappenedStays(c: Cluster, d: Cluster, j: Id, e: Event)
    requires Evolves(c, d) && Happened(c, j, e)
    ensures Happened(d, j, e)
  {
  }

  lemma SupportersGrow(c: Cluster, d: Cluster, t: nat, i: Id)
    requires Evolves(c, d)
    ensures Supporters(c, t, i) <= Supporters(d, t, i)
    ensures |Supporters(c, t, i)| <= |Supporters(d, t, i)|
  {
    forall x | x in Supporters(c, t, i) ensures x in Supporters(d, t, i) {
      HappenedStays(c, d, x, Voted(t, i));
    }
    SubsetSize(Supporters(c, t, i), Supporters(d, t, i));
  }

  lemma SubsetSize<T>(a: set<T>, b: set<T>)
    requires a <= b
    ensures |a| <= |b|
  {
    assert b == a + (b - a);
  }

  lemma EarnedStays(cfg: Config, c: Cluster, d: Cluster, t: nat, i: Id)
    requires Evolves(c, d) && LeaderEarned(cfg, c, t, i)
    ensures LeaderEarned(cfg, d, t, i)
  {
    if cfg.policy.skipOwn {
      var b :| b in c.reps && b != i && Happened(c, b, Voted(t, i));
      HappenedStays(c, d, b, Voted(t, i));
    }
    SupportersGrow(c, d, t, i);
  }

  lemma LedByOtherStays(c: Cluster, d: Cluster, t: nat, i: Id)
    requires Evolves(c, d) && LedByOther(c, t, i)
    ensures LedByOther(d, t, i)
  {
    var l :| l in c.reps && l != i && Happened(c, l, Led(t));
    HappenedStays(c, d, l, Led(t));
  }

  lemma MessagesStay(p: Policy, c: Cluster, d: Cluster)
    requires Evolves(c, d) && MessagesTrue(p, c)
    ensures (forall m | m in c.requests :: RequestTrue(d, m))
    ensures (forall r | r in c.replies :: ReplyTrue(d, r))
    ensures (forall m | m in c.appends :: AppendTrue(p, d, m))
  {
    forall m | m in c.requests ensures RequestTrue(d, m) {
      HappenedStays(c, d, m.sender, Ran(m.term));
    }
    forall r | r in c.replies ensures ReplyTrue(d, r) {
      if r.granted { HappenedStays(c, d, r.sender, Voted(r.term, r.candidate)); }
    }
    forall m | m in c.appends ensures AppendTrue(p, d, m) {
      HappenedStays(c, d, m.sender, Ran(m.term));
      if p.guardStart { HappenedStays(c, d, m.sender, Led(m.term)); }
    }
  }

  // ---------- one replica moves

  /** What the new state `s` of replica `i` must bring along for the invariant to survive. */
  ghost predicate Justified(cfg: Config, c: Cluster, i: Id, s: ReplicaState)
    requires i in c.reps
  {
    && Disciplined(cfg.policy, s)
    && Advances(c.reps[i], s)
    && (forall t | Led(t) in s.trace && Led(t) !in c.reps[i].trace :: LeaderEarned(cfg, c, t, i))
    && (cfg.policy.guardStart && cfg.policy.skipOwn ==>
          forall t | SteppedDown(t) in s.trace && SteppedDown(t) !in c.reps[i].trace :: LedByOther(c, t, i))
    && TallyTrue(cfg, With(c, i, s), s)
  }

  lemma MoveReplicas(cfg: Config, c: Cluster, i: Id, s: ReplicaState)
    requires ReplicasDisciplined(cfg, c) && i in c.reps && Disciplined(cfg.policy, s) && Advances(c.reps[i], s)
    ensures ReplicasDisciplined(cfg, With(c, i, s)) && Evolves(c, With(c, i, s))
  {
    hide Disciplined;
  }

  lemma MoveLeaders(cfg: Config, c: Cluster, i: Id, s: ReplicaState)
    requires LeadersEarned(cfg, c) && i in c.reps && Evolves(c, With(c, i, s))
    requires forall t | Led(t) in s.trace && Led(t) !in c.reps[i].trace :: LeaderEarned(cfg, c, t, i)
    ensures LeadersEarned(cfg, With(c, i, s))
  {
    var d := With(c, i, s);
    forall j, t | Happened(d, j, Led(t)) ensures LeaderEarned(cfg, d, t, j) {
      assert j != i ==> Happened(c, j, Led(t));
      assert j == i && Led(t) in c.reps[i].trace ==> Happened(c, i, Led(t));
      EarnedStays(cfg, c, d, t, j);
    }
  }

  lemma MoveStepDowns(p: Policy, c: Cluster, i: Id, s: ReplicaState)
    requires StepDownsExplained(p, c) && i in c.reps && Evolves(c, With(c, i, s))
    requires p.guardStart && p.skipOwn ==>
               forall t | SteppedDown(t) in s.trace && SteppedDown(t) !in c.reps[i].trace :: LedByOther(c, t, i)
    ensures StepDownsExplained(p, With(c, i, s))
  {
    var d := With(c, i, s);
    if p.guardStart && p.skipOwn {
      forall j, t | Happened(d, j, SteppedDown(t)) ensures LedByOther(d, t, j) {
        assert j != i ==> Happened(c, j, SteppedDown(t));
        assert j == i && SteppedDown(t) in c.reps[i].trace ==> Happened(c, i, SteppedDown(t));
        LedByOtherStays(c, d, t, j);
      }
    }
  }

  lemma MoveTallies(cfg: Config, c: Cluster, i: Id, s: ReplicaState)
    requires TalliesTrue(cfg, c) && i in c.reps && Evolves(c, With(c, i, s))
    requires s.id == i && TallyTrue(cfg, With(c, i, s), s)
    ensures TalliesTrue(cfg, With(c, i, s))
  {
    var d := With(c, i, s);
    forall j | j in d.reps ensures d.reps[j].id == j && TallyTrue(cfg, d, d.reps[j]) {
      if j != i {
        assert TallyTrue(cfg, c, c.reps[j]);
        SupportersGrow(c, d, c.reps[j].term, j);
      }
    }
  }

  lemma Move(cfg: Config, c: Cluster, i: Id, s: ReplicaState)
    requires Inv(cfg, c) && i in c.reps && Justified(cfg, c, i, s)
    ensures Inv(cfg, With(c, i, s)) && Evolves(c, With(c, i, s))
  {
    hide Disciplined;
    MoveReplicas(cfg, c, i, s);
    MessagesStay(cfg.policy, c, With(c, i, s));
    MoveLeaders(cfg, c, i, s);
    MoveStepDowns(cfg.policy, c, i, s);
    MoveTallies(cfg, c, i, s);
  }

  // ---------- the handlers, one message at a time

  /** A replica that is still the candidate it was keeps its tally. */
  lemma TallyStays(cfg: Config, c: Cluster, i: Id, s: ReplicaState)
    requires TalliesTrue(cfg, c) && i in c.reps && Evolves(c, With(c, i, s)) && s.id == i
    requires s.role == CANDIDATE ==>
               c.reps[i].role == CANDIDATE && s.term == c.reps[i].term
               && s.voters == c.reps[i].voters && s.votes == c.reps[i].votes
    ensures TallyTrue(cfg, With(c, i, s), s)
  {
    if s.role == CANDIDATE {
      assert TallyTrue(cfg, c, c.reps[i]);
      SupportersGrow(c, With(c, i, s), s.term, i);
    }
  }

  lemma RequestEvents(p: Policy, s: ReplicaState, m: VoteRequest)
    ensures forall e: Event | e in OnRequest(p, s, m).trace && Office(e) :: e in s.trace
  {
  }

  lemma AppendEvents(p: Policy, s: ReplicaState, m: AppendEntries)
    ensures forall e: Event | e in OnAppend(p, s, m).trace && Office(e) :: e in s.trace || e == SteppedDown(m.term)
  {
  }

  lemma RequestKeeps(cfg: Config, c: Cluster, i: Id, m: VoteRequest)
    requires ValidConfig(cfg) && Inv(cfg, c) && i in c.reps && m in c.requests
    ensures var s := OnRequest(cfg.policy, c.reps[i], m);
            Inv(cfg, With(c, i, s)) && Evolves(c, With(c, i, s))
  {
    hide Disciplined;
    var s := OnRequest(cfg.policy, c.reps[i], m);
    assert RequestTrue(c, m);
    OnRequestKeeps(cfg.policy, c.reps[i], m);
    MoveReplicas(cfg, c, i, s);
    RequestEvents(cfg.policy, c.reps[i], m);
    TallyStays(cfg, c, i, s);
    Move(cfg, c, i, s);
  }

  /** A granted reply counted by a candidate comes from a replica that voted for it. */
  lemma CountedReplyTrue(c: Cluster, i: Id, m: VoteReply)
    requires i in c.reps && m in c.replies && ReplyTrue(c, m)
    requires c.reps[i].electionTerm == c.reps[i].term && c.reps[i].id == i && Counts(c.reps[i], m)
    ensures m.sender in Supporters(c, c.reps[i].term, i)
    ensures m.sender != i ==> Backed(c, c.reps[i].term, i)
  {
    assert Happened(c, m.sender, Voted(c.reps[i].term, i));
  }

  /** A candidate whose count is a majority has the votes of one. */
  lemma WinnerEarned(cfg: Config, c: Cluster, i: Id, sender: Id)
    requires i in c.reps && c.reps[i].role == CANDIDATE && c.reps[i].id == i && TallyTrue(cfg, c, c.reps[i])
    requires sender in Supporters(c, c.reps[i].term, i) && (sender != i ==> Backed(c, c.reps[i].term, i))
    requires cfg.policy.skipOwn ==> sender != i
    requires HasQuorum(cfg.policy, |cfg.ids|, Count(cfg.policy, c.reps[i], sender))
    ensures LeaderEarned(cfg, c, c.reps[i].term, i)
  {
    var supporters := Supporters(c, c.reps[i].term, i);
    if cfg.policy.distinctVotes {
      SubsetSize(c.reps[i].voters + {sender}, supporters);
    } else if cfg.policy.skipOwn {
      SubsetSize({i, sender}, supporters);
      assert |{i, sender}| == 2;
    }
  }

  lemma CountedReply(cfg: Config, c: Cluster, i: Id, m: VoteReply)
    requires i in c.reps && c.reps[i].role == CANDIDATE && c.reps[i].id == i && TallyTrue(cfg, c, c.reps[i])
    requires m.term <= c.reps[i].electionTerm && Counts(c.reps[i], m)
    requires m.sender in Supporters(c, c.reps[i].term, i) && (m.sender != i ==> Backed(c, c.reps[i].term, i))
    requires cfg.policy.skipOwn ==> m.sender != i
    ensures var s := OnReply(cfg.policy, |cfg.ids|, c.reps[i], m);
            && (s.role == LEADER ==> LeaderEarned(cfg, c, c.reps[i].term, i))
            && (s.role == CANDIDATE ==> s.trace == c.reps[i].trace && s.term == c.reps[i].term)
            && (s.role == CANDIDATE ==> TallyTrue(cfg, c, s))
  {
    hide LeaderEarned, Supporters, Backed;
    if HasQuorum(cfg.policy, |cfg.ids|, Count(cfg.policy, c.reps[i], m.sender)) {
      WinnerEarned(cfg, c, i, m.sender);
    }
  }

  lemma CandidateTerm(p: Policy, s: ReplicaState)
    requires Disciplined(p, s)
    ensures s.role == CANDIDATE ==> s.electionTerm == s.term && s.votedFor == s.id
  {
  }

  lemma ReplyEvents(p: Policy, n: nat, s: ReplicaState, m: VoteReply)
    requires s.role == CANDIDATE ==> s.electionTerm == s.term
    ensures forall e: Event | e in OnReply(p, n, s, m).trace && Office(e) && e !in s.trace ::
              e == Led(s.term) && OnReply(p, n, s, m).role == LEADER && s.role == CANDIDATE && m.term <= s.electionTerm && Counts(s, m)
  {
  }

  lemma ReplyTally(cfg: Config, c: Cluster, i: Id, m: VoteReply, s: ReplicaState)
    requires TalliesTrue(cfg, c) && i in c.reps && m in c.replies && ReplyTrue(c, m)
    requires cfg.policy.skipOwn ==> m.sender != i
    requires c.reps[i].role == CANDIDATE ==> c.reps[i].electionTerm == c.reps[i].term
    requires s == OnReply(cfg.policy, |cfg.ids|, c.reps[i], m) && s.id == i && Evolves(c, With(c, i, s))
    ensures TallyTrue(cfg, With(c, i, s), s)
    ensures c.reps[i].role == CANDIDATE && m.term <= c.reps[i].electionTerm && Counts(c.reps[i], m) && s.role == LEADER ==>
              LeaderEarned(cfg, c, c.reps[i].term, i)
  {
    hide Evolves;
    if c.reps[i].role == CANDIDATE && m.term <= c.reps[i].electionTerm && Counts(c.reps[i], m) {
      CountedReplyTrue(c, i, m);
      CountedReply(cfg, c, i, m);
      SupportersGrow(c, With(c, i, s), s.term, i);
    } else {
      TallyStays(cfg, c, i, s);
    }
  }

  lemma ReplyKeeps(cfg: Config, c: Cluster, i: Id, m: VoteReply)
    requires Inv(cfg, c) && i in c.reps && m in c.replies && (cfg.policy.skipOwn ==> m.sender != i)
    ensures var s := OnReply(cfg.policy, |cfg.ids|, c.reps[i], m);
            Inv(cfg, With(c, i, s)) && Evolves(c, With(c, i, s))
  {
    hide Disciplined, Evolves, TallyTrue, LeaderEarned;
    var s := OnReply(cfg.policy, |cfg.ids|, c.reps[i], m);
    OnReplyKeeps(cfg.policy, |cfg.ids|, c.reps[i], m);
    MoveReplicas(cfg, c, i, s);
    CandidateTerm(cfg.policy, c.reps[i]);
    ReplyEvents(cfg.policy, |cfg.ids|, c.reps[i], m);
    assert ReplyTrue(c, m);
    ReplyTally(cfg, c, i, m, s);
    Move(cfg, c, i, s);
  }

  lemma AppendKeepsInv(cfg: Config, c: Cluster, i: Id, m: AppendEntries)
    requires Inv(cfg, c) && i in c.reps && m in c.appends && (cfg.policy.skipOwn ==> m.sender != i)
    ensures var s := OnAppend(cfg.policy, c.reps[i], m);
            Inv(cfg, With(c, i, s)) && Evolves(c, With(c, i, s))
  {
    hide Disciplined;
    var s := OnAppend(cfg.policy, c.reps[i], m);
    assert AppendTrue(cfg.policy, c, m);
    assert cfg.policy.guardStart && cfg.policy.skipOwn ==> LedByOther(c, m.term, i);
    OnAppendKeeps(cfg.policy, c.reps[i], m);
    MoveReplicas(cfg, c, i, s);
    AppendEvents(cfg.policy, c.reps[i], m);
    TallyStays(cfg, c, i, s);
    Move(cfg, c, i, s);
  }
}
