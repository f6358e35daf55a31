/** Runs in which the unsafe settings go wrong. */
module Witness {
  import opened Model
  import opened ReplicaRules
  import opened History
  import opened Protocol
  import opened Network
  import opened Reachable
  import opened Safety
  import opened Moves
  import B = Batches

  ghost predicate Reaches(cfg: Config, c: Cluster) {
    Follows(cfg, Init(cfg), c)
  }

  lemma StartOver(cfg: Config) returns (c: Cluster)
    ensures Reaches(cfg, c) && c == Init(cfg)
  {
    c := Init(cfg);
    FollowsSelf(cfg, c);
  }

  lemma ReachedBy(cfg: Config, steps: seq<Step>)
    ensures Reaches(cfg, Run(cfg, steps))
  {
  }

  lemma RunTo(cfg: Config, c: Cluster) returns (steps: seq<Step>)
    requires Reaches(cfg, c)
    ensures Run(cfg, steps) == c
  {
    steps :| RunFrom(cfg, Init(cfg), steps) == c;
  }

  // ---------- sharing out the replicas

  /** Two rivals `a` and `k`, half the cluster to elect `a`, and the replicas left over. */
  ghost predicate Shares(ids: set<Id>, a: Id, k: Id, most: set<Id>, rest: set<Id>) {
    && a in ids && k in ids && a != k
    && most <= ids - {a, k} && |most| == |ids| / 2
    && rest == ids - {a, k} - most
    && |rest| == |ids| - 2 - |ids| / 2
  }

  lemma ShareOut(ids: set<Id>) returns (a: Id, k: Id, most: set<Id>, rest: set<Id>)
    requires |ids| >= 3
    ensures Shares(ids, a, k, most, rest)
  {
    a :| a in ids;
    var others := ids - {a};
    assert |others| == |ids| - 1;
    k :| k in others;
    var free := others - {k};
    assert |free| == |ids| - 2 && free == ids - {a, k};
    most := Subset(free, |ids| / 2);
    rest := free - most;
    assert free == most + rest;
  }

  // ---------- clearing on leading

  /** `a` and `k` run in term 1, and nobody else has done anything. */
  lemma RivalsRun(cfg: Config, a: Id, k: Id) returns (c: Cluster)
    requires ValidConfig(cfg) && a in cfg.ids && k in cfg.ids && a != k
    ensures Reaches(cfg, c) && c.reps.Keys == cfg.ids && Fresh(cfg, c, a, 1) && Fresh(cfg, c, k, 1)
    ensures c.reps[a].log == [] && c.reps[k].log == [] && Happened(c, a, Ran(1)) && Happened(c, k, Ran(1))
    ensures forall y | y in cfg.ids - {a, k} :: Free(c, y, 1)
  {
    hide Follows;
    c := StartOver(cfg);
    c := StartRun(cfg, Init(cfg), c, a);
    c := StartRun(cfg, Init(cfg), c, k);
  }

  /** Half of the cluster elects `a`, whose vote leading has cleared. */
  lemma LeaderForgets(cfg: Config, a: Id, k: Id, most: set<Id>, rest: set<Id>) returns (c: Cluster)
    requires ValidConfig(cfg) && 3 <= |cfg.ids| <= 255 && Shares(cfg.ids, a, k, most, rest) && cfg.policy.clearOnLead
    ensures Reaches(cfg, c) && c.reps.Keys == cfg.ids
    ensures Leading(c, a, 1) && Free(c, a, 1) && Happened(c, a, Ran(1)) && Happened(c, a, Appended(1, 1))
    ensures Fresh(cfg, c, k, 1) && c.reps[k].log == [] && forall y | y in rest :: Free(c, y, 1)
  {
    hide Follows, Init, Free;
    var c1 := RivalsRun(cfg, a, k);
    var c2 := Elect(cfg, Init(cfg), c1, a, most, 1);
    FreeStays(c1, c2, most + {a}, rest, 1);
    c := Feed(cfg, Init(cfg), c2, a);
    FreeStays(c2, c, {a}, rest, 1);
    LeaderFree(c, a, 1);
  }

  lemma LeaderFree(c: Cluster, a: Id, t: nat)
    requires a in c.reps && c.reps[a].id == a && c.reps[a].term == t && c.reps[a].votedFor == VOTED_NONE
    ensures Free(c, a, t)
  {
  }

  /** An odd cluster: `a` leads term 1, votes for `k` with the replicas left over, and makes it lead term 1 too. */
  lemma LeaderElectsRival(cfg: Config, a: Id, k: Id, most: set<Id>, rest: set<Id>) returns (c: Cluster)
    requires ValidConfig(cfg) && 3 <= |cfg.ids| <= 255 && |cfg.ids| % 2 == 1 && Shares(cfg.ids, a, k, most, rest)
    requires cfg.policy.clearOnLead
    ensures Reaches(cfg, c) && TwoLeaders(c, 1, a, k)
    ensures Happened(c, a, Appended(1, 1)) && Happened(c, k, Appended(1, 1))
  {
    hide Follows, Init;
    var c1 := LeaderForgets(cfg, a, k, most, rest);
    assert |{a} + rest| == |cfg.ids| / 2;
    var c2 := Elect(cfg, Init(cfg), c1, k, {a} + rest, 1);
    assert VotesFor(c1, c2, a, k, 1);
    c := Feed(cfg, Init(cfg), c2, k);
  }

  // ---------- an old heartbeat

  /** Who leads, who may still vote, and the heartbeat left over in the runs below: `b` led term 1 and its
      heartbeat is still on its way, `a` leads term 2, `k` is a follower of term 1. */
  ghost predicate OldHeartbeat(cfg: Config, c: Cluster, a: Id, b: Id, k: Id, most: set<Id>, rest: set<Id>) {
    && c.reps.Keys == cfg.ids && k in c.reps && b in most && AppendEntries(1, b) in c.appends
    && Leading(c, a, 2) && c.reps[a].log == [] && Happened(c, a, Ran(2))
    && c.reps[k].id == k && c.reps[k].role == FOLLOWER && c.reps[k].term == 1 && !c.reps[k].electing
    && c.reps[k].log == []
    && (forall y | y in most :: Free(c, y, 3))
    && (forall y | y in rest :: Free(c, y, 2))
  }

  /** `b` runs in term 1, and nobody else has done anything. */
  lemma OneRuns(cfg: Config, b: Id) returns (c: Cluster)
    requires b in cfg.ids
    ensures Reaches(cfg, c) && c.reps.Keys == cfg.ids && Fresh(cfg, c, b, 1)
    ensures forall y | y in cfg.ids - {b} :: c.reps[y] == Initial(y)
  {
    hide Follows;
    var c0 := StartOver(cfg);
    c := StartRun(cfg, Init(cfg), c0, b);
  }

  /** `b` is elected by `k` and the others of `most`, and sends a heartbeat. */
  lemma FirstTerm(cfg: Config, a: Id, b: Id, k: Id, most: set<Id>, rest: set<Id>) returns (c: Cluster)
    requires ValidConfig(cfg) && 3 <= |cfg.ids| <= 255 && Shares(cfg.ids, a, k, most, rest) && b in most
    ensures Reaches(cfg, c) && c.reps.Keys == cfg.ids && AppendEntries(1, b) in c.appends
    ensures c.reps[a] == Initial(a) && (forall y | y in rest :: c.reps[y] == Initial(y))
    ensures forall y | y in most :: y in c.reps && c.reps[y].id == y && c.reps[y].term == 1
    ensures c.reps[k].id == k && c.reps[k].role == FOLLOWER && c.reps[k].term == 1 && !c.reps[k].electing
    ensures c.reps[k].log == []
  {
    hide Follows, Init, Free, VotesFor, Leading, Running;
    var c1 := OneRuns(cfg, b);
    var ys := most - {b} + {k};
    assert |most - {b}| == |most| - 1;
    assert forall y | y in ys :: y in c1.reps && c1.reps[y] == Initial(y);
    InitialFree(c1, ys);
    var c2 := Elect(cfg, Init(cfg), c1, b, ys, 1);
    FirstVoters(c1, c2, b, k, most);
    c := SendBeat(cfg, Init(cfg), c2, b);
  }

  lemma InitialFree(c: Cluster, ids: set<Id>)
    requires forall y | y in ids :: y in c.reps && c.reps[y] == Initial(y)
    ensures forall y | y in ids :: Free(c, y, 1)
  {
  }

  lemma FirstVoters(c: Cluster, d: Cluster, b: Id, k: Id, most: set<Id>)
    requires Leading(d, b, 1) && b != k && k !in most
    requires forall y | y in most - {b} + {k} :: c.reps.Keys >= {y} && c.reps[y] == Initial(y) && VotesFor(c, d, y, b, 1)
    ensures forall y | y in most :: y in d.reps && d.reps[y].id == y && d.reps[y].term == 1
    ensures k in d.reps && d.reps[k].id == k && d.reps[k].role == FOLLOWER && d.reps[k].term == 1
    ensures !d.reps[k].electing && d.reps[k].log == []
    ensures b in d.reps && d.reps[b].armed && d.reps[b].term == 1
  {
    assert VotesFor(c, d, k, b, 1);
    forall y | y in most ensures y in d.reps && d.reps[y].id == y && d.reps[y].term == 1 {
      assert y != b ==> VotesFor(c, d, y, b, 1);
    }
  }

  lemma SecondTerm(cfg: Config, a: Id, b: Id, k: Id, most: set<Id>, rest: set<Id>) returns (c: Cluster)
    requires ValidConfig(cfg) && 3 <= |cfg.ids| <= 255 && Shares(cfg.ids, a, k, most, rest) && b in most
    ensures Reaches(cfg, c) && OldHeartbeat(cfg, c, a, b, k, most, rest)
  {
    hide Follows, Init;
    var c0 := FirstTerm(cfg, a, b, k, most, rest);
    var c1 := StartRun(cfg, Init(cfg), c0, a);
    var c2 := RunAgain(cfg, Init(cfg), c1, a);
    CandidateTrace(cfg, c2, a);
    assert Touches(c0, c2, {a});
    forall y | y in most ensures Free(c2, y, 2) {
      assert c2.reps[y] == c0.reps[y];
    }
    c := Elect(cfg, Init(cfg), c2, a, most, 2);
    forall y | y in most ensures Free(c, y, 3) {
      assert VotesFor(c2, c, y, a, 2);
    }
    forall y | y in rest ensures Free(c, y, 2) {
      assert c.reps[y] == Initial(y);
    }
    assert c.reps[k] == c0.reps[k];
  }

  lemma CandidateTrace(cfg: Config, c: Cluster, a: Id)
    requires ValidConfig(cfg) && Reaches(cfg, c) && a in c.reps && c.reps[a].role == CANDIDATE
    ensures Happened(c, a, Ran(c.reps[a].term)) && !Happened(c, a, Led(c.reps[a].term))
  {
    var steps := RunTo(cfg, c);
    RunInv(cfg, steps);
    assert Disciplined(cfg.policy, c.reps[a]);
  }

  /** Without the guard the old heartbeat takes the leader `a` into another pass: it runs for term 3 with
      its timer armed, and its heartbeats are those of a candidate that has not led their term. */
  lemma ArmedCandidate(cfg: Config, a: Id, b: Id, k: Id, most: set<Id>, rest: set<Id>) returns (c: Cluster)
    requires ValidConfig(cfg) && 3 <= |cfg.ids| <= 255 && Shares(cfg.ids, a, k, most, rest) && b in most
    requires !cfg.policy.guardStart
    ensures Reaches(cfg, c) && c.reps.Keys == cfg.ids && Fresh(cfg, c, a, 3) && c.reps[a].armed && c.reps[a].log == []
    ensures AppendEntries(3, a) in c.appends && !Happened(c, a, Led(3))
    ensures c.reps[k].id == k && c.reps[k].role == FOLLOWER && c.reps[k].term == 1 && !c.reps[k].electing
    ensures c.reps[k].log == []
    ensures forall y | y in most + rest :: Free(c, y, 3)
  {
    hide Follows, Init;
    var c0 := SecondTerm(cfg, a, b, k, most, rest);
    var c1 := StaleBeat(cfg, Init(cfg), c0, a, AppendEntries(1, b));
    var c2 := StartRun(cfg, Init(cfg), c1, a);
    c := SendBeat(cfg, Init(cfg), c2, a);
    CandidateTrace(cfg, c, a);
    forall y | y in most + rest ensures Free(c, y, 3) {
      assert c.reps[y] == c0.reps[y];
      assert y in most ==> Free(c0, y, 3);
      assert y in rest ==> Free(c0, y, 2);
    }
  }

  /** `k` catches up, is elected in term 3 and appends an entry. */
  lemma RivalLeads(cfg: Config, a: Id, b: Id, k: Id, most: set<Id>, rest: set<Id>) returns (c: Cluster)
    requires ValidConfig(cfg) && 3 <= |cfg.ids| <= 255 && Shares(cfg.ids, a, k, most, rest) && b in most
    requires !cfg.policy.guardStart
    ensures Reaches(cfg, c) && Fresh(cfg, c, a, 3) && c.reps[a].log == [] && AppendEntries(3, a) in c.appends
    ensures Leading(c, k, 3) && Happened(c, k, Appended(3, 1)) && forall y | y in rest :: Free(c, y, 3)
  {
    hide Follows, Init, Free, VotesFor;
    var c0 := ArmedCandidate(cfg, a, b, k, most, rest);
    var c1 := StartRun(cfg, Init(cfg), c0, k);
    var c2 := RunAgain(cfg, Init(cfg), c1, k);
    assert Touches(c0, c2, {k});
    FreeStays(c0, c2, {k}, most + rest, 3);
    var c3 := Elect(cfg, Init(cfg), c2, k, most, 3);
    FreeStays(c2, c3, most + {k}, rest, 3);
    c := Feed(cfg, Init(cfg), c3, k);
    FreeStays(c3, c, {k}, rest, 3);
  }

  /** An odd cluster: the heartbeat of the candidate `a` makes the leader `k` of term 3 forget its vote, and
      `k` with the replicas left over makes `a` lead term 3 too. */
  lemma CandidateBeats(cfg: Config, a: Id, b: Id, k: Id, most: set<Id>, rest: set<Id>) returns (c: Cluster)
    requires ValidConfig(cfg) && 3 <= |cfg.ids| <= 255 && |cfg.ids| % 2 == 1
    requires Shares(cfg.ids, a, k, most, rest) && b in most && cfg.policy.clearOnStepDown && !cfg.policy.guardStart
    ensures Reaches(cfg, c) && TwoLeaders(c, 3, a, k)
    ensures Happened(c, a, Appended(3, 1)) && Happened(c, k, Appended(3, 1))
  {
    hide Follows, Init;
    var c0 := RivalLeads(cfg, a, b, k, most, rest);
    var c1 := StepDown(cfg, Init(cfg), c0, k, AppendEntries(3, a));
    FreeStays(c0, c1, {k}, rest, 3);
    assert |{k} + rest| == |cfg.ids| / 2;
    var c2 := Elect(cfg, Init(cfg), c1, a, {k} + rest, 3);
    assert VotesFor(c1, c2, k, a, 3);
    c := Feed(cfg, Init(cfg), c2, a);
  }

  /** `a` leads term 2, appends an entry, sends a heartbeat, and reads it with the old one. */
  lemma LeaderReadsOwn(cfg: Config, a: Id, b: Id, k: Id, most: set<Id>, rest: set<Id>) returns (c: Cluster)
    requires ValidConfig(cfg) && 3 <= |cfg.ids| <= 255 && Shares(cfg.ids, a, k, most, rest) && b in most
    requires cfg.policy.clearOnStepDown && !cfg.policy.skipOwn
    ensures Reaches(cfg, c) && Happened(c, a, Led(2)) && Happened(c, a, Appended(2, 1)) && Free(c, a, 2)
    ensures k in c.reps && c.reps[k].id == k && c.reps[k].role == FOLLOWER && c.reps[k].term == 1
    ensures !c.reps[k].electing && c.reps[k].log == [] && forall y | y in rest :: Free(c, y, 2)
  {
    hide Follows, Init, Free;
    var c0 := SecondTerm(cfg, a, b, k, most, rest);
    var c1 := Feed(cfg, Init(cfg), c0, a);
    var c2 := SendBeat(cfg, Init(cfg), c1, a);
    assert Leading(c2, a, 2);
    c := OwnStepDown(cfg, Init(cfg), c2, a, AppendEntries(1, b));
    FreeStays(c0, c, {a}, rest, 2);
  }

  lemma LeaderStepsDown(cfg: Config, a: Id, b: Id, k: Id, most: set<Id>, rest: set<Id>) returns (c: Cluster)
    requires ValidConfig(cfg) && 3 <= |cfg.ids| <= 255 && Shares(cfg.ids, a, k, most, rest) && b in most
    requires cfg.policy.clearOnStepDown && !cfg.policy.skipOwn
    ensures Reaches(cfg, c) && Happened(c, a, Led(2)) && Happened(c, a, Appended(2, 1)) && Free(c, a, 2)
    ensures Fresh(cfg, c, k, 2) && c.reps[k].log == [] && forall y | y in rest :: Free(c, y, 2)
  {
    hide Follows, Init, Free;
    var c1 := LeaderReadsOwn(cfg, a, b, k, most, rest);
    c := StartRun(cfg, Init(cfg), c1, k);
    FreeStays(c1, c, {k}, rest + {a}, 2);
  }

  /** An odd cluster without the filter: the leader `a` of term 2 reads its own heartbeat together with the
      old one, forgets its vote, and with the replicas left over makes `k` lead term 2 too. */
  lemma LeaderBeatsItself(cfg: Config, a: Id, b: Id, k: Id, most: set<Id>, rest: set<Id>) returns (c: Cluster)
    requires ValidConfig(cfg) && 3 <= |cfg.ids| <= 255 && |cfg.ids| % 2 == 1
    requires Shares(cfg.ids, a, k, most, rest) && b in most && cfg.policy.clearOnStepDown && !cfg.policy.skipOwn
    ensures Reaches(cfg, c) && TwoLeaders(c, 2, a, k)
    ensures Happened(c, a, Appended(2, 1)) && Happened(c, k, Appended(2, 1))
  {
    hide Follows, Init;
    var c1 := LeaderStepsDown(cfg, a, b, k, most, rest);
    assert |{a} + rest| == |cfg.ids| / 2;
    var c2 := Elect(cfg, Init(cfg), c1, k, {a} + rest, 2);
    assert VotesFor(c1, c2, a, k, 2);
    c := Feed(cfg, Init(cfg), c2, k);
  }

  lemma BeatMakesNoLeader(cfg: Config, c: Cluster, i: Id, m: AppendEntries, t: nat)
    requires i in c.reps && !Happened(c, i, Led(t))
    ensures !Happened(Beaten(cfg.policy, c, i, m), i, Led(t))
  {
    AppendEvents(cfg.policy, c.reps[i], m);
    assert Office(Led(t));
  }

  lemma GrantAddsNoOffice(cfg: Config, c: Cluster, i: Id, m: VoteRequest, e: Event)
    requires i in c.reps && !Happened(c, i, e) && Office(e)
    ensures !Happened(Asked(cfg.policy, c, i, m), i, e)
  {
    RequestEvents(cfg.policy, c.reps[i], m);
  }

  lemma LeaderStands(cfg: Config, c: Cluster, i: Id)
    requires ValidConfig(cfg) && Reaches(cfg, c) && i in c.reps && c.reps[i].role == LEADER
    ensures !Happened(c, i, SteppedDown(c.reps[i].term))
  {
    var steps := RunTo(cfg, c);
    RunInv(cfg, steps);
    assert Disciplined(cfg.policy, c.reps[i]);
  }

  /** `a` and `k` run in term 1, `a` is elected, and its heartbeat makes `k` forget its vote. */
  lemma CandidateForgets(cfg: Config, a: Id, k: Id, most: set<Id>, rest: set<Id>) returns (c: Cluster)
    requires ValidConfig(cfg) && 3 <= |cfg.ids| <= 255 && Shares(cfg.ids, a, k, most, rest) && cfg.policy.clearOnStepDown
    ensures Reaches(cfg, c) && Happened(c, k, Ran(1)) && Free(c, k, 1) && VoteRequest(1, a) in c.requests
    ensures !Happened(c, k, Led(1))
  {
    hide Follows, Init, Free;
    var c1 := RivalsRun(cfg, a, k);
    var c2 := Elect(cfg, Init(cfg), c1, a, most, 1);
    var c3 := SendBeat(cfg, Init(cfg), c2, a);
    assert c3.reps[k] == c1.reps[k];
    CandidateTrace(cfg, c3, k);
    c := StepDown(cfg, Init(cfg), c3, k, AppendEntries(1, a));
    BeatMakesNoLeader(cfg, c3, k, AppendEntries(1, a), 1);
  }

  /** A candidate steps down, its vote cleared, and votes again in the same term. */
  lemma VotesAgain(cfg: Config, a: Id, k: Id, most: set<Id>, rest: set<Id>) returns (c: Cluster)
    requires ValidConfig(cfg) && 3 <= |cfg.ids| <= 255 && Shares(cfg.ids, a, k, most, rest) && cfg.policy.clearOnStepDown
    ensures Reaches(cfg, c) && Happened(c, k, Ran(1)) && Happened(c, k, Voted(1, a)) && !Happened(c, k, Led(1))
  {
    hide Follows, Init, Free;
    var c1 := CandidateForgets(cfg, a, k, most, rest);
    c := GrantTo(cfg, Init(cfg), c1, k, a, 1);
    GrantAddsNoOffice(cfg, c1, k, VoteRequest(1, a), Led(1));
  }

  /** `a` and `k` run in term 1, `a` is elected, forgets its vote by leading, and votes for `k`. */
  lemma LeaderVotes(cfg: Config, a: Id, k: Id, most: set<Id>, rest: set<Id>) returns (c: Cluster)
    requires ValidConfig(cfg) && 3 <= |cfg.ids| <= 255 && Shares(cfg.ids, a, k, most, rest) && cfg.policy.clearOnLead
    ensures Reaches(cfg, c) && Happened(c, a, Ran(1)) && Happened(c, a, Voted(1, k)) && !Happened(c, a, SteppedDown(1))
  {
    hide Follows, Init;
    var c1 := LeaderForgets(cfg, a, k, most, rest);
    LeaderStands(cfg, c1, a);
    c := GrantTo(cfg, Init(cfg), c1, a, k, 1);
    GrantAddsNoOffice(cfg, c1, a, VoteRequest(1, k), SteppedDown(1));
  }

  // ---------- everybody runs

  /** The replicas of `ids` run in term 1, and nothing else has happened. */
  ghost predicate AllRan(cfg: Config, c: Cluster, ids: set<Id>) {
    && c.reps.Keys == cfg.ids && ids <= cfg.ids
    && (forall x | x in ids :: c.reps[x] == BeginElection(Initial(x)) && VoteRequest(1, x) in c.requests)
    && (forall x | x in cfg.ids - ids :: c.reps[x] == Initial(x))
  }

  lemma {:induction false} StartAll(cfg: Config, ids: set<Id>) returns (starts: seq<Step>)
    requires ids <= cfg.ids
    ensures AllRan(cfg, Run(cfg, starts), ids)
    ensures |starts| == |ids| && forall k | 0 <= k < |starts| :: starts[k].StartElection?
    decreases |ids|
  {
    if ids == {} {
      starts := [];
      assert Run(cfg, starts) == Init(cfg);
    } else {
      var x :| x in ids;
      assert |ids - {x}| == |ids| - 1;
      var before := StartAll(cfg, ids - {x});
      var c := Run(cfg, before);
      RunSnoc(cfg, before, StartElection(x));
      assert c.reps[x] == Initial(x);
      starts := before + [StartElection(x)];
    }
  }

  lemma {:induction false} Enumerate(ids: set<Id>, n: nat) returns (xs: seq<Id>)
    requires n <= |ids|
    ensures |xs| == n && (forall x | x in xs :: x in ids) && forall i, j | 0 <= i < j < n :: xs[i] != xs[j]
    decreases n
  {
    if n == 0 {
      xs := [];
    } else {
      var x :| x in ids;
      assert |ids - {x}| == |ids| - 1;
      var others := Enumerate(ids - {x}, n - 1);
      xs := [x] + others;
    }
  }

  /** The requests of term 1 of `x` and then of the candidates `xs`. */
  function RequestsOf(x: Id, xs: seq<Id>): (ms: seq<VoteRequest>)
    ensures |ms| == 1 + |xs|
  {
    [VoteRequest(1, x)] + OthersOf(xs)
  }

  function OthersOf(xs: seq<Id>): (ms: seq<VoteRequest>)
    ensures |ms| == |xs| && forall k | 0 <= k < |xs| :: ms[k] == VoteRequest(1, xs[k])
  {
    seq(|xs|, k requires 0 <= k < |xs| => VoteRequest(1, xs[k]))
  }

  /** The replies `s` sends when the requests of `x` and of `xs` arrive once each, in this order. */
  function RepliesTo(p: Policy, s: ReplicaState, x: Id, xs: seq<Id>): seq<VoteReply> {
    OnRequests(p, s, B.Delivered(RequestsOf(x, xs)), false).1
  }

  ghost predicate NoRepeats<T(!new)>(xs: seq<T>) {
    forall i, j | 0 <= i < j < |xs| :: xs[i] != xs[j]
  }

  /** A replica that holds no other vote answers all of them with its vote for `x`. */
  lemma AnswersAll(p: Policy, s: ReplicaState, x: Id, xs: seq<Id>)
    requires Grants(p, s, VoteRequest(1, x)) && x != VOTED_NONE && x !in xs
    ensures var s1 := OnRequest(p, s, VoteRequest(1, x));
            && s1.term == 1 && s1.votedFor == x
            && OnRequests(p, s, B.Delivered(RequestsOf(x, xs)), false).0 == s1
            && RepliesTo(p, s, x, xs) == B.Repeat(VoteReply(s.id, 1, x, true), 1 + |xs|)
  {
    var m, ms := VoteRequest(1, x), OthersOf(xs);
    var s1 := OnRequest(p, s, m);
    forall d | d in ms ensures B.Declines(s1, d) {
      var k :| 0 <= k < |ms| && ms[k] == d;
      assert xs[k] in xs;
    }
    B.GrantRepeats(p, s, m, ms);
  }

  lemma ReachesRequests(cfg: Config, c: Cluster, i: Id, x: Id, xs: seq<Id>) returns (d: Cluster)
    requires i in cfg.ids && i in c.reps && c.reps[i].id == i
    requires Grants(cfg.policy, c.reps[i], VoteRequest(1, x)) && x != VOTED_NONE && x !in xs
    requires VoteRequest(1, x) in c.requests && forall y | y in xs :: VoteRequest(1, y) in c.requests
    requires (x != i || (xs != [] && xs[0] != i)) && (cfg.policy.skipOwn ==> x != i && i !in xs)
    ensures d == Apply(cfg, c, HandleRequests(i, B.Delivered(RequestsOf(x, xs))))
    ensures d == With(c, i, OnRequest(cfg.policy, c.reps[i], VoteRequest(1, x))).(
                      replies := c.replies + {VoteReply(i, 1, x, true)})
  {
    var ms := RequestsOf(x, xs);
    var batch := B.Delivered(ms);
    AnswersAll(cfg.policy, c.reps[i], x, xs);
    assert ms[0] == VoteRequest(1, x) && forall k | 1 <= k < |ms| :: ms[k] == VoteRequest(1, xs[k - 1]) && xs[k - 1] in xs;
    assert RequestsSent(cfg.policy, c, i, batch);
    assert RequestsWake(i, batch) by {
      if x != i {
        assert batch[0].Valid? && batch[0].msg.sender != i;
      } else {
        assert batch[1].Valid? && batch[1].msg.sender != i;
      }
    }
    d := Apply(cfg, c, HandleRequests(i, batch));
    var replies := RepliesTo(cfg.policy, c.reps[i], x, xs);
    assert replies[0] == VoteReply(i, 1, x, true);
    assert (set r | r in replies) == {VoteReply(i, 1, x, true)};
  }

  // ---------- replies counted one by one

  /** The first candidate `x` counts the replies of `RepliesTo`, each delivered once. */
  lemma CountsReplies(cfg: Config, c: Cluster, x: Id, y: Id, n: nat) returns (d: Cluster)
    requires x in c.reps && c.reps[x] == BeginElection(Initial(x)) && x in cfg.ids && y != x
    requires 2 <= |cfg.ids| <= 255 && !cfg.policy.distinctVotes && n == |cfg.ids| / 2
    requires VoteReply(y, 1, x, true) in c.replies
    ensures d == Apply(cfg, c, HandleReplies(x, B.Delivered(B.Repeat(VoteReply(y, 1, x, true), n))))
    ensures d.reps.Keys == c.reps.Keys && (forall z | z in c.reps && z != x :: d.reps[z] == c.reps[z])
    ensures d.replies == c.replies
    ensures LeadsWithEmptyLog(d, x)
  {
    var r := VoteReply(y, 1, x, true);
    var batch := B.Delivered(B.Repeat(r, n));
    B.RepeatsWin(cfg.policy, |cfg.ids|, c.reps[x], r, n);
    assert batch[0].Valid? && RepliesWake(x, batch) && RepliesSent(cfg.policy, c, x, batch);
    d := Apply(cfg, c, HandleReplies(x, batch));
    assert d.reps[x].trace[|c.reps[x].trace|] == Led(1);
  }

  ghost predicate LeadsWithEmptyLog(c: Cluster, i: Id) {
    Leading(c, i, 1) && c.reps[i].log == []
  }

  /** `b` and `e` answer one batch of requests each, and `a` and `k` receive each of their answers once. */
  function FlagSteps(p: Policy, a: Id, k: Id, b: Id, e: Id, xs: seq<Id>, ys: seq<Id>): seq<Step> {
    [HandleRequests(b, B.Delivered(RequestsOf(a, xs))),
     HandleRequests(e, B.Delivered(RequestsOf(k, ys))),
     HandleReplies(a, B.Delivered(RepliesTo(p, Initial(b), a, xs))),
     HandleReplies(k, B.Delivered(RepliesTo(p, Initial(e), k, ys)))]
  }

  /** Four or more replicas that count replies one by one: all but `b` and `e` run, `b` answers half of
      them with its vote for `a` and `e` another half with its vote for `k`, and these answers make `a` and
      `k` lead term 1. No replica receives a message twice. */
  lemma FlagElectsTwo(cfg: Config, a: Id, k: Id, b: Id, e: Id) returns (starts: seq<Step>, xs: seq<Id>, ys: seq<Id>)
    requires ValidConfig(cfg) && 4 <= |cfg.ids| <= 255 && !cfg.policy.distinctVotes
    requires {a, k, b, e} <= cfg.ids && a !in {k, b, e} && k !in {b, e} && b != e
    ensures forall j | 0 <= j < |starts| :: starts[j].StartElection?
    ensures b in Run(cfg, starts).reps && Run(cfg, starts).reps[b] == Initial(b)
    ensures e in Run(cfg, starts).reps && Run(cfg, starts).reps[e] == Initial(e)
    ensures NoRepeats(RequestsOf(a, xs)) && NoRepeats(RequestsOf(k, ys))
    ensures var c := Run(cfg, starts + FlagSteps(cfg.policy, a, k, b, e, xs, ys));
            LeadsWithEmptyLog(c, a) && LeadsWithEmptyLog(c, k)
  {
    hide Run, FlagSteps, LeadsWithEmptyLog;
    var n := |cfg.ids| / 2;
    var runners := cfg.ids - {b, e};
    RunnersLeft(cfg.ids, a, k, b, e);
    starts := StartAll(cfg, runners);
    xs := Enumerate(runners - {a}, n - 1);
    ys := Enumerate(runners - {k}, n - 1);
    DistinctRequests(a, xs);
    DistinctRequests(k, ys);
    FlagRun(cfg, a, k, b, e, starts, xs, ys);
  }

  lemma RunnersLeft(ids: set<Id>, a: Id, k: Id, b: Id, e: Id)
    requires {a, k, b, e} <= ids && a !in {k, b, e} && k !in {b, e} && b != e
    ensures |ids - {b, e} - {a}| == |ids - {b, e} - {k}| == |ids| - 3
  {
    assert ids == (ids - {b, e}) + {b, e} && |{b, e}| == 2;
  }

  lemma DistinctRequests(x: Id, xs: seq<Id>)
    requires x !in xs && NoRepeats(xs)
    ensures NoRepeats(RequestsOf(x, xs))
  {
    var ms := RequestsOf(x, xs);
    forall i, j | 0 <= i < j < |ms| ensures ms[i] != ms[j] {
      assert ms[j] == VoteRequest(1, xs[j - 1]) && xs[j - 1] in xs;
      assert i > 0 ==> ms[i] == VoteRequest(1, xs[i - 1]);
    }
  }

  lemma FlagRun(cfg: Config, a: Id, k: Id, b: Id, e: Id, starts: seq<Step>, xs: seq<Id>, ys: seq<Id>)
    requires ValidConfig(cfg) && 4 <= |cfg.ids| <= 255 && !cfg.policy.distinctVotes
    requires {a, k, b, e} <= cfg.ids && a !in {k, b, e} && k !in {b, e} && b != e
    requires AllRan(cfg, Run(cfg, starts), cfg.ids - {b, e})
    requires |xs| == |ys| == |cfg.ids| / 2 - 1
    requires forall x | x in xs :: x in cfg.ids - {a, b, e}
    requires forall y | y in ys :: y in cfg.ids - {k, b, e}
    ensures var c := Run(cfg, starts + FlagSteps(cfg.policy, a, k, b, e, xs, ys));
            LeadsWithEmptyLog(c, a) && LeadsWithEmptyLog(c, k)
  {
    hide Run;
    var p, n := cfg.policy, |cfg.ids| / 2;
    var c0 := Run(cfg, starts);
    AnswersAll(p, Initial(b), a, xs);
    AnswersAll(p, Initial(e), k, ys);
    var c1 := ReachesRequests(cfg, c0, b, a, xs);
    var c2 := ReachesRequests(cfg, c1, e, k, ys);
    var c3 := CountsReplies(cfg, c2, a, b, n);
    var c4 := CountsReplies(cfg, c3, k, e, n);
    FourMore(cfg, starts, FlagSteps(p, a, k, b, e, xs, ys));
  }

  lemma FourMore(cfg: Config, steps: seq<Step>, more: seq<Step>)
    requires |more| == 4
    ensures Run(cfg, steps + more)
         == Apply(cfg, Apply(cfg, Apply(cfg, Apply(cfg, Run(cfg, steps), more[0]), more[1]), more[2]), more[3])
  {
    RunSnoc(cfg, steps, more[0]);
    RunSnoc(cfg, steps + [more[0]], more[1]);
    RunSnoc(cfg, steps + [more[0]] + [more[1]], more[2]);
    RunSnoc(cfg, steps + [more[0]] + [more[1]] + [more[2]], more[3]);
    assert steps + more == steps + [more[0]] + [more[1]] + [more[2]] + [more[3]];
  }

  // ---------- own messages

  /** `x` runs in term 1, has voted for itself alone, and has sent a granted reply to itself. */
  ghost predicate AnsweredItself(c: Cluster, x: Id) {
    && x in c.reps && VoteReply(x, 1, x, true) in c.replies
    && var s := BeginElection(Initial(x));
      c.reps[x] == s.(trace := s.trace + [Voted(1, x)])
  }

  lemma AnsweredStays(c: Cluster, d: Cluster, x: Id)
    requires AnsweredItself(c, x) && x in d.reps && d.reps[x] == c.reps[x] && c.replies <= d.replies
    ensures AnsweredItself(d, x)
  {
  }

  lemma VotedForItself(c: Cluster, x: Id, d: Cluster, y: Id)
    requires AnsweredItself(c, x) && x in d.reps && x != y && d.reps[x].trace == c.reps[x].trace + [Led(1)]
    ensures !Happened(d, x, Voted(1, y))
  {
  }

  /** Woken up by the foreign reply `r`, the candidate `x` takes its own replies with it and wins. */
  lemma CountsOwn(cfg: Config, c: Cluster, x: Id, r: VoteReply, n: nat) returns (d: Cluster)
    requires Reaches(cfg, c) && x in cfg.ids && AnsweredItself(c, x)
    requires 2 <= |cfg.ids| <= 255 && !cfg.policy.distinctVotes && !cfg.policy.skipOwn && n == |cfg.ids| / 2
    requires r in c.replies && r.sender != x && r.candidate != x && r.term == 1
    ensures Reaches(cfg, d) && d.reps.Keys == c.reps.Keys && (forall z | z in c.reps && z != x :: d.reps[z] == c.reps[z])
    ensures d.requests == c.requests && d.replies == c.replies && LeadsWithEmptyLog(d, x)
    ensures d.reps[x].trace == c.reps[x].trace + [Led(1)]
    ensures d.reps[x].votedFor == if cfg.policy.clearOnLead then VOTED_NONE else x
  {
    var own := VoteReply(x, 1, x, true);
    var copies := B.Delivered(B.Repeat(own, n));
    var batch := [Valid(r)] + copies;
    assert batch[1..] == copies && batch[0].msg.sender != x;
    B.RepeatsWin(cfg.policy, |cfg.ids|, c.reps[x], own, n);
    assert OnReply(cfg.policy, |cfg.ids|, c.reps[x], r) == c.reps[x];
    assert OnReplies(cfg.policy, |cfg.ids|, c.reps[x], batch) == OnReplies(cfg.policy, |cfg.ids|, c.reps[x], copies);
    assert RepliesWake(x, batch) && RepliesSent(cfg.policy, c, x, batch);
    FollowsStep(cfg, Init(cfg), c, HandleReplies(x, batch));
    d := Apply(cfg, c, HandleReplies(x, batch));
    assert d.reps[x].trace[|c.reps[x].trace|] == Led(1);
  }

  /** A candidate that takes its own request, woken up by those of others, grants it. */
  lemma AnswersItself(cfg: Config, c: Cluster, x: Id, xs: seq<Id>) returns (d: Cluster)
    requires Reaches(cfg, c) && x in cfg.ids && x in c.reps && c.reps[x] == BeginElection(Initial(x)) && x != VOTED_NONE
    requires !cfg.policy.skipOwn && xs != [] && x !in xs && VoteRequest(1, x) in c.requests
    requires forall y | y in xs :: VoteRequest(1, y) in c.requests
    ensures Reaches(cfg, d)
    ensures d == With(c, x, c.reps[x].(trace := c.reps[x].trace + [Voted(1, x)])).(
                      replies := c.replies + {VoteReply(x, 1, x, true)})
  {
    assert xs[0] in xs;
    FollowsStep(cfg, Init(cfg), c, HandleRequests(x, B.Delivered(RequestsOf(x, xs))));
    d := ReachesRequests(cfg, c, x, x, xs);
  }

  lemma BothAnswer(cfg: Config, a: Id, k: Id) returns (c: Cluster)
    requires ValidConfig(cfg) && a in cfg.ids && k in cfg.ids && a != k && !cfg.policy.skipOwn
    ensures Reaches(cfg, c) && c.reps.Keys == cfg.ids && AnsweredItself(c, a) && AnsweredItself(c, k)
    ensures forall z | z in cfg.ids :: VoteRequest(1, z) in c.requests
    ensures forall z | z in cfg.ids - {a, k} :: c.reps[z] == BeginElection(Initial(z))
  {
    hide Follows, Init, Run;
    var starts := StartAll(cfg, cfg.ids);
    ReachedBy(cfg, starts);
    var c1 := AnswersItself(cfg, Run(cfg, starts), a, [k]);
    c := AnswersItself(cfg, c1, k, [a]);
  }

  /** Without the filter, replies counted one by one: everybody runs, `a` and `k` take their own requests
      and then their own replies, and both lead term 1 without a vote of anybody else. */
  lemma OwnVotesElectTwo(cfg: Config, a: Id, k: Id) returns (c: Cluster)
    requires ValidConfig(cfg) && 2 <= |cfg.ids| <= 255 && !cfg.policy.distinctVotes && !cfg.policy.skipOwn
    requires a in cfg.ids && k in cfg.ids && a != k
    ensures Reaches(cfg, c) && LeadsWithEmptyLog(c, a) && LeadsWithEmptyLog(c, k)
    ensures Happened(c, a, Led(1)) && !Backed(c, 1, a)
    ensures c.reps[k].votedFor == (if cfg.policy.clearOnLead then VOTED_NONE else k) && Happened(c, k, Voted(1, k))
    ensures c.reps.Keys == cfg.ids && forall z | z in cfg.ids :: VoteRequest(1, z) in c.requests
  {
    hide Follows, Init, LeadsWithEmptyLog, AnsweredItself;
    var n := |cfg.ids| / 2;
    var c1 := BothAnswer(cfg, a, k);
    Answer(c1, a);
    Answer(c1, k);
    var c2 := CountsOwn(cfg, c1, a, VoteReply(k, 1, k, true), n);
    AnsweredStays(c1, c2, k);
    c := CountsOwn(cfg, c2, k, VoteReply(a, 1, a, true), n);
    LeadsStays(c2, c, a);
    VotedForItself(c2, k, c, a);
    forall z | z in c.reps && z != a ensures !Happened(c, z, Voted(1, a)) {
      assert z != k ==> c.reps[z] == BeginElection(Initial(z));
    }
  }

  lemma Answer(c: Cluster, x: Id)
    requires AnsweredItself(c, x)
    ensures VoteReply(x, 1, x, true) in c.replies
  {
  }

  lemma LeadsStays(c: Cluster, d: Cluster, x: Id)
    requires LeadsWithEmptyLog(c, x) && x in d.reps && d.reps[x] == c.reps[x]
    ensures LeadsWithEmptyLog(d, x) && Happened(d, x, Led(1))
  {
  }

  /** The code as written: `k` leads term 1 by its own votes, forgets its vote, votes for the leader `a`,
      steps down on its heartbeat, forgets that vote too, and votes for `b`. */
  lemma ThreeVotes(cfg: Config, a: Id, k: Id, b: Id) returns (c: Cluster)
    requires ValidConfig(cfg) && 3 <= |cfg.ids| <= 255 && !cfg.policy.distinctVotes && !cfg.policy.skipOwn
    requires cfg.policy.clearOnLead && cfg.policy.clearOnStepDown
    requires {a, k, b} <= cfg.ids && a != k && a != b && k != b
    ensures Reaches(cfg, c)
    ensures Happened(c, k, Voted(1, k)) && Happened(c, k, Voted(1, a)) && Happened(c, k, Voted(1, b))
  {
    hide Follows, Init;
    var o := Init(cfg);
    var c1 := OwnVotesElectTwo(cfg, a, k);
    var c2 := GrantTo(cfg, o, c1, k, a, 1);
    var c3 := SendBeat(cfg, o, c2, a);
    var c4 := StepDown(cfg, o, c3, k, AppendEntries(1, a));
    c := GrantTo(cfg, o, c4, k, b, 1);
  }
}
