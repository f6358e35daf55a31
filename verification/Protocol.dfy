/** The cluster: replicas, a network that only grows, and the steps that change them. */
module Protocol {
  import opened Model
  import opened ReplicaRules

  datatype Config = Config(ids: set<Id>, policy: Policy)

  predicate ValidConfig(cfg: Config) {
    VOTED_NONE !in cfg.ids
  }

  /** A message once sent can be delivered any number of times, in any order, or never.
      `elections` counts the election passes begun so far. */
  datatype Cluster = Cluster(
    reps: map<Id, ReplicaState>,
    requests: set<VoteRequest>,
    replies: set<VoteReply>,
    appends: set<AppendEntries>,
    elections: nat)

  datatype Step =
    | StartElection(id: Id)
    | ElectionTimeout(id: Id)
    | HandleRequests(id: Id, requests: seq<Sample<VoteRequest>>)
    | HandleReplies(id: Id, replies: seq<Sample<VoteReply>>)
    | HandleAppends(id: Id, appends: seq<Sample<AppendEntries>>)
    | HandleElectionAppends(id: Id, appends: seq<Sample<AppendEntries>>)
    | Heartbeat(id: Id)
    | ClientInput(id: Id, rounds: nat)

  function Init(cfg: Config): Cluster {
    Cluster(map i | i in cfg.ids :: Initial(i), {}, {}, {}, 0)
  }

  // The messages of a batch were sent, and under `skipOwn` not by the replica itself.

  ghost predicate RequestsSent(p: Policy, c: Cluster, i: Id, batch: seq<Sample<VoteRequest>>) {
    forall k | 0 <= k < |batch| && batch[k].Valid? ::
      batch[k].msg in c.requests && (p.skipOwn ==> batch[k].msg.sender != i)
  }

  ghost predicate RepliesSent(p: Policy, c: Cluster, i: Id, batch: seq<Sample<VoteReply>>) {
    forall k | 0 <= k < |batch| && batch[k].Valid? ::
      batch[k].msg in c.replies && (p.skipOwn ==> batch[k].msg.sender != i)
  }

  ghost predicate AppendsSent(p: Policy, c: Cluster, i: Id, batch: seq<Sample<AppendEntries>>) {
    forall k | 0 <= k < |batch| && batch[k].Valid? ::
      batch[k].msg in c.appends && (p.skipOwn ==> batch[k].msg.sender != i)
  }

  // A handler wakes up only when a message of another replica is there.

  ghost predicate RequestsWake(i: Id, batch: seq<Sample<VoteRequest>>) {
    exists k | 0 <= k < |batch| :: batch[k].Valid? && batch[k].msg.sender != i
  }

  ghost predicate RepliesWake(i: Id, batch: seq<Sample<VoteReply>>) {
    exists k | 0 <= k < |batch| :: batch[k].Valid? && batch[k].msg.sender != i
  }

  ghost predicate AppendsWake(i: Id, batch: seq<Sample<AppendEntries>>) {
    exists k | 0 <= k < |batch| :: batch[k].Valid? && batch[k].msg.sender != i
  }

  /** The first pass of an election needs a role other than leader. A further pass begins only when
      heartbeats arrived and did not end the election; it needs no role unless the policy asks for one. */
  predicate CanStart(p: Policy, s: ReplicaState) {
    if s.electing then s.again && (p.guardStart ==> s.role != LEADER) else s.role != LEADER
  }

  /** An election is left when the wait for votes times out, or when the guard refuses a further pass. */
  predicate CanLeave(p: Policy, s: ReplicaState) {
    s.electing && (s.again ==> p.guardStart && s.role == LEADER)
  }

  /** The election timer thread reads heartbeats either outside an election or while waiting inside one. */
  ghost predicate Enabled(cfg: Config, c: Cluster, step: Step) {
    && step.id in cfg.ids && step.id in c.reps
    && var s := c.reps[step.id];
      match step
      case StartElection(_) => CanStart(cfg.policy, s)
      case ElectionTimeout(_) => CanLeave(cfg.policy, s)
      case HandleRequests(i, batch) => RequestsSent(cfg.policy, c, i, batch) && RequestsWake(i, batch)
      case HandleReplies(i, batch) => RepliesSent(cfg.policy, c, i, batch) && RepliesWake(i, batch)
      case HandleAppends(i, batch) => !s.electing && AppendsSent(cfg.policy, c, i, batch) && AppendsWake(i, batch)
      case HandleElectionAppends(i, batch) =>
        s.electing && !s.again && AppendsSent(cfg.policy, c, i, batch) && AppendsWake(i, batch)
      case Heartbeat(_) => s.armed
      case ClientInput(_, _) => true
  }

  function With(c: Cluster, i: Id, s: ReplicaState): Cluster {
    c.(reps := c.reps[i := s])
  }

  function RequestResult(cfg: Config, c: Cluster, i: Id, batch: seq<Sample<VoteRequest>>, granted: bool): Cluster
    requires i in c.reps
  {
    var (s, replies) := OnRequests(cfg.policy, c.reps[i], batch, granted);
    With(c, i, s).(replies := c.replies + set r | r in replies)
  }

  /** One step. A step that is not enabled changes nothing. */
  ghost function Apply(cfg: Config, c: Cluster, step: Step): Cluster {
    if !Enabled(cfg, c, step) then c
    else
      var p, i := cfg.policy, step.id;
      var s := c.reps[i];
      match step
      case StartElection(_) =>
        With(c, i, BeginElection(s)).(requests := c.requests + {VoteRequest(s.term + 1, i)}, elections := c.elections + 1)
      case ElectionTimeout(_) => With(c, i, s.(electing := false, again := false))
      case HandleRequests(_, batch) => RequestResult(cfg, c, i, batch, false)
      case HandleReplies(_, batch) => With(c, i, OnReplies(p, |cfg.ids|, s, batch))
      case HandleAppends(_, batch) => With(c, i, OnAppends(p, s, batch))
      case HandleElectionAppends(_, batch) =>
        var unfinished := !Finishes(p, s, batch);
        With(c, i, OnAppends(p, s, batch).(electing := unfinished, again := unfinished))
      case Heartbeat(_) => c.(appends := c.appends + {AppendEntries(s.term, i)})
      case ClientInput(_, rounds) => With(c, i, OnInputs(s, rounds))
  }

  /** The cluster after a sequence of steps. */
  ghost function RunFrom(cfg: Config, c: Cluster, steps: seq<Step>): Cluster
    decreases |steps|
  {
    if steps == [] then c else RunFrom(cfg, Apply(cfg, c, steps[0]), steps[1..])
  }

  ghost function Run(cfg: Config, steps: seq<Step>): Cluster {
    RunFrom(cfg, Init(cfg), steps)
  }

  lemma {:induction false} RunFromConcat(cfg: Config, c: Cluster, a: seq<Step>, b: seq<Step>)
    ensures RunFrom(cfg, c, a + b) == RunFrom(cfg, RunFrom(cfg, c, a), b)
    decreases |a|
  {
    if a == [] {
      assert a + b == b;
    } else {
      assert (a + b)[1..] == a[1..] + b;
      RunFromConcat(cfg, Apply(cfg, c, a[0]), a[1..], b);
    }
  }

  lemma RunSnoc(cfg: Config, steps: seq<Step>, step: Step)
    ensures Run(cfg, steps + [step]) == Apply(cfg, Run(cfg, steps), step)
  {
    RunFromConcat(cfg, Init(cfg), steps, [step]);
    assert RunFrom(cfg, Run(cfg, steps), [step]) == Apply(cfg, Run(cfg, steps), step);
  }
}
