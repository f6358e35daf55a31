# Leader election of the RevPi replicas

A Dafny model of the Raft-style leader election in `replica/consensus` and of the leader's log append in
`replica/src/main.c`, with proofs about all runs of a cluster. The intended protocol is section 5.2 of the Raft
paper (Ongaro and Ousterhout, "In Search of an Understandable Consensus Algorithm").

Check everything with `dafny verify dfyconfig.toml --resource-limit 2000000`.

## What is modelled

- `Model.dfy`, `ReplicaRules.dfy`: the state of one replica, its messages, and what each handler does to it,
  message by message and batch by batch.
- `ReplicaObject.dfy`: the replica as the program keeps it, a class whose methods update its fields and loop over
  received batches with early exits and carried flags. Each method is proved equal to the rules. `Batches.dfy` and
  `Outcomes.dfy` prove what those rules amount to for a whole batch, said of its messages.
- `Protocol.dfy`: a cluster of replicas and a network that only grows, so that messages may be lost, delayed,
  reordered and repeated. A run is any sequence of steps; a step that is not enabled changes nothing. `Steps.dfy`
  states for every step when it happens and what exactly it changes.
- `History.dfy`, `Voting.dfy`: invariants of one replica. The model adds to each replica a `trace` of what it did
  (entered, ran, voted, led, stepped down, appended); the program keeps no such record and no rule reads it.
- `Network.dfy`, `Reachable.dfy`: invariants of the cluster, kept by every step of every run.
- `Safety.dfy`, `Elections.dfy`, `Exactness.dfy`, `Policies.dfy`, `Progress.dfy`, `Terms.dfy`: the theorems.
  `Moves.dfy` and `Witness.dfy` build the runs in which policies fail and in which elections succeed.

The vote of a replica is cleared in two places that textbook Raft does not have: `become_leader` clears it
(`replica/consensus/replica.c:176`) and `become_follower` clears it even when the term stays the same
(`replica/consensus/replica.c:193`). A re-entered pass of the election loop
(`replica/consensus/leaderElection.c:22`) does not look at the role, so a leader that an old heartbeat takes through
`:71-86` becomes a candidate with its heartbeat timer armed. Replies are counted without looking at their sender. The
query `senderID!=%0` (`replica/consensus/DDSConsensusManager.c:458`) wakes the handlers only for messages of others,
but the calls that then fetch the messages (`replica/consensus/leaderElection.c:59`, `:118`, `:187` and
`replica/consensus/replica.c:26`) do not pass it, so a replica that is awake also gets its own. A `Policy` switches
these five choices one by one. `AS_WRITTEN` is the code and `FILTERED` the code with its query applied to every fetch.
`MINIMAL` filters, no longer clears on leading and guards every pass. `REPAIRED` also keeps the vote on a same-term
step down and counts senders.

## Main results

- For each of the 32 policies and every cluster of up to 255 replicas, at most one leader per term holds in all runs if
  and only if there are fewer than two replicas, or winning means a majority (senders are counted, or own messages are
  filtered and there are at most three replicas) and either the number of replicas is even or leaders keep their vote
  (it is not cleared on leading and, if it is cleared on stepping down, every pass is guarded and own messages are
  filtered): `Exactness.ElectionSafetyExactly`. The positive half holds for clusters of any size
  (`Safety.ElectionSafety`). The code as written fails, with or without its filter. What "leader" means there does not
  depend on the traces: `Elections.OneLeaderMeans` restates it by the roles at any two points of a run.
- The same condition decides whether a (term, id) pair can be appended twice (`Exactness.EntriesUniqueExactly`).
- Wherever winning means a majority, for every policy and size: two leaders of one term imply a replica that voted for
  itself, cleared that vote by leading or stepping down in the term, and then voted for a rival
  (`Elections.TwoLeadersNeedSwitch`).
- Leaders have the vote of another replica in all runs exactly when own messages are filtered or senders are counted
  (`Exactness.LeadersBackedExactly`); otherwise a candidate can elect itself (`Witness.OwnVotesElectTwo`).
- Repeated granted replies need no faulty network. The carried `voteGranted` flag turns one vote into as many granted
  replies as a majority lacks (`Batches.CarriedFlagElects`), and from four replicas on this gives two leaders of a term
  in a run in which no replica receives a message twice (`Witness.FlagElectsTwo`).
- Elections never get stuck: for every policy, after every run of 2 to 255 replicas, every replica can still come to
  lead a term above all others with the votes of a majority (`Progress.EverybodyCanLead`).
- Every choice shows: each of four switches decides alone whether one kind of run exists in clusters of three or more,
  and the fifth decides it for even clusters, so that runs tell any two policies apart (`Policies.EachChoiceShows`,
  `Policies.RunsTellPolicies`). This says what the code does, and what each repair removes (`Policies.TheCode`,
  `TheFilter`, `TheRepairs`). The bound of three votes per term is attained by the code (`Policies.ThreeVotesAttained`).
- What every batch amounts to: heartbeats, requests and replies, with the first deciding reply of a batch and the first
  request of a new term (`Outcomes.AppendsExact`, `RequestsExact`, `RepliesExact`, `MajorityLeads`).
- The guard alone decides whether the timer is armed exactly at leaders and all heartbeats come from replicas that
  led their term (`Exactness.OnlyLeadersBeatExactly`); keeping the vote alone decides whether a replica votes once
  per term (`Exactness.OneVoteExactly`).

## Assumptions

- Each handler is one atomic step, as under `consensus_mutex`. The second and later passes of
  `replica/consensus/leaderElection.c:22` do not really hold the mutex.
- A handler runs when a message of another replica has arrived, and may then fetch any messages sent so far. A further
  pass of an election begins only after heartbeats that arrived in it and did not end it; no other step of that thread
  comes between.
- The sender of a heartbeat is the one set at `replica/consensus/replica.c:139`, before line 142 overwrites it.
- Replica ids are distinct and none is 255. They are 8 bits wide in the program, so 255 replicas are the most there can
  be. `ACTIVE_REPLICAS` (three in `replica/consensus/replica.h:13`) is the size of the cluster.
- Setting the timer and the two outputs succeeds.
- Terms are unbounded integers; `Terms.TermsFit32` proves that every run of fewer than 2^32 elections is the same
  with `uint32_t` terms, and `Terms.TermsWrap` that one election more can wrap. `votes_received` is kept modulo 256.

## Model

| member | source | states |
|---|---|---|
| ReplicaObject.Replica.constructor | replica/consensus/replica.c:204-249 | a new replica is a follower of term 0 without a vote, timer off, output O_1 on, log empty |
| ReplicaObject.Replica.BecomeLeader | replica/consensus/replica.c:166-184 | nothing happens to a leader; otherwise role, outputs, timer and, under the policy of the code, the cleared vote |
| ReplicaObject.Replica.BecomeFollower | replica/consensus/replica.c:186-202 | term, role, outputs, timer off, and the vote cleared unless the policy keeps it in an unchanged term |
| ReplicaObject.Replica.StartElection | replica/consensus/leaderElection.c:28-36 | the replica runs for the next term, holds its own vote, has counted one, and asks for votes in that term |
| ReplicaObject.Replica.HandleVoteMessage | replica/consensus/leaderElection.c:109-171 | state and granted claims after the batch are those of handling every request alone with the flag lowered first; the term is the highest, the first to ask in it has the vote, and every request is answered |
| ReplicaObject.Replica.HandleVoteReplyMessage | replica/consensus/leaderElection.c:173-236 | leaving the loop early gives the state of handling every reply; the first reply of a later term makes a candidate a follower of that term, unless a granted reply has completed a majority before it; who is no candidate is not changed |
| ReplicaObject.Replica.HandleAppendEntries | replica/consensus/replica.c:36-63 | the term becomes the highest of the old term and all received ones, old heartbeats change nothing, and the replies are those of the rules |
| ReplicaObject.Replica.HandleElectionAppendEntries | replica/consensus/leaderElection.c:69-89 | the election ends iff some message has a term at least the one before the batch; the replica is then a follower in the highest term, otherwise another pass is due |
| ReplicaObject.Replica.ElectionTimeout | replica/consensus/leaderElection.c:95-97 | only leaves the election loop; role, term and vote stay |
| ReplicaObject.Replica.AppendToLog | replica/consensus/replica.c:251-255 | the entry becomes the new last one of the log |
| ReplicaObject.Replica.HandleInput | replica/src/main.c:42-76 | one wake-up appends one entry of the current term per triggered condition at a leader, numbered on from the log, and nothing elsewhere |
| Batches.StickyFlagHarmless | replica/consensus/leaderElection.c:116-166 | for every state and batch, the never lowered `voteGranted` changes neither the final state nor the set of granted (term, candidate) claims |
| Batches.StickyFlagMeans | replica/consensus/leaderElection.c:142-153 | reply k equals the one of a fresh flag except for the flag, which says that request k or an earlier one was granted |
| Batches.RestIsSkipped | replica/consensus/leaderElection.c:208-229 | a replica that is no candidate is not changed by any further replies, which is why the loop may stop |
| Batches.AppendsReachHighest | replica/consensus/replica.c:37-50 | the term after a batch of heartbeats is the maximum of the old term and theirs: no smaller than any of them and equal to one of them |
| Batches.AppendRepliesExact | replica/consensus/replica.c:44-58 | one reply per message; reply k carries the running maximum and reports success iff message k has that term |
| Batches.ElectionEndsExactly | replica/consensus/leaderElection.c:71-86 | `election_finished` is set iff some message has a term at least the term at entry; the replica is then a follower |
| Batches.CarriedFlagElects | replica/consensus/leaderElection.c:116-166 | every cluster size up to 255: one voter, one batch with the candidate's request first and declined requests after it, each answer delivered once, elect the candidate when replies are counted one by one |
| Batches.InputsAppend | replica/src/main.c:48-65 | the log grows by consecutively numbered entries of the leader's term, one per round, and not at all elsewhere; nothing else changes |
| Outcomes.AppendsExact | replica/consensus/replica.c:37-50 | a batch of heartbeats: the highest term; follower without vote in a new term; in the own term only a replica in office steps down; old heartbeats change nothing |
| Outcomes.RequestsExact | replica/consensus/leaderElection.c:130-166 | a batch of requests: the highest term, in which an earlier vote stands or the first to ask gets it; reply k reports term and vote after request k, and is granted iff request k or an earlier one had the term and vote then reported, also a repeated request |
| Outcomes.RepliesExact | replica/consensus/leaderElection.c:200-231 | a batch of replies at a candidate: still candidate iff no reply is of a later term and none completes a majority, then with all granted ones counted; otherwise the first such reply makes it a follower of exactly that term, or leader |
| Outcomes.MajorityLeads | replica/consensus/leaderElection.c:221-229 | without a reply of a later term, and up to 255 replicas, a candidate leads afterwards iff the votes it had and the granted replies are a majority |
| Steps.HeartbeatsRead | replica/consensus/replica.c:25-63 | the step of reading heartbeats outside an election: when it happens, what becomes of the replica, and that nobody else and no message changes |
| Steps.ElectionHeartbeatsRead | replica/consensus/leaderElection.c:53-93 | the same while waiting for votes: the election is over iff some heartbeat has at least the old term, otherwise another pass is due |
| Steps.RequestsRead | replica/consensus/leaderElection.c:118-166 | the step of reading vote requests: the network gains exactly one reply per request, and only the reader changes |
| Steps.RepliesRead | replica/consensus/leaderElection.c:187-236 | the step of reading vote replies: it matters to candidates only, and the first deciding reply counts |
| Steps.InputRead | replica/src/main.c:42-76 | the step of client input: so many rounds append so many entries at a leader and change nothing elsewhere |
| Steps.ElectionBegun | replica/consensus/leaderElection.c:22-40 | the step that begins a pass: for a replica that is no leader outside an election or when a pass is due, for a leader only when a pass is due and not guarded; next term, own vote, one request |
| Steps.WaitTimedOut | replica/consensus/leaderElection.c:95-97 | the step that leaves the election loop: whoever waits leaves with everything else as it was, whatever the role |
| History.EnterKeeps | replica/consensus/replica.c:186-202 | entering a higher term keeps the invariants of a replica and takes nothing back |
| History.StepDownKeeps | replica/consensus/replica.c:45-48 | stepping down inside a term keeps the invariants, for clearing and for keeping policies |
| History.BecomeLeaderKeeps | replica/consensus/replica.c:166-184 | winning keeps the invariants: a replica leads a term at most once, never after stepping down in it, and only after running in it |
| History.GrantKeeps | replica/consensus/leaderElection.c:142-147 | granting keeps the invariants: two different votes of one term have a clearing between them |
| History.BeginElectionKeeps | replica/consensus/leaderElection.c:28-32 | a new candidacy keeps the invariants and starts its term with a vote for oneself |
| History.AppendKeeps | replica/src/main.c:62-65 | appending keeps the log numbered from 1, with non-decreasing terms that the replica led |
| Voting.VotesPerTerm | replica/consensus/leaderElection.c:138-147 | the candidates voted for in a term number at most one plus the clearings that happened; at most one if the replica did not run; itself among them if it did |
| Reachable.ApplyKeeps | replica/consensus/leaderElection.c:238-263 | every step keeps the invariants of replicas, messages, tallies, leaders and step downs, and takes no replica back |
| Reachable.RunInv | replica/consensus/leaderElection.c:238-263 | the invariants hold after every run of every valid cluster |
| Safety.ElectionSafety | replica/consensus/replica.c:166-202 | clusters of any size: if winning means a majority and the cluster is even or leaders keep their vote, no run has two leaders of a term; a candidate stepping down may still lose its vote |
| Elections.NothingGoesBack | replica/consensus/leaderElection.c:214-217 | from any point of a run to any later one, no term decreases, roles inside a term go candidate, leader, follower only, and traces and logs are extended |
| Elections.LeadsOnce | replica/consensus/replica.c:166-193 | a replica that led a term and no longer does never leads that term again |
| Elections.CandidatesHoldTheirVote | replica/consensus/leaderElection.c:28-32 | in every run candidates and leaders have `election_term == current_term`, candidates hold their own vote, and with three replicas have `votes_received == 1` |
| Elections.GrantedRepliesTrue | replica/consensus/leaderElection.c:142-153 | every granted reply ever sent names a candidate its sender voted for in that term, whatever request it answers |
| Elections.LeadersEarnedVotes | replica/consensus/leaderElection.c:208-229 | whoever led a term ran in it; filtered, another replica voted for it in it; where the count means majorities, a majority of the cluster did |
| Elections.VotesInTerm | replica/consensus/leaderElection.c:138-147 | one candidate if the term was entered as a follower; else itself first, and at most three in all for the code as written |
| Elections.TwoLeadersNeedSwitch | replica/consensus/replica.c:176-193 | any size and policy where the count means majorities: two leaders of a term imply a replica that ran in it, voted for itself, cleared that vote by leading or stepping down, and then voted for a rival |
| Elections.StepDownsShowLeader | replica/consensus/replica.c:45-48 | under the guard and the filter, a replica that steps down in its own term ran in it, and another replica led it |
| Elections.OneLeaderMeans | replica/consensus/replica.c:166-202 | at most one leader per term in the traces is the same as: no two replicas have role leader in one term at any two points of the run |
| Elections.LogsInOrder | replica/src/main.c:62-65 | every log has id equal to position plus one, non-decreasing terms, and only terms its replica led |
| Elections.EntriesUniqueSafe | replica/src/main.c:62-65 | clusters of any size in a safe setting: no (term, id) pair is appended twice in the cluster |
| Exactness.ElectionSafetyExactly | replica/consensus/replica.c:166-202 | every policy, up to 255 replicas: all runs have at most one leader per term iff there are fewer than two replicas, or winning means a majority and the cluster is even or leaders keep their vote |
| Exactness.EntriesUniqueExactly | replica/src/main.c:42-66 | every policy, up to 255 replicas: all runs append each (term, id) at most once iff the same condition holds |
| Exactness.OneVoteExactly | replica/consensus/replica.c:175-193 | 3 to 255 replicas: all runs have one vote per replica and term iff no clearing inside a term |
| Exactness.CountingExactly | replica/consensus/leaderElection.c:221-229 | kept votes, up to 255 replicas: safe iff senders are counted, or own messages are filtered and there are at most three replicas, or there are fewer than two |
| Exactness.LeadersBackedExactly | replica/consensus/leaderElection.c:187-229 | up to 255 replicas: in all runs every leader has the vote of another replica iff own messages are filtered, senders are counted, or there are fewer than two replicas |
| Exactness.OnlyLeadersBeatExactly | replica/consensus/replica.c:69-75 | 3 to 255 replicas: timer armed iff leader iff O_2 on and O_1 off, and all heartbeats from replicas that led their term, iff no leader starts an election |
| Exactness.OutputsFollowTimer | replica/consensus/replica.c:172-195 | every policy: timer and O_2 agree and differ from O_1; on at leaders, off at followers |
| Exactness.HeartbeatsFromRunners | replica/consensus/replica.c:137-139 | every policy: a heartbeat of a term comes from a replica that ran in it |
| Witness.LeaderElectsRival | replica/consensus/replica.c:175-176 | odd clusters of 3 to 255: a run in which the leader of term 1, its vote cleared, elects a second leader of term 1, and both append entry 1 |
| Witness.CandidateBeats | replica/consensus/leaderElection.c:71-86 | odd clusters of 3 to 255: the heartbeat of that candidate makes the leader of term 3 step down and elect the candidate too |
| Witness.ArmedCandidate | replica/consensus/leaderElection.c:22-31 | 3 to 255 replicas: without the guard an old heartbeat takes the leader of term 2 into another pass, and as a candidate of term 3, which it never led, it has its timer armed and sends a heartbeat |
| Witness.LeaderBeatsItself | replica/consensus/leaderElection.c:59-86 | odd clusters of 3 to 255, no filter: a leader that an old heartbeat wakes reads its own heartbeat too, steps down, and elects a second leader of its term |
| Witness.VotesAgain | replica/consensus/replica.c:191-193 | 3 to 255 replicas: a run in which a candidate steps down, its vote cleared, and votes again in the same term |
| Witness.FlagElectsTwo | replica/consensus/leaderElection.c:116-229 | 4 to 255 replicas, filter or not: two voters answer one batch of pairwise different requests each, and these answers, each delivered once, make two candidates lead term 1 |
| Witness.OwnVotesElectTwo | replica/consensus/leaderElection.c:118-229 | 2 to 255 replicas, no filter: two candidates take their own requests and replies and lead term 1, one of them without the vote of anybody else |
| Witness.ThreeVotes | replica/consensus/replica.c:175-193 | 3 to 255 replicas: a run in which a replica votes for itself, for the other leader after leading, and for a third candidate after stepping down, all in term 1 |
| Terms.TermsAreEarned | replica/consensus/leaderElection.c:28-36 | no term of a replica or message exceeds the number of elections begun, and every term from 1 up to it had a candidate |
| Terms.TermsFit32 | replica/consensus/replica.h:41-42 | a run of fewer than 2^32 elections is the same with wrapping 32-bit terms |
| Terms.TermsWrap | replica/consensus/leaderElection.c:29 | the bound is sharp: some run of 2^32 elections has term 2^32, and 0 with 32 bits |
| Progress.RunsSoon | replica/consensus/leaderElection.c:22-40 | after every run a replica that is no leader runs in its next term by one step of its own, or two if it has to wait first, with its request sent |
| Progress.LeavesElection | replica/consensus/leaderElection.c:51-97 | after every run whoever waits inside an election leaves it by its timeout with role, term and vote unchanged; a leader with a pass due leaves under the guard and runs again without it |
| Progress.EverybodyCanLead | replica/consensus/leaderElection.c:22-105 | every policy, 2 to 255 replicas: from every reachable cluster some run takes every replica to the lead of a term above all terms so far, with the votes of a majority |
| Policies.EachChoiceShows | replica/consensus/replica.c:166-202 | 3 to 255 replicas: some run has a replica voting twice in a term without stepping down iff leading clears, without leading iff stepping down clears, a heartbeat of a replica that did not lead iff no guard, a granted request of one's own iff no filter; even clusters have two leaders of a term iff replies are counted one by one |
| Policies.RunsTellPolicies | replica/consensus/replica.c:166-202 | even clusters of 4 to 254: two policies with the same kinds of runs are equal |
| Policies.SelfGrantsExactly | replica/consensus/leaderElection.c:116-166 | two or more replicas: with the filter no granted reply ever names its own sender, despite the carried flag; without it one does |
| Policies.TheCode | replica/consensus/replica.c:166-202 | the code has all these runs, a leader without the vote of another replica, and two leaders of one term |
| Policies.TheFilter | replica/consensus/DDSConsensusManager.c:458 | applying the query to every fetch removes the granted requests of one's own and the lonely leaders, and nothing else |
| Policies.TheRepairs | replica/consensus/replica.c:175-193 | the minimal repair has two leaders of a term iff there are more than three replicas, and candidates that vote twice; the full repair has none of these runs |
| Policies.RepairedAlways | replica/consensus/replica.c:175-193 | the full repair, any number of replicas: one vote per replica and term and one leader per term in every run |
| Policies.ThreeVotesAttained | replica/consensus/leaderElection.c:138-147 | under the code no replica votes for more than three candidates of a term, and in some run one does |

## Left out

- DDS entities, topics, quality of service, waitsets and loans: calls into a library that is not part of this model; only the rule that a replica skips its own messages and samples without valid data is kept.
- The heartbeat payload, `prevLogIndex`, `prevLogTerm` and `nextIndex` (`replica/consensus/replica.c:130-149`, `:178`): unfinished in the source, and nothing reads them.
- Log replication, commit, `matchIndex`, `lastApplied` and `handle_appendEntries_reply_message`: the last only prints, the others are not there. The log check of section 5.4.1 of the Raft paper is not implemented, so Leader Completeness is not claimed.
- `append_to_log` writes one slot past the end (`replica/consensus/replica.c:254`); the model writes the new last slot. `insert_log_entry_at` has no caller.
- Ids of log entries are unbounded; the source truncates them to 32 bits.
- Real time, timeout lengths, liveness beyond what can still happen, signal re-entrancy and the mutex misuse of a re-entered election pass: steps happen in any order and are atomic.
- `replica/DIO/DIO.c`, `IO/`, scripts and build files: only the two output bits are kept.
- Restarts: `current_term` and `voted_for` are kept in memory only, so a restarted replica could vote again in a term; the theorems are about runs without restarts.
- EachChoiceShows: stated from three replicas on; in odd clusters counting one by one does not show in two leaders alone.
- OneVoteExactly: stated from three replicas on; for clusters of two, where the other three choices matter too, the condition is not given.
- OnlyLeadersBeatExactly: stated from three replicas on; smaller clusters are not covered.
