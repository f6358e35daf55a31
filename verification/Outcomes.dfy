/** What a batch does to a replica, said of all its messages at once. */
module Outcomes {
  import opened Model
  import opened ReplicaRules
  import opened Batches

  lemma {:induction false} InMessages<T>(batch: seq<Sample<T>>, m: T)
    ensures m in Messages(batch) <==> Valid(m) in batch
    decreases |batch|
  {
    if batch == [] {
    } else {
      InMessages(batch[1..], m);
      assert batch == [batch[0]] + batch[1..];
    }
  }

  // ---------- heartbeats

  /** `t` is the maximum of `start` and the terms of `ms`. */
  ghost predicate TopOfAppends(t: nat, start: nat, ms: seq<AppendEntries>) {
    && t >= start && (forall m | m in ms :: t >= m.term)
    && (t == start || exists m | m in ms :: m.term == t)
  }

  /** Some heartbeat has term `t`. */
  ghost predicate Hears(t: nat, ms: seq<AppendEntries>) {
    exists m | m in ms :: m.term == t
  }

  /** The replica moves to the highest term. It is a follower afterwards if that term is new, or if it was in
      office and heard a heartbeat of its own term; otherwise nothing changes. */
  ghost predicate AfterAppends(p: Policy, s: ReplicaState, ms: seq<AppendEntries>, r: ReplicaState) {
    && TopOfAppends(r.term, s.term, ms)
    && s.trace <= r.trace
    && if r.term > s.term || (s.role != FOLLOWER && Hears(s.term, ms)) then
         r == s.(role := FOLLOWER, term := r.term, armed := false, o1 := true, o2 := false, trace := r.trace,
                 votedFor := if r.term == s.term && !p.clearOnStepDown then s.votedFor else VOTED_NONE)
       else r == s
  }

  lemma ShiftTopAppends(p: Policy, s: ReplicaState, m: AppendEntries, ms: seq<AppendEntries>, t: nat)
    requires TopOfAppends(t, OnAppend(p, s, m).term, ms)
    ensures TopOfAppends(t, s.term, [m] + ms) && t >= OnAppend(p, s, m).term
  {
    assert m in [m] + ms && forall x :: x in [m] + ms <==> x == m || x in ms;
  }

  lemma HearsMore(t: nat, m: AppendEntries, ms: seq<AppendEntries>)
    ensures Hears(t, [m] + ms) <==> m.term == t || Hears(t, ms)
  {
    assert m in [m] + ms && forall x :: x in [m] + ms <==> x == m || x in ms;
  }

  lemma ShiftAppends(p: Policy, s: ReplicaState, m: AppendEntries, ms: seq<AppendEntries>, r: ReplicaState)
    requires AfterAppends(p, OnAppend(p, s, m), ms, r)
    ensures AfterAppends(p, s, [m] + ms, r)
  {
    hide TopOfAppends, Hears;
    assert TopOfAppends(r.term, OnAppend(p, s, m).term, ms);
    ShiftTopAppends(p, s, m, ms, r.term);
    HearsMore(s.term, m, ms);
  }

  /** What a batch of heartbeats amounts to, inside or outside an election. */
  lemma {:induction false} AppendsExact(p: Policy, s: ReplicaState, batch: seq<Sample<AppendEntries>>)
    ensures AfterAppends(p, s, Messages(batch), OnAppends(p, s, batch))
    decreases |batch|
  {
    hide AfterAppends, OnAppend;
    if batch == [] {
      NoAppends(p, s);
    } else if batch[0] == Invalid {
      AppendsExact(p, s, batch[1..]);
      assert Messages(batch) == Messages(batch[1..]);
    } else {
      var m := batch[0].msg;
      assert Messages(batch) == [m] + Messages(batch[1..]);
      AppendsExact(p, OnAppend(p, s, m), batch[1..]);
      ShiftAppends(p, s, m, Messages(batch[1..]), OnAppends(p, s, batch));
    }
  }

  lemma NoAppends(p: Policy, s: ReplicaState)
    ensures AfterAppends(p, s, [], s)
  {
  }

  // ---------- vote requests

  ghost predicate TopOfRequests(t: nat, start: nat, ms: seq<VoteRequest>) {
    && t >= start && (forall m | m in ms :: t >= m.term)
    && (t == start || exists m | m in ms :: m.term == t)
  }

  /** The first to ask for a vote in term `t`. */
  function FirstAsker(t: nat, ms: seq<VoteRequest>): Id {
    if ms == [] then VOTED_NONE
    else if ms[0].term == t && ms[0].sender != VOTED_NONE then ms[0].sender
    else FirstAsker(t, ms[1..])
  }

  /** The vote of term `t` after the requests `ms`: an earlier vote of that term stands, otherwise the
      first to ask has it. */
  function VoteAfter(s: ReplicaState, t: nat, ms: seq<VoteRequest>): Id {
    if t == s.term && s.votedFor != VOTED_NONE then s.votedFor else FirstAsker(t, ms)
  }

  ghost predicate AfterRequests(s: ReplicaState, ms: seq<VoteRequest>, r: ReplicaState) {
    && TopOfRequests(r.term, s.term, ms)
    && s.trace <= r.trace
    && r.votedFor == VoteAfter(s, r.term, ms)
    && if r.term == s.term then r == s.(votedFor := r.votedFor, trace := r.trace)
       else r == s.(role := FOLLOWER, term := r.term, votedFor := r.votedFor,
                    armed := false, o1 := true, o2 := false, trace := r.trace)
  }

  /** Reply `k` reports the term and the vote after request `k`. */
  ghost predicate Reports(s: ReplicaState, ms: seq<VoteRequest>, k: nat, r: VoteReply)
    requires k < |ms|
  {
    && r.sender == s.id
    && TopOfRequests(r.term, s.term, ms[..k + 1])
    && r.candidate == VoteAfter(s, r.term, ms[..k + 1])
  }

  /** Request `k` has the term and the vote that reply `r` to it reports. */
  predicate GivesVote(ms: seq<VoteRequest>, k: nat, r: VoteReply)
    requires k < |ms|
  {
    ms[k].term == r.term && ms[k].sender == r.candidate
  }

  lemma ShiftTop(p: Policy, s: ReplicaState, m: VoteRequest, ms: seq<VoteRequest>, t: nat)
    requires TopOfRequests(t, OnRequest(p, s, m).term, ms)
    ensures TopOfRequests(t, s.term, [m] + ms)
  {
    assert forall x | x in [m] + ms :: x == m || x in ms;
    assert m in [m] + ms && forall x | x in ms :: x in [m] + ms;
  }

  lemma ShiftVote(p: Policy, s: ReplicaState, m: VoteRequest, ms: seq<VoteRequest>, t: nat)
    requires t >= OnRequest(p, s, m).term
    ensures VoteAfter(OnRequest(p, s, m), t, ms) == VoteAfter(s, t, [m] + ms)
  {
    assert ([m] + ms)[1..] == ms;
  }

  lemma OneRequest(p: Policy, s: ReplicaState, m: VoteRequest)
    ensures AfterRequests(s, [m], OnRequest(p, s, m))
  {
    assert m in [m] && [m][1..] == [];
    assert forall t: nat :: FirstAsker(t, [m]) == if m.term == t then m.sender else VOTED_NONE;
  }

  lemma GrantGivesVote(p: Policy, s: ReplicaState, m: VoteRequest)
    ensures var s1 := OnRequest(p, s, m);
            Grants(p, s, m) <==> m.term == s1.term && m.sender == s1.votedFor
  {
  }

  lemma ShiftRequests(p: Policy, s: ReplicaState, m: VoteRequest, ms: seq<VoteRequest>, r: ReplicaState)
    requires AfterRequests(OnRequest(p, s, m), ms, r)
    ensures AfterRequests(s, [m] + ms, r)
  {
    hide VoteAfter, TopOfRequests;
    OneRequest(p, s, m);
    assert TopOfRequests(r.term, OnRequest(p, s, m).term, ms);
    ShiftTop(p, s, m, ms, r.term);
    ShiftVote(p, s, m, ms, r.term);
  }

  lemma ShiftReport(p: Policy, s: ReplicaState, m: VoteRequest, ms: seq<VoteRequest>, k: nat, r: VoteReply)
    requires k < |ms| && Reports(OnRequest(p, s, m), ms, k, r)
    ensures Reports(s, [m] + ms, k + 1, r)
  {
    hide VoteAfter;
    assert ([m] + ms)[..k + 2] == [m] + ms[..k + 1];
    ShiftTop(p, s, m, ms[..k + 1], r.term);
    ShiftVote(p, s, m, ms[..k + 1], r.term);
  }

  lemma FirstReport(p: Policy, s: ReplicaState, m: VoteRequest, ms: seq<VoteRequest>, granted: bool)
    requires ms != [] && ms[0] == m
    ensures Reports(s, ms, 0, ReplyOf(OnRequest(p, s, m), granted))
  {
    OneRequest(p, s, m);
    assert ms[..1] == [m];
  }

  lemma {:induction false} FreshExact(p: Policy, s: ReplicaState, batch: seq<Sample<VoteRequest>>)
    ensures var (r, rs) := OnRequestsFresh(p, s, batch);
            var ms := Messages(batch);
            && AfterRequests(s, ms, r)
            && |rs| == |ms|
            && forall k | 0 <= k < |ms| :: Reports(s, ms, k, rs[k]) && (rs[k].granted <==> GivesVote(ms, k, rs[k]))
    decreases |batch|
  {
    hide AfterRequests, Reports, Grants, OnRequest;
    if batch == [] {
      EmptyBatch(s);
    } else if batch[0] == Invalid {
      assert Messages(batch) == Messages(batch[1..]);
      FreshExact(p, s, batch[1..]);
    } else {
      var m, ms1 := batch[0].msg, Messages(batch[1..]);
      var s1 := OnRequest(p, s, m);
      var (r, rs1) := OnRequestsFresh(p, s1, batch[1..]);
      var ms, rs := Messages(batch), [ReplyOf(s1, Grants(p, s, m))] + rs1;
      assert ms == [m] + ms1;
      FreshExact(p, s1, batch[1..]);
      ShiftRequests(p, s, m, ms1, r);
      forall k | 0 <= k < |ms| ensures Reports(s, ms, k, rs[k]) && (rs[k].granted <==> GivesVote(ms, k, rs[k])) {
        if k == 0 {
          FirstReport(p, s, m, ms, Grants(p, s, m));
          GrantGivesVote(p, s, m);
        } else {
          ShiftReport(p, s, m, ms1, k - 1, rs1[k - 1]);
        }
      }
    }
  }

  lemma EmptyBatch(s: ReplicaState)
    ensures AfterRequests(s, [], s)
  {
  }

  /** A batch of requests takes a replica to the highest term, where an earlier vote stands or the first to
      ask gets it. Each request is answered with the term and vote after it, and a reply is granted exactly
      when this request or an earlier one of the batch had the term and the vote then reported. */
  lemma RequestsExact(p: Policy, s: ReplicaState, batch: seq<Sample<VoteRequest>>)
    ensures var (r, rs) := OnRequests(p, s, batch, false);
            var ms := Messages(batch);
            && AfterRequests(s, ms, r)
            && |rs| == |ms|
            && forall k | 0 <= k < |ms| ::
                 && Reports(s, ms, k, rs[k])
                 && (rs[k].granted <==> exists j | 0 <= j <= k :: GivesVote(ms, j, rs[j]))
  {
    FreshExact(p, s, batch);
    StickyFlagHarmless(p, s, batch);
    StickyFlagMeans(p, s, batch, false);
    var rs, single, ms := OnRequests(p, s, batch, false).1, OnRequestsFresh(p, s, batch).1, Messages(batch);
    forall k | 0 <= k < |ms|
      ensures Reports(s, ms, k, rs[k]) && (rs[k].granted <==> exists j | 0 <= j <= k :: GivesVote(ms, j, rs[j]))
    {
      assert forall j | 0 <= j < |ms| :: single[j].granted <==> GivesVote(ms, j, rs[j]);
    }
  }

  // ---------- vote replies

  /** A reply from a later term ends a candidacy. */
  predicate Deposes(s: ReplicaState, m: VoteReply) {
    m.term > s.electionTerm
  }

  function Granted(s: ReplicaState, ms: seq<VoteReply>): nat {
    if ms == [] then 0 else (if Counts(s, ms[0]) then 1 else 0) + Granted(s, ms[1..])
  }

  function Voters(s: ReplicaState, ms: seq<VoteReply>): set<Id> {
    s.voters + set m | m in ms && Counts(s, m) :: m.sender
  }

  /** The tally of `s` after the replies `ms`, one by one in 8 bits or by sender. */
  function Tallied(p: Policy, s: ReplicaState, ms: seq<VoteReply>): nat {
    if p.distinctVotes then |Voters(s, ms)|
    else if Granted(s, ms) == 0 then s.votes
    else (s.votes + Granted(s, ms)) % 256
  }

  /** Reply `k` is granted and completes a majority. */
  predicate Elects(p: Policy, n: nat, s: ReplicaState, ms: seq<VoteReply>, k: nat)
    requires k < |ms|
  {
    Counts(s, ms[k]) && Tallied(p, s, ms[..k + 1]) * 2 > n
  }

  predicate Decides(p: Policy, n: nat, s: ReplicaState, ms: seq<VoteReply>, k: nat)
    requires k < |ms|
  {
    Deposes(s, ms[k]) || Elects(p, n, s, ms, k)
  }

  ghost predicate Undecided(p: Policy, n: nat, s: ReplicaState, ms: seq<VoteReply>, k: nat)
    requires k <= |ms|
  {
    forall j: nat | j < k :: !Decides(p, n, s, ms, j)
  }

  /** The candidate `s` has become a follower of the later term `t`. */
  ghost predicate Deposed(s: ReplicaState, t: nat, r: ReplicaState) {
    && r.role == FOLLOWER && r.term == t && !r.armed && r.o1 && !r.o2 && (t != s.term ==> r.votedFor == VOTED_NONE)
    && r.log == s.log && r.electing == s.electing && r.again == s.again
  }

  /** The candidate `s` has become the leader of its term. */
  ghost predicate Elected(p: Policy, s: ReplicaState, r: ReplicaState) {
    && r.role == LEADER && r.term == s.term && r.armed && !r.o1 && r.o2
    && r.votedFor == (if p.clearOnLead then VOTED_NONE else s.votedFor)
    && r.log == s.log && r.electing == s.electing && r.again == s.again
  }

  /** The first deciding reply makes the candidate `s` a follower of its term or the leader; without one it
      stays the candidate it was, with all granted replies counted. */
  ghost predicate AfterReplies(p: Policy, n: nat, s: ReplicaState, ms: seq<VoteReply>, r: ReplicaState) {
    && (r.role == CANDIDATE <==> Undecided(p, n, s, ms, |ms|))
    && (r.role == CANDIDATE ==> r == s.(votes := r.votes, voters := r.voters) && Tally(p, r) == Tallied(p, s, ms))
    && forall k: nat | k < |ms| && Decides(p, n, s, ms, k) && Undecided(p, n, s, ms, k) ::
         if Deposes(s, ms[k]) then Deposed(s, ms[k].term, r) else Elected(p, s, r)
  }

  lemma {:induction false} SameGranted(s: ReplicaState, t: ReplicaState, ms: seq<VoteReply>)
    requires s.electionTerm == t.electionTerm && s.id == t.id
    ensures Granted(s, ms) == Granted(t, ms)
    decreases |ms|
  {
    if ms == [] {
    } else {
      SameGranted(s, t, ms[1..]);
    }
  }

  /** The candidate `s` after one more reply that decides nothing. */
  function Counting(p: Policy, s: ReplicaState, m: VoteReply): ReplicaState {
    if Counts(s, m) then Count(p, s, m.sender) else s
  }

  lemma ShiftTally(p: Policy, s: ReplicaState, m: VoteReply, ms: seq<VoteReply>)
    ensures Tallied(p, Counting(p, s, m), ms) == Tallied(p, s, [m] + ms)
  {
    var s1 := Counting(p, s, m);
    assert ([m] + ms)[1..] == ms;
    SameGranted(s, s1, ms);
    if p.distinctVotes {
      assert forall x :: x in [m] + ms <==> x == m || x in ms;
      assert Voters(s1, ms) == Voters(s, [m] + ms);
    }
  }

  lemma ShiftDecides(p: Policy, n: nat, s: ReplicaState, m: VoteReply, ms: seq<VoteReply>, k: nat)
    requires k < |ms|
    ensures Decides(p, n, Counting(p, s, m), ms, k) <==> Decides(p, n, s, [m] + ms, k + 1)
  {
    assert ([m] + ms)[..k + 2] == [m] + ms[..k + 1];
    ShiftTally(p, s, m, ms[..k + 1]);
  }

  lemma ShiftUndecided(p: Policy, n: nat, s: ReplicaState, m: VoteReply, ms: seq<VoteReply>, k: nat)
    requires k <= |ms| && !Decides(p, n, s, [m] + ms, 0)
    ensures Undecided(p, n, Counting(p, s, m), ms, k) <==> Undecided(p, n, s, [m] + ms, k + 1)
  {
    var all := [m] + ms;
    forall j: nat | j < k ensures Decides(p, n, Counting(p, s, m), ms, j) <==> Decides(p, n, s, all, j + 1) {
      ShiftDecides(p, n, s, m, ms, j);
    }
    if Undecided(p, n, s, all, k + 1) {
      forall j: nat | j < k ensures !Decides(p, n, Counting(p, s, m), ms, j) {
        assert !Decides(p, n, s, all, j + 1);
      }
    }
    if Undecided(p, n, Counting(p, s, m), ms, k) {
      forall j: nat | j < k + 1 ensures !Decides(p, n, s, all, j) {
        assert j > 0 ==> !Decides(p, n, Counting(p, s, m), ms, j - 1);
      }
    }
  }

  lemma ShiftReplies(p: Policy, n: nat, s: ReplicaState, m: VoteReply, ms: seq<VoteReply>, r: ReplicaState)
    requires !Decides(p, n, s, [m] + ms, 0) && AfterReplies(p, n, Counting(p, s, m), ms, r)
    ensures AfterReplies(p, n, s, [m] + ms, r)
  {
    hide Decides, Undecided, Tallied, Voters, Counts;
    var s1, all := Counting(p, s, m), [m] + ms;
    ShiftUndecided(p, n, s, m, ms, |ms|);
    ShiftTally(p, s, m, ms);
    forall k: nat | k < |all| && Decides(p, n, s, all, k) && Undecided(p, n, s, all, k)
      ensures if Deposes(s, all[k]) then Deposed(s, all[k].term, r) else Elected(p, s, r)
    {
      assert k > 0;
      ShiftDecides(p, n, s, m, ms, k - 1);
      ShiftUndecided(p, n, s, m, ms, k - 1);
    }
  }

  lemma FirstTally(p: Policy, s: ReplicaState, m: VoteReply)
    ensures Tallied(p, s, [m]) == Tally(p, Counting(p, s, m))
  {
    ShiftTally(p, s, m, []);
    assert [m] + [] == [m];
    ShiftNothing(p, Counting(p, s, m));
  }

  lemma OneReply(p: Policy, n: nat, s: ReplicaState, m: VoteReply, ms: seq<VoteReply>)
    requires s.role == CANDIDATE && ms != [] && ms[0] == m
    ensures var s1 := OnReply(p, n, s, m);
            if Deposes(s, m) then Deposed(s, m.term, s1)
            else if Elects(p, n, s, ms, 0) then Elected(p, s, s1)
            else s1 == Counting(p, s, m)
  {
    hide Tallied, Counts;
    assert ms[..1] == [m];
    FirstTally(p, s, m);
  }

  /** A batch of replies at a candidate amounts to its first deciding reply. */
  lemma {:induction false} RepliesExact(p: Policy, n: nat, s: ReplicaState, batch: seq<Sample<VoteReply>>)
    requires s.role == CANDIDATE
    ensures AfterReplies(p, n, s, Messages(batch), OnReplies(p, n, s, batch))
    decreases |batch|
  {
    hide Counts, Tallied, Voters;
    if batch == [] {
      ShiftNothing(p, s);
    } else if batch[0] == Invalid {
      assert Messages(batch) == Messages(batch[1..]);
      RepliesExact(p, n, s, batch[1..]);
    } else {
      var m, ms1 := batch[0].msg, Messages(batch[1..]);
      var ms, s1 := Messages(batch), OnReply(p, n, s, m);
      assert ms == [m] + ms1;
      OneReply(p, n, s, m, ms);
      if Decides(p, n, s, ms, 0) {
        RestIsSkipped(p, n, s1, batch[1..]);
        assert forall k: nat | k < |ms| && Undecided(p, n, s, ms, k) :: k == 0;
      } else {
        RepliesExact(p, n, s1, batch[1..]);
        ShiftReplies(p, n, s, m, ms1, OnReplies(p, n, s1, batch[1..]));
      }
    }
  }

  lemma ShiftNothing(p: Policy, s: ReplicaState)
    ensures Tallied(p, s, []) == Tally(p, s)
  {
    assert Voters(s, []) == s.voters;
  }

  /** All votes `s` has after the replies `ms`. */
  function AllVotes(p: Policy, s: ReplicaState, ms: seq<VoteReply>): nat {
    if p.distinctVotes then |Voters(s, ms)| else s.votes + Granted(s, ms)
  }

  lemma ShiftAllVotes(p: Policy, s: ReplicaState, m: VoteReply, ms: seq<VoteReply>)
    requires p.distinctVotes || s.votes < 255
    ensures AllVotes(p, Counting(p, s, m), ms) == AllVotes(p, s, [m] + ms)
    ensures AllVotes(p, Counting(p, s, m), ms) >= Tally(p, Counting(p, s, m))
  {
    var s1 := Counting(p, s, m);
    assert ([m] + ms)[1..] == ms;
    SameGranted(s, s1, ms);
    if p.distinctVotes {
      assert forall x :: x in [m] + ms <==> x == m || x in ms;
      assert Voters(s1, ms) == Voters(s, [m] + ms);
      assert Voters(s1, ms) == s1.voters + (Voters(s1, ms) - s1.voters);
    }
  }

  lemma NoMoreVotes(p: Policy, s: ReplicaState)
    ensures AllVotes(p, s, []) == Tally(p, s)
  {
    assert Voters(s, []) == s.voters;
  }

  lemma CountingStays(p: Policy, s: ReplicaState, m: VoteReply)
    ensures Counting(p, s, m) == s.(votes := Counting(p, s, m).votes, voters := Counting(p, s, m).voters)
  {
  }

  lemma QuorumLeads(p: Policy, n: nat, s: ReplicaState, m: VoteReply)
    requires s.role == CANDIDATE && !HasQuorum(p, n, s) && !Deposes(s, m)
    ensures if HasQuorum(p, n, Counting(p, s, m)) then OnReply(p, n, s, m).role == LEADER
            else OnReply(p, n, s, m) == Counting(p, s, m)
  {
  }

  /** Without a reply from a later term, a candidate leads afterwards exactly when the votes it had and the
      granted replies together are a majority. */
  lemma {:induction false} MajorityLeads(p: Policy, n: nat, s: ReplicaState, batch: seq<Sample<VoteReply>>)
    requires s.role == CANDIDATE && n <= 255 && !HasQuorum(p, n, s)
    requires forall m | m in Messages(batch) :: !Deposes(s, m)
    ensures OnReplies(p, n, s, batch).role == if AllVotes(p, s, Messages(batch)) * 2 > n then LEADER else CANDIDATE
    decreases |batch|
  {
    hide Counting, OnReply, AllVotes;
    if batch == [] {
      NoMoreVotes(p, s);
    } else if batch[0] == Invalid {
      assert Messages(batch) == Messages(batch[1..]);
      MajorityLeads(p, n, s, batch[1..]);
    } else {
      var m, ms1 := batch[0].msg, Messages(batch[1..]);
      var s1 := OnReply(p, n, s, m);
      assert Messages(batch) == [m] + ms1 && m in Messages(batch);
      QuorumLeads(p, n, s, m);
      CountingStays(p, s, m);
      ShiftAllVotes(p, s, m, ms1);
      if s1.role == LEADER {
        RestIsSkipped(p, n, s1, batch[1..]);
      } else {
        assert forall x | x in ms1 :: x in Messages(batch) && !Deposes(s, x);
        MajorityLeads(p, n, s1, batch[1..]);
      }
    }
  }
}
