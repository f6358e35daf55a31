/** What a whole batch amounts to, for every state and every batch. */
module Batches {
  import opened Model
  import opened ReplicaRules

  function Messages<T>(batch: seq<Sample<T>>): seq<T>
    decreases |batch|
  {
    if batch == [] then []
    else (if batch[0].Valid? then [batch[0].msg] else []) + Messages(batch[1..])
  }

  // ---------- heartbeats

  function Highest(term: nat, ms: seq<AppendEntries>): nat
    decreases |ms|
  {
    if ms == [] then term else Highest(if ms[0].term > term then ms[0].term else term, ms[1..])
  }

  /** `Highest` is the maximum. */
  lemma {:induction false} HighestIsMax(term: nat, ms: seq<AppendEntries>)
    ensures Highest(term, ms) >= term && forall m | m in ms :: Highest(term, ms) >= m.term
    ensures Highest(term, ms) == term || exists m | m in ms :: m.term == Highest(term, ms)
    decreases |ms|
  {
    if ms == [] {
    } else {
      var t := if ms[0].term > term then ms[0].term else term;
      HighestIsMax(t, ms[1..]);
      assert ms == [ms[0]] + ms[1..];
      if Highest(t, ms[1..]) != term && Highest(t, ms[1..]) == t {
        assert ms[0] in ms && ms[0].term == Highest(term, ms);
      }
    }
  }

  lemma {:induction false} AppendsFollowHighest(p: Policy, s: ReplicaState, batch: seq<Sample<AppendEntries>>)
    ensures OnAppends(p, s, batch).term == Highest(s.term, Messages(batch))
    decreases |batch|
  {
    if batch == [] {
    } else {
      var s1 := if batch[0].Valid? then OnAppend(p, s, batch[0].msg) else s;
      AppendsFollowHighest(p, s1, batch[1..]);
      if batch[0].Valid? {
        assert Messages(batch)[1..] == Messages(batch[1..]);
      } else {
        assert Messages(batch) == Messages(batch[1..]);
      }
    }
  }

  /** A batch of heartbeats takes a replica to the highest term it has seen: the maximum of its own and
      those received. */
  lemma AppendsReachHighest(p: Policy, s: ReplicaState, batch: seq<Sample<AppendEntries>>)
    ensures var t := OnAppends(p, s, batch).term;
            && t == Highest(s.term, Messages(batch))
            && t >= s.term && (forall m | m in Messages(batch) :: t >= m.term)
            && (t == s.term || exists m | m in Messages(batch) :: m.term == t)
  {
    AppendsFollowHighest(p, s, batch);
    HighestIsMax(s.term, Messages(batch));
  }

  lemma {:induction false} AppendReplyAt(p: Policy, s: ReplicaState, batch: seq<Sample<AppendEntries>>, k: nat)
    requires k < |Messages(batch)|
    ensures var ms := Messages(batch);
            var rs := AppendReplies(p, s, batch);
            && k < |rs| && rs[k].sender == s.id
            && rs[k].term == Highest(s.term, ms[..k + 1])
            && (rs[k].success <==> ms[k].term == Highest(s.term, ms[..k + 1]))
    decreases |batch|
  {
    if batch[0] == Invalid {
      assert Messages(batch) == Messages(batch[1..]);
      AppendReplyAt(p, s, batch[1..], k);
    } else {
      var s1 := OnAppend(p, s, batch[0].msg);
      var ms, ms1 := Messages(batch), Messages(batch[1..]);
      assert ms == [batch[0].msg] + ms1;
      assert ms[..k + 1][1..] == ms1[..k];
      if k == 0 {
        assert ms[..1] == [batch[0].msg] && ms[..1][1..] == [];
        assert AppendReplies(p, s, batch)[0] == AppendReply(s.id, s1.term, batch[0].msg.term == s1.term);
        assert Highest(s.term, ms[..1]) == s1.term;
      } else {
        AppendReplyAt(p, s1, batch[1..], k - 1);
      }
    }
  }

  lemma {:induction false} AppendReplyCount(p: Policy, s: ReplicaState, batch: seq<Sample<AppendEntries>>)
    ensures |AppendReplies(p, s, batch)| == |Messages(batch)|
    decreases |batch|
  {
    if batch == [] {
    } else if batch[0] == Invalid {
      assert Messages(batch) == Messages(batch[1..]);
      AppendReplyCount(p, s, batch[1..]);
    } else {
      var s1 := OnAppend(p, s, batch[0].msg);
      assert |Messages(batch)| == 1 + |Messages(batch[1..])|;
      assert |AppendReplies(p, s, batch)| == 1 + |AppendReplies(p, s1, batch[1..])|;
      AppendReplyCount(p, s1, batch[1..]);
    }
  }

  /** There is one reply per message; it carries the highest term so far and reports success exactly when
      its message has that term. */
  lemma AppendRepliesExact(p: Policy, s: ReplicaState, batch: seq<Sample<AppendEntries>>)
    ensures var ms := Messages(batch);
            var rs := AppendReplies(p, s, batch);
            && |rs| == |ms|
            && forall k | 0 <= k < |ms| ::
                 && rs[k].sender == s.id
                 && rs[k].term == Highest(s.term, ms[..k + 1])
                 && (rs[k].success <==> ms[k].term == Highest(s.term, ms[..k + 1]))
  {
    AppendReplyCount(p, s, batch);
    forall k | 0 <= k < |Messages(batch)|
      ensures var ms := Messages(batch);
              var rs := AppendReplies(p, s, batch);
              && rs[k].sender == s.id
              && rs[k].term == Highest(s.term, ms[..k + 1])
              && (rs[k].success <==> ms[k].term == Highest(s.term, ms[..k + 1]))
    {
      AppendReplyAt(p, s, batch, k);
    }
  }

  lemma {:induction false} FollowerStays(p: Policy, s: ReplicaState, batch: seq<Sample<AppendEntries>>)
    requires s.role == FOLLOWER
    ensures OnAppends(p, s, batch).role == FOLLOWER
    decreases |batch|
  {
    if batch == [] {
    } else {
      FollowerStays(p, if batch[0].Valid? then OnAppend(p, s, batch[0].msg) else s, batch[1..]);
    }
  }

  /** A batch ends an election exactly when one of its messages has a term at least that of the replica
      before the batch; the replica is then a follower in the highest of those terms. */
  lemma {:induction false} ElectionEndsExactly(p: Policy, s: ReplicaState, batch: seq<Sample<AppendEntries>>)
    ensures Finishes(p, s, batch) <==> exists m | m in Messages(batch) :: m.term >= s.term
    ensures Finishes(p, s, batch) ==> OnAppends(p, s, batch).role == FOLLOWER
    ensures OnAppends(p, s, batch).term == Highest(s.term, Messages(batch))
    decreases |batch|
  {
    AppendsFollowHighest(p, s, batch);
    if batch == [] {
    } else {
      if batch[0] == Invalid {
        assert Messages(batch) == Messages(batch[1..]);
        ElectionEndsExactly(p, s, batch[1..]);
      } else {
        var m := batch[0].msg;
        var s1 := OnAppend(p, s, m);
        assert Messages(batch) == [m] + Messages(batch[1..]);
        if m.term >= s.term {
          assert m in Messages(batch);
          FollowerStays(p, s1, batch[1..]);
        } else {
          ElectionEndsExactly(p, s, batch[1..]);
        }
      }
    }
  }

  // ---------- vote requests

  /** The same batch with a flag that is down again before each message. */
  function OnRequestsFresh(p: Policy, s: ReplicaState, batch: seq<Sample<VoteRequest>>): (ReplicaState, seq<VoteReply>)
    decreases |batch|
  {
    if batch == [] then (s, [])
    else match batch[0]
      case Invalid => OnRequestsFresh(p, s, batch[1..])
      case Valid(m) =>
        var s1 := OnRequest(p, s, m);
        var (s2, replies) := OnRequestsFresh(p, s1, batch[1..]);
        (s2, [ReplyOf(s1, Grants(p, s, m))] + replies)
  }

  /** What a sequence of replies claims: the granted terms and candidates. */
  function Claims(rs: seq<VoteReply>): set<(nat, Id)> {
    if rs == [] then {}
    else (if rs[0].granted then {(rs[0].term, rs[0].candidate)} else {}) + Claims(rs[1..])
  }

  /** A request that is not granted leaves term and vote alone. */
  lemma NoGrantNoChange(p: Policy, s: ReplicaState, m: VoteRequest)
    requires !Grants(p, s, m)
    ensures OnRequest(p, s, m) == s
  {
  }

  /** The carried flag changes neither the state nor the claims: it only repeats the last true grant. */
  lemma {:induction false} CarriedFlagHarmless(p: Policy, s: ReplicaState, batch: seq<Sample<VoteRequest>>, granted: bool)
    ensures var (s1, rs) := OnRequests(p, s, batch, granted);
            var (s2, single) := OnRequestsFresh(p, s, batch);
            && s1 == s2
            && Claims(single) <= Claims(rs)
            && Claims(rs) <= Claims(single) + if granted then {(s.term, s.votedFor)} else {}
    decreases |batch|
  {
    if batch == [] {
    } else {
      match batch[0]
      case Invalid => CarriedFlagHarmless(p, s, batch[1..], granted);
      case Valid(m) =>
        var s1 := OnRequest(p, s, m);
        var granted1 := granted || Grants(p, s, m);
        CarriedFlagHarmless(p, s1, batch[1..], granted1);
        var rs := OnRequests(p, s1, batch[1..], granted1).1;
        var single := OnRequestsFresh(p, s1, batch[1..]).1;
        assert ([ReplyOf(s1, granted1)] + rs)[1..] == rs;
        assert ([ReplyOf(s1, Grants(p, s, m))] + single)[1..] == single;
        if !Grants(p, s, m) { NoGrantNoChange(p, s, m); }
    }
  }

  /** A whole batch, as the handler runs it: same state and same claims as with a fresh flag. */
  lemma StickyFlagHarmless(p: Policy, s: ReplicaState, batch: seq<Sample<VoteRequest>>)
    ensures OnRequests(p, s, batch, false).0 == OnRequestsFresh(p, s, batch).0
    ensures Claims(OnRequests(p, s, batch, false).1) == Claims(OnRequestsFresh(p, s, batch).1)
  {
    CarriedFlagHarmless(p, s, batch, false);
  }

  ghost predicate GrantedUpTo(rs: seq<VoteReply>, k: int) {
    exists j | 0 <= j <= k && j < |rs| :: rs[j].granted
  }

  lemma GrantedUpToCons(r: VoteReply, rs: seq<VoteReply>, k: nat)
    ensures GrantedUpTo([r] + rs, k) <==> r.granted || GrantedUpTo(rs, k - 1)
  {
    var all := [r] + rs;
    if r.granted { assert all[0].granted; }
    if GrantedUpTo(rs, k - 1) {
      var j :| 0 <= j <= k - 1 && j < |rs| && rs[j].granted;
      assert all[j + 1].granted;
    }
    if GrantedUpTo(all, k) {
      var j :| 0 <= j <= k && j < |all| && all[j].granted;
      assert j == 0 || rs[j - 1].granted;
    }
  }

  /** Reply by reply: the flag says that this request or an earlier one of the batch was granted. */
  lemma {:induction false} StickyFlagMeans(p: Policy, s: ReplicaState, batch: seq<Sample<VoteRequest>>, granted: bool)
    ensures var rs := OnRequests(p, s, batch, granted).1;
            var single := OnRequestsFresh(p, s, batch).1;
            && |rs| == |single| == |Messages(batch)|
            && forall k | 0 <= k < |rs| ::
                 && rs[k] == single[k].(granted := rs[k].granted)
                 && (rs[k].granted <==> granted || GrantedUpTo(single, k))
    decreases |batch|
  {
    if batch == [] {
    } else {
      if batch[0] == Invalid {
        assert Messages(batch) == Messages(batch[1..]);
        StickyFlagMeans(p, s, batch[1..], granted);
      } else {
        var m := batch[0].msg;
        var s1 := OnRequest(p, s, m);
        var granted1 := granted || Grants(p, s, m);
        StickyFlagMeans(p, s1, batch[1..], granted1);
        var rs, single := OnRequests(p, s, batch, granted).1, OnRequestsFresh(p, s, batch).1;
        var rs1, single1 := OnRequests(p, s1, batch[1..], granted1).1, OnRequestsFresh(p, s1, batch[1..]).1;
        assert rs == [ReplyOf(s1, granted1)] + rs1 && single == [ReplyOf(s1, Grants(p, s, m))] + single1;
        forall k | 0 <= k < |rs|
          ensures && rs[k] == single[k].(granted := rs[k].granted)
                  && (rs[k].granted <==> granted || GrantedUpTo(single, k))
        {
          GrantedUpToCons(ReplyOf(s1, Grants(p, s, m)), single1, k);
        }
      }
    }
  }

  // ---------- vote replies

  /** Once a replica is no candidate any more, the rest of a batch changes nothing. */
  lemma {:induction false} RestIsSkipped(p: Policy, n: nat, s: ReplicaState, batch: seq<Sample<VoteReply>>)
    requires s.role != CANDIDATE
    ensures OnReplies(p, n, s, batch) == s
    decreases |batch|
  {
    if batch == [] {
    } else {
      RestIsSkipped(p, n, s, batch[1..]);
    }
  }

  // ---------- what the carried flag can do

  function Repeat<T>(x: T, n: nat): (xs: seq<T>)
    ensures |xs| == n && forall k | 0 <= k < n :: xs[k] == x
  {
    seq(n, k => x)
  }

  /** The batch in which each of `ms` arrives once, in this order. */
  function Delivered<T>(ms: seq<T>): (batch: seq<Sample<T>>)
    ensures |batch| == |ms| && forall k | 0 <= k < |ms| :: batch[k] == Valid(ms[k])
  {
    seq(|ms|, k requires 0 <= k < |ms| => Valid(ms[k]))
  }

  /** A request that `s` does not grant, because it is old or because the vote went elsewhere. */
  predicate Declines(s: ReplicaState, m: VoteRequest) {
    m.term < s.term || (m.term == s.term && s.votedFor != VOTED_NONE && s.votedFor != m.sender)
  }

  lemma {:induction false} FlagRepeats(p: Policy, s: ReplicaState, ms: seq<VoteRequest>)
    requires forall m | m in ms :: Declines(s, m)
    ensures OnRequests(p, s, Delivered(ms), true) == (s, Repeat(ReplyOf(s, true), |ms|))
    decreases |ms|
  {
    if ms == [] {
      assert Repeat(ReplyOf(s, true), 0) == [];
    } else {
      assert Delivered(ms)[1..] == Delivered(ms[1..]);
      FlagRepeats(p, s, ms[1..]);
      assert Declines(s, ms[0]);
      assert [ReplyOf(s, true)] + Repeat(ReplyOf(s, true), |ms| - 1) == Repeat(ReplyOf(s, true), |ms|);
    }
  }

  /** After one grant every declined request of the batch is answered with that grant again. */
  lemma GrantRepeats(p: Policy, s: ReplicaState, m: VoteRequest, ms: seq<VoteRequest>)
    requires Grants(p, s, m) && forall x | x in ms :: Declines(OnRequest(p, s, m), x)
    ensures var s1 := OnRequest(p, s, m);
            OnRequests(p, s, Delivered([m] + ms), false) == (s1, Repeat(ReplyOf(s1, true), 1 + |ms|))
  {
    var s1 := OnRequest(p, s, m);
    assert Delivered([m] + ms)[1..] == Delivered(ms);
    FlagRepeats(p, s1, ms);
    assert [ReplyOf(s1, true)] + Repeat(ReplyOf(s1, true), |ms|) == Repeat(ReplyOf(s1, true), 1 + |ms|);
  }

  /** Counted one by one, repetitions of one granted reply win an election. */
  lemma {:induction false} RepeatsWin(p: Policy, n: nat, s: ReplicaState, r: VoteReply, copies: nat)
    requires !p.distinctVotes && n <= 255 && s.role == CANDIDATE && r.term == s.electionTerm && Counts(s, r)
    requires 1 <= copies && 1 <= s.votes && s.votes * 2 <= n + 1 && n < (s.votes + copies) * 2
    ensures var s1 := OnReplies(p, n, s, Delivered(Repeat(r, copies)));
            && s1.role == LEADER && s1.id == s.id && s1.term == s.term && s1.log == s.log
            && s1.armed && s1.electing == s.electing && s1.again == s.again
            && s1.votedFor == (if p.clearOnLead then VOTED_NONE else s.votedFor)
            && s1.trace == s.trace + [Led(s.term)]
    decreases copies
  {
    var batch := Delivered(Repeat(r, copies));
    var s1 := OnReply(p, n, s, r);
    assert batch[1..] == Delivered(Repeat(r, copies - 1));
    if s1.role == LEADER {
      RestIsSkipped(p, n, s1, batch[1..]);
    } else {
      RepeatsWin(p, n, s1, r, copies - 1);
    }
  }

  /** One voter elects a candidate without any message arriving twice. `y` handles one batch: the request
      of `x`, which it grants, then requests it declines. Each of its replies arrives once at `x`, and
      they are enough when the batch has the length of the missing majority. */
  lemma CarriedFlagElects(p: Policy, n: nat, x: ReplicaState, y: ReplicaState, ms: seq<VoteRequest>)
    requires !p.distinctVotes && n <= 255 && x.role == CANDIDATE && x.votes == 1 && x.id != VOTED_NONE
    requires var m := VoteRequest(x.electionTerm, x.id);
             Grants(p, y, m) && forall d | d in ms :: Declines(OnRequest(p, y, m), d)
    requires n < (2 + |ms|) * 2 && 1 <= n
    ensures var replies := OnRequests(p, y, Delivered([VoteRequest(x.electionTerm, x.id)] + ms), false).1;
            |replies| == 1 + |ms| && OnReplies(p, n, x, Delivered(replies)).role == LEADER
  {
    var m := VoteRequest(x.electionTerm, x.id);
    GrantRepeats(p, y, m, ms);
    RepeatsWin(p, n, x, ReplyOf(OnRequest(p, y, m), true), 1 + |ms|);
  }

  // ---------- client input

  /** The entries a replica adds to its log in so many rounds: one per round for a leader, numbered on
      from its log and of its term, none for anybody else. */
  function NewEntries(s: ReplicaState, rounds: nat): (es: seq<LogEntry>)
    ensures |es| == if s.role == LEADER then rounds else 0
    ensures forall k | 0 <= k < |es| :: es[k] == LogEntry(|s.log| + 1 + k, s.term)
  {
    seq(if s.role == LEADER then rounds else 0, k requires 0 <= k => LogEntry(|s.log| + 1 + k, s.term))
  }

  function EventsOf(es: seq<LogEntry>): (tr: seq<Event>)
    ensures |tr| == |es| && forall k | 0 <= k < |es| :: tr[k] == Appended(es[k].term, es[k].id)
  {
    seq(|es|, k requires 0 <= k < |es| => Appended(es[k].term, es[k].id))
  }

  lemma {:induction false} InputsAppend(s: ReplicaState, rounds: nat)
    ensures var es := NewEntries(s, rounds);
            OnInputs(s, rounds) == s.(log := s.log + es, trace := s.trace + EventsOf(es))
    decreases rounds
  {
    var es := NewEntries(s, rounds);
    if rounds == 0 || s.role != LEADER {
      assert s.log + es == s.log && s.trace + EventsOf(es) == s.trace;
      if rounds > 0 { InputsAppend(s, rounds - 1); }
    } else {
      var s1, e := OnInput(s), LogEntry(|s.log| + 1, s.term);
      var es1 := NewEntries(s1, rounds - 1);
      InputsAppend(s1, rounds - 1);
      assert es == [e] + es1;
      assert EventsOf(es) == [Appended(e.term, e.id)] + EventsOf(es1);
      assert s1.log + es1 == s.log + es;
      assert s1.trace + EventsOf(es1) == s.trace + EventsOf(es);
    }
  }
}
