/** Whom one replica votes for in one term. */
module Voting {
  import opened Model
  import opened History

  /** The candidates a trace votes for in term `t`. */
  function Ballots(tr: seq<Event>, t: nat): set<Id> {
    if tr == [] then {}
    else
      var e := tr[|tr| - 1];
      Ballots(tr[..|tr| - 1], t) + if e.Voted? && e.term == t then {e.candidate} else {}
  }

  /** How often a trace clears its vote of term `t`. */
  function Clearings(p: Policy, tr: seq<Event>, t: nat): nat {
    if tr == [] then 0
    else Clearings(p, tr[..|tr| - 1], t) + if Clears(p, tr[|tr| - 1], t) then 1 else 0
  }

  lemma {:induction false} InBallots(tr: seq<Event>, t: nat, a: Id)
    ensures a in Ballots(tr, t) <==> Voted(t, a) in tr
  {
    if tr == [] {
    } else {
      InBallots(tr[..|tr| - 1], t, a);
      assert tr == tr[..|tr| - 1] + [tr[|tr| - 1]];
    }
  }

  /** Every vote of term `t` has been cleared since. */
  ghost predicate Open(p: Policy, tr: seq<Event>, t: nat) {
    forall k | 0 <= k < |tr| && tr[k].Voted? && tr[k].term == t :: ClearedBetween(p, tr, k, |tr|, t)
  }

  lemma OpenPrefix(p: Policy, tr: seq<Event>, t: nat)
    requires tr != [] && Open(p, tr, t) && !Clears(p, tr[|tr| - 1], t)
    ensures Open(p, tr[..|tr| - 1], t) && !(tr[|tr| - 1].Voted? && tr[|tr| - 1].term == t)
  {
    var n := |tr| - 1;
    assert tr[n].Voted? && tr[n].term == t ==> ClearedBetween(p, tr, n, |tr|, t);
    forall k | 0 <= k < n && tr[k].Voted? && tr[k].term == t
      ensures ClearedBetween(p, tr[..n], k, n, t)
    {
      var r :| k < r < |tr| && Clears(p, tr[r], t);
      assert Clears(p, tr[..n][r], t);
    }
  }

  lemma ClearedPrefix(p: Policy, tr: seq<Event>, j: int, k: int, t: nat)
    requires tr != [] && k < |tr|
    ensures ClearedBetween(p, tr, j, k, t) ==> ClearedBetween(p, tr[..|tr| - 1], j, k, t)
  {
    if ClearedBetween(p, tr, j, k, t) {
      var r :| j < r < k && 0 <= r < |tr| && Clears(p, tr[r], t);
      assert Clears(p, tr[..|tr| - 1][r], t);
    }
  }

  lemma SeparatedPrefix(p: Policy, tr: seq<Event>)
    requires tr != [] && VotesSeparated(p, tr)
    ensures VotesSeparated(p, tr[..|tr| - 1])
  {
    var pre := tr[..|tr| - 1];
    forall j, k | 0 <= j < k < |pre| && pre[j].Voted? && pre[k].Voted?
                  && pre[j].term == pre[k].term && pre[j].candidate != pre[k].candidate
      ensures ClearedBetween(p, pre, j, k, pre[k].term)
    {
      ClearedPrefix(p, tr, j, k, tr[k].term);
    }
  }

  /** A vote given while an earlier one stands is for the same candidate. */
  lemma VoteRepeats(p: Policy, tr: seq<Event>, t: nat)
    requires tr != [] && VotesSeparated(p, tr) && !Open(p, tr[..|tr| - 1], t)
    requires tr[|tr| - 1].Voted? && tr[|tr| - 1].term == t
    ensures tr[|tr| - 1].candidate in Ballots(tr[..|tr| - 1], t)
  {
    var n := |tr| - 1;
    var pre := tr[..n];
    var k :| 0 <= k < n && pre[k].Voted? && pre[k].term == t && !ClearedBetween(p, pre, k, n, t);
    ClearedPrefix(p, tr, k, n, t);
    assert pre[k] == Voted(t, tr[n].candidate);
    InBallots(pre, t, tr[n].candidate);
  }

  /** Between two clearings there is room for one candidate. */
  lemma {:induction false} BallotsBound(p: Policy, tr: seq<Event>, t: nat)
    requires VotesSeparated(p, tr)
    ensures |Ballots(tr, t)| <= Clearings(p, tr, t) + if Open(p, tr, t) then 0 else 1
  {
    if tr == [] {
    } else {
      var n := |tr| - 1;
      var pre, e := tr[..n], tr[n];
      SeparatedPrefix(p, tr);
      BallotsBound(p, pre, t);
      if Open(p, tr, t) && !Clears(p, e, t) {
        OpenPrefix(p, tr, t);
      }
      if e.Voted? && e.term == t && !Open(p, pre, t) {
        VoteRepeats(p, tr, t);
        assert Ballots(tr, t) == Ballots(pre, t);
      }
    }
  }

  /** Leading and stepping down happen at most once in a term. */
  ghost predicate OfficesDistinct(tr: seq<Event>) {
    forall j, k | 0 <= j < k < |tr| && Office(tr[k]) :: tr[j] != tr[k]
  }

  function OfficeCount(p: Policy, tr: seq<Event>, t: nat): nat {
    (if p.clearOnLead && Led(t) in tr then 1 else 0) + (if p.clearOnStepDown && SteppedDown(t) in tr then 1 else 0)
  }

  lemma {:induction false} ClearingsBound(p: Policy, tr: seq<Event>, t: nat)
    requires OfficesDistinct(tr)
    ensures Clearings(p, tr, t) <= OfficeCount(p, tr, t)
  {
    if tr == [] {
    } else {
      var n := |tr| - 1;
      var pre, e := tr[..n], tr[n];
      assert tr == pre + [e];
      ClearingsBound(p, pre, t);
      if Office(e) {
        assert forall j | 0 <= j < n :: pre[j] != e;
      }
    }
  }

  lemma OfficeRan(p: Policy, s: ReplicaState, e: Event)
    requires Disciplined(p, s) && Office(e) && e in s.trace
    ensures Ran(e.term) in s.trace
  {
    var k :| 0 <= k < |s.trace| && s.trace[k] == e;
    assert Office(s.trace[k]);
  }

  lemma RanVotedSelf(p: Policy, s: ReplicaState, t: nat)
    requires Disciplined(p, s) && Ran(t) in s.trace
    ensures Voted(t, s.id) in s.trace
  {
    var k :| 0 <= k < |s.trace| && s.trace[k] == Ran(t);
    assert s.trace[k + 1] == Voted(t, s.id);
  }

  lemma TraceFacts(p: Policy, s: ReplicaState)
    requires Disciplined(p, s)
    ensures VotesSeparated(p, s.trace) && OfficesDistinct(s.trace)
  {
  }

  /** A replica votes in a term for one candidate, and for one more per clearing its policy allows.
      One that did not run in the term has no clearing; one that did votes first for itself. */
  lemma VotesPerTerm(p: Policy, s: ReplicaState, t: nat)
    requires Disciplined(p, s)
    ensures |Ballots(s.trace, t)| <= 1 + OfficeCount(p, s.trace, t)
    ensures Ran(t) !in s.trace ==> |Ballots(s.trace, t)| <= 1
    ensures Ran(t) in s.trace ==> s.id in Ballots(s.trace, t)
  {
    hide Disciplined;
    var tr := s.trace;
    TraceFacts(p, s);
    BallotsBound(p, tr, t);
    ClearingsBound(p, tr, t);
    InBallots(tr, t, s.id);
    if Led(t) in tr { OfficeRan(p, s, Led(t)); }
    if SteppedDown(t) in tr { OfficeRan(p, s, SteppedDown(t)); }
    if Ran(t) in tr { RanVotedSelf(p, s, t); }
  }
}
