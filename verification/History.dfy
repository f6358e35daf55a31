/** What one replica's history looks like in every state it can be in. */
module History {
  import opened Model
  import opened ReplicaRules

  /** Does event `e` clear the vote of term `t`? */
  predicate Clears(p: Policy, e: Event, t: nat) {
    (p.clearOnLead && e == Led(t)) || (p.clearOnStepDown && e == SteppedDown(t))
  }

  predicate Starts(e: Event) {
    e.Ran? || e.Entered?
  }

  predicate Office(e: Event) {
    e.Led? || e.SteppedDown?
  }

  /** Terms never go down along a trace and never exceed the current one. */
  ghost predicate TermsOrdered(tr: seq<Event>, term: nat) {
    && (forall j, k | 0 <= j <= k < |tr| :: tr[j].term <= tr[k].term)
    && (forall k | 0 <= k < |tr| :: tr[k].term <= term)
  }

  /** `Ran` and `Entered` are the first events of their term, and the current term has one of them. */
  ghost predicate StartsFirst(tr: seq<Event>, term: nat) {
    && (forall j, k | 0 <= j < k < |tr| && Starts(tr[k]) :: tr[j].term < tr[k].term)
    && (Ran(term) in tr || Entered(term) in tr)
  }

  /** A candidacy starts with a vote for oneself. */
  ghost predicate SelfVotes(tr: seq<Event>, id: Id) {
    forall k | 0 <= k < |tr| && tr[k].Ran? :: k + 1 < |tr| && tr[k + 1] == Voted(tr[k].term, id)
  }

  /** Only who ran in a term leads it or steps down in it: once each, and in that order. */
  ghost predicate OfficeOnce(tr: seq<Event>) {
    && (forall k | 0 <= k < |tr| && Office(tr[k]) :: Ran(tr[k].term) in tr)
    && (forall j, k | 0 <= j < k < |tr| && Office(tr[k]) && tr[j].term == tr[k].term ::
          !tr[j].SteppedDown? && (tr[k].Led? ==> !tr[j].Led?))
  }

  ghost predicate ClearedBetween(p: Policy, tr: seq<Event>, j: int, k: int, t: nat) {
    exists r | j < r < k && 0 <= r < |tr| :: Clears(p, tr[r], t)
  }

  /** Two votes of one term for different candidates have a clearing between them. */
  ghost predicate VotesSeparated(p: Policy, tr: seq<Event>) {
    forall j, k | 0 <= j < k < |tr| && tr[j].Voted? && tr[k].Voted?
                  && tr[j].term == tr[k].term && tr[j].candidate != tr[k].candidate ::
      ClearedBetween(p, tr, j, k, tr[k].term)
  }

  /** `votedFor` is the vote of the current term since the last clearing. */
  ghost predicate VoteHeld(p: Policy, tr: seq<Event>, term: nat, votedFor: Id) {
    && (votedFor != VOTED_NONE ==> Voted(term, votedFor) in tr)
    && (forall k | 0 <= k < |tr| && tr[k].Voted? ::
          tr[k].candidate != VOTED_NONE
          && (tr[k].term == term && tr[k].candidate != votedFor ==> ClearedBetween(p, tr, k, |tr|, term)))
  }

  ghost predicate RoleMatches(s: ReplicaState) {
    match s.role
    case FOLLOWER => true
    case CANDIDATE =>
      && s.electionTerm == s.term && s.votedFor == s.id
      && Ran(s.term) in s.trace && Led(s.term) !in s.trace && SteppedDown(s.term) !in s.trace
    case LEADER =>
      && s.electionTerm == s.term
      && Led(s.term) in s.trace && SteppedDown(s.term) !in s.trace
  }

  ghost predicate TimerMatches(p: Policy, s: ReplicaState) {
    && s.armed == s.o2 && s.o2 != s.o1
    && (s.role == LEADER ==> s.armed)
    && (s.role == FOLLOWER ==> !s.armed)
    && (p.guardStart && s.armed ==> s.role == LEADER)
  }

  /** The log is numbered from 1, its terms never go down, and each is a term this replica led. */
  ghost predicate LogMatches(log: seq<LogEntry>, term: nat, tr: seq<Event>) {
    && (forall k | 0 <= k < |log| ::
          log[k].id == k + 1 && log[k].term <= term && Led(log[k].term) in tr)
    && (forall j, k | 0 <= j < k < |log| :: log[j].term <= log[k].term)
  }

  /** The appends of a trace carry rising ids, none above the length of the log. */
  ghost predicate AppendsRise(tr: seq<Event>, length: nat) {
    && (forall k | 0 <= k < |tr| && tr[k].Appended? :: tr[k].id <= length && Led(tr[k].term) in tr)
    && (forall j, k | 0 <= j < k < |tr| && tr[j].Appended? && tr[k].Appended? :: tr[j].id < tr[k].id)
  }

  ghost predicate TraceMatches(p: Policy, tr: seq<Event>, term: nat, votedFor: Id, length: nat) {
    && TermsOrdered(tr, term)
    && StartsFirst(tr, term)
    && OfficeOnce(tr)
    && VotesSeparated(p, tr)
    && VoteHeld(p, tr, term, votedFor)
    && AppendsRise(tr, length)
  }

  /** What every state of a replica satisfies. */
  ghost predicate Disciplined(p: Policy, s: ReplicaState) {
    && s.id != VOTED_NONE
    && TraceMatches(p, s.trace, s.term, s.votedFor, |s.log|)
    && SelfVotes(s.trace, s.id)
    && RoleMatches(s)
    && TimerMatches(p, s)
    && LogMatches(s.log, s.term, s.trace)
  }

  function Rank(r: Role): nat {
    match r case CANDIDATE => 0 case LEADER => 1 case FOLLOWER => 2
  }

  /** `t` can follow `s`: the term does not go down, inside a term the role only moves from candidate
      over leader to follower, and neither the history nor the log loses anything. */
  ghost predicate Advances(s: ReplicaState, t: ReplicaState) {
    && t.id == s.id
    && s.term <= t.term
    && (s.term == t.term ==> Rank(s.role) <= Rank(t.role))
    && s.trace <= t.trace
    && s.log <= t.log
  }

  // ---------- one more event

  lemma InSnoc(tr: seq<Event>, e: Event, x: Event)
    ensures x in tr + [e] <==> x in tr || x == e
  {
  }

  lemma SnocTerms(tr: seq<Event>, term: nat, e: Event)
    requires TermsOrdered(tr, term) && term <= e.term
    ensures TermsOrdered(tr + [e], e.term)
  {
  }

  lemma SnocStarts(tr: seq<Event>, term: nat, e: Event)
    requires TermsOrdered(tr, term) && StartsFirst(tr, term)
    requires if Starts(e) then term < e.term else term == e.term
    ensures StartsFirst(tr + [e], e.term)
  {
    assert (tr + [e])[|tr|] == e;
    forall t | t in tr ensures t in tr + [e] {}
  }

  lemma SnocOffice(tr: seq<Event>, term: nat, e: Event)
    requires TermsOrdered(tr, term) && OfficeOnce(tr)
    requires term <= e.term
    requires Office(e) ==> Ran(e.term) in tr && SteppedDown(e.term) !in tr && (e.Led? ==> Led(e.term) !in tr)
    ensures OfficeOnce(tr + [e])
  {
    var t2 := tr + [e];
    forall k | 0 <= k < |t2| && Office(t2[k]) ensures Ran(t2[k].term) in t2 {
      InSnoc(tr, e, Ran(t2[k].term));
    }
  }

  lemma SnocCleared(p: Policy, tr: seq<Event>, e: Event, j: int, k: int, t: nat)
    requires ClearedBetween(p, tr, j, k, t)
    ensures ClearedBetween(p, tr + [e], j, k, t)
  {
    var r :| j < r < k && 0 <= r < |tr| && Clears(p, tr[r], t);
    assert (tr + [e])[r] == tr[r];
  }

  /** Any event but a vote keeps votes apart; a vote does so when the current vote allows it. */
  lemma SnocVotes(p: Policy, tr: seq<Event>, term: nat, votedFor: Id, e: Event)
    requires TermsOrdered(tr, term) && VotesSeparated(p, tr) && VoteHeld(p, tr, term, votedFor)
    requires term <= e.term
    requires e.Voted? && e.term == term ==> votedFor == VOTED_NONE || votedFor == e.candidate
    ensures VotesSeparated(p, tr + [e])
  {
    var t2 := tr + [e];
    forall j, k | 0 <= j < k < |t2| && t2[j].Voted? && t2[k].Voted?
                  && t2[j].term == t2[k].term && t2[j].candidate != t2[k].candidate
      ensures ClearedBetween(p, t2, j, k, t2[k].term)
    {
      assert ClearedBetween(p, tr, j, k, t2[k].term);
      SnocCleared(p, tr, e, j, k, t2[k].term);
    }
  }

  lemma SnocVoteHeld(p: Policy, tr: seq<Event>, term: nat, votedFor: Id, e: Event, votedFor': Id)
    requires TermsOrdered(tr, term) && VoteHeld(p, tr, term, votedFor)
    requires term <= e.term
    requires e.Voted? ==> e.candidate != VOTED_NONE
    requires votedFor' == if e.Voted? then e.candidate
                          else if term < e.term || Clears(p, e, term) then VOTED_NONE
                          else votedFor
    requires e.Voted? && e.term == term ==> votedFor == VOTED_NONE || votedFor == e.candidate
    ensures VoteHeld(p, tr + [e], e.term, votedFor')
  {
    var t2 := tr + [e];
    assert t2[|tr|] == e;
    InSnoc(tr, e, Voted(e.term, votedFor'));
    forall k | 0 <= k < |t2| && t2[k].Voted? && t2[k].term == e.term && t2[k].candidate != votedFor'
      ensures ClearedBetween(p, t2, k, |t2|, e.term)
    {
      if Clears(p, e, term) {
        assert Clears(p, t2[|tr|], e.term);
      } else {
        assert ClearedBetween(p, tr, k, |tr|, e.term);
        SnocCleared(p, tr, e, k, |tr|, e.term);
      }
    }
  }

  lemma SnocAppends(tr: seq<Event>, length: nat, e: Event, length': nat)
    requires AppendsRise(tr, length) && length <= length'
    requires e.Appended? ==> length < e.id <= length' && Led(e.term) in tr
    ensures AppendsRise(tr + [e], length')
  {
    var t2 := tr + [e];
    forall k | 0 <= k < |t2| && t2[k].Appended? ensures Led(t2[k].term) in t2 {
      InSnoc(tr, e, Led(t2[k].term));
    }
  }

  lemma SnocSelfVotes(tr: seq<Event>, id: Id, e: Event)
    requires SelfVotes(tr, id) && !e.Ran?
    ensures SelfVotes(tr + [e], id)
  {
  }

  lemma BeginSelfVotes(tr: seq<Event>, id: Id, t: nat)
    requires SelfVotes(tr, id)
    ensures SelfVotes(tr + [Ran(t)] + [Voted(t, id)], id)
  {
    assert (tr + [Ran(t)] + [Voted(t, id)])[|tr| + 1] == Voted(t, id);
  }

  lemma LogStays(log: seq<LogEntry>, term: nat, tr: seq<Event>, term': nat, tr': seq<Event>)
    requires LogMatches(log, term, tr) && term <= term' && tr <= tr'
    ensures LogMatches(log, term', tr')
  {
    forall e | e in tr ensures e in tr' {}
  }

  lemma SnocLog(log: seq<LogEntry>, term: nat, tr: seq<Event>, e: Event)
    requires LogMatches(log, term, tr) && Led(term) in tr
    ensures LogMatches(log + [LogEntry(|log| + 1, term)], term, tr + [e])
  {
    var log2 := log + [LogEntry(|log| + 1, term)];
    forall k | 0 <= k < |log2| ensures Led(log2[k].term) in tr + [e] {
      InSnoc(tr, e, Led(log2[k].term));
    }
  }

  /** When one more event fits the trace, and the vote held after it. */
  ghost predicate Fits(p: Policy, tr: seq<Event>, term: nat, votedFor: Id, length: nat, e: Event) {
    && (if Starts(e) then term < e.term else term == e.term)
    && (Office(e) ==> Ran(e.term) in tr && SteppedDown(e.term) !in tr && (e.Led? ==> Led(e.term) !in tr))
    && (e.Voted? ==> e.candidate != VOTED_NONE && (votedFor == VOTED_NONE || votedFor == e.candidate))
    && (e.Appended? ==> e.id == length + 1 && Led(e.term) in tr)
  }

  function VoteAfter(p: Policy, votedFor: Id, e: Event): Id {
    if e.Voted? then e.candidate
    else if Starts(e) || Clears(p, e, e.term) then VOTED_NONE
    else votedFor
  }

  function LengthAfter(length: nat, e: Event): nat {
    if e.Appended? then e.id else length
  }

  lemma Snoc(p: Policy, tr: seq<Event>, term: nat, votedFor: Id, length: nat, e: Event)
    requires TraceMatches(p, tr, term, votedFor, length) && Fits(p, tr, term, votedFor, length, e)
    ensures TraceMatches(p, tr + [e], e.term, VoteAfter(p, votedFor, e), LengthAfter(length, e))
  {
    SnocTerms(tr, term, e);
    SnocStarts(tr, term, e);
    SnocOffice(tr, term, e);
    SnocVotes(p, tr, term, votedFor, e);
    SnocVoteHeld(p, tr, term, votedFor, e, VoteAfter(p, votedFor, e));
    SnocAppends(tr, length, e, LengthAfter(length, e));
  }

  // ---------- the five moves every handler is made of

  lemma EnterKeeps(p: Policy, s: ReplicaState, term: nat)
    requires Disciplined(p, s) && term > s.term
    ensures Disciplined(p, BecomeFollower(p, s, term)) && Advances(s, BecomeFollower(p, s, term))
  {
    Snoc(p, s.trace, s.term, s.votedFor, |s.log|, Entered(term));
    SnocSelfVotes(s.trace, s.id, Entered(term));
    LogStays(s.log, s.term, s.trace, term, s.trace + [Entered(term)]);
  }

  lemma RanBeforeOffice(p: Policy, s: ReplicaState)
    requires Disciplined(p, s) && s.role != FOLLOWER
    ensures Ran(s.term) in s.trace && SteppedDown(s.term) !in s.trace
  {
    if s.role == LEADER {
      var k :| 0 <= k < |s.trace| && s.trace[k] == Led(s.term);
      assert Office(s.trace[k]);
    }
  }

  /** A replica whose timer is armed ran in its term, and under the guard it leads it. */
  lemma ArmedMeans(p: Policy, s: ReplicaState)
    requires Disciplined(p, s) && s.armed
    ensures Ran(s.term) in s.trace && (p.guardStart ==> Led(s.term) in s.trace)
  {
    RanBeforeOffice(p, s);
  }

  lemma StepDownKeeps(p: Policy, s: ReplicaState)
    requires Disciplined(p, s) && s.role != FOLLOWER
    ensures Disciplined(p, BecomeFollower(p, s, s.term)) && Advances(s, BecomeFollower(p, s, s.term))
  {
    var e := SteppedDown(s.term);
    RanBeforeOffice(p, s);
    Snoc(p, s.trace, s.term, s.votedFor, |s.log|, e);
    SnocSelfVotes(s.trace, s.id, e);
    LogStays(s.log, s.term, s.trace, s.term, s.trace + [e]);
  }

  lemma BecomeLeaderKeeps(p: Policy, s: ReplicaState)
    requires Disciplined(p, s) && s.role == CANDIDATE
    ensures Disciplined(p, BecomeLeader(p, s)) && Advances(s, BecomeLeader(p, s))
  {
    Snoc(p, s.trace, s.term, s.votedFor, |s.log|, Led(s.term));
    SnocSelfVotes(s.trace, s.id, Led(s.term));
    LogStays(s.log, s.term, s.trace, s.term, s.trace + [Led(s.term)]);
  }

  lemma GrantKeeps(p: Policy, s: ReplicaState, m: VoteRequest)
    requires Disciplined(p, s) && CanGrant(s, m) && m.sender != VOTED_NONE
    ensures Disciplined(p, Grant(s, m.sender)) && Advances(s, Grant(s, m.sender))
  {
    Snoc(p, s.trace, s.term, s.votedFor, |s.log|, Voted(s.term, m.sender));
    SnocSelfVotes(s.trace, s.id, Voted(s.term, m.sender));
    LogStays(s.log, s.term, s.trace, s.term, s.trace + [Voted(s.term, m.sender)]);
  }

  lemma BeginTrace(p: Policy, tr: seq<Event>, term: nat, votedFor: Id, length: nat, id: Id)
    requires TraceMatches(p, tr, term, votedFor, length) && id != VOTED_NONE
    ensures TraceMatches(p, tr + [Ran(term + 1)] + [Voted(term + 1, id)], term + 1, id, length)
  {
    hide TraceMatches;
    Snoc(p, tr, term, votedFor, length, Ran(term + 1));
    Snoc(p, tr + [Ran(term + 1)], term + 1, VOTED_NONE, length, Voted(term + 1, id));
  }

  lemma NoLaterEvents(tr: seq<Event>, term: nat, e: Event)
    requires TermsOrdered(tr, term) && e.term > term
    ensures e !in tr
  {
  }

  lemma BeginElectionKeeps(p: Policy, s: ReplicaState)
    requires Disciplined(p, s) && (p.guardStart ==> s.role != LEADER)
    ensures Disciplined(p, BeginElection(s)) && Advances(s, BeginElection(s))
  {
    hide TraceMatches, SelfVotes, LogMatches;
    var t := s.term + 1;
    var tr := s.trace + [Ran(t)] + [Voted(t, s.id)];
    assert BeginElection(s).trace == tr;
    BeginTrace(p, s.trace, s.term, s.votedFor, |s.log|, s.id);
    BeginSelfVotes(s.trace, s.id, t);
    LogStays(s.log, s.term, s.trace, t, tr);
    TermsOf(p, s);
    NoLaterEvents(s.trace, s.term, Led(t));
    NoLaterEvents(s.trace, s.term, SteppedDown(t));
    assert tr[|s.trace|] == Ran(t);
  }

  lemma TermsOf(p: Policy, s: ReplicaState)
    requires Disciplined(p, s)
    ensures TermsOrdered(s.trace, s.term)
  {
  }

  lemma AppendKeeps(p: Policy, s: ReplicaState)
    requires Disciplined(p, s) && s.role == LEADER
    ensures Disciplined(p, OnInput(s)) && Advances(s, OnInput(s))
  {
    var e := Appended(s.term, |s.log| + 1);
    Snoc(p, s.trace, s.term, s.votedFor, |s.log|, e);
    SnocSelfVotes(s.trace, s.id, e);
    SnocLog(s.log, s.term, s.trace, e);
  }

  // ---------- the handlers, one message at a time

  lemma AdvancesTransitive(a: ReplicaState, b: ReplicaState, c: ReplicaState)
    requires Advances(a, b) && Advances(b, c)
    ensures Advances(a, c)
  {
  }

  lemma CatchKeeps(p: Policy, s: ReplicaState, term: nat)
    requires Disciplined(p, s)
    ensures Disciplined(p, Catch(p, s, term)) && Advances(s, Catch(p, s, term))
  {
    if term > s.term { EnterKeeps(p, s, term); }
  }

  lemma OnRequestKeeps(p: Policy, s: ReplicaState, m: VoteRequest)
    requires Disciplined(p, s) && m.sender != VOTED_NONE
    ensures Disciplined(p, OnRequest(p, s, m)) && Advances(s, OnRequest(p, s, m))
  {
    var s1 := Catch(p, s, m.term);
    CatchKeeps(p, s, m.term);
    if CanGrant(s1, m) {
      GrantKeeps(p, s1, m);
      AdvancesTransitive(s, s1, Grant(s1, m.sender));
    }
  }

  lemma CountKeeps(p: Policy, s: ReplicaState, sender: Id)
    requires Disciplined(p, s)
    ensures Disciplined(p, Count(p, s, sender)) && Advances(s, Count(p, s, sender))
  {
  }

  lemma OnReplyKeeps(p: Policy, n: nat, s: ReplicaState, m: VoteReply)
    requires Disciplined(p, s)
    ensures Disciplined(p, OnReply(p, n, s, m)) && Advances(s, OnReply(p, n, s, m))
  {
    if s.role == CANDIDATE {
      if m.term > s.electionTerm {
        EnterKeeps(p, s, m.term);
      } else if Counts(s, m) {
        var s1 := Count(p, s, m.sender);
        CountKeeps(p, s, m.sender);
        if HasQuorum(p, n, s1) {
          BecomeLeaderKeeps(p, s1);
          AdvancesTransitive(s, s1, BecomeLeader(p, s1));
        }
      }
    }
  }

  lemma OnAppendKeeps(p: Policy, s: ReplicaState, m: AppendEntries)
    requires Disciplined(p, s)
    ensures Disciplined(p, OnAppend(p, s, m)) && Advances(s, OnAppend(p, s, m))
  {
    var s1 := Catch(p, s, m.term);
    CatchKeeps(p, s, m.term);
    if m.term == s1.term && s1.role != FOLLOWER {
      StepDownKeeps(p, s1);
      AdvancesTransitive(s, s1, OnAppend(p, s, m));
    }
  }

  lemma InitialDisciplined(p: Policy, id: Id)
    requires id != VOTED_NONE
    ensures Disciplined(p, Initial(id))
  {
    var s := Initial(id);
    assert s.trace[0] == Entered(0);
  }
}
