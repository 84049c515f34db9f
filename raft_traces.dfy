/** Properties of any sequence of election events at one Raft peer. Each event
    is one whole handler or field update, and the events may arrive in any order. */
module RaftTraces {
  import opened Wrappers
  import opened RaftElection

  /** Everything that changes one peer's election fields. */
  datatype Event =
    | AppendEntriesEv(aeArgs: AppendEntriesArgs)
    | RequestVoteEv(rvArgs: RequestVoteArgs)
    | TimeoutEv
    | StartElectionEv
    | YieldEv
    | LeaderSignalEv
    | VoteReplyEv(voteReply: Option<RequestVoteReply>)
    | VoteReplyTermEv(termReply: Option<RequestVoteReply>)
    | AppendEntriesReplyEv(aeReply: Option<AppendEntriesReply>)

  /** The state after one event at peer `me` of a `peerCount`-peer cluster. */
  function Step(s: RaftState, me: nat, peerCount: nat, e: Event): (t: RaftState)
    ensures t.currentTerm >= s.currentTerm
  {
    match e
    case AppendEntriesEv(a) => AppendEntriesStep(s, a).next
    case RequestVoteEv(a) => RequestVoteStep(s, a).next
    case TimeoutEv => TimeoutStep(s)
    case StartElectionEv => StartElectionStep(s, me)
    case YieldEv => YieldStep(s)
    case LeaderSignalEv => LeaderSignalStep(s)
    case VoteReplyEv(r) => CountVoteStep(s, peerCount, r)
    case VoteReplyTermEv(r) => VoteReplyTermStep(s, r)
    case AppendEntriesReplyEv(r) => AppendEntriesReplyStep(s, r)
  }

  /** The state after a whole sequence of events. */
  function Run(s: RaftState, me: nat, peerCount: nat, events: seq<Event>): RaftState
    decreases |events|
  {
    if events == [] then s else Run(Step(s, me, peerCount, events[0]), me, peerCount, events[1..])
  }

  /** A vote this peer cast: for `candidate`, in `term`. */
  datatype Vote = Vote(term: nat, candidate: nat)

  /** The vote one event casts: a granted request, or the peer's vote for itself on a new candidacy. */
  function VoteCast(s: RaftState, me: nat, e: Event): seq<Vote>
  {
    match e
    case RequestVoteEv(a) =>
      if RequestVoteStep(s, a).reply.voteGranted then [Vote(a.term, a.candidateId)] else []
    case StartElectionEv => [Vote(s.currentTerm + 1, me)]
    case _ => []
  }

  /** Every vote cast along a sequence of events, in order. */
  function Votes(s: RaftState, me: nat, peerCount: nat, events: seq<Event>): seq<Vote>
    decreases |events|
  {
    if events == [] then []
    else VoteCast(s, me, events[0]) + Votes(Step(s, me, peerCount, events[0]), me, peerCount, events[1..])
  }

  /** No two votes in the same term went to different candidates. */
  ghost predicate OneCandidatePerTerm(votes: seq<Vote>)
  {
    forall i, j :: 0 <= i < |votes| && 0 <= j < |votes| && votes[i].term == votes[j].term ==>
      votes[i].candidate == votes[j].candidate
  }

  /** The state remembers the votes cast so far: none is from a future term, and
      one in the current term is the one `votedFor` records. */
  ghost predicate Remembers(s: RaftState, votes: seq<Vote>)
  {
    forall i :: 0 <= i < |votes| ==>
      votes[i].term <= s.currentTerm &&
      (votes[i].term == s.currentTerm ==> s.votedFor == votes[i].candidate)
  }

  /** One event keeps the vote record consistent. */
  lemma StepRemembersVotes(s: RaftState, me: nat, peerCount: nat, prior: seq<Vote>, e: Event)
    requires Remembers(s, prior) && OneCandidatePerTerm(prior)
    ensures Remembers(Step(s, me, peerCount, e), prior + VoteCast(s, me, e))
    ensures OneCandidatePerTerm(prior + VoteCast(s, me, e))
  {
  }

  /** A whole sequence of events keeps the vote record consistent. */
  lemma {:induction false} RunRemembersVotes(s: RaftState, me: nat, peerCount: nat, prior: seq<Vote>, events: seq<Event>)
    requires Remembers(s, prior) && OneCandidatePerTerm(prior)
    ensures Remembers(Run(s, me, peerCount, events), prior + Votes(s, me, peerCount, events))
    ensures OneCandidatePerTerm(prior + Votes(s, me, peerCount, events))
    decreases |events|
  {
    if events != [] {
      var s' := Step(s, me, peerCount, events[0]);
      var cast := VoteCast(s, me, events[0]);
      StepRemembersVotes(s, me, peerCount, prior, events[0]);
      RunRemembersVotes(s', me, peerCount, prior + cast, events[1..]);
      assert prior + cast + Votes(s', me, peerCount, events[1..]) == prior + Votes(s, me, peerCount, events);
    }
  }

  /** Vote safety at one peer: from its initial state, whatever happens, the peer
      never votes for two different candidates in the same term (its own
      candidacies included). */
  lemma AtMostOneCandidatePerTerm(me: nat, peerCount: nat, events: seq<Event>)
    ensures OneCandidatePerTerm(Votes(InitialState, me, peerCount, events))
  {
    RunRemembersVotes(InitialState, me, peerCount, [], events);
    assert [] + Votes(InitialState, me, peerCount, events) == Votes(InitialState, me, peerCount, events);
  }

  /** The term never decreases along any sequence of events. */
  lemma {:induction false} TermNeverDecreases(s: RaftState, me: nat, peerCount: nat, events: seq<Event>)
    ensures Run(s, me, peerCount, events).currentTerm >= s.currentTerm
    decreases |events|
  {
    if events != [] {
      TermNeverDecreases(Step(s, me, peerCount, events[0]), me, peerCount, events[1..]);
    }
  }

  /** Which role changes one event can make. */
  lemma RoleChanges(s: RaftState, me: nat, peerCount: nat, e: Event)
    ensures var t := Step(s, me, peerCount, e);
      // only the election timeout makes a Candidate
      (t.role == Candidate && s.role != Candidate ==> e.TimeoutEv?) &&
      // only a granted vote that brings the tally above half the cluster, or the leader
      // signal, makes a Leader
      (t.role == Leader && s.role != Leader ==>
         (e.VoteReplyEv? && Granted(e.voteReply) && t.voteCount > peerCount / 2) || e.LeaderSignalEv?) &&
      // a peer becomes Follower only by hearing of an equal or newer term, by granting a vote,
      // or by giving up its candidacy
      (t.role == Follower && s.role != Follower ==>
         (e.AppendEntriesEv? && e.aeArgs.term >= s.currentTerm &&
            (s.role == Candidate || e.aeArgs.term > s.currentTerm)) ||
         (e.RequestVoteEv? && RequestVoteStep(s, e.rvArgs).reply.voteGranted) ||
         e.YieldEv? ||
         (e.VoteReplyTermEv? && e.termReply.Some? && e.termReply.value.term > s.currentTerm) ||
         (e.AppendEntriesReplyEv? && e.aeReply.Some? && !e.aeReply.value.success &&
            e.aeReply.value.term > s.currentTerm))
  {
  }

  /** The number of granted votes among `replies`. */
  function GrantedCount(replies: seq<Option<RequestVoteReply>>): (n: nat)
    ensures n <= |replies|
    ensures n == 0 <==> forall i :: 0 <= i < |replies| ==> !Granted(replies[i])
    decreases |replies|
  {
    if replies == [] then 0
    else (if Granted(replies[0]) then 1 else 0) + GrantedCount(replies[1..])
  }

  /** The state after tallying a sequence of vote replies, one `sendRequestVote` after another. */
  function Tally(s: RaftState, peerCount: nat, replies: seq<Option<RequestVoteReply>>): RaftState
    decreases |replies|
  {
    if replies == [] then s else Tally(CountVoteStep(s, peerCount, replies[0]), peerCount, replies[1..])
  }

  /** The tally counts every granted reply, and the peer ends as Leader exactly when it
      already was, or some granted reply brought the count above half the cluster. */
  lemma {:induction false} TallyCountsGrants(s: RaftState, peerCount: nat, replies: seq<Option<RequestVoteReply>>)
    ensures var t := Tally(s, peerCount, replies);
      t.currentTerm == s.currentTerm && t.votedFor == s.votedFor &&
      t.voteCount == s.voteCount + GrantedCount(replies) &&
      (t.role == Leader <==>
         s.role == Leader || (GrantedCount(replies) > 0 && s.voteCount + GrantedCount(replies) > peerCount / 2))
    decreases |replies|
  {
    if replies != [] {
      TallyCountsGrants(CountVoteStep(s, peerCount, replies[0]), peerCount, replies[1..]);
    }
  }

  /** The tally of a candidacy, without the term check the vote loop makes after each reply:
      a Candidate starts a candidacy and tallies the replies of the other peers. It wins
      exactly when at least one peer granted its vote and its own vote plus the granted ones
      exceed half the cluster. `ElectionRound` adds the term check. */
  lemma ElectionOutcome(s: RaftState, me: nat, peerCount: nat, replies: seq<Option<RequestVoteReply>>)
    requires s.role == Candidate
    ensures var t := Tally(StartElectionStep(s, me), peerCount, replies);
      t.currentTerm == s.currentTerm + 1 && t.votedFor == me &&
      t.voteCount == 1 + GrantedCount(replies) &&
      (t.role == Leader <==> GrantedCount(replies) > 0 && 1 + GrantedCount(replies) > peerCount / 2) &&
      (t.role != Leader ==> t.role == Candidate)
  {
    TallyCountsGrants(StartElectionStep(s, me), peerCount, replies);
    TallyKeepsOtherRoles(StartElectionStep(s, me), peerCount, replies);
  }

  /** Tallying never produces a role other than the starting one or Leader. */
  lemma {:induction false} TallyKeepsOtherRoles(s: RaftState, peerCount: nat, replies: seq<Option<RequestVoteReply>>)
    ensures var t := Tally(s, peerCount, replies); t.role == s.role || t.role == Leader
    decreases |replies|
  {
    if replies != [] {
      TallyKeepsOtherRoles(CountVoteStep(s, peerCount, replies[0]), peerCount, replies[1..]);
    }
  }

  /** True when `reply` is a delivered reply whose term is newer than `term`. */
  predicate NewerTerm(term: nat, reply: Option<RequestVoteReply>)
  {
    reply.Some? && reply.value.term > term
  }

  /** The number of leader signals `sendRequestVote` sends while tallying `replies` from a
      tally of `count`: one for every granted reply after which the tally is above half the cluster. */
  function Signals(count: nat, peerCount: nat, replies: seq<Option<RequestVoteReply>>): nat
    decreases |replies|
  {
    if replies == [] then 0
    else
      var c := count + (if Granted(replies[0]) then 1 else 0);
      (if Granted(replies[0]) && c > peerCount / 2 then 1 else 0) + Signals(c, peerCount, replies[1..])
  }

  /** The vote loop of a candidacy: each reply is tallied, then its term is checked, and
      the loop stops after the first reply that carries a newer term. `signalled` records
      that a grant has already sent the leader signal. The candidate takes only that first
      signal; `leaderCh` is unbuffered, so the next grant that finds the tally above half
      blocks on its send and the loop reads no further reply (a later candidacy's drain of
      the channel, raft.go:292-294, is not followed). */
  function Round(s: RaftState, peerCount: nat, replies: seq<Option<RequestVoteReply>>, signalled: bool): RaftState
    decreases |replies|
  {
    if replies == [] then s
    else
      var c := CountVoteStep(s, peerCount, replies[0]);
      var signals := Granted(replies[0]) && c.voteCount > peerCount / 2;
      if signals && signalled then c
      else
        var t := VoteReplyTermStep(c, replies[0]);
        if NewerTerm(s.currentTerm, replies[0]) then t else Round(t, peerCount, replies[1..], signalled || signals)
  }

  /** The vote loop reaches the term check of reply `i`: counting an earlier signal, fewer
      than two leader signals were sent up to and including that reply. */
  predicate Checked(count: nat, peerCount: nat, replies: seq<Option<RequestVoteReply>>, signalled: bool, i: nat)
    requires i < |replies|
  {
    (if signalled then 1 else 0) + Signals(count, peerCount, replies[..i + 1]) < 2
  }

  /** The vote loop ends Follower exactly when it checked a reply that carried a newer term;
      when no reply did, it ends in the role of the plain tally, and equals the plain tally
      unless it is Leader. Term and vote are kept. */
  lemma {:induction false} RoundStopsOnNewerTerm(s: RaftState, peerCount: nat,
                                                replies: seq<Option<RequestVoteReply>>, signalled: bool)
    requires s.role != Follower
    ensures var t := Round(s, peerCount, replies, signalled);
      t.currentTerm == s.currentTerm && t.votedFor == s.votedFor &&
      (t.role == Follower <==>
         exists i :: 0 <= i < |replies| && NewerTerm(s.currentTerm, replies[i]) &&
                     Checked(s.voteCount, peerCount, replies, signalled, i)) &&
      ((forall i :: 0 <= i < |replies| ==> !NewerTerm(s.currentTerm, replies[i])) ==>
         t.role == Tally(s, peerCount, replies).role &&
         (t.role != Leader ==> t == Tally(s, peerCount, replies)))
    decreases |replies|
  {
    if replies != [] {
      var c := CountVoteStep(s, peerCount, replies[0]);
      var signals := Granted(replies[0]) && c.voteCount > peerCount / 2;
      assert replies[..1] == [replies[0]];
      if signals && signalled {
        TallyKeepsOtherRoles(c, peerCount, replies[1..]);
        forall i | 0 <= i < |replies|
          ensures !Checked(s.voteCount, peerCount, replies, signalled, i)
        {
          assert replies[..i + 1][0] == replies[0];
        }
      } else if !NewerTerm(s.currentTerm, replies[0]) {
        RoundStopsOnNewerTerm(c, peerCount, replies[1..], signalled || signals);
        forall i | 0 < i < |replies|
          ensures Checked(s.voteCount, peerCount, replies, signalled, i) ==
                  Checked(c.voteCount, peerCount, replies[1..], signalled || signals, i - 1)
        {
          assert replies[..i + 1][0] == replies[0];
          assert replies[..i + 1][1..] == replies[1..][..i];
        }
        if exists i :: 0 <= i < |replies[1..]| && NewerTerm(s.currentTerm, replies[1..][i]) &&
                       Checked(c.voteCount, peerCount, replies[1..], signalled || signals, i) {
          var i :| 0 <= i < |replies[1..]| && NewerTerm(s.currentTerm, replies[1..][i]) &&
                   Checked(c.voteCount, peerCount, replies[1..], signalled || signals, i);
          assert NewerTerm(s.currentTerm, replies[i + 1]);
        }
        if exists i :: 0 <= i < |replies| && NewerTerm(s.currentTerm, replies[i]) &&
                       Checked(s.voteCount, peerCount, replies, signalled, i) {
          var i :| 0 <= i < |replies| && NewerTerm(s.currentTerm, replies[i]) &&
                   Checked(s.voteCount, peerCount, replies, signalled, i);
          assert i != 0 && NewerTerm(s.currentTerm, replies[1..][i - 1]);
        }
      } else {
        assert Checked(s.voteCount, peerCount, replies, signalled, 0);
      }
    }
  }

  /** An election round as raft.go runs it: a Candidate starts a candidacy, then asks the
      other peers one by one, tallying each reply and checking its term. It ends Follower
      exactly when the loop checked a reply carrying a term newer than the new one. When no
      reply carried one, it wins exactly when at least one peer granted its vote and its own
      vote plus the granted ones exceed half the cluster, and otherwise stays Candidate with
      its own vote plus the granted ones. */
  lemma ElectionRound(s: RaftState, me: nat, peerCount: nat, replies: seq<Option<RequestVoteReply>>)
    requires s.role == Candidate
    ensures var t := Round(StartElectionStep(s, me), peerCount, replies, false);
      t.currentTerm == s.currentTerm + 1 && t.votedFor == me &&
      (t.role == Follower <==>
         exists i :: 0 <= i < |replies| && NewerTerm(s.currentTerm + 1, replies[i]) &&
                     Signals(1, peerCount, replies[..i + 1]) < 2) &&
      ((forall i :: 0 <= i < |replies| ==> !NewerTerm(s.currentTerm + 1, replies[i])) ==>
         (t.role == Leader <==> GrantedCount(replies) > 0 && 1 + GrantedCount(replies) > peerCount / 2) &&
         (t.role != Leader ==> t.role == Candidate && t.voteCount == 1 + GrantedCount(replies)))
  {
    RoundStopsOnNewerTerm(StartElectionStep(s, me), peerCount, replies, false);
    ElectionOutcome(s, me, peerCount, replies);
  }

  /** A second signal ends the round as Leader: in a five-peer cluster, three granted votes
      each lift the tally above half, and the third blocks on the leader signal, so a
      fourth reply with a newer term is never checked and the peer stays Leader. */
  lemma SecondSignalIgnoresNewerTerm(s: RaftState, me: nat)
    requires s.role == Candidate
    ensures var grant := Some(RequestVoteReply(0, true));
      var newer := Some(RequestVoteReply(s.currentTerm + 5, false));
      var t := Round(StartElectionStep(s, me), 5, [grant, grant, grant, newer], false);
      t.role == Leader && t.voteCount == 4 && t.currentTerm < s.currentTerm + 5
  {
    var grant := Some(RequestVoteReply(0, true));
    var newer := Some(RequestVoteReply(s.currentTerm + 5, false));
    var replies := [grant, grant, grant, newer];
    var s1 := StartElectionStep(s, me);
    var s2 := CountVoteStep(s1, 5, grant);
    var s3 := CountVoteStep(s2, 5, grant);
    assert s3.role == Leader && s3.voteCount == 3;
    assert Round(s1, 5, replies, false) == Round(s2, 5, replies[1..], false);
    assert Round(s2, 5, replies[1..], false) == Round(s3, 5, replies[2..], true);
    assert Round(s3, 5, replies[2..], true) == CountVoteStep(s3, 5, grant);
  }

  /** A one-peer cluster never elects itself: the vote loop skips the peer itself, so with
      no other peer there is no reply, and its own vote, although above half the cluster,
      never makes it Leader. */
  lemma SinglePeerNeverLeads(s: RaftState, me: nat)
    requires s.role == Candidate
    ensures var t := Round(StartElectionStep(s, me), 1, [], false);
      t.voteCount == 1 && t.voteCount > 1 / 2 && t.role == Candidate
  {
  }

  /** AppendEntries adopts a newer term but keeps the old `votedFor`: a peer that voted
      for someone in an earlier term and then hears a heartbeat of a newer term refuses
      every other candidate in that newer term, although it cast no vote in it. */
  lemma HeartbeatKeepsEarlierVote(s: RaftState, a: AppendEntriesArgs, c: nat)
    requires a.term > s.currentTerm && s.votedFor != NoVote && c != s.votedFor
    ensures var t := AppendEntriesStep(s, a).next;
      t.currentTerm == a.term && t.votedFor == s.votedFor &&
      !RequestVoteStep(t, RequestVoteArgs(a.term, c)).reply.voteGranted
  {
  }
}
