/** The term, vote and role bookkeeping of one Raft peer, as raft.go implements it.
    Only the election fields are modelled: the peer's log, commit index and the
    timers and channels around the handlers are not. Every handler is taken to be one
    atomic step, although raft.go takes no lock around it. */
module RaftElection {
  import opened Wrappers

  /** A peer's role; raft.go spells these as the strings "Follower", "Candidate", "Leader". */
  datatype Role = Follower | Candidate | Leader

  /** The `votedFor` value that means "no vote cast". */
  const NoVote: int := -1

  /** The fields of a peer that the election code reads and writes. */
  datatype RaftState = RaftState(currentTerm: nat, votedFor: int, role: Role, voteCount: nat)

  /** The state `Make` gives a new peer. */
  const InitialState := RaftState(0, NoVote, Follower, 0)

  /** The fields of an AppendEntries request that the handler looks at. */
  datatype AppendEntriesArgs = AppendEntriesArgs(term: nat, leaderId: nat)

  /** A reply starts zero-valued: a field the handler does not set stays 0 / false. */
  datatype AppendEntriesReply = AppendEntriesReply(term: nat, success: bool)

  datatype RequestVoteArgs = RequestVoteArgs(term: nat, candidateId: nat)

  datatype RequestVoteReply = RequestVoteReply(term: nat, voteGranted: bool)

  /** The state after a handler ran, and the reply it sent. */
  datatype Handled<R> = Handled(next: RaftState, reply: R)

  /** The AppendEntries handler: refuse a stale term, otherwise accept the sender's term. */
  function AppendEntriesStep(s: RaftState, args: AppendEntriesArgs): (h: Handled<AppendEntriesReply>)
    // a stale request is refused with the receiver's term and changes nothing
    ensures args.term < s.currentTerm ==>
              h.next == s && h.reply == AppendEntriesReply(s.currentTerm, false)
    // a current or newer request is accepted and its term adopted; the vote and tally are kept
    ensures args.term >= s.currentTerm ==>
              h.reply.success && h.next.currentTerm == args.term &&
              h.next.votedFor == s.votedFor && h.next.voteCount == s.voteCount
    // role changes: a Candidate always yields; a Leader yields only to a strictly newer term
    ensures args.term >= s.currentTerm && s.role == Candidate ==> h.next.role == Follower
    ensures args.term >= s.currentTerm && s.role == Leader ==>
              (h.next.role == Follower <==> args.term > s.currentTerm)
    ensures s.role == Follower ==> h.next.role == Follower
    ensures h.next.role != Candidate || h.next == s
    // an accepted request leaves the reply's term at its zero value
    ensures args.term >= s.currentTerm ==> h.reply.term == 0
    ensures h.next.currentTerm >= s.currentTerm
  {
    if args.term < s.currentTerm then
      Handled(s, AppendEntriesReply(s.currentTerm, false))
    else
      var role := if s.role == Candidate then Follower else s.role;
      var role' := if role == Leader && args.term > s.currentTerm then Follower else role;
      Handled(s.(currentTerm := args.term, role := role'), AppendEntriesReply(0, true))
  }

  /** True when a vote request in the receiver's own term must be refused because
      the receiver already voted for someone else. */
  predicate VotedForOther(s: RaftState, args: RequestVoteArgs)
  {
    args.term == s.currentTerm && s.votedFor != NoVote && s.votedFor != args.candidateId
  }

  /** The RequestVote handler. It has no log comparison: only terms and the recorded vote matter. */
  function RequestVoteStep(s: RaftState, args: RequestVoteArgs): (h: Handled<RequestVoteReply>)
    // a stale request is refused with the receiver's term and changes nothing
    ensures args.term < s.currentTerm ==>
              h.next == s && h.reply == RequestVoteReply(s.currentTerm, false)
    // the vote is granted exactly for a newer term, or for the same term when the
    // receiver has not voted or already voted for this very candidate
    ensures h.reply.voteGranted <==>
              args.term > s.currentTerm ||
              (args.term == s.currentTerm && (s.votedFor == NoVote || s.votedFor == args.candidateId))
    ensures !h.reply.voteGranted ==> h.next == s
    ensures h.reply.voteGranted ==>
              h.next.currentTerm == args.term && h.next.votedFor == args.candidateId &&
              h.next.role == Follower && h.next.voteCount == s.voteCount
    // within one term a recorded vote never moves to another candidate
    ensures h.next.currentTerm == s.currentTerm && s.votedFor != NoVote ==> h.next.votedFor == s.votedFor
    // a request that is not stale, granted or not, leaves the reply's term at its zero value
    ensures args.term >= s.currentTerm ==> h.reply.term == 0
    ensures h.next.currentTerm >= s.currentTerm
  {
    if args.term < s.currentTerm then
      Handled(s, RequestVoteReply(s.currentTerm, false))
    else if VotedForOther(s, args) then
      Handled(s, RequestVoteReply(0, false))
    else
      Handled(s.(votedFor := args.candidateId, currentTerm := args.term, role := Follower),
              RequestVoteReply(0, true))
  }

  /** The follower's election timeout: the peer turns Candidate. */
  function TimeoutStep(s: RaftState): (t: RaftState)
    ensures t.role == Candidate
    ensures t.currentTerm == s.currentTerm && t.votedFor == s.votedFor && t.voteCount == s.voteCount
  {
    s.(role := Candidate)
  }

  /** The start of a candidacy: a new term, a vote for itself, a tally of one. */
  function StartElectionStep(s: RaftState, me: nat): (t: RaftState)
    ensures t.currentTerm == s.currentTerm + 1
    ensures t.votedFor == me && t.voteCount == 1 && t.role == s.role
  {
    RaftState(s.currentTerm + 1, me, s.role, 1)
  }

  /** A candidate that sees a heartbeat at the start of its candidacy gives up. The heartbeat
      is sent before AppendEntries checks the term, so a stale request also triggers this. */
  function YieldStep(s: RaftState): (t: RaftState)
    ensures t.role == Follower
    ensures t.currentTerm == s.currentTerm && t.votedFor == s.votedFor && t.voteCount == s.voteCount
  {
    s.(role := Follower)
  }

  /** A candidate that receives `true` from the tally's leader signal becomes Leader. The
      signal is not modelled, so this step carries no check that a tally produced it. */
  function LeaderSignalStep(s: RaftState): (t: RaftState)
    ensures t.role == Leader
    ensures t.currentTerm == s.currentTerm && t.votedFor == s.votedFor && t.voteCount == s.voteCount
  {
    s.(role := Leader)
  }

  /** True when `reply` is a delivered, granted vote. */
  predicate Granted(reply: Option<RequestVoteReply>)
  {
    reply.Some? && reply.value.voteGranted
  }

  /** The tally of one vote reply: a granted vote adds one, and a tally above half
      of `peerCount` (the peer itself included) makes the peer Leader. */
  function CountVoteStep(s: RaftState, peerCount: nat, reply: Option<RequestVoteReply>): (t: RaftState)
    ensures t.currentTerm == s.currentTerm && t.votedFor == s.votedFor
    ensures t.voteCount == s.voteCount + (if Granted(reply) then 1 else 0)
    ensures t.role == Leader <==> s.role == Leader || (Granted(reply) && t.voteCount > peerCount / 2)
    ensures t.role != s.role ==> t.role == Leader
  {
    if Granted(reply) then
      var count := s.voteCount + 1;
      s.(voteCount := count, role := if count > peerCount / 2 then Leader else s.role)
    else
      s
  }

  /** A vote reply carrying a newer term turns the candidate into a Follower.
      The newer term itself is not adopted. A lost call leaves a zero reply, whose term 0 is never newer. */
  function VoteReplyTermStep(s: RaftState, reply: Option<RequestVoteReply>): (t: RaftState)
    ensures t.currentTerm == s.currentTerm && t.votedFor == s.votedFor && t.voteCount == s.voteCount
    ensures t.role == (if reply.Some? && reply.value.term > s.currentTerm then Follower else s.role)
  {
    if reply.Some? && reply.value.term > s.currentTerm then s.(role := Follower) else s
  }

  /** A refused AppendEntries reply carrying a newer term turns the sender into a Follower.
      The newer term itself is not adopted. */
  function AppendEntriesReplyStep(s: RaftState, reply: Option<AppendEntriesReply>): (t: RaftState)
    ensures t.currentTerm == s.currentTerm && t.votedFor == s.votedFor && t.voteCount == s.voteCount
    ensures t.role == Follower <==>
              s.role == Follower ||
              (reply.Some? && !reply.value.success && s.currentTerm < reply.value.term)
    ensures t.role != s.role ==> t.role == Follower
  {
    if reply.Some? && !reply.value.success && s.currentTerm < reply.value.term then
      s.(role := Follower)
    else
      s
  }

  /** One Raft peer: the election fields of raft.go's `Raft` struct. */
  class Raft {
    /** The number of peers in the cluster, this one included (`len(rf.peers)`). */
    const peerCount: nat
    /** This peer's index into the peer list. */
    const me: nat

    var currentTerm: nat
    var votedFor: int
    var role: Role
    var voteCount: nat

    /** The peer's fields as a value. */
    function Snapshot(): RaftState
      reads this
    {
      RaftState(currentTerm, votedFor, role, voteCount)
    }

    /** `Make`: a new peer starts in term 0 as a Follower that has not voted. */
    constructor (peerCount: nat, me: nat)
      ensures this.peerCount == peerCount && this.me == me
      ensures currentTerm == 0 && votedFor == NoVote && role == Follower && voteCount == 0
      ensures Snapshot() == InitialState
    {
      this.peerCount := peerCount;
      this.me := me;
      currentTerm := 0;
      votedFor := NoVote;
      role := Follower;
      voteCount := 0;
    }

    /** The current term, and whether this peer believes it is the leader. */
    method GetState() returns (term: nat, isLeader: bool)
      ensures term == currentTerm
      ensures isLeader <==> role == Leader
    {
      term := currentTerm;
      isLeader := role == Leader;
    }

    method AppendEntries(args: AppendEntriesArgs) returns (reply: AppendEntriesReply)
      modifies this
      ensures Handled(Snapshot(), reply) == AppendEntriesStep(old(Snapshot()), args)
    {
      reply := AppendEntriesReply(0, false);
      if args.term < currentTerm {
        reply := reply.(term := currentTerm, success := false);
        return;
      }
      if role == Candidate {
        role := Follower;
      }
      if role == Leader && args.term > currentTerm {
        role := Follower;
      }
      currentTerm := args.term;
      reply := reply.(success := true);
    }

    method RequestVote(args: RequestVoteArgs) returns (reply: RequestVoteReply)
      modifies this
      ensures Handled(Snapshot(), reply) == RequestVoteStep(old(Snapshot()), args)
    {
      reply := RequestVoteReply(0, false);
      if args.term < currentTerm {
        reply := reply.(voteGranted := false, term := currentTerm);
        return;
      }
      if args.term == currentTerm {
        if votedFor != NoVote && votedFor != args.candidateId {
          reply := reply.(voteGranted := false);
          return;
        }
      }
      reply := reply.(voteGranted := true);
      votedFor := args.candidateId;
      currentTerm := args.term;
      role := Follower;
    }

    /** The follower's election timeout. */
    method ElectionTimeout()
      modifies this
      ensures Snapshot() == TimeoutStep(old(Snapshot()))
    {
      role := Candidate;
    }

    /** The field updates at the top of a candidacy. */
    method StartElection()
      modifies this
      ensures Snapshot() == StartElectionStep(old(Snapshot()), me)
    {
      voteCount := 1;
      votedFor := me;
      currentTerm := currentTerm + 1;
    }

    /** A candidate that finds a heartbeat pending abandons the candidacy. */
    method Yield()
      modifies this
      ensures Snapshot() == YieldStep(old(Snapshot()))
    {
      role := Follower;
    }

    /** The candidate's reaction to a `true` leader signal. */
    method AcceptLeadership()
      modifies this
      ensures Snapshot() == LeaderSignalStep(old(Snapshot()))
    {
      role := Leader;
    }

    /** The tally in `sendRequestVote`; `reply` is `None` when the call was lost. */
    method CountVote(reply: Option<RequestVoteReply>)
      modifies this
      ensures Snapshot() == CountVoteStep(old(Snapshot()), peerCount, reply)
    {
      if reply.Some? {
        if reply.value.voteGranted {
          voteCount := voteCount + 1;
          if voteCount > peerCount / 2 {
            role := Leader;
          }
        }
      }
    }

    /** The candidate's check of a vote reply's term. */
    method ObserveVoteReplyTerm(reply: Option<RequestVoteReply>)
      modifies this
      ensures Snapshot() == VoteReplyTermStep(old(Snapshot()), reply)
    {
      var term := if reply.Some? then reply.value.term else 0;
      if term > currentTerm {
        role := Follower;
      }
    }

    /** The step-down in `sendAppendEntries`; `reply` is `None` when the call was lost. */
    method ObserveAppendEntriesReply(reply: Option<AppendEntriesReply>)
      modifies this
      ensures Snapshot() == AppendEntriesReplyStep(old(Snapshot()), reply)
    {
      if reply.Some? {
        if !reply.value.success && currentTerm < reply.value.term {
          role := Follower;
        }
      }
    }
  }
}
