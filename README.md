# Raft election state and primary/backup key-value server, in Dafny

This project models two small state machines from a distributed-systems course repository.

- **Raft election bookkeeping** (`6.824-2016/src/raft/raft.go`). A peer keeps `currentTerm`, `votedFor`, a role (Follower, Candidate or Leader) and `voteCount`. It changes them in these places:
  - the `AppendEntries` and `RequestVote` handlers;
  - the election timeout of a follower;
  - the start of a candidacy;
  - the tally of vote replies, and the candidate's reaction to the leader signal;
  - the step-downs on replies that carry a newer term.

  Module `RaftElection` states each of these once, as a pure step function on a `RaftState` value. Class `RaftElection.Raft` holds the same fields and updates them in place. Each of its methods ensures that its new fields and reply equal those of the step function. Module `RaftTraces` runs arbitrary sequences of these events. Taking each event as one atomic step, it proves that the term never decreases and that a peer never votes for two candidates in one term. It also proves how the vote loop of a candidacy decides leadership.
- **Primary/backup key-value server** (`6.824/src/pbservice/server.go`). A server keeps a `database` map, a `clients` map of answered request ids (used to detect duplicates) and the current view (primary and backup names). Module `PBService` gives each handler as a step function on a `PBState` value:
  - `get` and `put`;
  - `Get` and `PutAppend`;
  - `BackupGet` and `BackupPutAppend`;
  - `Copy`;
  - the view change in `tick`.

  Class `PBService.PBServer` implements the handlers on fields and is proved equal to them. Module `PBProperties` proves four further facts. Retries apply a write at most once at the primary. The backup has no duplicate check, so a lost backup reply makes it apply an Append twice (`BackupAppliesTwice`). A delivered PutAppend forward keeps primary and backup in sync (a forwarded Get does too when the key exists; for an absent key their client tables diverge, `GetAndBackupGet`). A state transfer brings a new backup in sync.

Remote calls are inputs: `None` for a call whose transport reported failure, `Some(reply)` for the reply that came back. A handler's reply starts zero-valued, as the RPC layers hand it over, so a field a handler does not set stays `0`, `false` or `""`.

The model follows the code where it departs from the Raft protocol:
- `RequestVote` has no log comparison.
- `AppendEntries` keeps `votedFor` when it adopts a newer term (`HeartbeatKeepsEarlierVote`).
- A newer term seen in a reply turns the peer into a Follower but is not adopted.
- An accepted `AppendEntries`, and a `RequestVote` whose term is not stale (granted or refused), reply with term 0.
- A one-peer cluster never elects itself, since the vote loop skips the peer itself and only a reply is tallied (`SinglePeerNeverLeads`).

## Model

| member | source | states |
|---|---|---|
| RaftElection.AppendEntriesStep | 6.824-2016/src/raft/raft.go:135-154 | a stale term is refused with the receiver's term and changes nothing; otherwise success, the sender's term is adopted, vote and tally kept; a Candidate always becomes Follower, a Leader only for a strictly newer term, a Follower stays Follower; an accepted request replies with term 0; the term never decreases; the heartbeat signal sent before the term check is the separate Yield event |
| RaftElection.RequestVoteStep | 6.824-2016/src/raft/raft.go:190-211 | a stale term is refused with the receiver's term and changes nothing; the vote is granted iff the term is newer, or equal and the receiver has not voted or voted for this candidate; a refusal changes nothing; a grant records the candidate, adopts the term and makes the receiver Follower; a request that is not stale replies with term 0; a vote never moves within a term |
| RaftElection.TimeoutStep | 6.824-2016/src/raft/raft.go:281-283 | the election timeout makes the peer Candidate and changes nothing else |
| RaftElection.StartElectionStep | 6.824-2016/src/raft/raft.go:288-290 | a candidacy raises the term by exactly one, votes for itself and sets the tally to one, role unchanged |
| RaftElection.YieldStep | 6.824-2016/src/raft/raft.go:295-298 | a candidate that finds a heartbeat pending becomes Follower and changes nothing else; the heartbeat is signalled before the term check, so a stale AppendEntries also ends a candidacy |
| RaftElection.LeaderSignalStep | 6.824-2016/src/raft/raft.go:320-326 | a `true` leader signal makes the peer Leader and changes nothing else |
| RaftElection.CountVoteStep | 6.824-2016/src/raft/raft.go:230-242 | a delivered granted reply adds one to the tally; the peer is Leader afterwards iff it was, or the reply was granted and the tally exceeds half the peers; the only role change is to Leader; term and vote kept |
| RaftElection.VoteReplyTermStep | 6.824-2016/src/raft/raft.go:311-315 | a vote reply with a newer term makes the peer Follower without adopting that term; otherwise nothing changes |
| RaftElection.AppendEntriesReplyStep | 6.824-2016/src/raft/raft.go:156-165 | the peer is Follower afterwards iff it was, or a delivered refusal carried a newer term; the term is not adopted; the only role change is to Follower |
| RaftElection.Raft.constructor | 6.824-2016/src/raft/raft.go:375-397 | a new peer has term 0, no vote, role Follower and a tally of 0 |
| RaftElection.Raft.GetState | 6.824-2016/src/raft/raft.go:82-91 | returns exactly the current term, and true iff the role is Leader; no field changes |
| RaftElection.Raft.AppendEntries | 6.824-2016/src/raft/raft.go:135-154 | new fields and reply are those of AppendEntriesStep on the old fields |
| RaftElection.Raft.RequestVote | 6.824-2016/src/raft/raft.go:190-211 | new fields and reply are those of RequestVoteStep on the old fields |
| RaftElection.Raft.ElectionTimeout | 6.824-2016/src/raft/raft.go:281-283 | new fields are those of TimeoutStep |
| RaftElection.Raft.StartElection | 6.824-2016/src/raft/raft.go:288-290 | new fields are those of StartElectionStep with this peer's index |
| RaftElection.Raft.Yield | 6.824-2016/src/raft/raft.go:295-298 | new fields are those of YieldStep |
| RaftElection.Raft.AcceptLeadership | 6.824-2016/src/raft/raft.go:320-326 | new fields are those of LeaderSignalStep |
| RaftElection.Raft.CountVote | 6.824-2016/src/raft/raft.go:230-242 | new fields are those of CountVoteStep with this peer's cluster size |
| RaftElection.Raft.ObserveVoteReplyTerm | 6.824-2016/src/raft/raft.go:311-315 | new fields are those of VoteReplyTermStep |
| RaftElection.Raft.ObserveAppendEntriesReply | 6.824-2016/src/raft/raft.go:156-165 | new fields are those of AppendEntriesReplyStep |
| RaftTraces.Step | 6.824-2016/src/raft/raft.go:135-290 | no single event lowers the term |
| RaftTraces.TermNeverDecreases | 6.824-2016/src/raft/raft.go:138-152 | along any sequence of events the term never decreases |
| RaftTraces.StepRemembersVotes | 6.824-2016/src/raft/raft.go:199-210 | one event keeps every earlier vote at or below the current term, with `votedFor` naming the candidate of any vote in the current term, and keeps one candidate per term |
| RaftTraces.RunRemembersVotes | 6.824-2016/src/raft/raft.go:190-211 | the same holds along any sequence of events |
| RaftTraces.AtMostOneCandidatePerTerm | 6.824-2016/src/raft/raft.go:199-210 | from the initial state, any sequence of events casts votes (self-votes included) for at most one candidate per term |
| RaftTraces.RoleChanges | 6.824-2016/src/raft/raft.go:144-150 | only the timeout makes a Candidate; only a granted reply that lifts the tally above half the cluster, or the leader signal, makes a Leader; a Follower is made only by a current or newer AppendEntries (a Leader only by a newer one), a granted vote, a yield, or a reply with a newer term |
| RaftTraces.GrantedCount | 6.824-2016/src/raft/raft.go:233-234 | the number of granted replies is at most the number of replies, and zero iff no reply was granted |
| RaftTraces.TallyCountsGrants | 6.824-2016/src/raft/raft.go:233-237 | after a sequence of vote replies the tally has grown by the number granted; the peer is Leader iff it was, or some reply was granted and the final tally exceeds half the cluster; term and vote kept |
| RaftTraces.TallyKeepsOtherRoles | 6.824-2016/src/raft/raft.go:235-236 | tallying only ever changes the role to Leader |
| RaftTraces.ElectionOutcome | 6.824-2016/src/raft/raft.go:288-290 | the tally alone, without the vote loop's term check: a Candidate that starts a candidacy and tallies replies ends in the next term, voted for itself, with 1 + granted votes, and is Leader iff some vote was granted and 1 + granted exceeds half the cluster, else still Candidate |
| RaftTraces.RoundStopsOnNewerTerm | 6.824-2016/src/raft/raft.go:306-317 | the vote loop tallies each reply, then checks its term and stops at a newer one, and stops for good at a second grant that finds the tally above half (its send on the unbuffered `leaderCh`, :237, has no receiver); it ends Follower iff it checked a reply with a newer term before that block; when no reply carried a newer term it ends in the plain tally's role, and equals the plain tally unless Leader; term and vote kept |
| RaftTraces.ElectionRound | 6.824-2016/src/raft/raft.go:286-317 | a Candidate's whole round ends in the next term with a self-vote; it is Follower iff some reply with a newer term came before the second leader signal; when no reply carried a newer term it is Leader iff some vote was granted and 1 + granted exceeds half the cluster, else still Candidate with 1 + granted votes |
| RaftTraces.SecondSignalIgnoresNewerTerm | 6.824-2016/src/raft/raft.go:233-237 | in a five-peer round with three grants and then a newer-term refusal, the third grant blocks on its second leader signal, so the newer term is never checked and the peer ends Leader with 4 votes |
| RaftTraces.SinglePeerNeverLeads | 6.824-2016/src/raft/raft.go:306-307 | the vote loop skips the peer itself, so in a one-peer cluster a round tallies no reply and ends with a tally of 1, above half the cluster, yet the peer stays Candidate |
| RaftTraces.HeartbeatKeepsEarlierVote | 6.824-2016/src/raft/raft.go:148-152 | for every peer that has voted, a heartbeat of a newer term adopts that term but keeps the old vote, so the peer then refuses every other candidate in that newer term |
| PBService.ValueOr | 6.824/src/pbservice/server.go:92 | reading an absent key yields "" |
| PBService.LocalGetStep | 6.824/src/pbservice/server.go:28-38 | a present key answers OK with its value; an absent key answers ErrNoKey and keeps the reply's value; the answered value is recorded under the request id; database and view untouched |
| PBService.LocalPutStep | 6.824/src/pbservice/server.go:88-99 | "Put" sets the key to the value, any other op appends to the old value ("" if absent); all other keys unchanged; the id is recorded as "accepted"; reply OK; view untouched |
| PBService.GetStep | 6.824/src/pbservice/server.go:40-72 | a known id is answered OK from the table with no change; a new id at a non-primary gets ErrWrongServer with no change; a failed or non-OK forward changes nothing and hands the client the backup's reply as it is (the zero reply for a failed call); a new id at the primary with no backup, or with an OK forward, is served by the local get starting from the backup's reply; an OK answer to a new id is the primary's value for the key and is recorded; the client table changes at most at the id; database and view never change |
| PBService.BackupGetStep | 6.824/src/pbservice/server.go:74-86 | a server that is not the view's backup answers ErrWrongServer with no change; otherwise exactly the local get |
| PBService.PutAppendStep | 6.824/src/pbservice/server.go:101-132 | a known id is answered OK with no change; a new id at a non-primary gets ErrWrongServer with no change; a failed or non-OK forward changes nothing and hands the client the backup's reply as it is (the zero reply for a failed call); a new id at the primary with no backup, or with an OK forward, is exactly the local put; the only possible change is the one local write; the answer is OK iff the id is recorded afterwards; view never changes |
| PBService.BackupPutAppendStep | 6.824/src/pbservice/server.go:134-146 | a server that is not the view's backup answers ErrWrongServer with no change; otherwise exactly the local put |
| PBService.CopyStep | 6.824/src/pbservice/server.go:148-156 | database and client table become the supplied ones; the view is kept |
| PBService.TickStep | 6.824/src/pbservice/server.go:164-187 | data never changes; the new view is adopted unless the ping failed, or a new backup needed a transfer and the Copy call failed; the transfer sends exactly the current database and client table |
| PBService.PBServer.constructor | 6.824/src/pbservice/server.go:215-222 | a new server has the empty view, an empty database and an empty client table |
| PBService.PBServer.LocalGet | 6.824/src/pbservice/server.go:28-38 | new fields and reply are those of LocalGetStep |
| PBService.PBServer.LocalPut | 6.824/src/pbservice/server.go:88-99 | new fields and reply are those of LocalPutStep |
| PBService.PBServer.Get | 6.824/src/pbservice/server.go:40-72 | new fields and reply are those of GetStep |
| PBService.PBServer.BackupGet | 6.824/src/pbservice/server.go:74-86 | new fields and reply are those of BackupGetStep |
| PBService.PBServer.PutAppend | 6.824/src/pbservice/server.go:101-132 | new fields and reply are those of PutAppendStep |
| PBService.PBServer.BackupPutAppend | 6.824/src/pbservice/server.go:134-146 | new fields and reply are those of BackupPutAppendStep |
| PBService.PBServer.Copy | 6.824/src/pbservice/server.go:148-156 | database and clients are the supplied maps; the view is unchanged |
| PBService.PBServer.Tick | 6.824/src/pbservice/server.go:164-187 | new fields and the Copy request sent are those of TickStep |
| PBProperties.RetryAfterRecorded | 6.824/src/pbservice/server.go:107-111 | once the id is on record, any number of retries changes nothing |
| PBProperties.RetriesApplyAtMostOnce | 6.824/src/pbservice/server.go:101-132 | at the primary, any number of attempts of one PutAppend, whatever each forward's outcome, leave it unchanged or exactly as after one local write |
| PBProperties.GetRetrySameAnswer | 6.824/src/pbservice/server.go:46-51 | a Get answered OK, when retried, gets the same reply and changes nothing |
| PBProperties.PutAppendKeepsBackupInSync | 6.824/src/pbservice/server.go:118-143 | a new PutAppend forwarded to the view's backup with its reply delivered leaves primary and backup with equal data and client tables, and the client gets the backup's answer |
| PBProperties.GetAndBackupGet | 6.824/src/pbservice/server.go:58-83 | a forwarded Get keeps the two in sync when the key exists; for an absent key the backup records the id and the primary does not |
| PBProperties.BackupAppliesTwice | 6.824/src/pbservice/server.go:118-143 | the backup has no duplicate check: if it applies a forwarded Append whose reply is lost and then the retry, the primary answers OK while the backup's value is the primary's with the appended text once more, so the two are out of sync |
| PBProperties.TransferSyncsBackup | 6.824/src/pbservice/server.go:175-186 | when a tick needs a transfer and the Copy succeeds, the new view is adopted and a backup applying the Copy request is in sync with the primary |

## Left out

- Raft role loop and timing (`work`, the `select`s in `workAsFollower`/`workAsCandidate`, `workAsLeader`, the randomized timeout, the `heartbeatCh`/`leaderCh` sends): these are goroutines, channels and timers. Only their field updates are modelled, as events that may come in any order.
- Raft `leaderCh` is modelled only inside one vote loop (`Round`): there a second `true` send blocks the loop for the rest of the round. A later candidacy's drain of the channel (raft.go:292-294), which would release such a blocked loop, is not followed. Among the trace events, the candidate's reaction to a `true` signal (raft.go:321-323) is a separate event that may come at any time, so the traces do not capture that the signal is sent only by a tally that reached a majority. Events between the send and the receive, such as a granted vote for a newer term, are covered. The `false` send after a step-down (raft.go:161) changes no field and is left out.
- Raft `persist`/`readPersist`, `Start` and `Kill` are empty or stubs in raft.go. The log, `commitIndex`, `lastApplied`, `nextIndex`, `matchIndex` and `ApplyMsg` are declared but unused by the handlers, so none of them is modelled. `PrevLogIndex`, `PrevLogTerm`, `Entries`, `LeaderCommit`, `LastLogIndex` and `LastLogTerm` are dropped from the argument types for the same reason.
- RaftElection.StartElectionStep: terms are unbounded; raft.go's `int` overflow after 2^63 - 1 terms is not modelled.
- Peer ids are natural numbers (indices into the peer list). A `CandidateId` of -1 would clash with the "no vote" marker, but no peer sends one.
- The RPC transports (`labrpc` `Call`, the `call` helper in pbservice), `DPrintf` and the view-service `Ping` are foreign calls. Their outcomes are inputs. The ping argument (the current view number) is not modelled.
- pbservice `StartServer`'s socket listener, unreliable-connection dropping, `kill`/`isdead`/`setunreliable`/`isunreliable`: I/O and atomics. Only its field initialisation is modelled. A reply the listener discards after the request was processed reaches the caller as a failed call (`None`), which is how `BackupAppliesTwice` arises.
- raft.go declares a mutex but never takes it: its handlers run beside the role loop and the vote goroutine without any lock. The model assumes each handler and each field update runs as one atomic step. It does not capture a handler interleaved with another one part-way through, where for example an `AppendEntries` that passed its term check can later write back an older term. `TermNeverDecreases` and `AtMostOneCandidatePerTerm` hold under that assumption only.
- The pbservice mutex: each handler holds it throughout, so each is modelled as one atomic step.
- The pbservice argument and reply types come from `common.go`, which is not part of this model. Their fields are taken as `server.go` uses them.
