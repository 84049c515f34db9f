/** Properties of the primary/backup server that relate several requests or two servers. */
module PBProperties {
  import opened Wrappers
  import opened PBService

  /** The state after the primary `me` handles the same PutAppend request once per
      entry of `backupReplies`, each entry being the outcome of that attempt's forward. */
  function Retry(s: PBState, me: string, args: PutAppendArgs, backupReplies: seq<Option<PutAppendReply>>): PBState
    decreases |backupReplies|
  {
    if backupReplies == [] then s
    else Retry(PutAppendStep(s, me, args, backupReplies[0]).next, me, args, backupReplies[1..])
  }

  /** Once a request id is on record, retrying that request changes nothing. */
  lemma {:induction false} RetryAfterRecorded(s: PBState, me: string, args: PutAppendArgs,
                                             backupReplies: seq<Option<PutAppendReply>>)
    requires args.id in s.clients
    ensures Retry(s, me, args, backupReplies) == s
    decreases |backupReplies|
  {
    if backupReplies != [] {
      RetryAfterRecorded(s, me, args, backupReplies[1..]);
    }
  }

  /** Re-sending a PutAppend to the primary, whatever happens to each attempt, applies the
      write at most once there: the primary ends either unchanged or exactly as after one
      local write. */
  lemma {:induction false} RetriesApplyAtMostOnce(s: PBState, me: string, args: PutAppendArgs,
                                                 backupReplies: seq<Option<PutAppendReply>>)
    ensures var t := Retry(s, me, args, backupReplies);
      t == s || t == LocalPutStep(s, args).next
    decreases |backupReplies|
  {
    if backupReplies != [] {
      var s1 := PutAppendStep(s, me, args, backupReplies[0]).next;
      if s1 == s {
        RetriesApplyAtMostOnce(s, me, args, backupReplies[1..]);
      } else {
        assert s1 == LocalPutStep(s, args).next;
        RetryAfterRecorded(s1, me, args, backupReplies[1..]);
      }
    }
  }

  /** A Get answered OK gets the same answer, with no change, when retried. */
  lemma GetRetrySameAnswer(s: PBState, me: string, args: GetArgs,
                           first: Option<GetReply>, second: Option<GetReply>)
    requires GetStep(s, me, args, first).reply.err == OK
    ensures var h := GetStep(s, me, args, first);
      GetStep(h.next, me, args, second) == h
  {
  }

  /** The primary and the backup hold the same data and client table. */
  predicate InSync(primary: PBState, backup: PBState)
  {
    primary.database == backup.database && primary.clients == backup.clients
  }

  /** A new PutAppend at the primary `pme`, forwarded to the backup `bme` of its view
      with the backup's reply delivered, leaves both servers in sync and gives the
      client the backup's answer. */
  lemma PutAppendKeepsBackupInSync(p: PBState, pme: string, b: PBState, bme: string, args: PutAppendArgs)
    requires InSync(p, b)
    requires p.view.primary == pme && p.view.backup == bme && bme != ""
    ensures var hb := BackupPutAppendStep(b, bme, args);
      var hp := PutAppendStep(p, pme, args, Some(hb.reply));
      args.id !in p.clients ==> InSync(hp.next, hb.next) && hp.reply == hb.reply
  {
  }

  /** A new Get at the primary, forwarded to its backup in the same way, keeps the two
      in sync when the key exists. When the key is absent on both, the backup records the
      request id and the primary does not: their client tables diverge. */
  lemma GetAndBackupGet(p: PBState, pme: string, b: PBState, bme: string, args: GetArgs)
    requires InSync(p, b) && args.id !in p.clients
    requires p.view.primary == pme && p.view.backup == bme && bme != ""
    ensures var hb := BackupGetStep(b, bme, args);
      var hp := GetStep(p, pme, args, Some(hb.reply));
      (args.key in p.database || b.view.backup != bme ==> InSync(hp.next, hb.next) && hp.reply == hb.reply) &&
      (args.key !in p.database && b.view.backup == bme ==>
         args.id in hb.next.clients && args.id !in hp.next.clients && hp.reply.err == ErrNoKey)
  {
  }

  /** The backup has no duplicate check. When it applies a forwarded Append but its reply
      is lost, the primary records nothing and forwards the retry, which the backup applies
      a second time: the primary answers OK, yet the backup holds the value appended twice. */
  lemma BackupAppliesTwice(p: PBState, pme: string, b: PBState, bme: string, args: PutAppendArgs)
    requires InSync(p, b) && args.id !in p.clients
    requires p.view.primary == pme && p.view.backup == bme && bme != "" && b.view.backup == bme
    requires args.op != PutOp && args.value != ""
    ensures var hb1 := BackupPutAppendStep(b, bme, args);
      var hp1 := PutAppendStep(p, pme, args, None);
      var hb2 := BackupPutAppendStep(hb1.next, bme, args);
      var hp2 := PutAppendStep(hp1.next, pme, args, Some(hb2.reply));
      hp1.next == p && hp2.reply.err == OK &&
      hb2.next.database[args.key] == hp2.next.database[args.key] + args.value &&
      !InSync(hp2.next, hb2.next)
  {
  }

  /** When a tick brings up a new backup and the Copy succeeds, the backup that applies
      the Copy request ends in sync with the primary. */
  lemma TransferSyncsBackup(p: PBState, pme: string, v: View, b: PBState)
    requires NeedsTransfer(p, pme, v)
    ensures var (p', sent) := TickStep(p, pme, Some(v), true);
      p'.view == v && sent.Some? && InSync(p', CopyStep(b, sent.value))
  {
  }
}
