/** The primary/backup key-value server of pbservice/server.go: a key-value
    `database`, a `clients` table that remembers answered request ids, and the
    current view. Remote calls (to the backup, to the view service) are inputs:
    `None` for a call that failed, `Some(reply)` for the reply that came back. */
module PBService {
  import opened Wrappers

  /** server.go's string-typed error; `Unset` is its zero value "" (a reply nobody filled in). */
  datatype Err = Unset | OK | ErrNoKey | ErrWrongServer

  /** A view of the view service: its number and the primary's and backup's names ("" for none). */
  datatype View = View(viewnum: nat, primary: string, backup: string)

  /** The view a server starts with. */
  const EmptyView := View(0, "", "")

  /** The operation name that overwrites; every other name appends. */
  const PutOp := "Put"

  /** What `clients` records for an applied Put or Append. */
  const Accepted := "accepted"

  datatype GetArgs = GetArgs(key: string, id: int)
  datatype GetReply = GetReply(err: Err, value: string)
  datatype PutAppendArgs = PutAppendArgs(key: string, value: string, op: string, id: int)
  datatype PutAppendReply = PutAppendReply(err: Err)
  datatype CopyArgs = CopyArgs(database: map<string, string>, clients: map<int, string>)

  /** A reply as the RPC layer hands it to a handler: every field zero. */
  const ZeroGetReply := GetReply(Unset, "")

  /** The server's fields as a value. */
  datatype PBState = PBState(view: View, database: map<string, string>, clients: map<int, string>)

  /** The state after a handler ran, and the reply it sent. */
  datatype Handled<R> = Handled(next: PBState, reply: R)

  /** A map lookup that yields "" for an absent key, as Go's map index does. */
  function ValueOr(m: map<string, string>, key: string): (v: string)
    ensures key in m ==> v == m[key]
    ensures key !in m ==> v == ""
  {
    if key in m then m[key] else ""
  }

  /** The local read (`get`): `reply` is the reply as it stands when `get` starts. */
  function LocalGetStep(s: PBState, args: GetArgs, reply: GetReply): (h: Handled<GetReply>)
    ensures args.key in s.database ==> h.reply == GetReply(OK, s.database[args.key])
    // an absent key reports ErrNoKey and leaves the reply's value as it was
    ensures args.key !in s.database ==> h.reply == GetReply(ErrNoKey, reply.value)
    // the answered value is recorded under the request id; nothing else changes
    ensures h.next.clients == s.clients[args.id := h.reply.value]
    ensures h.next.database == s.database && h.next.view == s.view
  {
    var r := if args.key in s.database then GetReply(OK, s.database[args.key]) else reply.(err := ErrNoKey);
    Handled(s.(clients := s.clients[args.id := r.value]), r)
  }

  /** The local write (`put`): "Put" overwrites, any other operation appends. */
  function LocalPutStep(s: PBState, args: PutAppendArgs): (h: Handled<PutAppendReply>)
    ensures args.key in h.next.database
    ensures args.op == PutOp ==> h.next.database[args.key] == args.value
    ensures args.op != PutOp ==> h.next.database[args.key] == ValueOr(s.database, args.key) + args.value
    // every other key keeps its value, and no key appears or disappears besides `args.key`
    ensures h.next.database - {args.key} == s.database - {args.key}
    ensures h.next.clients == s.clients[args.id := Accepted]
    ensures h.reply == PutAppendReply(OK) && h.next.view == s.view
  {
    var value := if args.op == PutOp then args.value else ValueOr(s.database, args.key) + args.value;
    Handled(s.(database := s.database[args.key := value], clients := s.clients[args.id := Accepted]),
            PutAppendReply(OK))
  }

  /** The client-facing `Get` at server `me`. `backupReply` is the outcome of forwarding
      the request to the backup; it is consulted only when the view names a backup. */
  function GetStep(s: PBState, me: string, args: GetArgs, backupReply: Option<GetReply>): (h: Handled<GetReply>)
    // a repeated request id is answered from the table, whatever the view
    ensures args.id in s.clients ==> h == Handled(s, GetReply(OK, s.clients[args.id]))
    // a new request at a server that is not the primary is refused and changes nothing
    ensures args.id !in s.clients && s.view.primary != me ==>
              h.next == s && h.reply.err == ErrWrongServer
    // a failed or refused forward to the backup changes nothing and is not answered OK
    ensures args.id !in s.clients && s.view.primary == me && s.view.backup != "" &&
            (backupReply.None? || backupReply.value.err != OK) ==>
              h.next == s && h.reply.err != OK
    // the client then gets the backup's reply as it is, or the zero reply when the call failed
    ensures args.id !in s.clients && s.view.primary == me && s.view.backup != "" ==>
              (backupReply.None? ==> h.reply == ZeroGetReply) &&
              (backupReply.Some? && backupReply.value.err != OK ==> h.reply == backupReply.value)
    // a new request answered OK is the primary's current value for the key
    ensures args.id !in s.clients && h.reply.err == OK ==>
              args.key in s.database && h.reply.value == s.database[args.key]
    // a new request at the primary with no backup is served by the local read
    ensures args.id !in s.clients && s.view.primary == me && s.view.backup == "" ==>
              h == LocalGetStep(s, args, ZeroGetReply)
    // a new request at the primary whose forward the backup answered OK is served by the
    // local read, starting from the backup's reply
    ensures args.id !in s.clients && s.view.primary == me && s.view.backup != "" &&
            backupReply.Some? && backupReply.value.err == OK ==>
              h == LocalGetStep(s, args, backupReply.value)
    // an OK answer is remembered, so a retry gets the same value
    ensures h.reply.err == OK ==> args.id in h.next.clients && h.next.clients[args.id] == h.reply.value
    // the client table changes at most at the request id
    ensures h.next.clients == s.clients || h.next.clients == s.clients[args.id := h.reply.value]
    ensures h.next.database == s.database && h.next.view == s.view
  {
    if args.id in s.clients then
      Handled(s, GetReply(OK, s.clients[args.id]))
    else if s.view.primary != me then
      Handled(s, ZeroGetReply.(err := ErrWrongServer))
    else if s.view.backup != "" then
      match backupReply
      case None => Handled(s, ZeroGetReply)
      case Some(b) => if b.err != OK then Handled(s, b) else LocalGetStep(s, args, b)
    else
      LocalGetStep(s, args, ZeroGetReply)
  }

  /** `BackupGet` at server `me`: only the backup of the current view serves it. */
  function BackupGetStep(s: PBState, me: string, args: GetArgs): (h: Handled<GetReply>)
    ensures s.view.backup != me ==> h == Handled(s, GetReply(ErrWrongServer, ""))
    ensures s.view.backup == me ==> h == LocalGetStep(s, args, ZeroGetReply)
  {
    if s.view.backup != me then Handled(s, ZeroGetReply.(err := ErrWrongServer))
    else LocalGetStep(s, args, ZeroGetReply)
  }

  /** The client-facing `PutAppend` at server `me`; `backupReply` as for `GetStep`. */
  function PutAppendStep(s: PBState, me: string, args: PutAppendArgs, backupReply: Option<PutAppendReply>)
    : (h: Handled<PutAppendReply>)
    // a repeated request id is answered OK and changes nothing
    ensures args.id in s.clients ==> h == Handled(s, PutAppendReply(OK))
    // a new request at a server that is not the primary is refused and changes nothing
    ensures args.id !in s.clients && s.view.primary != me ==>
              h == Handled(s, PutAppendReply(ErrWrongServer))
    // a failed or refused forward to the backup changes nothing
    ensures args.id !in s.clients && s.view.primary == me && s.view.backup != "" &&
            (backupReply.None? || backupReply.value.err != OK) ==>
              h.next == s
    // the client then gets the backup's reply as it is, or the zero reply when the call failed
    ensures args.id !in s.clients && s.view.primary == me && s.view.backup != "" ==>
              (backupReply.None? ==> h.reply == PutAppendReply(Unset)) &&
              (backupReply.Some? && backupReply.value.err != OK ==> h.reply == backupReply.value)
    // a new request at the primary with no backup, or whose forward the backup answered OK,
    // is applied by the local write and answered OK
    ensures args.id !in s.clients && s.view.primary == me &&
            (s.view.backup == "" || (backupReply.Some? && backupReply.value.err == OK)) ==>
              h == LocalPutStep(s, args)
    // the only change ever made is the single local write
    ensures h.next == s || h.next == LocalPutStep(s, args).next
    // the answer is OK exactly when the request id is on record afterwards
    ensures h.reply.err == OK <==> args.id in h.next.clients
    ensures h.next.view == s.view
  {
    if args.id in s.clients then
      Handled(s, PutAppendReply(OK))
    else if s.view.primary != me then
      Handled(s, PutAppendReply(ErrWrongServer))
    else if s.view.backup != "" && backupReply.None? then
      Handled(s, PutAppendReply(Unset))
    else if s.view.backup != "" && backupReply.value.err != OK then
      Handled(s, backupReply.value)
    else
      LocalPutStep(s, args)
  }

  /** `BackupPutAppend` at server `me`: only the backup of the current view applies it,
      and it applies it without looking at `clients`. */
  function BackupPutAppendStep(s: PBState, me: string, args: PutAppendArgs): (h: Handled<PutAppendReply>)
    ensures s.view.backup != me ==> h == Handled(s, PutAppendReply(ErrWrongServer))
    ensures s.view.backup == me ==> h == LocalPutStep(s, args)
  {
    if s.view.backup != me then Handled(s, PutAppendReply(ErrWrongServer))
    else LocalPutStep(s, args)
  }

  /** `Copy`: the backup takes over the primary's database and client table wholesale. */
  function CopyStep(s: PBState, args: CopyArgs): (t: PBState)
    ensures t.database == args.database && t.clients == args.clients && t.view == s.view
  {
    s.(database := args.database, clients := args.clients)
  }

  /** True when adopting view `v` makes server `me` the primary of a backup that the
      current view does not already have, so the state must be copied to it first. */
  predicate NeedsTransfer(s: PBState, me: string, v: View)
  {
    v.primary == me && v.backup != "" && v.backup != s.view.backup
  }

  /** The view change in `tick`. `ping` is the view service's answer (`None` on error);
      `copyOk` is whether the `Copy` call to a new backup succeeded. Returns the new state
      and the `Copy` request sent, if any. */
  function TickStep(s: PBState, me: string, ping: Option<View>, copyOk: bool): (r: (PBState, Option<CopyArgs>))
    // the data is never touched
    ensures r.0.database == s.database && r.0.clients == s.clients
    // the new view is adopted unless the ping failed or a needed transfer failed
    ensures r.0.view == (if ping.None? || (NeedsTransfer(s, me, ping.value) && !copyOk) then s.view
                         else ping.value)
    // a transfer sends exactly the current database and client table
    ensures r.1 == (if ping.Some? && NeedsTransfer(s, me, ping.value) then Some(CopyArgs(s.database, s.clients))
                    else None)
  {
    match ping
    case None => (s, None)
    case Some(v) =>
      if NeedsTransfer(s, me, v) then
        (if copyOk then s.(view := v) else s, Some(CopyArgs(s.database, s.clients)))
      else
        (s.(view := v), None)
  }

  /** One server of the primary/backup service, named `me`. */
  class PBServer {
    const me: string
    var view: View
    var database: map<string, string>
    var clients: map<int, string>

    function Snapshot(): PBState
      reads this
    {
      PBState(view, database, clients)
    }

    /** `StartServer`'s initialisation: no view, no data, no clients. */
    constructor (me: string)
      ensures this.me == me
      ensures view == EmptyView && database == map[] && clients == map[]
    {
      this.me := me;
      view := EmptyView;
      database := map[];
      clients := map[];
    }

    /** server.go's lower-case `get`. */
    method LocalGet(args: GetArgs, reply: GetReply) returns (r: GetReply)
      modifies this
      ensures Handled(Snapshot(), r) == LocalGetStep(old(Snapshot()), args, reply)
    {
      r := reply;
      if args.key in database {
        r := r.(value := database[args.key], err := OK);
      } else {
        r := r.(err := ErrNoKey);
      }
      clients := clients[args.id := r.value];
    }

    /** server.go's lower-case `put`. */
    method LocalPut(args: PutAppendArgs) returns (r: PutAppendReply)
      modifies this
      ensures Handled(Snapshot(), r) == LocalPutStep(old(Snapshot()), args)
    {
      if args.op == PutOp {
        database := database[args.key := args.value];
      } else {
        var value := if args.key in database then database[args.key] else "";
        value := value + args.value;
        database := database[args.key := value];
      }
      r := PutAppendReply(OK);
      clients := clients[args.id := Accepted];
    }

    method Get(args: GetArgs, backupReply: Option<GetReply>) returns (reply: GetReply)
      modifies this
      ensures Handled(Snapshot(), reply) == GetStep(old(Snapshot()), me, args, backupReply)
    {
      reply := ZeroGetReply;
      if args.id in clients {
        reply := reply.(value := clients[args.id], err := OK);
        return;
      }
      if view.primary != me {
        reply := reply.(err := ErrWrongServer);
        return;
      }
      if view.backup != "" {
        if backupReply.None? {
          return;
        }
        reply := backupReply.value;
        if reply.err != OK {
          return;
        }
      }
      reply := LocalGet(args, reply);
    }

    method BackupGet(args: GetArgs) returns (reply: GetReply)
      modifies this
      ensures Handled(Snapshot(), reply) == BackupGetStep(old(Snapshot()), me, args)
    {
      reply := ZeroGetReply;
      if view.backup != me {
        reply := reply.(err := ErrWrongServer);
        return;
      }
      reply := LocalGet(args, reply);
    }

    method PutAppend(args: PutAppendArgs, backupReply: Option<PutAppendReply>) returns (reply: PutAppendReply)
      modifies this
      ensures Handled(Snapshot(), reply) == PutAppendStep(old(Snapshot()), me, args, backupReply)
    {
      reply := PutAppendReply(Unset);
      if args.id in clients {
        reply := PutAppendReply(OK);
        return;
      }
      if view.primary != me {
        reply := PutAppendReply(ErrWrongServer);
        return;
      }
      if view.backup != "" {
        if backupReply.None? {
          return;
        }
        reply := backupReply.value;
        if reply.err != OK {
          return;
        }
      }
      reply := LocalPut(args);
    }

    method BackupPutAppend(args: PutAppendArgs) returns (reply: PutAppendReply)
      modifies this
      ensures Handled(Snapshot(), reply) == BackupPutAppendStep(old(Snapshot()), me, args)
    {
      if view.backup != me {
        reply := PutAppendReply(ErrWrongServer);
        return;
      }
      reply := LocalPut(args);
    }

    method Copy(args: CopyArgs)
      modifies this
      ensures Snapshot() == CopyStep(old(Snapshot()), args)
      ensures database == args.database && clients == args.clients && view == old(view)
    {
      database := args.database;
      clients := args.clients;
    }

    /** The view change of `tick`; returns the `Copy` request sent to a new backup, if any. */
    method Tick(ping: Option<View>, copyOk: bool) returns (sent: Option<CopyArgs>)
      modifies this
      ensures (Snapshot(), sent) == TickStep(old(Snapshot()), me, ping, copyOk)
    {
      sent := None;
      if ping.None? {
        return;
      }
      var v := ping.value;
      if v.primary == me && v.backup != "" && v.backup != view.backup {
        sent := Some(CopyArgs(database, clients));
        if !copyOk {
          return;
        }
      }
      view := v;
    }
  }
}
