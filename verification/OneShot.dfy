/** One-shot values: link codes, password-reset tokens and the two-step
    deletion of a server by the bot. */
module OneShot {
  import opened Options
  import opened Keys
  import opened RedisClient

  datatype Op =
    | Put(k: Key, v: int, ttl: int)
    | Take(k: Key)
    | Nothing

  datatype Event = Event(at: Time, op: Op)

  function Run1(db: Db, e: Event): Db {
    match e.op
    case Put(k, v, ttl) => SetEx(db, e.at, k, v, ttl)
    case Take(k) => db - {k}
    case Nothing => db
  }

  /** The store after all events of a trace. */
  function After(trace: seq<Event>): Db {
    if trace == [] then map[] else Run1(After(trace[..|trace| - 1]), trace[|trace| - 1])
  }

  predicate Touches(op: Op, k: Key) {
    !op.Nothing? && op.k == k
  }

  /** What the GET of the j-th event returned. */
  function Taken(trace: seq<Event>, j: nat): Option<int>
    requires j < |trace|
  {
    if trace[j].op.Take? then Get(After(trace[..j]), trace[j].at, trace[j].op.k) else None
  }

  /** Event i wrote the value k holds after the first n events. */
  ghost predicate Wrote(trace: seq<Event>, i: nat, n: nat, k: Key, entry: Entry) {
    && i < n <= |trace|
    && trace[i].op.Put? && trace[i].op.k == k
    && entry == Entry(trace[i].op.v, trace[i].at + trace[i].op.ttl)
    && forall m | i < m < n :: !Touches(trace[m].op, k)
  }

  lemma {:induction false} HasWriter(trace: seq<Event>, n: nat, k: Key) returns (i: nat)
    requires n <= |trace| && k in After(trace[..n])
    ensures Wrote(trace, i, n, k, After(trace[..n])[k])
  {
    var e := trace[n - 1];
    assert trace[..n][..n - 1] == trace[..n - 1];
    if Touches(e.op, k) {
      i := n - 1;
    } else {
      i := HasWriter(trace, n - 1, k);
    }
  }

  /** Every value taken was put by an earlier event that nothing on that key
      came after, and had not expired. */
  lemma TakenWasPut(trace: seq<Event>, j: nat) returns (i: nat)
    requires j < |trace| && Taken(trace, j).Some?
    ensures i < j && trace[i].op.Put? && trace[i].op == Put(trace[j].op.k, Taken(trace, j).value, trace[i].op.ttl)
    ensures trace[j].at < trace[i].at + trace[i].op.ttl
    ensures forall m | i < m < j :: !Touches(trace[m].op, trace[j].op.k)
  {
    i := HasWriter(trace, j, trace[j].op.k);
  }

  /** Each put is taken at most once: between two successful takes of a key
      there is another put of it. */
  lemma PutBetweenTakes(trace: seq<Event>, j1: nat, j2: nat) returns (i: nat)
    requires j1 < j2 < |trace| && Taken(trace, j1).Some? && Taken(trace, j2).Some?
    requires trace[j1].op.k == trace[j2].op.k
    ensures j1 < i < j2 && trace[i].op.Put?
    ensures trace[i].op == Put(trace[j2].op.k, Taken(trace, j2).value, trace[i].op.ttl)
  {
    i := TakenWasPut(trace, j2);
  }

  /** A link code or reset token that was generated once succeeds at most once,
      and only for the user it was generated for. */
  lemma CodeSucceedsOnce(trace: seq<Event>, i: nat, j1: nat, j2: nat)
    requires i < |trace| && trace[i].op.Put?
    requires forall m | 0 <= m < |trace| && m != i && trace[m].op.Put? :: trace[m].op.k != trace[i].op.k
    requires j1 < |trace| && Taken(trace, j1).Some? && trace[j1].op.k == trace[i].op.k
    requires j2 < |trace| && Taken(trace, j2).Some? && trace[j2].op.k == trace[i].op.k
    ensures j1 == j2 && i < j1 && Taken(trace, j1) == Some(trace[i].op.v)
    ensures trace[j1].at < trace[i].at + trace[i].op.ttl
  {
    var w1 := TakenWasPut(trace, j1);
    var w2 := TakenWasPut(trace, j2);
    if j1 < j2 {
      var w := PutBetweenTakes(trace, j1, j2);
    } else if j2 < j1 {
      var w := PutBetweenTakes(trace, j2, j1);
    }
  }

  // ----- the bot's /delete

  const PENDING_DELETE_TTL := 60

  /** A `/delete <server>` or `/delete <server> confirm` message of a chat that
      is linked to `user`. */
  datatype Message = Delete(at: Time, chat: int, user: int, server: int, confirm: bool)

  datatype Reply = NotFound | AskConfirm | Expired | Deleted

  datatype Bot = Bot(owner: map<int, int>, db: Db)

  function Reaction(bot: Bot, m: Message): Reply {
    if m.server !in bot.owner || bot.owner[m.server] != m.user then NotFound
    else if !m.confirm then AskConfirm
    else if Get(bot.db, m.at, PendingDelete(m.chat)) == Some(m.server) then Deleted
    else Expired
  }

  function OpOf(m: Message, reply: Reply): Op {
    match reply
    case NotFound => Nothing
    case AskConfirm => Put(PendingDelete(m.chat), m.server, PENDING_DELETE_TTL)
    case Expired => Take(PendingDelete(m.chat))
    case Deleted => Take(PendingDelete(m.chat))
  }

  function Handle(bot: Bot, m: Message): Bot {
    var reply := Reaction(bot, m);
    Bot(if reply.Deleted? then bot.owner - {m.server} else bot.owner,
        Run1(bot.db, Event(m.at, OpOf(m, reply))))
  }

  /** `_handle_delete`, step by step over the server table and Redis. */
  method HandleDelete(owner: map<int, int>, redis: Client, m: Message)
    returns (owner': map<int, int>, reply: Reply)
    modifies redis
    ensures reply == Reaction(Bot(owner, old(redis.db)), m)
    ensures Bot(owner', redis.db) == Handle(Bot(owner, old(redis.db)), m)
  {
    owner' := owner;
    if m.server !in owner || owner[m.server] != m.user {
      return owner, NotFound;
    }
    if !m.confirm {
      redis.Store(PendingDelete(m.chat), m.server, m.at, PENDING_DELETE_TTL);
      return owner, AskConfirm;
    }
    var ok := redis.ConsumePendingDelete(m.chat, m.server, m.at);
    if !ok {
      return owner, Expired;
    }
    owner' := owner - {m.server};
    reply := Deleted;
  }

  /** The states that the messages meet. Between two messages the server table
      may also change in other ways; the pending requests only change here. */
  ghost predicate IsBotRun(bots: seq<Bot>, msgs: seq<Message>) {
    && |bots| == |msgs| + 1
    && bots[0].db == map[]
    && forall i | 0 <= i < |msgs| :: bots[i + 1].db == Handle(bots[i], msgs[i]).db
  }

  function TraceOf(bots: seq<Bot>, msgs: seq<Message>): seq<Event>
    requires |bots| == |msgs| + 1
  {
    seq(|msgs|, i requires 0 <= i < |msgs| => Event(msgs[i].at, OpOf(msgs[i], Reaction(bots[i], msgs[i]))))
  }

  lemma {:induction false} StoreFollowsTrace(bots: seq<Bot>, msgs: seq<Message>, n: nat)
    requires IsBotRun(bots, msgs) && n <= |msgs|
    ensures bots[n].db == After(TraceOf(bots, msgs)[..n])
  {
    var trace := TraceOf(bots, msgs);
    if n > 0 {
      StoreFollowsTrace(bots, msgs, n - 1);
      assert trace[..n][..n - 1] == trace[..n - 1];
    }
  }

  /** Each deletion confirms its own earlier request: the same chat asked for
      that very server less than 60 seconds before, and in between no message
      of that chat set or consumed a pending deletion. */
  lemma DeletionWasRequested(bots: seq<Bot>, msgs: seq<Message>, j: nat) returns (i: nat)
    requires IsBotRun(bots, msgs) && j < |msgs| && Reaction(bots[j], msgs[j]).Deleted?
    ensures i < j && Reaction(bots[i], msgs[i]).AskConfirm?
    ensures msgs[i].chat == msgs[j].chat && msgs[i].server == msgs[j].server
    ensures msgs[j].at < msgs[i].at + 60
    ensures forall m | i < m < j && msgs[m].chat == msgs[j].chat :: Reaction(bots[m], msgs[m]).NotFound?
  {
    var trace := TraceOf(bots, msgs);
    StoreFollowsTrace(bots, msgs, j);
    i := TakenWasPut(trace, j);
    forall m | i < m < j && msgs[m].chat == msgs[j].chat
      ensures Reaction(bots[m], msgs[m]).NotFound?
    {
      assert !Touches(trace[m].op, PendingDelete(msgs[j].chat));
    }
  }

  /** Two deletions never share a request. */
  lemma DeletionsHaveOwnRequests(bots: seq<Bot>, msgs: seq<Message>, j1: nat, j2: nat) returns (i: nat)
    requires IsBotRun(bots, msgs) && j1 < j2 < |msgs| && msgs[j1].chat == msgs[j2].chat
    requires Reaction(bots[j1], msgs[j1]).Deleted? && Reaction(bots[j2], msgs[j2]).Deleted?
    ensures j1 < i < j2 && Reaction(bots[i], msgs[i]).AskConfirm? && msgs[i].server == msgs[j2].server
  {
    i := DeletionWasRequested(bots, msgs, j2);
  }

  // ----- who may delete what, and when it works

  /** Only the owner of a server gets any further than "not found"; for others
      neither the table nor the store changes. */
  lemma OnlyTheOwner(bots: seq<Bot>, msgs: seq<Message>, j: nat)
    requires IsBotRun(bots, msgs) && j < |msgs|
    ensures var m, owner := msgs[j], bots[j].owner;
            if m.server in owner && owner[m.server] == m.user
            then Reaction(bots[j], m) in {AskConfirm, Expired, Deleted}
            else Reaction(bots[j], m) == NotFound && Handle(bots[j], m) == bots[j]
  {
  }

  /** A deletion takes that server out of the table and nothing else does. */
  lemma DeletionEffect(bots: seq<Bot>, msgs: seq<Message>, j: nat, server: int)
    requires IsBotRun(bots, msgs) && j < |msgs|
    ensures var owner, owner' := bots[j].owner, Handle(bots[j], msgs[j]).owner;
            && (server in owner' <==>
                  server in owner && !(server == msgs[j].server && Reaction(bots[j], msgs[j]) == Deleted))
            && (server in owner' ==> owner'[server] == owner[server])
  {
  }

  /** A message of a chat that asks for, or tries to confirm, the deletion of a
      server that its user owns at that moment. */
  predicate Counts(bots: seq<Bot>, msgs: seq<Message>, m: nat, chat: int)
    requires m < |msgs| < |bots|
  {
    && msgs[m].chat == chat && msgs[m].server in bots[m].owner
    && bots[m].owner[msgs[m].server] == msgs[m].user
  }

  /** Message i is a request for that server from that chat, less than 60 seconds
      before message j, and the last one of the chat that counts. */
  ghost predicate Requested(bots: seq<Bot>, msgs: seq<Message>, i: nat, j: nat, chat: int, server: int) {
    && i < j < |msgs| < |bots|
    && Counts(bots, msgs, i, chat) && msgs[i].server == server && !msgs[i].confirm
    && msgs[j].at - msgs[i].at < 60
    && forall m: nat | i < m < j :: !Counts(bots, msgs, m, chat)
  }

  predicate PendingIs(bot: Bot, chat: int, server: int, expires: Time) {
    PendingDelete(chat) in bot.db && bot.db[PendingDelete(chat)] == Entry(server, expires)
  }

  lemma {:induction false} PendingStays(
    bots: seq<Bot>, msgs: seq<Message>, i: nat, j: nat, chat: int, server: int, expires: Time)
    requires IsBotRun(bots, msgs) && i <= j < |bots| && PendingIs(bots[i], chat, server, expires)
    requires forall m: nat | i <= m < j :: !Counts(bots, msgs, m, chat)
    ensures PendingIs(bots[j], chat, server, expires)
    decreases j
  {
    if i < j {
      PendingStays(bots, msgs, i, j - 1, chat, server, expires);
      assert !Counts(bots, msgs, j - 1, chat);
      assert bots[j].db == Handle(bots[j - 1], msgs[j - 1]).db;
    }
  }

  /** A confirmation by the owner deletes exactly if the chat has requested the
      deletion of that server in time and nothing that counts came in between. */
  lemma ConfirmationDeletesExactly(bots: seq<Bot>, msgs: seq<Message>, j: nat)
    requires IsBotRun(bots, msgs) && j < |msgs| && msgs[j].confirm && Counts(bots, msgs, j, msgs[j].chat)
    ensures Reaction(bots[j], msgs[j]) == Deleted <==>
            exists i: nat :: Requested(bots, msgs, i, j, msgs[j].chat, msgs[j].server)
  {
    var chat, server := msgs[j].chat, msgs[j].server;
    if i: nat :| Requested(bots, msgs, i, j, chat, server) {
      assert bots[i + 1].db == Handle(bots[i], msgs[i]).db;
      PendingStays(bots, msgs, i + 1, j, chat, server, msgs[i].at + 60);
    }
    if Reaction(bots[j], msgs[j]) == Deleted {
      var i := DeletionWasRequested(bots, msgs, j);
      forall m: nat | i < m < j ensures !Counts(bots, msgs, m, chat) {
        OnlyTheOwner(bots, msgs, m);
      }
      assert Requested(bots, msgs, i, j, chat, server);
    }
  }

  // ----- when a take succeeds

  /** Event i put that value, it has not expired at event j, and nothing in between
      touched the key. */
  ghost predicate Awaits(trace: seq<Event>, i: nat, j: nat, k: Key, v: int) {
    && i < j < |trace| && trace[i].op.Put? && trace[i].op.k == k && trace[i].op.v == v
    && trace[j].at - trace[i].at < trace[i].op.ttl
    && forall m: nat | i < m < j :: !Touches(trace[m].op, k)
  }

  lemma {:induction false} PutStays(trace: seq<Event>, i: nat, n: nat)
    requires i < n <= |trace| && trace[i].op.Put?
    requires forall m: nat | i < m < n :: !Touches(trace[m].op, trace[i].op.k)
    ensures var db := After(trace[..n]);
            trace[i].op.k in db && db[trace[i].op.k] == Entry(trace[i].op.v, trace[i].at + trace[i].op.ttl)
    decreases n
  {
    assert trace[..n][..n - 1] == trace[..n - 1];
    if i < n - 1 {
      PutStays(trace, i, n - 1);
      assert !Touches(trace[n - 1].op, trace[i].op.k);
    }
  }

  /** A take yields a value exactly if that value was put, is not expired and has
      not been taken or overwritten since. */
  lemma TakeYieldsExactly(trace: seq<Event>, j: nat, v: int)
    requires j < |trace| && trace[j].op.Take?
    ensures Taken(trace, j) == Some(v) <==> exists i: nat :: Awaits(trace, i, j, trace[j].op.k, v)
  {
    var k := trace[j].op.k;
    if Taken(trace, j) == Some(v) {
      var i := TakenWasPut(trace, j);
      assert Awaits(trace, i, j, k, v);
    }
    if i: nat :| Awaits(trace, i, j, k, v) {
      PutStays(trace, i, j);
    }
  }
}
