/** The browser side of rotation: any number of clients, each with its own
    login, each issuing its calls one at a time and receiving every answer.
    Password resets and the clock go on around them. */
module Clients {
  import opened Keys
  import opened Sessions
  import opened SessionRuns
  import opened SessionLives

  type Cid = nat

  datatype Stored = NoTokens | HasTokens(refresh: Token)
  datatype Busy = Free | LoggingIn(r: Rid) | Refreshing(r: Rid) | LoggingOut(r: Rid)

  /** The token pair in local storage and the call in flight. */
  datatype Client = Client(stored: Stored, busy: Busy)

  /** `caller` records which client issued a request. */
  datatype World = World(s: State, clients: map<Cid, Client>, caller: map<Rid, Cid>)

  datatype Move =
    | Open(c: Cid)
    | Login(c: Cid, r: Rid, sid: Sid)
    | TryRefresh(c: Cid, r: Rid)
    | SignOut(c: Cid, r: Rid)
    | Receive(c: Cid)
    | Server(step: Step)

  /** Steps of the server that no client starts and no client waits for. */
  predicate Internal(step: Step) {
    step.Tick? || step.LoginSet? || step.TestUsed? || step.MintNext? || step.Pipeline? || step.MarkUsed? ||
    step.Rollback? || step.LogoutDel? || step.ResetBegin? || step.ScanYield? || step.ScanDelete? || step.ScanEnd?
  }

  predicate Succeeds(s: State, r: Rid) {
    Issuing(s, r, Replying)
  }

  /** The answer of a request is ready. */
  predicate Ready(s: State, r: Rid) {
    r in s.reqs && r !in s.crashed &&
    match s.reqs[r]
    case Check(_, _) => false
    case Issue(_, _, stage) => stage.Replying? || stage.Refused?
    case Logout(_, deleted) => deleted
    case Revoke(_, _, _, _, _, done) => done
    case Rejected => true
  }

  predicate Idle(w: World, c: Cid) {
    c in w.clients && w.clients[c].busy.Free?
  }

  predicate CanMove(w: World, m: Move) {
    match m
    case Open(c) => c !in w.clients
    case Login(c, r, sid) => Idle(w, c) && Enabled(w.s, LoginBegin(r, sid))
    case TryRefresh(c, r) => Idle(w, c) && w.clients[c].stored.HasTokens? && r !in w.s.reqs
    case SignOut(c, r) => Idle(w, c) && w.clients[c].stored.HasTokens? && r !in w.s.reqs
    case Receive(c) => c in w.clients && !w.clients[c].busy.Free? && Ready(w.s, w.clients[c].busy.r)
    case Server(step) => Internal(step) && Enabled(w.s, step)
  }

  function Start(w: World, c: Cid, busy: Busy, s: State): World
    requires c in w.clients && !busy.Free?
  {
    World(s, w.clients[c := w.clients[c].(busy := busy)], w.caller[busy.r := c])
  }

  /** A successful login or refresh replaces the stored pair; anything else
      that ends a refresh or a logout clears it. */
  function Moved(w: World, m: Move): World
    requires CanMove(w, m)
  {
    match m
    case Open(c) => w.(clients := w.clients[c := Client(NoTokens, Free)])
    case Login(c, r, sid) => Start(w, c, LoggingIn(r), Apply(w.s, LoginBegin(r, sid)))
    case TryRefresh(c, r) => Start(w, c, Refreshing(r), Apply(w.s, RefreshBegin(r, w.clients[c].stored.refresh)))
    case SignOut(c, r) => Start(w, c, LoggingOut(r), Apply(w.s, LogoutBegin(r, w.clients[c].stored.refresh)))
    case Receive(c) =>
      var busy := w.clients[c].busy;
      if !busy.LoggingOut? && Succeeds(w.s, busy.r) then
        w.(s := Apply(w.s, Answer(busy.r)),
           clients := w.clients[c := Client(HasTokens(w.s.reqs[busy.r].issued), Free)])
      else
        w.(clients := w.clients[c := Client(NoTokens, Free)])
    case Server(step) => w.(s := Apply(w.s, step))
  }

  // ----- the invariant

  predicate Holds(w: World, c: Cid, sid: Sid) {
    c in w.clients && w.clients[c].stored.HasTokens? && w.clients[c].stored.refresh.sid == sid
  }

  /** The token an unfinished refresh has presented. */
  predicate Presents(s: State, r: Rid, t: Token) {
    r in s.reqs &&
    var q := s.reqs[r];
    || (q.Check? && q.shown == t)
    || (q.Issue? && q.grant == ByToken(t) && !q.stage.Answered? && !q.stage.Refused?)
  }

  ghost predicate ClientOk(w: World, c: Cid) {
    c in w.clients ==>
      && (w.clients[c].stored.HasTokens? ==> w.clients[c].stored.refresh in w.s.released)
      && (!w.clients[c].busy.Free? ==>
            w.clients[c].busy.r in w.caller && w.caller[w.clients[c].busy.r] == c && w.clients[c].busy.r in w.s.reqs)
  }

  ghost predicate ApartOk(w: World, c: Cid, d: Cid, sid: Sid) {
    Holds(w, c, sid) && Holds(w, d, sid) ==> c == d
  }

  ghost predicate CallerOk(w: World, r: Rid, t: Token) {
    Presents(w.s, r, t) ==>
      r in w.caller && w.caller[r] in w.clients && w.clients[w.caller[r]] == Client(HasTokens(t), Refreshing(r))
  }

  /** A marked jti can only be stored by a client whose refresh of it has
      succeeded and whose answer is on the way. */
  ghost predicate MarkOk(w: World, c: Cid, sid: Sid) {
    RefreshUsed(sid) in w.s.db ==>
      && sid in w.s.minted && Token(sid, w.s.minted[sid].exp) in w.s.released
      && (Holds(w, c, sid) ==>
            w.clients[c].busy.Refreshing? && Succeeds(w.s, w.clients[c].busy.r))
  }

  /** A logout that has yet to delete its entry is the call its client waits for. */
  ghost predicate LeaverOk(w: World, r: Rid, t: Token) {
    r in w.s.reqs && w.s.reqs[r] == Logout(t, false) ==>
      r in w.caller && w.caller[r] in w.clients && w.clients[w.caller[r]] == Client(HasTokens(t), LoggingOut(r))
  }

  ghost predicate CalmOk(w: World, r: Rid) {
    r in w.s.reqs && w.s.reqs[r].Revoke? ==> !w.s.reqs[r].reuse
  }

  ghost predicate WorldInv(w: World) {
    && Inv(w.s) && w.s.crashed == {} && w.caller.Keys <= w.s.reqs.Keys
    && (forall c :: ClientOk(w, c))
    && (forall c, d, sid :: ApartOk(w, c, d, sid))
    && (forall r, t :: CallerOk(w, r, t))
    && (forall r, t :: LeaverOk(w, r, t))
    && (forall c, sid :: MarkOk(w, c, sid))
    && (forall r :: CalmOk(w, r))
  }

  lemma NoAlarm(w: World, r: Rid)
    requires WorldInv(w) && Enabled(w.s, TestUsed(r))
    ensures !Live(w.s, RefreshUsed(w.s.reqs[r].shown.sid))
  {
    var t := w.s.reqs[r].shown;
    assert CallerOk(w, r, t) && MarkOk(w, w.caller[r], t.sid);
  }

  // ----- every move keeps it

  lemma PresentsBack(s: State, step: Step, r: Rid, t: Token)
    requires Enabled(s, step) && Internal(step) && Presents(Apply(s, step), r, t)
    ensures Presents(s, r, t)
  {
    if step.Tick? || step.r != r {
      OtherRequests(s, step, r);
    }
  }

  lemma AnswerWaits(s: State, step: Step, r: Rid)
    requires Enabled(s, step) && Internal(step) && Succeeds(s, r)
    ensures Succeeds(Apply(s, step), r)
  {
  }

  lemma RequestsStay(s: State, step: Step)
    requires Enabled(s, step)
    ensures s.reqs.Keys <= Apply(s, step).reqs.Keys
    ensures !step.Crash? ==> Apply(s, step).crashed == s.crashed
  {
    forall r | r in s.reqs ensures r in Apply(s, step).reqs {
      if step.Tick? || step.Crash? || step.r != r {
        OtherRequests(s, step, r);
      }
    }
  }

  lemma MintsStay(s: State, step: Step, sid: Sid)
    requires Enabled(s, step) && sid in s.minted
    ensures sid in Apply(s, step).minted && Apply(s, step).minted[sid] == s.minted[sid]
  {
  }

  lemma CalmStep(w: World, step: Step, w': World, r: Rid)
    requires WorldInv(w) && Internal(step) && Enabled(w.s, step) && w' == Moved(w, Server(step))
    ensures CalmOk(w', r)
  {
    assert CalmOk(w, r);
    if step.TestUsed? {
      NoAlarm(w, step.r);
    }
  }

  lemma ServerMarks(w: World, step: Step, w': World, c: Cid, sid: Sid)
    requires WorldInv(w) && Internal(step) && Enabled(w.s, step) && w' == Moved(w, Server(step))
    ensures MarkOk(w', c, sid)
  {
    assert MarkOk(w, c, sid);
    if RefreshUsed(sid) in w'.s.db {
      MarksOnlyByMarking(w.s, step, sid);
      ReleasedStays(w.s, step);
      if step.MarkUsed? && sid == w.s.reqs[step.r].grant.shown.sid {
        var t := w.s.reqs[step.r].grant.shown;
        assert ShownOk(w.s, step.r) && TokenOk(w.s, t);
        assert CallerOk(w, step.r, t) && ApartOk(w, c, w.caller[step.r], sid);
      } else {
        MintsStay(w.s, step, sid);
        if Holds(w, c, sid) {
          AnswerWaits(w.s, step, w.clients[c].busy.r);
        }
      }
    }
  }

  lemma ServerLeavers(w: World, step: Step, w': World, r: Rid, t: Token)
    requires WorldInv(w) && Internal(step) && Enabled(w.s, step) && w' == Moved(w, Server(step))
    ensures LeaverOk(w', r, t)
  {
    assert LeaverOk(w, r, t);
    if step.Tick? || step.r != r {
      OtherRequests(w.s, step, r);
    }
  }

  lemma ServerKeepsWorld(w: World, step: Step)
    requires WorldInv(w) && CanMove(w, Server(step))
    ensures WorldInv(Moved(w, Server(step)))
  {
    var w' := Moved(w, Server(step));
    StepKeepsInv(w.s, step);
    RequestsStay(w.s, step);
    ReleasedStays(w.s, step);
    forall c ensures ClientOk(w', c) {
      assert ClientOk(w, c);
    }
    forall c, d, sid ensures ApartOk(w', c, d, sid) {
      assert ApartOk(w, c, d, sid);
    }
    forall r, t ensures CallerOk(w', r, t) {
      if Presents(w'.s, r, t) {
        PresentsBack(w.s, step, r, t);
        assert CallerOk(w, r, t);
      }
    }
    forall r, t ensures LeaverOk(w', r, t) {
      ServerLeavers(w, step, w', r, t);
    }
    forall c, sid ensures MarkOk(w', c, sid) {
      ServerMarks(w, step, w', c, sid);
    }
    forall r ensures CalmOk(w', r) {
      CalmStep(w, step, w', r);
    }
  }

  /** Opening a page, and starting a call. */
  lemma StartKeepsWorld(w: World, m: Move)
    requires WorldInv(w) && CanMove(w, m) && (m.Open? || m.Login? || m.TryRefresh? || m.SignOut?)
    ensures WorldInv(Moved(w, m))
  {
    var w' := Moved(w, m);
    if m.Login? {
      StepKeepsInv(w.s, LoginBegin(m.r, m.sid));
    } else if m.TryRefresh? {
      StepKeepsInv(w.s, RefreshBegin(m.r, w.clients[m.c].stored.refresh));
    } else if m.SignOut? {
      StepKeepsInv(w.s, LogoutBegin(m.r, w.clients[m.c].stored.refresh));
    }
    forall c ensures ClientOk(w', c) {
      assert ClientOk(w, c);
    }
    forall c, d, sid ensures ApartOk(w', c, d, sid) {
      assert ApartOk(w, c, d, sid);
    }
    forall r, t ensures CallerOk(w', r, t) {
      assert CallerOk(w, r, t);
    }
    forall r, t ensures LeaverOk(w', r, t) {
      assert LeaverOk(w, r, t);
    }
    forall c, sid ensures MarkOk(w', c, sid) {
      assert MarkOk(w, c, sid);
    }
    forall r ensures CalmOk(w', r) {
      assert CalmOk(w, r);
    }
  }

  /** A token fresh from the server is held by no one yet and is not marked. */
  lemma AnswerIsNew(w: World, r: Rid, c: Cid)
    requires WorldInv(w) && Succeeds(w.s, r)
    ensures !Holds(w, c, w.s.reqs[r].issued.sid)
    ensures RefreshUsed(w.s.reqs[r].issued.sid) !in w.s.db
  {
    var t := w.s.reqs[r].issued;
    assert IssueOk(w.s, r) && MintOk(w.s, t.sid) && MarkOk(w, c, t.sid) && ClientOk(w, c);
    assert c in w.clients && w.clients[c].stored.HasTokens? ==> TokenOk(w.s, w.clients[c].stored.refresh);
  }

  lemma ReceiveKeepsWorld(w: World, c: Cid)
    requires WorldInv(w) && CanMove(w, Receive(c))
    ensures WorldInv(Moved(w, Receive(c)))
  {
    var w' := Moved(w, Receive(c));
    var r := w.clients[c].busy.r;
    if Succeeds(w.s, r) {
      StepKeepsInv(w.s, Answer(r));
      AnswerIsNew(w, r, c);
    }
    forall c' ensures ClientOk(w', c') {
      assert ClientOk(w, c') && ClientOk(w, c);
    }
    forall c', d, sid ensures ApartOk(w', c', d, sid) {
      assert ApartOk(w, c', d, sid);
      if Succeeds(w.s, r) {
        AnswerIsNew(w, r, c');
        AnswerIsNew(w, r, d);
      }
    }
    forall r', t ensures CallerOk(w', r', t) {
      assert CallerOk(w, r', t);
    }
    forall r', t ensures LeaverOk(w', r', t) {
      assert LeaverOk(w, r', t);
    }
    forall c', sid ensures MarkOk(w', c', sid) {
      assert MarkOk(w, c', sid) && ClientOk(w, c') && ClientOk(w, c);
    }
    forall r' ensures CalmOk(w', r') {
      assert CalmOk(w, r');
    }
  }

  // ----- every run

  ghost predicate IsWorldRun(ws: seq<World>, moves: seq<Move>) {
    && |ws| == |moves| + 1
    && Init(ws[0].s) && ws[0].clients == map[] && ws[0].caller == map[]
    && forall i | 0 <= i < |moves| :: CanMove(ws[i], moves[i]) && ws[i + 1] == Moved(ws[i], moves[i])
  }

  lemma {:induction false} WorldRunInv(ws: seq<World>, moves: seq<Move>, i: nat)
    requires IsWorldRun(ws, moves) && i < |ws|
    ensures WorldInv(ws[i])
  {
    if i == 0 {
      SessionRuns.InitInv(ws[0].s);
    } else {
      WorldRunInv(ws, moves, i - 1);
      var w, m := ws[i - 1], moves[i - 1];
      if m.Server? {
        ServerKeepsWorld(w, m.step);
      } else if m.Receive? {
        ReceiveKeepsWorld(w, m.c);
      } else {
        StartKeepsWorld(w, m);
      }
    }
  }

  /** The refresh token a client will present next is never a used one. */
  lemma StoredTokenIsUnused(ws: seq<World>, moves: seq<Move>, i: nat, c: Cid)
    requires IsWorldRun(ws, moves) && i < |ws|
    requires Idle(ws[i], c) && ws[i].clients[c].stored.HasTokens?
    ensures RefreshUsed(ws[i].clients[c].stored.refresh.sid) !in ws[i].s.db
  {
    WorldRunInv(ws, moves, i);
    assert MarkOk(ws[i], c, ws[i].clients[c].stored.refresh.sid);
  }

  /** So reuse detection never fires for clients that behave. */
  lemma ReuseNeverFires(ws: seq<World>, moves: seq<Move>, i: nat, r: Rid)
    requires IsWorldRun(ws, moves) && i < |ws| && r in ws[i].s.reqs
    ensures !(ws[i].s.reqs[r].Revoke? && ws[i].s.reqs[r].reuse)
  {
    WorldRunInv(ws, moves, i);
    assert CalmOk(ws[i], r);
  }

  // ----- a refresh of a valid token succeeds

  /** The refresh has not run its pipeline yet. */
  predicate Underway(s: State, r: Rid, t: Token) {
    r in s.reqs &&
    var q := s.reqs[r];
    (q.Check? && q.shown == t) || (q.Issue? && q.grant == ByToken(t) && q.stage.Pending?)
  }

  predicate Succeeded(s: State, r: Rid, t: Token) {
    r in s.reqs && s.reqs[r].Issue? && s.reqs[r].grant == ByToken(t) && Linked(s.reqs[r].stage)
  }

  predicate OnTrack(s: State, r: Rid, t: Token, expires: Time) {
    Succeeded(s, r, t) || (Underway(s, r, t) && HasEntry(s, t.sid, expires))
  }

  /** A revocation deletes the entry. */
  predicate ScansAway(w: World, m: Move, sid: Sid) {
    m.Server? && m.step.ScanDelete? && Enabled(w.s, m.step) && w.s.reqs[m.step.r].cursor.key == Refresh(sid)
  }

  /** While a client refreshes a token, no other request can delete its entry. */
  lemma OnlyScansDelete(w: World, step: Step, r: Rid, t: Token)
    requires WorldInv(w) && CanMove(w, Server(step)) && Underway(w.s, r, t) && !ScansAway(w, Server(step), t.sid)
    requires step.Tick? || step.r != r
    ensures !Deletes(w.s, step, t.sid) && !StoresSid(w.s, step, t.sid)
  {
    assert ShownOk(w.s, r) && TokenOk(w.s, t) && MintOk(w.s, t.sid) && CallerOk(w, r, t);
    if step.Pipeline? || step.Rollback? || step.LoginSet? {
      assert IssueOk(w.s, step.r);
    }
    if step.Pipeline? || step.LogoutDel? {
      var shown := if step.Pipeline? then w.s.reqs[step.r].grant.shown else w.s.reqs[step.r].shown;
      assert ShownOk(w.s, step.r) && TokenOk(w.s, shown);
      assert CallerOk(w, step.r, shown) && LeaverOk(w, step.r, shown);
      if step.r in w.caller {
        assert ApartOk(w, w.caller[r], w.caller[step.r], t.sid);
      }
    }
  }

  lemma OwnStep(w: World, step: Step, r: Rid, t: Token, expires: Time)
    requires WorldInv(w) && CanMove(w, Server(step)) && !step.Tick? && step.r == r && w.s.now < expires
    requires Underway(w.s, r, t) && HasEntry(w.s, t.sid, expires)
    ensures OnTrack(Apply(w.s, step), r, t, expires)
  {
    if step.TestUsed? {
      NoAlarm(w, r);
    }
  }

  lemma SucceededStays(s: State, step: Step, r: Rid, t: Token)
    requires Enabled(s, step) && Succeeded(s, r, t)
    ensures Succeeded(Apply(s, step), r, t)
  {
    if step.Tick? || step.Crash? || step.r != r {
      OtherRequests(s, step, r);
    }
  }

  lemma ServerKeepsTrack(w: World, step: Step, r: Rid, t: Token, expires: Time)
    requires WorldInv(w) && CanMove(w, Server(step)) && OnTrack(w.s, r, t, expires)
    requires !ScansAway(w, Server(step), t.sid) && w.s.now < expires
    ensures OnTrack(Apply(w.s, step), r, t, expires)
  {
    if Succeeded(w.s, r, t) {
      SucceededStays(w.s, step, r, t);
    } else if step.Tick? || step.r != r {
      OnlyScansDelete(w, step, r, t);
      OtherRequests(w.s, step, r);
      EntryStep(w.s, step, t.sid, expires);
    } else {
      OwnStep(w, step, r, t, expires);
    }
  }

  lemma ClientsKeepTrack(w: World, m: Move, r: Rid, t: Token, expires: Time)
    requires WorldInv(w) && CanMove(w, m) && !m.Server? && OnTrack(w.s, r, t, expires)
    ensures OnTrack(Moved(w, m).s, r, t, expires)
  {
  }

  lemma TimeStep(ws: seq<World>, moves: seq<Move>, n: nat)
    requires IsWorldRun(ws, moves) && n < |moves|
    ensures ws[n].s.now <= ws[n + 1].s.now
  {
    var w, m := ws[n], moves[n];
    assert CanMove(w, m) && ws[n + 1] == Moved(w, m);
    if m.Server? {
      Unchanged(w.s, m.step);
    }
  }

  lemma {:induction false} TimeGrows(ws: seq<World>, moves: seq<Move>, i: nat, j: nat)
    requires IsWorldRun(ws, moves) && i <= j < |ws|
    ensures ws[i].s.now <= ws[j].s.now
    decreases j - i
  {
    if i < j {
      TimeStep(ws, moves, i);
      TimeGrows(ws, moves, i + 1, j);
    }
  }

  lemma TrackStep(ws: seq<World>, moves: seq<Move>, n: nat, r: Rid, t: Token, expires: Time)
    requires IsWorldRun(ws, moves) && n < |moves| && OnTrack(ws[n].s, r, t, expires)
    requires !ScansAway(ws[n], moves[n], t.sid) && ws[n].s.now < expires
    ensures OnTrack(ws[n + 1].s, r, t, expires)
  {
    var w, m := ws[n], moves[n];
    assert CanMove(w, m) && ws[n + 1] == Moved(w, m);
    WorldRunInv(ws, moves, n);
    if m.Server? {
      ServerKeepsTrack(w, m.step, r, t, expires);
    } else {
      ClientsKeepTrack(w, m, r, t, expires);
    }
  }

  lemma {:induction false} StaysOnTrack(
    ws: seq<World>, moves: seq<Move>, i: nat, j: nat, r: Rid, t: Token, expires: Time)
    requires IsWorldRun(ws, moves) && i <= j < |ws| && OnTrack(ws[i].s, r, t, expires)
    requires forall k | i <= k < j :: !ScansAway(ws[k], moves[k], t.sid)
    requires ws[j].s.now < expires
    ensures OnTrack(ws[j].s, r, t, expires)
    decreases j - i
  {
    if i < j {
      TimeGrows(ws, moves, i, j);
      TrackStep(ws, moves, i, r, t, expires);
      StaysOnTrack(ws, moves, i + 1, j, r, t, expires);
    }
  }

  /** Move d draws the jti. */
  predicate DrawsIn(ws: seq<World>, moves: seq<Move>, d: nat, sid: Sid) {
    && d < |moves| < |ws|
    && (|| (moves[d].Login? && moves[d].sid == sid)
        || (moves[d].Server? && moves[d].step.MintNext? && Enabled(ws[d].s, moves[d].step) &&
            Drawn(ws[d].s, moves[d].step) == sid))
  }

  predicate Expires(s: State, sid: Sid, exp: Time) {
    sid in s.minted && s.minted[sid].exp == exp
  }

  lemma DrawnExpires(ws: seq<World>, moves: seq<Move>, d: nat, sid: Sid)
    requires IsWorldRun(ws, moves) && DrawsIn(ws, moves, d, sid)
    ensures Expires(ws[d + 1].s, sid, ws[d].s.now + TTL)
  {
    assert CanMove(ws[d], moves[d]) && ws[d + 1] == Moved(ws[d], moves[d]);
  }

  lemma ExpiresStep(ws: seq<World>, moves: seq<Move>, n: nat, sid: Sid, exp: Time)
    requires IsWorldRun(ws, moves) && n < |moves| && Expires(ws[n].s, sid, exp)
    ensures Expires(ws[n + 1].s, sid, exp)
  {
    var w, m := ws[n], moves[n];
    assert CanMove(w, m) && ws[n + 1] == Moved(w, m);
    if m.Server? {
      MintsStay(w.s, m.step, sid);
    }
  }

  lemma {:induction false} ExpiresStays(ws: seq<World>, moves: seq<Move>, i: nat, j: nat, sid: Sid, exp: Time)
    requires IsWorldRun(ws, moves) && i <= j < |ws| && Expires(ws[i].s, sid, exp)
    ensures Expires(ws[j].s, sid, exp)
    decreases j - i
  {
    if i < j {
      ExpiresStep(ws, moves, i, sid, exp);
      ExpiresStays(ws, moves, i + 1, j, sid, exp);
    }
  }

  lemma RefreshStarts(ws: seq<World>, moves: seq<Move>, d: nat, i: nat, c: Cid, r: Rid, t: Token)
    requires IsWorldRun(ws, moves) && d < i < |moves| && moves[i] == TryRefresh(c, r)
    requires ws[i].clients[c].stored == HasTokens(t) && Live(ws[i].s, Refresh(t.sid))
    requires DrawsIn(ws, moves, d, t.sid) && ws[i].s.now - ws[d].s.now < TTL
    ensures OnTrack(ws[i + 1].s, r, t, ws[i].s.db[Refresh(t.sid)])
  {
    WorldRunInv(ws, moves, i);
    DrawnExpires(ws, moves, d, t.sid);
    ExpiresStays(ws, moves, d + 1, i, t.sid, ws[d].s.now + TTL);
    assert ClientOk(ws[i], c) && TokenOk(ws[i].s, t);
    assert CanMove(ws[i], moves[i]) && ws[i + 1] == Moved(ws[i], moves[i]);
  }

  /** Only a password reset of the user scans, since reuse is never detected. */
  lemma ScansAreResets(ws: seq<World>, moves: seq<Move>, k: nat, sid: Sid)
    requires IsWorldRun(ws, moves) && k < |moves| && ScansAway(ws[k], moves[k], sid)
    ensures var q := ws[k].s.reqs[moves[k].step.r]; q.Revoke? && !q.reuse && q.user == sid.user
  {
    WorldRunInv(ws, moves, k);
    assert RevokeOk(ws[k].s, moves[k].step.r) && CalmOk(ws[k], moves[k].step.r);
  }

  lemma OnTrackIsFine(s: State, r: Rid, t: Token, expires: Time)
    requires OnTrack(s, r, t, expires) && Ready(s, r)
    ensures Succeeds(s, r)
  {
  }

  /** Of such clients, a refresh that presents a valid token whose jti was drawn
      less than a lifetime ago is refused only if the entry of the token has
      expired, or a password reset of its user has deleted it meanwhile. */
  lemma RefusedOnlyByReset(ws: seq<World>, moves: seq<Move>, d: nat, i: nat, j: nat, c: Cid, r: Rid)
    returns (k: nat)
    requires IsWorldRun(ws, moves) && d < i < j < |ws| && moves[i] == TryRefresh(c, r)
    requires var t := ws[i].clients[c].stored.refresh;
             && DrawsIn(ws, moves, d, t.sid) && ws[i].s.now - ws[d].s.now < TTL
             && Live(ws[i].s, Refresh(t.sid)) && ws[j].s.now < ws[i].s.db[Refresh(t.sid)]
    requires r in ws[j].s.reqs && Ready(ws[j].s, r) && !Succeeds(ws[j].s, r)
    ensures var t := ws[i].clients[c].stored.refresh;
            && i < k < j && ScansAway(ws[k], moves[k], t.sid)
            && var q := ws[k].s.reqs[moves[k].step.r]; q.Revoke? && !q.reuse && q.user == t.sid.user
  {
    var t := ws[i].clients[c].stored.refresh;
    var expires := ws[i].s.db[Refresh(t.sid)];
    RefreshStarts(ws, moves, d, i, c, r, t);
    if forall k | i < k < j :: !ScansAway(ws[k], moves[k], t.sid) {
      StaysOnTrack(ws, moves, i + 1, j, r, t, expires);
      OnTrackIsFine(ws[j].s, r, t, expires);
    }
    k :| i < k < j && ScansAway(ws[k], moves[k], t.sid);
    ScansAreResets(ws, moves, k, t.sid);
  }

  // ----- what clients keep

  /** An answer decides what a client keeps: the token drawn for its login or
      refresh if that succeeded, and otherwise none. */
  lemma AnswerDecides(ws: seq<World>, moves: seq<Move>, i: nat, c: Cid)
    requires IsWorldRun(ws, moves) && i < |moves| && moves[i] == Receive(c)
    ensures c in ws[i].clients && c in ws[i + 1].clients && ws[i + 1].clients[c].busy == Free
    ensures var busy := ws[i].clients[c].busy;
            && !busy.Free? && busy.r in ws[i].s.reqs
            && var q := ws[i].s.reqs[busy.r];
               ws[i + 1].clients[c].stored ==
               if !busy.LoggingOut? && q.Issue? && q.stage == Replying then HasTokens(q.issued) else NoTokens
  {
    assert CanMove(ws[i], moves[i]) && ws[i + 1] == Moved(ws[i], moves[i]);
    WorldRunInv(ws, moves, i);
    assert ClientOk(ws[i], c);
  }

  /** The client has the token and is not about to give it up. */
  predicate Keeping(w: World, c: Cid, t: Token) {
    c in w.clients && w.clients[c].stored == HasTokens(t) && (w.clients[c].busy.Free? || w.clients[c].busy.LoggingIn?)
  }

  lemma KeptIsSafe(w: World, step: Step, c: Cid, t: Token)
    requires WorldInv(w) && CanMove(w, Server(step)) && Keeping(w, c, t) && !ScansAway(w, Server(step), t.sid)
    ensures !Deletes(w.s, step, t.sid) && !StoresSid(w.s, step, t.sid)
  {
    assert ClientOk(w, c) && TokenOk(w.s, t) && MintOk(w.s, t.sid);
    if step.Pipeline? || step.Rollback? || step.LoginSet? {
      assert IssueOk(w.s, step.r);
    }
    if step.Pipeline? || step.LogoutDel? {
      var shown := if step.Pipeline? then w.s.reqs[step.r].grant.shown else w.s.reqs[step.r].shown;
      assert ShownOk(w.s, step.r) && TokenOk(w.s, shown);
      assert CallerOk(w, step.r, shown) && LeaverOk(w, step.r, shown);
      if step.r in w.caller {
        assert ApartOk(w, c, w.caller[step.r], t.sid);
      }
    }
  }

  lemma KeepStep(ws: seq<World>, moves: seq<Move>, n: nat, c: Cid, t: Token, expires: Time)
    requires IsWorldRun(ws, moves) && n < |moves| && Keeping(ws[n], c, t) && HasEntry(ws[n].s, t.sid, expires)
    requires !ScansAway(ws[n], moves[n], t.sid)
    ensures HasEntry(ws[n + 1].s, t.sid, expires)
  {
    var w, m := ws[n], moves[n];
    assert CanMove(w, m) && ws[n + 1] == Moved(w, m);
    WorldRunInv(ws, moves, n);
    if m.Server? {
      KeptIsSafe(w, m.step, c, t);
      EntryStep(w.s, m.step, t.sid, expires);
    }
  }

  /** While a client keeps a token, nothing but its expiry or the scan of a password
      reset takes its validity away. */
  lemma {:induction false} KeptTokenStaysValid(
    ws: seq<World>, moves: seq<Move>, i: nat, j: nat, c: Cid, t: Token, expires: Time)
    requires IsWorldRun(ws, moves) && i <= j < |ws| && HasEntry(ws[i].s, t.sid, expires)
    requires forall n: nat | i <= n < j :: Keeping(ws[n], c, t) && !ScansAway(ws[n], moves[n], t.sid)
    ensures HasEntry(ws[j].s, t.sid, expires)
    decreases j - i
  {
    if i < j {
      KeepStep(ws, moves, i, c, t, expires);
      KeptTokenStaysValid(ws, moves, i + 1, j, c, t, expires);
    }
  }

  /** A client that presents a token drawn a lifetime ago or earlier, to refresh or
      to log out, gets its answer at once. */
  lemma ExpiredIsAnswered(ws: seq<World>, moves: seq<Move>, d: nat, i: nat, c: Cid, r: Rid)
    requires IsWorldRun(ws, moves) && d < i < |moves| && moves[i] in {TryRefresh(c, r), SignOut(c, r)}
    requires DrawsIn(ws, moves, d, ws[i].clients[c].stored.refresh.sid) && ws[i].s.now - ws[d].s.now >= TTL
    ensures CanMove(ws[i + 1], Receive(c))
  {
    var t := ws[i].clients[c].stored.refresh;
    WorldRunInv(ws, moves, i);
    DrawnExpires(ws, moves, d, t.sid);
    ExpiresStays(ws, moves, d + 1, i, t.sid, ws[d].s.now + TTL);
    assert ClientOk(ws[i], c) && TokenOk(ws[i].s, t);
    assert CanMove(ws[i], moves[i]) && ws[i + 1] == Moved(ws[i], moves[i]);
  }

  /** A client that logs out gets its answer once the entry has been deleted. */
  lemma LogoutIsAnswered(ws: seq<World>, moves: seq<Move>, i: nat, c: Cid, r: Rid)
    requires IsWorldRun(ws, moves) && i < |moves| && moves[i] == Server(LogoutDel(r))
    requires c in ws[i].clients && ws[i].clients[c].busy == LoggingOut(r)
    ensures CanMove(ws[i + 1], Receive(c))
  {
    assert CanMove(ws[i], moves[i]) && ws[i + 1] == Moved(ws[i], moves[i]);
    WorldRunInv(ws, moves, i);
  }
}
