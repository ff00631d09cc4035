/** Refresh-token rotation with reuse detection, as a transition system.

    Every request is a small program whose steps are the separate Redis
    commands it awaits; steps of any number of requests interleave freely with
    each other, with the clock and with crashes. The Redis pipeline (DEL old,
    SET new) is one step. */
module Sessions {
  import opened Keys

  type Time = int
  type Rid = nat

  type Lifetime = t: Time | t > 0 witness 7 * 24 * 60 * 60

  /** The lifetime of a refresh token and of its Redis entries: a setting, of
      which only that it is positive is used. */
  const TTL: Lifetime

  /** What decoding a signed refresh token yields. */
  datatype Token = Token(sid: Sid, exp: Time)

  datatype Grant = ByPassword | ByToken(shown: Token)

  /** Progress of a request that has drawn a new jti: the SET (or the DEL+SET
      pipeline) is outstanding, then the used mark, then the answer; or the
      pipeline deleted nothing and the new jti is taken back. */
  datatype Stage = Pending | Marking | Replying | Answered | RollingBack | Refused

  datatype Cursor = Searching | At(key: Key)

  datatype Req =
    | Check(shown: Token, tested: bool)
    | Issue(grant: Grant, issued: Token, stage: Stage)
    | Logout(shown: Token, deleted: bool)
    | Revoke(user: int, first: set<Key>, yielded: set<Key>, cursor: Cursor, reuse: bool, done: bool)
    | Rejected

  datatype Mint = Mint(exp: Time, minter: Rid)
  datatype Node = Node(root: Sid, pos: nat)

  /** `now`, `db` and `reqs` are the running system. The rest is history:
      `minted` records each jti with its expiry and the request that drew it,
      `stored` the jtis ever written to the whitelist, `released` the tokens
      handed to a client, `chain` the jtis that descend from each login, in
      order, and `node` the place of each jti in its chain. */
  datatype State = State(
    now: Time,
    db: map<Key, Time>,
    reqs: map<Rid, Req>,
    crashed: set<Rid>,
    minted: map<Sid, Mint>,
    stored: set<Sid>,
    released: set<Token>,
    chain: map<Sid, seq<Sid>>,
    node: map<Sid, Node>)

  datatype Step =
    | Tick(to: Time)
    | Crash(r: Rid)
    | LoginBegin(r: Rid, sid: Sid)
    | LoginSet(r: Rid)
    | RefreshBegin(r: Rid, token: Token)
    | TestUsed(r: Rid)
    | MintNext(r: Rid, jti: string)
    | Pipeline(r: Rid)
    | MarkUsed(r: Rid)
    | Answer(r: Rid)
    | Rollback(r: Rid)
    | LogoutBegin(r: Rid, token: Token)
    | LogoutDel(r: Rid)
    | ResetBegin(r: Rid, user: int)
    | ScanYield(r: Rid, k: Key)
    | ScanDelete(r: Rid)
    | ScanEnd(r: Rid)

  predicate Live(s: State, k: Key) {
    k in s.db && s.now < s.db[k]
  }

  /** A presented token decodes when it was really issued and has not expired
      (sections 4.1.4 and 4.1.7 of RFC 7519). */
  predicate Decodes(s: State, t: Token) {
    t in s.released && s.now < t.exp
  }

  predicate Issuing(s: State, r: Rid, stage: Stage) {
    r in s.reqs && r !in s.crashed && s.reqs[r].Issue? && s.reqs[r].stage == stage
  }

  predicate Scanning(s: State, r: Rid) {
    r in s.reqs && r !in s.crashed && s.reqs[r].Revoke? && !s.reqs[r].done
  }

  function UserKeys(s: State, user: int): set<Key> {
    set k | k in s.db && Live(s, k) && SessionOf(k, user)
  }

  function Chain(s: State, root: Sid): seq<Sid> {
    if root in s.chain then s.chain[root] else []
  }

  ghost predicate Init(s: State) {
    s == State(s.now, map[], map[], {}, map[], {}, {}, map[], map[])
  }

  /** The SCAN guarantee is the guard of `ScanEnd`: a key that was there when
      the scan began and is there now has been yielded. No key ever returns
      after it is gone (`GoneStaysGone`), so such a key was there throughout. */
  predicate Enabled(s: State, step: Step) {
    match step
    case Tick(to) => s.now <= to
    case Crash(r) => r in s.reqs
    case LoginBegin(r, sid) => r !in s.reqs && sid !in s.minted
    case LoginSet(r) => Issuing(s, r, Pending) && s.reqs[r].grant.ByPassword?
    case RefreshBegin(r, token) => r !in s.reqs
    case TestUsed(r) => r in s.reqs && r !in s.crashed && s.reqs[r].Check? && !s.reqs[r].tested
    case MintNext(r, jti) =>
      r in s.reqs && r !in s.crashed && s.reqs[r].Check? && s.reqs[r].tested &&
      Sid(s.reqs[r].shown.sid.user, jti) !in s.minted
    case Pipeline(r) => Issuing(s, r, Pending) && s.reqs[r].grant.ByToken?
    case MarkUsed(r) => Issuing(s, r, Marking) && s.reqs[r].grant.ByToken?
    case Answer(r) => Issuing(s, r, Replying)
    case Rollback(r) => Issuing(s, r, RollingBack)
    case LogoutBegin(r, token) => r !in s.reqs
    case LogoutDel(r) => r in s.reqs && r !in s.crashed && s.reqs[r].Logout? && !s.reqs[r].deleted
    case ResetBegin(r, user) => r !in s.reqs
    case ScanYield(r, k) =>
      Scanning(s, r) && s.reqs[r].cursor.Searching? && SessionOf(k, s.reqs[r].user) && k.sid in s.stored
    case ScanDelete(r) => Scanning(s, r) && s.reqs[r].cursor.At?
    case ScanEnd(r) =>
      Scanning(s, r) && s.reqs[r].cursor.Searching? &&
      forall k | k in s.reqs[r].first && Live(s, k) :: k in s.reqs[r].yielded
  }

  function Go(s: State, r: Rid, q: Req): State {
    s.(reqs := s.reqs[r := q])
  }

  function Draw(s: State, r: Rid, grant: Grant, sid: Sid): State {
    Go(s, r, Issue(grant, Token(sid, s.now + TTL), Pending)).(minted := s.minted[sid := Mint(s.now + TTL, r)])
  }

  function Whitelist(s: State, sid: Sid): State {
    s.(db := s.db[Refresh(sid) := s.now + TTL], stored := s.stored + {sid})
  }

  function Delete(s: State, k: Key): State {
    s.(db := s.db - {k})
  }

  /** Appends a jti to the chain of a login. */
  function Append(s: State, root: Sid, sid: Sid): State {
    s.(chain := s.chain[root := Chain(s, root) + [sid]],
       node := s.node[sid := Node(root, |Chain(s, root)|)])
  }

  function BeginRevoke(s: State, r: Rid, user: int, reuse: bool): State {
    Go(s, r, Revoke(user, UserKeys(s, user), {}, Searching, reuse, false))
  }

  function Root(s: State, sid: Sid): Sid {
    if sid in s.node then s.node[sid].root else sid
  }

  /** DEL old and SET new in one transaction; the number of deleted keys
      decides whether the caller goes on to mark the old jti or to roll back. */
  function RunPipeline(s: State, r: Rid, shown: Token, issued: Token): State {
    var s1 := Whitelist(Delete(s, Refresh(shown.sid)), issued.sid);
    if Live(s, Refresh(shown.sid)) then
      Go(Append(s1, Root(s, shown.sid), issued.sid), r, Issue(ByToken(shown), issued, Marking))
    else
      Go(s1, r, Issue(ByToken(shown), issued, RollingBack))
  }

  function Apply(s: State, step: Step): State
    requires Enabled(s, step)
  {
    match step
    case Tick(to) => s.(now := to)
    case Crash(r) => s.(crashed := s.crashed + {r})
    case LoginBegin(r, sid) => Draw(s, r, ByPassword, sid)
    case LoginSet(r) =>
      var t := s.reqs[r].issued;
      Go(Append(Whitelist(s, t.sid), t.sid, t.sid), r, s.reqs[r].(stage := Replying))
    case RefreshBegin(r, token) =>
      Go(s, r, if Decodes(s, token) then Check(token, false) else Rejected)
    case TestUsed(r) =>
      var t := s.reqs[r].shown;
      if Live(s, RefreshUsed(t.sid)) then BeginRevoke(s, r, t.sid.user, true) else Go(s, r, Check(t, true))
    case MintNext(r, jti) =>
      Draw(s, r, ByToken(s.reqs[r].shown), Sid(s.reqs[r].shown.sid.user, jti))
    case Pipeline(r) => RunPipeline(s, r, s.reqs[r].grant.shown, s.reqs[r].issued)
    case MarkUsed(r) =>
      Go(s, r, s.reqs[r].(stage := Replying)).(db := s.db[RefreshUsed(s.reqs[r].grant.shown.sid) := s.now + TTL])
    case Answer(r) =>
      Go(s, r, s.reqs[r].(stage := Answered)).(released := s.released + {s.reqs[r].issued})
    case Rollback(r) =>
      Go(Delete(s, Refresh(s.reqs[r].issued.sid)), r, s.reqs[r].(stage := Refused))
    case LogoutBegin(r, token) =>
      Go(s, r, if Decodes(s, token) then Logout(token, false) else Rejected)
    case LogoutDel(r) =>
      Go(Delete(s, Refresh(s.reqs[r].shown.sid)), r, s.reqs[r].(deleted := true))
    case ResetBegin(r, user) => BeginRevoke(s, r, user, false)
    case ScanYield(r, k) => Go(s, r, s.reqs[r].(cursor := At(k)))
    case ScanDelete(r) =>
      var q := s.reqs[r];
      Go(Delete(s, q.cursor.key), r, q.(yielded := q.yielded + {q.cursor.key}, cursor := Searching))
    case ScanEnd(r) => Go(s, r, s.reqs[r].(done := true))
  }

  // ----- the invariant, one item at a time

  predicate Tip(s: State, sid: Sid) {
    sid in s.node && s.node[sid].pos + 1 == |Chain(s, s.node[sid].root)|
  }

  predicate Linked(stage: Stage) {
    stage.Marking? || stage.Replying? || stage.Answered?
  }

  ghost predicate MintOk(s: State, sid: Sid) {
    && (sid in s.minted ==>
          var m := s.minted[sid];
          && m.exp <= s.now + TTL && m.minter in s.reqs && s.reqs[m.minter].Issue?
          && s.reqs[m.minter].issued == Token(sid, m.exp))
    && (sid in s.stored ==> sid in s.minted)
    && (sid in s.node ==> sid in s.stored)
  }

  /** How far a request has come says whether its new jti is stored, in a chain
      and in a client's hands. */
  ghost predicate IssueOk(s: State, r: Rid) {
    r in s.reqs && s.reqs[r].Issue? ==>
      var q := s.reqs[r];
      && q.issued.sid in s.minted && s.minted[q.issued.sid].minter == r
      && (q.stage.Pending? <==> q.issued.sid !in s.stored)
      && (Linked(q.stage) <==> q.issued.sid in s.node)
      && (q.stage.Answered? <==> q.issued in s.released)
  }

  ghost predicate TokenOk(s: State, t: Token) {
    t in s.released ==> t.sid in s.node && t.sid in s.minted && s.minted[t.sid].exp == t.exp
  }

  ghost predicate ShownOk(s: State, r: Rid) {
    r in s.reqs ==>
      var q := s.reqs[r];
      && (q.Check? || q.Logout? ==> q.shown in s.released)
      && (q.Issue? && q.grant.ByToken? ==>
            && q.grant.shown in s.released
            && (Linked(q.stage) ==> !Tip(s, q.grant.shown.sid)))
  }

  /** `chain` and `node` are inverse to each other: the descendants of a login
      are one duplicate-free sequence, and chains of different logins are
      disjoint. */
  ghost predicate NodeOk(s: State, sid: Sid) {
    sid in s.node ==>
      var n := s.node[sid];
      n.root in s.chain && n.pos < |s.chain[n.root]| && s.chain[n.root][n.pos] == sid
  }

  ghost predicate PlaceOk(s: State, root: Sid, p: nat) {
    root in s.chain ==>
      && |s.chain[root]| > 0 && s.chain[root][0] == root
      && (p < |s.chain[root]| ==> s.chain[root][p] in s.node && s.node[s.chain[root][p]] == Node(root, p))
  }

  /** A whitelisted jti is the tip of its chain, or the new jti of a failed
      rotation that is still to be rolled back. */
  ghost predicate WhiteOk(s: State, sid: Sid) {
    Refresh(sid) in s.db ==>
      && sid in s.stored
      && (sid in s.node ==> Tip(s, sid))
      && (sid !in s.node ==>
            sid in s.minted && s.minted[sid].minter in s.reqs && s.reqs[s.minted[sid].minter].Issue? &&
            s.reqs[s.minted[sid].minter].stage.RollingBack?)
  }

  ghost predicate UsedOk(s: State, sid: Sid) {
    RefreshUsed(sid) in s.db ==>
      sid in s.node && sid in s.minted && !Tip(s, sid) && s.minted[sid].exp <= s.db[RefreshUsed(sid)]
  }

  ghost predicate Gone(s: State, k: Key) {
    k.Refresh? && k.sid in s.stored && !Live(s, k)
  }

  ghost predicate RevokeOk(s: State, r: Rid) {
    r in s.reqs && s.reqs[r].Revoke? ==>
      var q := s.reqs[r];
      && (forall k | k in q.first :: SessionOf(k, q.user) && k.sid in s.stored)
      && (forall k | k in q.yielded :: Gone(s, k))
      && (q.cursor.At? ==> SessionOf(q.cursor.key, q.user) && q.cursor.key.sid in s.stored)
      && (q.done ==> forall k | k in q.first :: Gone(s, k))
  }

  ghost predicate Mints(s: State) { forall sid :: MintOk(s, sid) }
  ghost predicate Issues(s: State) { forall r :: IssueOk(s, r) }
  ghost predicate Tokens(s: State) { forall t :: TokenOk(s, t) }
  ghost predicate Showns(s: State) { forall r :: ShownOk(s, r) }
  ghost predicate Nodes(s: State) { forall sid :: NodeOk(s, sid) }
  ghost predicate Places(s: State) { forall root, p :: PlaceOk(s, root, p) }
  ghost predicate Whites(s: State) { forall sid :: WhiteOk(s, sid) }
  ghost predicate Useds(s: State) { forall sid :: UsedOk(s, sid) }
  ghost predicate Revokes(s: State) { forall r :: RevokeOk(s, r) }

  ghost predicate Inv(s: State) {
    && Mints(s) && Issues(s) && Tokens(s) && Showns(s) && Nodes(s)
    && Places(s) && Whites(s) && Useds(s) && Revokes(s)
  }

  // ----- every step keeps the invariant

  /** The jti a step draws, if it draws one. */
  function Drawn(s: State, step: Step): Sid
    requires Enabled(s, step) && (step.LoginBegin? || step.MintNext?)
  {
    if step.LoginBegin? then step.sid else Sid(s.reqs[step.r].shown.sid.user, step.jti)
  }

  predicate Draws(step: Step) { step.LoginBegin? || step.MintNext? }
  predicate Stores(step: Step) { step.LoginSet? || step.Pipeline? }
  predicate Finishes(step: Step) { step.MarkUsed? || step.Answer? || step.Rollback? }

  /** What the other steps leave alone. */
  lemma Unchanged(s: State, step: Step)
    requires Enabled(s, step)
    ensures !Draws(step) ==> Apply(s, step).minted == s.minted
    ensures s.now <= Apply(s, step).now
  {
  }

  lemma UnchangedReleases(s: State, step: Step)
    requires Enabled(s, step) && !step.Answer?
    ensures Apply(s, step).released == s.released
  {
  }

  lemma UnchangedChains(s: State, step: Step)
    requires Enabled(s, step) && !Stores(step)
    ensures var s' := Apply(s, step); s'.stored == s.stored && s'.chain == s.chain && s'.node == s.node
  {
  }

  /** Steps that neither draw, store nor finish a new jti are not part of an
      `Issue` request. */
  lemma UnchangedIssues(s: State, step: Step)
    requires Enabled(s, step) && !Draws(step) && !Stores(step) && !Finishes(step)
    ensures var s' := Apply(s, step);
            && (forall r | r in s.reqs && s.reqs[r].Issue? :: r in s'.reqs && s'.reqs[r] == s.reqs[r])
            && (forall r | r in s'.reqs && s'.reqs[r].Issue? :: r in s.reqs && s'.reqs[r] == s.reqs[r])
  {
  }

  /** A step changes the request it names and no other. */
  lemma OtherRequests(s: State, step: Step, r: Rid)
    requires Enabled(s, step)
    requires step.Tick? || step.Crash? || step.r != r
    ensures r in s.reqs <==> r in Apply(s, step).reqs
    ensures r in s.reqs ==> Apply(s, step).reqs[r] == s.reqs[r]
  {
  }

  lemma IssuedStays(s: State, step: Step, r: Rid)
    requires Enabled(s, step) && r in s.reqs && s.reqs[r].Issue?
    ensures r in Apply(s, step).reqs
    ensures Apply(s, step).reqs[r].Issue? && Apply(s, step).reqs[r].issued == s.reqs[r].issued
  {
    if step.Tick? || step.Crash? || step.r != r {
      OtherRequests(s, step, r);
    } else {
      assert Stores(step) || Finishes(step);
    }
  }

  lemma MintsDraw(s: State, r: Rid, grant: Grant, sid: Sid)
    requires Mints(s) && sid !in s.minted && (r in s.reqs ==> !s.reqs[r].Issue?)
    ensures Mints(Draw(s, r, grant, sid))
  {
    forall x ensures MintOk(Draw(s, r, grant, sid), x) {
      assert MintOk(s, x);
    }
  }

  lemma StoredGrowth(s: State, step: Step, sid: Sid)
    requires Enabled(s, step) && (sid in Apply(s, step).stored || sid in Apply(s, step).node)
    ensures sid in s.stored || sid in s.node || (Stores(step) && sid == s.reqs[step.r].issued.sid)
    ensures sid in Apply(s, step).stored || (sid in s.node && sid !in s.stored)
  {
  }

  lemma MintsStep(s: State, step: Step, s': State)
    requires Mints(s) && Issues(s) && Enabled(s, step) && s' == Apply(s, step)
    ensures Mints(s')
  {
    if Draws(step) {
      MintsDraw(s, step.r, if step.LoginBegin? then ByPassword else ByToken(s.reqs[step.r].shown), Drawn(s, step));
    } else {
      Unchanged(s, step);
      forall sid ensures MintOk(s', sid) {
        assert MintOk(s, sid);
        if Stores(step) {
          assert IssueOk(s, step.r);
        }
        if sid in s'.stored || sid in s'.node {
          StoredGrowth(s, step, sid);
        }
        if sid in s.minted {
          IssuedStays(s, step, s.minted[sid].minter);
        }
      }
    }
  }

  lemma IssuesQuiet(s: State, step: Step, s': State)
    requires Issues(s) && Enabled(s, step) && !Draws(step) && !Stores(step) && !Finishes(step)
    requires s' == Apply(s, step)
    ensures Issues(s')
  {
    Unchanged(s, step);
    UnchangedReleases(s, step);
    UnchangedChains(s, step);
    UnchangedIssues(s, step);
    forall r ensures IssueOk(s', r) {
      assert IssueOk(s, r);
    }
  }

  lemma IssuesDraw(s: State, r: Rid, grant: Grant, sid: Sid)
    requires Issues(s) && Mints(s) && Tokens(s) && sid !in s.minted
    requires r in s.reqs ==> !s.reqs[r].Issue?
    ensures Issues(Draw(s, r, grant, sid))
  {
    var s' := Draw(s, r, grant, sid);
    forall r' ensures IssueOk(s', r') {
      assert IssueOk(s, r');
      assert MintOk(s, sid) && TokenOk(s, Token(sid, s.now + TTL));
    }
  }

  lemma IssuesStore(s: State, s': State, r: Rid, q: Req)
    requires Issues(s) && r in s.reqs && s.reqs[r].Issue? && s.reqs[r].stage.Pending?
    requires q.Issue? && q.issued == s.reqs[r].issued && !q.stage.Pending? && !q.stage.Answered?
    requires s'.reqs == s.reqs[r := q] && s'.minted == s.minted && s'.released == s.released
    requires s'.stored == s.stored + {q.issued.sid}
    requires s'.node.Keys == if Linked(q.stage) then s.node.Keys + {q.issued.sid} else s.node.Keys
    ensures Issues(s')
  {
    forall r' ensures IssueOk(s', r') {
      assert IssueOk(s, r') && IssueOk(s, r);
    }
  }

  lemma IssuesFinish(s: State, step: Step, s': State)
    requires Issues(s) && Enabled(s, step) && Finishes(step) && s' == Apply(s, step)
    ensures Issues(s')
  {
    forall r ensures IssueOk(s', r) {
      assert IssueOk(s, r) && IssueOk(s, step.r);
    }
  }

  lemma IssuesStep(s: State, step: Step, s': State)
    requires Mints(s) && Issues(s) && Tokens(s) && Enabled(s, step) && s' == Apply(s, step)
    ensures Issues(s')
  {
    if Draws(step) {
      IssuesDraw(s, step.r, if step.LoginBegin? then ByPassword else ByToken(s.reqs[step.r].shown), Drawn(s, step));
    } else if Stores(step) {
      IssuesStore(s, s', step.r, s'.reqs[step.r]);
    } else if Finishes(step) {
      IssuesFinish(s, step, s');
    } else {
      IssuesQuiet(s, step, s');
    }
  }

  lemma TokensStep(s: State, step: Step, s': State)
    requires Mints(s) && Issues(s) && Tokens(s) && Enabled(s, step) && s' == Apply(s, step)
    ensures Tokens(s')
  {
    forall t ensures TokenOk(s', t) {
      assert TokenOk(s, t);
      if step.Answer? {
        assert IssueOk(s, step.r) && MintOk(s, s.reqs[step.r].issued.sid);
      } else if !Draws(step) && !Stores(step) {
        Unchanged(s, step);
        UnchangedReleases(s, step);
        UnchangedChains(s, step);
      }
    }
  }

  lemma AppendKeepsChains(s: State, root: Sid, sid: Sid)
    requires Nodes(s) && Places(s) && sid !in s.node
    requires Chain(s, root) == [] ==> root == sid
    ensures Nodes(Append(s, root, sid)) && Places(Append(s, root, sid))
  {
    var s' := Append(s, root, sid);
    forall x ensures NodeOk(s', x) {
      assert NodeOk(s, x);
    }
    forall x, p: nat ensures PlaceOk(s', x, p) {
      assert PlaceOk(s, x, p);
    }
  }

  lemma ChainsStep(s: State, step: Step, s': State)
    requires Places(s) && Nodes(s) && Mints(s) && Issues(s) && Showns(s) && Tokens(s)
    requires Enabled(s, step) && s' == Apply(s, step)
    ensures Nodes(s') && Places(s')
  {
    var a := s;
    if Stores(step) {
      var sid := s.reqs[step.r].issued.sid;
      assert IssueOk(s, step.r) && PlaceOk(s, sid, 0);
      if step.LoginSet? {
        AppendKeepsChains(s, sid, sid);
        a := Append(s, sid, sid);
      } else if Live(s, Refresh(s.reqs[step.r].grant.shown.sid)) {
        var shown := s.reqs[step.r].grant.shown;
        assert ShownOk(s, step.r) && TokenOk(s, shown) && NodeOk(s, shown.sid);
        AppendKeepsChains(s, Root(s, shown.sid), sid);
        a := Append(s, Root(s, shown.sid), sid);
      }
    } else {
      UnchangedChains(s, step);
    }
    assert s'.node == a.node && s'.chain == a.chain;
    SameChains(a, s');
  }

  lemma SameChains(a: State, b: State)
    requires Nodes(a) && Places(a) && a.node == b.node && a.chain == b.chain
    ensures Nodes(b) && Places(b)
  {
    forall x ensures NodeOk(b, x) {
      assert NodeOk(a, x);
    }
    forall x, p: nat ensures PlaceOk(b, x, p) {
      assert PlaceOk(a, x, p);
    }
  }

  /** Once a jti is not the tip of its chain, it never is again. */
  lemma TipsOnlyFall(s: State, step: Step, sid: Sid)
    requires Nodes(s) && Issues(s) && Enabled(s, step)
    requires sid in s.node && !Tip(s, sid)
    ensures sid in Apply(s, step).node && !Tip(Apply(s, step), sid)
  {
    assert NodeOk(s, sid);
    if Stores(step) {
      assert IssueOk(s, step.r);
    } else {
      UnchangedChains(s, step);
    }
  }

  /** A successful pipeline moves its old jti off the tip. */
  lemma PipelineTopples(s: State, step: Step)
    requires Nodes(s) && Showns(s) && Tokens(s) && Issues(s) && Enabled(s, step) && step.Pipeline?
    requires Live(s, Refresh(s.reqs[step.r].grant.shown.sid))
    ensures !Tip(Apply(s, step), s.reqs[step.r].grant.shown.sid)
  {
    var shown := s.reqs[step.r].grant.shown;
    assert ShownOk(s, step.r) && TokenOk(s, shown) && NodeOk(s, shown.sid) && IssueOk(s, step.r);
  }

  lemma ShownsStep(s: State, step: Step, s': State)
    requires Nodes(s) && Issues(s) && Tokens(s) && Showns(s) && Enabled(s, step) && s' == Apply(s, step)
    ensures Showns(s')
  {
    forall r ensures ShownOk(s', r) {
      assert ShownOk(s, r);
      if r in s'.reqs {
        if step.Tick? || step.Crash? || step.r != r {
          OtherRequests(s, step, r);
        }
        ReleasedStays(s, step);
        if s'.reqs[r].Issue? && s'.reqs[r].grant.ByToken? && Linked(s'.reqs[r].stage) {
          LinkedShown(s, step, s', r);
        }
      }
    }
  }

  lemma ReleasedStays(s: State, step: Step)
    requires Enabled(s, step)
    ensures s.released <= Apply(s, step).released
  {
  }

  /** A request whose rotation has succeeded got there by a pipeline that
      deleted what it presented. */
  lemma LinkedBefore(s: State, step: Step, r: Rid)
    requires Enabled(s, step) && r in Apply(s, step).reqs
    requires var q := Apply(s, step).reqs[r]; q.Issue? && q.grant.ByToken? && Linked(q.stage)
    ensures var q := Apply(s, step).reqs[r];
            r in s.reqs && s.reqs[r].Issue? && s.reqs[r].grant == q.grant &&
            (Linked(s.reqs[r].stage) || (step.Pipeline? && step.r == r && Live(s, Refresh(q.grant.shown.sid))))
  {
    if step.Tick? || step.Crash? || step.r != r {
      OtherRequests(s, step, r);
    }
  }

  lemma LinkedShown(s: State, step: Step, s': State, r: Rid)
    requires Nodes(s) && Issues(s) && Tokens(s) && Showns(s) && Enabled(s, step) && s' == Apply(s, step)
    requires r in s'.reqs && s'.reqs[r].Issue? && s'.reqs[r].grant.ByToken? && Linked(s'.reqs[r].stage)
    ensures !Tip(s', s'.reqs[r].grant.shown.sid)
  {
    LinkedBefore(s, step, r);
    assert ShownOk(s, r) && TokenOk(s, s.reqs[r].grant.shown);
    if Linked(s.reqs[r].stage) {
      TipsOnlyFall(s, step, s.reqs[r].grant.shown.sid);
    } else {
      PipelineTopples(s, step);
    }
  }

  /** Whitelist entries appear only through `Stores` steps. */
  lemma WhitesShrink(s: State, step: Step, sid: Sid)
    requires Enabled(s, step) && Refresh(sid) in Apply(s, step).db
    ensures Refresh(sid) in s.db || (Stores(step) && sid == s.reqs[step.r].issued.sid)
    ensures Stores(step) && sid != s.reqs[step.r].issued.sid && s.reqs[step.r].grant.ByToken? ==>
              sid != s.reqs[step.r].grant.shown.sid
  {
  }

  lemma WhitesLogin(s: State, step: Step, s': State, sid: Sid)
    requires Nodes(s) && Places(s) && Issues(s) && Whites(s)
    requires Enabled(s, step) && step.LoginSet? && s' == Apply(s, step)
    ensures WhiteOk(s', sid)
  {
    assert WhiteOk(s, sid) && IssueOk(s, step.r) && NodeOk(s, sid);
    assert PlaceOk(s, s.reqs[step.r].issued.sid, 0);
  }

  lemma WhitesPipeline(s: State, step: Step, s': State, sid: Sid)
    requires Nodes(s) && Issues(s) && Tokens(s) && Showns(s) && Whites(s)
    requires Enabled(s, step) && step.Pipeline? && s' == Apply(s, step)
    ensures WhiteOk(s', sid)
  {
    assert WhiteOk(s, sid) && IssueOk(s, step.r) && NodeOk(s, sid);
    var shown := s.reqs[step.r].grant.shown;
    assert ShownOk(s, step.r) && TokenOk(s, shown) && NodeOk(s, shown.sid) && WhiteOk(s, shown.sid);
  }

  lemma WhitesStep(s: State, step: Step, s': State)
    requires Nodes(s) && Places(s) && Mints(s) && Issues(s) && Tokens(s) && Showns(s) && Whites(s)
    requires Enabled(s, step) && s' == Apply(s, step)
    ensures Whites(s')
  {
    forall sid ensures WhiteOk(s', sid) {
      assert WhiteOk(s, sid) && MintOk(s, sid);
      if step.LoginSet? {
        WhitesLogin(s, step, s', sid);
      } else if step.Pipeline? {
        WhitesPipeline(s, step, s', sid);
      } else if Refresh(sid) in s'.db {
        WhitesShrink(s, step, sid);
        UnchangedChains(s, step);
        if sid !in s.node {
          OrphanStays(s, step, sid);
        }
      }
    }
  }

  lemma OrphanStays(s: State, step: Step, sid: Sid)
    requires WhiteOk(s, sid) && MintOk(s, sid) && Issues(s) && Enabled(s, step) && !Stores(step)
    requires Refresh(sid) in s.db && sid !in s.node && Refresh(sid) in Apply(s, step).db
    ensures var s' := Apply(s, step);
            sid in s'.minted && s'.minted[sid].minter in s'.reqs && s'.reqs[s'.minted[sid].minter].Issue? &&
            s'.reqs[s'.minted[sid].minter].stage.RollingBack?
  {
    var r := s.minted[sid].minter;
    assert IssueOk(s, r);
    if step.Tick? || step.Crash? || step.r != r {
      OtherRequests(s, step, r);
    }
    if Draws(step) {
      assert Drawn(s, step) != sid;
    } else {
      Unchanged(s, step);
    }
  }

  lemma UsedsStep(s: State, step: Step, s': State)
    requires Nodes(s) && Mints(s) && Issues(s) && Tokens(s) && Showns(s) && Useds(s)
    requires Enabled(s, step) && s' == Apply(s, step)
    ensures Useds(s')
  {
    forall sid ensures UsedOk(s', sid) {
      assert UsedOk(s, sid);
      if RefreshUsed(sid) in s'.db {
        MarksOnlyByMarking(s, step, sid);
        if sid in s.node && !Tip(s, sid) {
          TipsOnlyFall(s, step, sid);
        }
        assert MintOk(s, sid);
        if step.MarkUsed? {
          assert ShownOk(s, step.r) && TokenOk(s, s.reqs[step.r].grant.shown);
        }
      }
    }
  }

  lemma MarksOnlyByMarking(s: State, step: Step, sid: Sid)
    requires Enabled(s, step) && RefreshUsed(sid) in Apply(s, step).db
    ensures var s' := Apply(s, step);
            if step.MarkUsed? && sid == s.reqs[step.r].grant.shown.sid
            then s'.db[RefreshUsed(sid)] == s.now + TTL
            else RefreshUsed(sid) in s.db && s'.db[RefreshUsed(sid)] == s.db[RefreshUsed(sid)]
  {
  }

  /** A revoked, rotated, rolled back or expired jti never becomes valid again. */
  lemma GoneStaysGone(s: State, step: Step, k: Key)
    requires Issues(s) && Enabled(s, step) && Gone(s, k)
    ensures Gone(Apply(s, step), k)
  {
    if Stores(step) {
      assert IssueOk(s, step.r);
    }
  }

  lemma StoredStays(s: State, step: Step)
    requires Enabled(s, step)
    ensures s.stored <= Apply(s, step).stored
  {
  }

  lemma RevokesStep(s: State, step: Step, s': State)
    requires Issues(s) && Whites(s) && Revokes(s) && Enabled(s, step) && s' == Apply(s, step)
    ensures Revokes(s')
  {
    StoredStays(s, step);
    forall k | Gone(s, k) ensures Gone(s', k) {
      GoneStaysGone(s, step, k);
    }
    forall r ensures RevokeOk(s', r) {
      assert RevokeOk(s, r);
      if r in s'.reqs && s'.reqs[r].Revoke? {
        if step.Tick? || step.Crash? || step.r != r {
          OtherRequests(s, step, r);
        } else {
          RevokesOwnStep(s, step, s');
        }
      }
    }
  }

  lemma RevokesOwnStep(s: State, step: Step, s': State)
    requires Issues(s) && Whites(s) && Revokes(s) && Enabled(s, step) && s' == Apply(s, step)
    requires !step.Tick? && !step.Crash?
    requires forall k | Gone(s, k) :: Gone(s', k)
    ensures RevokeOk(s', step.r)
  {
    assert RevokeOk(s, step.r);
    forall k: Key | k in s.db && k.Refresh? ensures k.sid in s.stored {
      assert WhiteOk(s, k.sid);
    }
  }

  lemma StepKeepsInv(s: State, step: Step)
    requires Inv(s) && Enabled(s, step)
    ensures Inv(Apply(s, step))
  {
    var s' := Apply(s, step);
    MintsStep(s, step, s');
    IssuesStep(s, step, s');
    TokensStep(s, step, s');
    ChainsStep(s, step, s');
    ShownsStep(s, step, s');
    WhitesStep(s, step, s');
    UsedsStep(s, step, s');
    RevokesStep(s, step, s');
  }
}
