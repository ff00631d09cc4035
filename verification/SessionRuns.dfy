/** What the rotation protocol guarantees in every run, under every interleaving
    of logins, refreshes, logouts, password resets, reuse handling, crashes and
    the clock. */
module SessionRuns {
  import opened Keys
  import opened Sessions

  ghost predicate IsRun(run: seq<State>, steps: seq<Step>) {
    && |run| == |steps| + 1
    && Init(run[0])
    && forall i | 0 <= i < |steps| :: Enabled(run[i], steps[i]) && run[i + 1] == Apply(run[i], steps[i])
  }

  lemma {:induction false} RunInv(run: seq<State>, steps: seq<Step>, i: nat)
    requires IsRun(run, steps) && i < |run|
    ensures Inv(run[i])
  {
    if i == 0 {
      InitInv(run[0]);
    } else {
      RunInv(run, steps, i - 1);
      StepKeepsInv(run[i - 1], steps[i - 1]);
    }
  }

  lemma InitInv(s: State)
    requires Init(s)
    ensures Inv(s)
  {
  }

  // ----- one chain per login, one valid jti per chain

  /** The descendants of all logins: no jti occurs twice, in one chain or in two. */
  lemma ChainsAreDisjoint(run: seq<State>, steps: seq<Step>, i: nat, a: Sid, p: nat, b: Sid, q: nat)
    requires IsRun(run, steps) && i < |run|
    requires a in run[i].chain && p < |run[i].chain[a]| && b in run[i].chain && q < |run[i].chain[b]|
    requires run[i].chain[a][p] == run[i].chain[b][q]
    ensures a == b && p == q
  {
    RunInv(run, steps, i);
    assert PlaceOk(run[i], a, p) && PlaceOk(run[i], b, q);
  }

  /** Of all jtis that descend from one login, at most one is whitelisted, and
      it is the newest. */
  lemma OneValidPerLogin(run: seq<State>, steps: seq<Step>, i: nat, root: Sid, p: nat)
    requires IsRun(run, steps) && i < |run|
    requires root in run[i].chain && p < |run[i].chain[root]|
    requires Live(run[i], Refresh(run[i].chain[root][p]))
    ensures p == |run[i].chain[root]| - 1
  {
    RunInv(run, steps, i);
    assert PlaceOk(run[i], root, p) && WhiteOk(run[i], run[i].chain[root][p]);
  }

  /** A chain starts with a login and grows only by a pipeline that deleted its
      newest jti; the jti drawn by that request becomes the newest. */
  lemma ChainGrowth(s: State, step: Step, root: Sid)
    requires Inv(s) && Enabled(s, step)
    ensures var c, c' := Chain(s, root), Chain(Apply(s, step), root);
            || c' == c
            || (step.LoginSet? && c == [] && c' == [root] && root == s.reqs[step.r].issued.sid)
            || (step.Pipeline? && c != [] && c[|c| - 1] == s.reqs[step.r].grant.shown.sid &&
                Live(s, Refresh(c[|c| - 1])) && c' == c + [s.reqs[step.r].issued.sid])
  {
    if step.LoginSet? {
      assert IssueOk(s, step.r) && PlaceOk(s, s.reqs[step.r].issued.sid, 0);
    } else if step.Pipeline? {
      var shown := s.reqs[step.r].grant.shown;
      assert ShownOk(s, step.r) && TokenOk(s, shown) && NodeOk(s, shown.sid) && WhiteOk(s, shown.sid);
    } else {
      UnchangedChains(s, step);
    }
  }

  // ----- how many jtis are valid

  function WhiteSids(s: State): set<Sid> {
    set k | k in s.db && k.Refresh? && Live(s, k) :: k.sid
  }

  function RollingBackReqs(s: State): set<Rid> {
    set r | r in s.reqs && s.reqs[r].Issue? && s.reqs[r].stage.RollingBack?
  }

  lemma {:induction false} InjectionBound<A, B>(f: A -> B, xs: set<A>, ys: set<B>)
    requires forall x | x in xs :: f(x) in ys
    requires forall x, y | x in xs && y in xs && f(x) == f(y) :: x == y
    ensures |xs| <= |ys|
    decreases |xs|
  {
    if xs != {} {
      var x :| x in xs;
      InjectionBound(f, xs - {x}, ys - {f(x)});
    }
  }

  lemma LinkedBound(s: State, sids: set<Sid>)
    requires Inv(s) && sids <= WhiteSids(s) && sids <= s.node.Keys
    ensures |sids| <= |s.chain.Keys|
  {
    var root := (sid: Sid) => Root(s, sid);
    forall x | x in sids ensures root(x) in s.chain.Keys {
      assert NodeOk(s, x);
    }
    forall x, y | x in sids && y in sids && root(x) == root(y) ensures x == y {
      assert WhiteOk(s, x) && NodeOk(s, x) && WhiteOk(s, y) && NodeOk(s, y);
    }
    InjectionBound(root, sids, s.chain.Keys);
  }

  lemma OrphanBound(s: State, sids: set<Sid>)
    requires Inv(s) && sids <= WhiteSids(s) && sids !! s.node.Keys
    ensures |sids| <= |RollingBackReqs(s)|
  {
    var minter := (sid: Sid) => if sid in s.minted then s.minted[sid].minter else 0;
    forall x | x in sids ensures minter(x) in RollingBackReqs(s) {
      assert WhiteOk(s, x);
    }
    forall x, y | x in sids && y in sids && minter(x) == minter(y) ensures x == y {
      assert WhiteOk(s, x) && MintOk(s, x) && WhiteOk(s, y) && MintOk(s, y);
    }
    InjectionBound(minter, sids, RollingBackReqs(s));
  }

  /** Rotation never multiplies sessions: beyond one valid jti per login there
      are only the new jtis of failed rotations not yet rolled back. */
  lemma WhitelistBound(run: seq<State>, steps: seq<Step>, i: nat)
    requires IsRun(run, steps) && i < |run|
    ensures |WhiteSids(run[i])| <= |run[i].chain.Keys| + |RollingBackReqs(run[i])|
  {
    var s := run[i];
    RunInv(run, steps, i);
    var linked, orphans := WhiteSids(s) * s.node.Keys, WhiteSids(s) - s.node.Keys;
    LinkedBound(s, linked);
    OrphanBound(s, orphans);
    assert WhiteSids(s) == linked + orphans;
  }

  /** The only steps after which more jtis are valid than before are storing a
      login and a pipeline that found nothing to delete; the jti the latter
      adds is the one its rollback deletes. */
  lemma OnlyLoginsAdd(s: State, step: Step)
    requires Inv(s) && Enabled(s, step) && !step.LoginSet?
    ensures var s' := Apply(s, step);
            if step.Pipeline? && s'.reqs[step.r].stage.RollingBack?
            then WhiteSids(s') == WhiteSids(s) + {s.reqs[step.r].issued.sid}
            else |WhiteSids(s')| <= |WhiteSids(s)|
  {
    var s' := Apply(s, step);
    if step.Pipeline? {
      var shown, issued := s.reqs[step.r].grant.shown.sid, s.reqs[step.r].issued.sid;
      assert IssueOk(s, step.r) && WhiteOk(s, issued) && ShownOk(s, step.r) && MintOk(s, shown);
      assert TokenOk(s, s.reqs[step.r].grant.shown);
      PipelineWhites(s, step, s');
      if Live(s, Refresh(shown)) {
        assert |WhiteSids(s) - {shown}| == |WhiteSids(s)| - 1;
      }
    } else {
      forall sid | sid in WhiteSids(s') ensures sid in WhiteSids(s) {
        WhitesAge(s, step, sid);
      }
      SubsetSize(WhiteSids(s'), WhiteSids(s));
    }
  }

  lemma PipelineWhites(s: State, step: Step, s': State)
    requires Enabled(s, step) && step.Pipeline? && s' == Apply(s, step)
    requires s.reqs[step.r].issued.sid != s.reqs[step.r].grant.shown.sid
    ensures WhiteSids(s') == WhiteSids(s) - {s.reqs[step.r].grant.shown.sid} + {s.reqs[step.r].issued.sid}
  {
    forall sid
      ensures sid in WhiteSids(s') <==>
              sid in WhiteSids(s) - {s.reqs[step.r].grant.shown.sid} + {s.reqs[step.r].issued.sid}
    {
      assert sid in WhiteSids(s') <==> Live(s', Refresh(sid));
      assert sid in WhiteSids(s) <==> Live(s, Refresh(sid));
    }
  }

  lemma WhitesAge(s: State, step: Step, sid: Sid)
    requires Enabled(s, step) && !Stores(step) && Live(Apply(s, step), Refresh(sid))
    ensures Live(s, Refresh(sid))
  {
  }

  lemma SubsetSize<A>(a: set<A>, b: set<A>)
    requires a <= b
    ensures |a| <= |b|
  {
    assert b == a + (b - a);
  }

  /** A finished refresh does not add to the whitelist: answered, the jti it
      consumed is gone; refused, the jti it drew is gone. */
  lemma FinishedRefresh(run: seq<State>, steps: seq<Step>, i: nat, r: Rid)
    requires IsRun(run, steps) && i < |run| && r in run[i].reqs
    requires run[i].reqs[r].Issue? && run[i].reqs[r].grant.ByToken?
    ensures run[i].reqs[r].stage.Answered? ==> Gone(run[i], Refresh(run[i].reqs[r].grant.shown.sid))
    ensures run[i].reqs[r].stage.Refused? ==> Gone(run[i], Refresh(run[i].reqs[r].issued.sid))
  {
    var s := run[i];
    var q := s.reqs[r];
    RunInv(run, steps, i);
    assert IssueOk(s, r) && ShownOk(s, r) && TokenOk(s, q.grant.shown);
    assert WhiteOk(s, q.issued.sid) && WhiteOk(s, q.grant.shown.sid) && MintOk(s, q.grant.shown.sid);
  }

  // ----- used marks

  lemma NeverValidAndUsed(run: seq<State>, steps: seq<Step>, i: nat, sid: Sid)
    requires IsRun(run, steps) && i < |run|
    ensures !(Refresh(sid) in run[i].db && RefreshUsed(sid) in run[i].db)
  {
    RunInv(run, steps, i);
    assert WhiteOk(run[i], sid) && UsedOk(run[i], sid);
  }

  lemma {:induction false} GoneForever(run: seq<State>, steps: seq<Step>, i: nat, j: nat, k: Key)
    requires IsRun(run, steps) && i <= j < |run| && Gone(run[i], k)
    ensures Gone(run[j], k)
    decreases j
  {
    if i < j {
      GoneForever(run, steps, i, j - 1, k);
      RunInv(run, steps, j - 1);
      GoneStaysGone(run[j - 1], steps[j - 1], k);
    }
  }

  predicate Rotates(s: State, step: Step, sid: Sid) {
    && step.Pipeline? && Enabled(s, step)
    && s.reqs[step.r].grant.shown.sid == sid && Live(s, Refresh(sid))
  }

  lemma RotationConsumes(s: State, step: Step, sid: Sid)
    requires Inv(s) && Rotates(s, step, sid)
    ensures Gone(Apply(s, step), Refresh(sid))
  {
    assert WhiteOk(s, sid) && IssueOk(s, step.r) && MintOk(s, sid);
  }

  /** No jti is rotated successfully twice. */
  lemma RotatedOnce(run: seq<State>, steps: seq<Step>, i: nat, j: nat, sid: Sid)
    requires IsRun(run, steps) && i < |steps| && j < |steps|
    requires Rotates(run[i], steps[i], sid) && Rotates(run[j], steps[j], sid)
    ensures i == j
  {
    if i < j {
      RunInv(run, steps, i);
      RotationConsumes(run[i], steps[i], sid);
      GoneForever(run, steps, i + 1, j, Refresh(sid));
    } else if j < i {
      RunInv(run, steps, j);
      RotationConsumes(run[j], steps[j], sid);
      GoneForever(run, steps, j + 1, i, Refresh(sid));
    }
  }

  /** No step deletes a used mark. */
  lemma MarksStay(s: State, step: Step, sid: Sid)
    requires Revokes(s) && Enabled(s, step) && RefreshUsed(sid) in s.db
    ensures RefreshUsed(sid) in Apply(s, step).db
  {
    if step.ScanDelete? {
      assert RevokeOk(s, step.r);
    }
  }

  lemma {:induction false} MarkedForever(run: seq<State>, steps: seq<Step>, i: nat, j: nat, sid: Sid)
    requires IsRun(run, steps) && i <= j < |run| && RefreshUsed(sid) in run[i].db
    ensures RefreshUsed(sid) in run[j].db
    decreases j
  {
    if i < j {
      MarkedForever(run, steps, i, j - 1, sid);
      RunInv(run, steps, j - 1);
      MarksStay(run[j - 1], steps[j - 1], sid);
    }
  }

  predicate Marks(s: State, step: Step, sid: Sid) {
    step.MarkUsed? && Enabled(s, step) && s.reqs[step.r].grant.shown.sid == sid
  }

  lemma {:induction false} MarkHasStep(run: seq<State>, steps: seq<Step>, j: nat, sid: Sid) returns (i: nat)
    requires IsRun(run, steps) && j < |run| && RefreshUsed(sid) in run[j].db
    ensures i < j && Marks(run[i], steps[i], sid)
  {
    MarksOnlyByMarking(run[j - 1], steps[j - 1], sid);
    if Marks(run[j - 1], steps[j - 1], sid) {
      i := j - 1;
    } else {
      i := MarkHasStep(run, steps, j - 1, sid);
    }
  }

  /** The mark outlives the token: an unexpired token is recognised as reuse
      exactly if its rotation has been marked, and then the revocation of all
      sessions its user has at that moment begins. */
  lemma ReuseRecognised(run: seq<State>, steps: seq<Step>, j: nat)
    requires IsRun(run, steps) && j < |steps| && steps[j].TestUsed?
    requires run[j].now < run[j].reqs[steps[j].r].shown.exp
    ensures var t := run[j].reqs[steps[j].r].shown;
            var q := run[j + 1].reqs[steps[j].r];
            && (q.Revoke? <==> exists i :: 0 <= i < j && Marks(run[i], steps[i], t.sid))
            && (q.Revoke? ==> q.reuse && q.user == t.sid.user && q.first == UserKeys(run[j], t.sid.user))
  {
    var t := run[j].reqs[steps[j].r].shown;
    RunInv(run, steps, j);
    assert UsedOk(run[j], t.sid) && ShownOk(run[j], steps[j].r) && TokenOk(run[j], t);
    if i :| 0 <= i < j && Marks(run[i], steps[i], t.sid) {
      assert RefreshUsed(t.sid) in run[i + 1].db;
      MarkedForever(run, steps, i + 1, j, t.sid);
    }
    if RefreshUsed(t.sid) in run[j].db {
      var i := MarkHasStep(run, steps, j, t.sid);
    }
  }

  /** Reuse handling is never a false alarm: the token it reacts to has a
      successor in its chain. */
  lemma ReuseIsReal(run: seq<State>, steps: seq<Step>, j: nat)
    requires IsRun(run, steps) && j < |steps| && steps[j].TestUsed?
    requires run[j + 1].reqs[steps[j].r].Revoke?
    ensures var sid := run[j].reqs[steps[j].r].shown.sid;
            exists root, p: nat | root in run[j].chain && p + 1 < |run[j].chain[root]| :: run[j].chain[root][p] == sid
  {
    var sid := run[j].reqs[steps[j].r].shown.sid;
    RunInv(run, steps, j);
    assert UsedOk(run[j], sid) && NodeOk(run[j], sid);
    var n := run[j].node[sid];
    assert run[j].chain[n.root][n.pos] == sid;
  }

  // ----- a rotation that dies before its mark

  predicate Rotated(s: State, r: Rid, sid: Sid) {
    && r in s.reqs && s.reqs[r].Issue? && s.reqs[r].grant.ByToken?
    && s.reqs[r].grant.shown.sid == sid && Linked(s.reqs[r].stage)
  }

  lemma {:induction false} RotatedHasStep(run: seq<State>, steps: seq<Step>, i: nat, r: Rid, sid: Sid) returns (k: nat)
    requires IsRun(run, steps) && i < |run| && Rotated(run[i], r, sid)
    ensures k < i && steps[k] == Pipeline(r) && Rotates(run[k], steps[k], sid)
  {
    LinkedBefore(run[i - 1], steps[i - 1], r);
    if Linked(run[i - 1].reqs[r].stage) {
      k := RotatedHasStep(run, steps, i - 1, r, sid);
    } else {
      k := i - 1;
    }
  }

  /** One request at most has rotated a jti. */
  lemma OneRotator(run: seq<State>, steps: seq<Step>, i: nat, r: Rid, j: nat, r': Rid, sid: Sid)
    requires IsRun(run, steps) && i < |run| && j < |run| && Rotated(run[i], r, sid) && Rotated(run[j], r', sid)
    ensures r == r'
  {
    var k := RotatedHasStep(run, steps, i, r, sid);
    var k' := RotatedHasStep(run, steps, j, r', sid);
    RotatedOnce(run, steps, k, k', sid);
  }

  predicate PastMark(s: State, r: Rid) {
    r in s.reqs && s.reqs[r].Issue? && (s.reqs[r].stage.Replying? || s.reqs[r].stage.Answered?)
  }

  lemma PastMarkStep(s: State, step: Step, r: Rid)
    requires Enabled(s, step) && PastMark(s, r)
    ensures PastMark(Apply(s, step), r)
  {
    if step.Tick? || step.Crash? || step.r != r {
      OtherRequests(s, step, r);
    } else {
      assert step.Answer?;
    }
  }

  lemma {:induction false} PastMarkStays(run: seq<State>, steps: seq<Step>, i: nat, j: nat, r: Rid)
    requires IsRun(run, steps) && i <= j < |run| && PastMark(run[i], r)
    ensures PastMark(run[j], r)
    decreases j
  {
    if i < j {
      PastMarkStays(run, steps, i, j - 1, r);
      PastMarkStep(run[j - 1], steps[j - 1], r);
    }
  }

  predicate Crashed(s: State, r: Rid) { r in s.crashed }

  lemma CrashedStep(run: seq<State>, steps: seq<Step>, i: nat, r: Rid)
    requires IsRun(run, steps) && i < |steps| && Crashed(run[i], r)
    ensures Crashed(run[i + 1], r)
  {
    var s, step := run[i], steps[i];
    assert Enabled(s, step) && run[i + 1] == Apply(s, step);
  }

  lemma {:induction false} CrashedStays(run: seq<State>, steps: seq<Step>, i: nat, j: nat, r: Rid)
    requires IsRun(run, steps) && i <= j < |run| && Crashed(run[i], r)
    ensures Crashed(run[j], r)
    decreases j - i
  {
    if i < j {
      CrashedStep(run, steps, i, r);
      CrashedStays(run, steps, i + 1, j, r);
    }
  }

  /** A refresh that dies between its pipeline and its mark leaves the old jti
      unmarked for good, so no presentation of it ever counts as reuse. */
  lemma CrashLeavesUnmarked(run: seq<State>, steps: seq<Step>, i: nat, j: nat, r: Rid)
    requires IsRun(run, steps) && i < |run| && j < |run| && Crashed(run[i], r)
    requires r in run[i].reqs && run[i].reqs[r].Issue? && run[i].reqs[r].grant.ByToken? && run[i].reqs[r].stage.Marking?
    ensures RefreshUsed(run[i].reqs[r].grant.shown.sid) !in run[j].db
  {
    var sid := run[i].reqs[r].grant.shown.sid;
    if RefreshUsed(sid) in run[j].db {
      var k := MarkHasStep(run, steps, j, sid);
      OneRotator(run, steps, i, r, k, steps[k].r, sid);
      if k < i {
        assert PastMark(run[k + 1], r);
        PastMarkStays(run, steps, k + 1, i, r);
      } else {
        CrashedStays(run, steps, i, k, r);
      }
    }
  }

  ghost predicate Stray(s: State, sid: Sid) {
    exists r :: r in RollingBackReqs(s) && s.reqs[r].issued.sid == sid
  }

  /** A valid jti is outside every chain exactly if it is the new jti of a failed
      rotation that has not been rolled back, and then no client holds a token
      for it. */
  lemma StrayIsRollingBack(run: seq<State>, steps: seq<Step>, i: nat, sid: Sid)
    requires IsRun(run, steps) && i < |run| && Live(run[i], Refresh(sid))
    ensures (forall root | root in run[i].chain :: sid !in run[i].chain[root]) <==> Stray(run[i], sid)
    ensures Stray(run[i], sid) ==> forall t | t in run[i].released :: t.sid != sid
  {
    var s := run[i];
    RunInv(run, steps, i);
    assert WhiteOk(s, sid) && NodeOk(s, sid) && MintOk(s, sid);
    if sid !in s.node {
      assert s.minted[sid].minter in RollingBackReqs(s);
    }
    if r :| r in RollingBackReqs(s) && s.reqs[r].issued.sid == sid {
      assert IssueOk(s, r);
    }
    forall root, p: nat | root in s.chain && p < |s.chain[root]| ensures s.chain[root][p] in s.node {
      assert PlaceOk(s, root, p);
    }
    forall t | t in s.released && t.sid == sid ensures sid in s.node {
      assert TokenOk(s, t);
    }
  }

  // ----- revoking all sessions of a user

  predicate Snapshot(s: State, r: Rid, user: int, first: set<Key>) {
    r in s.reqs && s.reqs[r].Revoke? && s.reqs[r].user == user && s.reqs[r].first == first
  }

  lemma {:induction false} ScanRemembers(
    run: seq<State>, steps: seq<Step>, i: nat, j: nat, r: Rid, user: int, first: set<Key>)
    requires IsRun(run, steps) && i <= j < |run| && Snapshot(run[i], r, user, first)
    ensures Snapshot(run[j], r, user, first)
    decreases j
  {
    if i < j {
      ScanRemembers(run, steps, i, j - 1, r, user, first);
      ScanKeepsSnapshot(run[j - 1], steps[j - 1], r, user, first);
    }
  }

  lemma ScanKeepsSnapshot(s: State, step: Step, r: Rid, user: int, first: set<Key>)
    requires Enabled(s, step) && Snapshot(s, r, user, first)
    ensures Snapshot(Apply(s, step), r, user, first)
  {
    if step.Tick? || step.Crash? || step.r != r {
      OtherRequests(s, step, r);
    } else {
      assert step.ScanYield? || step.ScanDelete? || step.ScanEnd?;
    }
  }

  predicate StartsRevoke(s: State, step: Step, r: Rid, user: int) {
    && Enabled(s, step)
    && (|| (step.ResetBegin? && step.r == r && step.user == user)
        || (step.TestUsed? && step.r == r && user == s.reqs[r].shown.sid.user &&
            Live(s, RefreshUsed(s.reqs[r].shown.sid))))
  }

  /** Every session of the user that was valid when the revocation began is
      invalid from the moment it ends, whatever ran in between. */
  lemma RevokedForever(run: seq<State>, steps: seq<Step>, i: nat, j: nat, m: nat, r: Rid, user: int, sid: Sid)
    requires IsRun(run, steps) && i < j <= m < |run|
    requires StartsRevoke(run[i], steps[i], r, user)
    requires r in run[j].reqs && run[j].reqs[r].Revoke? && run[j].reqs[r].done
    requires sid.user == user && Live(run[i], Refresh(sid))
    ensures !Live(run[m], Refresh(sid))
  {
    assert run[i + 1].reqs[r] == Revoke(user, UserKeys(run[i], user), {}, Searching, steps[i].TestUsed?, false);
    assert Refresh(sid) in run[i + 1].reqs[r].first;
    ScanRemembers(run, steps, i + 1, j, r, user, UserKeys(run[i], user));
    RunInv(run, steps, j);
    assert RevokeOk(run[j], r);
    GoneForever(run, steps, j, m, Refresh(sid));
  }

  /** A revocation removes nothing but whitelist entries of its own user. */
  lemma RevocationIsConfined(run: seq<State>, steps: seq<Step>, i: nat, k: Key)
    requires IsRun(run, steps) && i < |steps|
    requires steps[i].ScanYield? || steps[i].ScanDelete? || steps[i].ScanEnd?
    requires !SessionOf(k, run[i].reqs[steps[i].r].user)
    ensures k in run[i + 1].db <==> k in run[i].db
    ensures k in run[i].db ==> run[i + 1].db[k] == run[i].db[k]
  {
    RunInv(run, steps, i);
    assert RevokeOk(run[i], steps[i].r);
  }

  // ----- how long a token lasts

  /** Step i draws the jti. */
  predicate DrawsSid(run: seq<State>, steps: seq<Step>, i: nat, sid: Sid) {
    i < |steps| < |run| && Draws(steps[i]) && Enabled(run[i], steps[i]) && Drawn(run[i], steps[i]) == sid
  }

  predicate MintedAs(s: State, sid: Sid, exp: Time, r: Rid) {
    sid in s.minted && s.minted[sid] == Mint(exp, r)
  }

  lemma MintStep(run: seq<State>, steps: seq<Step>, n: nat, sid: Sid, exp: Time, r: Rid)
    requires IsRun(run, steps) && n < |steps|
    ensures MintedAs(run[n], sid, exp, r) ==> MintedAs(run[n + 1], sid, exp, r)
    ensures MintedAs(run[n + 1], sid, exp, r) ==>
              || MintedAs(run[n], sid, exp, r)
              || (DrawsSid(run, steps, n, sid) && steps[n].r == r && exp == run[n].now + TTL)
    ensures DrawsSid(run, steps, n, sid) ==> MintedAs(run[n + 1], sid, run[n].now + TTL, steps[n].r)
  {
    var s, step := run[n], steps[n];
    assert Enabled(s, step) && run[n + 1] == Apply(s, step);
    if !Draws(step) {
      Unchanged(s, step);
    }
  }

  lemma {:induction false} MintStays(
    run: seq<State>, steps: seq<Step>, i: nat, j: nat, sid: Sid, exp: Time, r: Rid)
    requires IsRun(run, steps) && i <= j < |run| && MintedAs(run[i], sid, exp, r)
    ensures MintedAs(run[j], sid, exp, r)
    decreases j - i
  {
    if i < j {
      MintStep(run, steps, i, sid, exp, r);
      MintStays(run, steps, i + 1, j, sid, exp, r);
    }
  }

  lemma {:induction false} MintHasStep(run: seq<State>, steps: seq<Step>, j: nat, sid: Sid, exp: Time, r: Rid)
    returns (i: nat)
    requires IsRun(run, steps) && j < |run| && MintedAs(run[j], sid, exp, r)
    ensures i < j && DrawsSid(run, steps, i, sid) && steps[i].r == r && exp == run[i].now + TTL
  {
    i := j - 1;
    MintStep(run, steps, i, sid, exp, r);
    if MintedAs(run[i], sid, exp, r) {
      i := MintHasStep(run, steps, i, sid, exp, r);
    }
  }

  /** A token lasts a full lifetime from the moment its jti is drawn, by a login
      or by a refresh, whatever token the refresh presented. */
  lemma TokenLastsFromDraw(run: seq<State>, steps: seq<Step>, j: nat, r: Rid) returns (i: nat)
    requires IsRun(run, steps) && j < |run| && r in run[j].reqs && run[j].reqs[r].Issue?
    ensures i < j && DrawsSid(run, steps, i, run[j].reqs[r].issued.sid) && steps[i].r == r
    ensures run[j].reqs[r].issued.exp == run[i].now + TTL
  {
    RunInv(run, steps, j);
    var sid := run[j].reqs[r].issued.sid;
    assert IssueOk(run[j], r) && MintOk(run[j], sid);
    i := MintHasStep(run, steps, j, sid, run[j].minted[sid].exp, r);
  }

  /** Some earlier step handed the token to a client. */
  ghost predicate HandedOut(run: seq<State>, steps: seq<Step>, j: nat, t: Token) {
    exists n: nat :: n < j && HandsOut(run, steps, n, t)
  }

  predicate HandsOut(run: seq<State>, steps: seq<Step>, n: nat, t: Token) {
    n < |steps| < |run| && steps[n].Answer? && Enabled(run[n], steps[n]) && run[n].reqs[steps[n].r].issued == t
  }

  predicate Released(s: State, t: Token) { t in s.released }

  lemma ReleaseStep(run: seq<State>, steps: seq<Step>, n: nat, t: Token)
    requires IsRun(run, steps) && n < |steps|
    ensures Released(run[n + 1], t) <==> Released(run[n], t) || HandsOut(run, steps, n, t)
  {
    var s, step := run[n], steps[n];
    assert Enabled(s, step) && run[n + 1] == Apply(s, step);
    if !step.Answer? {
      UnchangedReleases(s, step);
    }
  }

  lemma HandedOutStep(run: seq<State>, steps: seq<Step>, j: nat, t: Token)
    ensures HandedOut(run, steps, j + 1, t) <==> HandedOut(run, steps, j, t) || HandsOut(run, steps, j, t)
  {
  }

  lemma {:induction false} ReleasedExactly(run: seq<State>, steps: seq<Step>, j: nat, t: Token)
    requires IsRun(run, steps) && j < |run|
    ensures Released(run[j], t) <==> HandedOut(run, steps, j, t)
  {
    if j > 0 {
      ReleaseStep(run, steps, j - 1, t);
      HandedOutStep(run, steps, j - 1, t);
      ReleasedExactly(run, steps, j - 1, t);
    }
  }

  /** The jti was drawn less than a lifetime before state j. */
  ghost predicate DrawnLately(run: seq<State>, steps: seq<Step>, j: nat, sid: Sid) {
    exists i: nat :: i < j < |run| && DrawsSid(run, steps, i, sid) && run[j].now - run[i].now < TTL
  }

  /** A token presented to refresh or log out is taken on exactly if it was handed
      out and its jti was drawn less than a lifetime ago; any other is rejected
      outright. */
  lemma PresentedExactly(run: seq<State>, steps: seq<Step>, j: nat, r: Rid, t: Token)
    requires IsRun(run, steps) && j < |steps| && steps[j] in {RefreshBegin(r, t), LogoutBegin(r, t)}
    ensures r in run[j + 1].reqs
    ensures run[j + 1].reqs[r] ==
            if HandedOut(run, steps, j, t) && DrawnLately(run, steps, j, t.sid)
            then (if steps[j].RefreshBegin? then Check(t, false) else Logout(t, false))
            else Rejected
  {
    assert Enabled(run[j], steps[j]) && run[j + 1] == Apply(run[j], steps[j]);
    ReleasedExactly(run, steps, j, t);
    if Released(run[j], t) {
      RunInv(run, steps, j);
      assert TokenOk(run[j], t);
      LatelyExactly(run, steps, j, t.sid, t.exp);
    }
  }

  lemma LatelyExactly(run: seq<State>, steps: seq<Step>, j: nat, sid: Sid, exp: Time)
    requires IsRun(run, steps) && j < |run| && sid in run[j].minted && run[j].minted[sid].exp == exp
    ensures DrawnLately(run, steps, j, sid) <==> run[j].now < exp
  {
    var r := run[j].minted[sid].minter;
    var i := MintHasStep(run, steps, j, sid, exp, r);
    if k: nat :| k < j && DrawsSid(run, steps, k, sid) && run[j].now - run[k].now < TTL {
      MintStep(run, steps, k, sid, exp, r);
      MintStays(run, steps, k + 1, j, sid, run[k].now + TTL, steps[k].r);
    }
  }

  /** A logout that has sent its DEL is over, and the jti it presented is invalid
      from then on. */
  lemma LogoutRevokes(run: seq<State>, steps: seq<Step>, i: nat, j: nat, r: Rid)
    requires IsRun(run, steps) && i < |steps| && i < j < |run| && steps[i] == LogoutDel(r)
    ensures r in run[i + 1].reqs && run[i + 1].reqs[r] == Logout(run[i].reqs[r].shown, true)
    ensures !Live(run[j], Refresh(run[i].reqs[r].shown.sid))
  {
    RunInv(run, steps, i);
    var t := run[i].reqs[r].shown;
    assert Enabled(run[i], steps[i]) && run[i + 1] == Apply(run[i], steps[i]);
    assert ShownOk(run[i], r) && TokenOk(run[i], t) && MintOk(run[i], t.sid);
    GoneForever(run, steps, i + 1, j, Refresh(t.sid));
  }
}
