/** Which jtis are valid, exactly: from the step that stores them to the first DEL
    or expiry; and what that means for whole logins when all sessions of a user
    are revoked. */
module SessionLives {
  import opened Keys
  import opened Sessions
  import opened SessionRuns

  // ----- whole chains

  ghost predicate SameUser(s: State, r: Rid) {
    r in s.reqs && s.reqs[r].Issue? && s.reqs[r].grant.ByToken? ==>
      s.reqs[r].issued.sid.user == s.reqs[r].grant.shown.sid.user
  }

  ghost predicate NodeUser(s: State, sid: Sid) {
    sid in s.node ==> sid.user == s.node[sid].root.user
  }

  lemma SameUserStep(s: State, step: Step, r: Rid)
    requires Enabled(s, step) && SameUser(s, r)
    ensures SameUser(Apply(s, step), r)
  {
    if step.Tick? || step.Crash? || step.r != r {
      OtherRequests(s, step, r);
    }
  }

  lemma NodeUserStep(s: State, step: Step, sid: Sid)
    requires Inv(s) && Enabled(s, step) && NodeUser(s, sid)
    requires Stores(step) ==> SameUser(s, step.r)
    requires step.Pipeline? ==> NodeUser(s, s.reqs[step.r].grant.shown.sid)
    ensures NodeUser(Apply(s, step), sid)
  {
    if step.Pipeline? {
      var shown := s.reqs[step.r].grant.shown;
      assert ShownOk(s, step.r) && TokenOk(s, shown);
    } else if !step.LoginSet? {
      UnchangedChains(s, step);
    }
  }

  lemma {:induction false} RunUsers(run: seq<State>, steps: seq<Step>, i: nat)
    requires IsRun(run, steps) && i < |run|
    ensures forall r :: SameUser(run[i], r)
    ensures forall sid :: NodeUser(run[i], sid)
  {
    if i > 0 {
      var s, step := run[i - 1], steps[i - 1];
      RunUsers(run, steps, i - 1);
      RunInv(run, steps, i - 1);
      forall r ensures SameUser(run[i], r) {
        SameUserStep(s, step, r);
      }
      forall sid ensures NodeUser(run[i], sid) {
        NodeUserStep(s, step, sid);
      }
    }
  }

  /** All descendants of a login belong to the user who logged in. */
  lemma ChainHasOneUser(run: seq<State>, steps: seq<Step>, i: nat, root: Sid, p: nat)
    requires IsRun(run, steps) && i < |run| && p < |Chain(run[i], root)|
    ensures Chain(run[i], root)[p].user == root.user
  {
    RunInv(run, steps, i);
    RunUsers(run, steps, i);
    var sid := Chain(run[i], root)[p];
    assert PlaceOk(run[i], root, p) && NodeUser(run[i], sid);
  }

  /** A step that rotates the newest jti of a login. */
  predicate RotatesChain(s: State, step: Step, root: Sid) {
    step.Pipeline? && Enabled(s, step) && Rotates(s, step, s.reqs[step.r].grant.shown.sid) &&
    Root(s, s.reqs[step.r].grant.shown.sid) == root
  }

  lemma ChainFixedStep(s: State, step: Step, root: Sid)
    requires Inv(s) && Enabled(s, step) && root in s.chain && !RotatesChain(s, step, root)
    ensures root in Apply(s, step).chain && Chain(Apply(s, step), root) == Chain(s, root)
  {
    ChainGrowth(s, step, root);
    assert PlaceOk(s, root, 0);
    if step.Pipeline? {
      var n := |Chain(s, root)| - 1;
      assert PlaceOk(s, root, n);
    }
  }

  lemma {:induction false} ChainFixed(run: seq<State>, steps: seq<Step>, i: nat, j: nat, root: Sid)
    requires IsRun(run, steps) && i <= j < |run| && root in run[i].chain
    requires forall n | i <= n < j :: !RotatesChain(run[n], steps[n], root)
    ensures root in run[j].chain && Chain(run[j], root) == Chain(run[i], root)
    decreases j
  {
    if i < j {
      ChainFixed(run, steps, i, j - 1, root);
      RunInv(run, steps, j - 1);
      ChainFixedStep(run[j - 1], steps[j - 1], root);
    }
  }

  ghost predicate ChainGone(s: State, root: Sid) {
    root in s.chain && forall sid | sid in s.chain[root] :: Gone(s, Refresh(sid))
  }

  /** What a step that rotates a chain finds there. */
  lemma RotationNeedsLive(s: State, step: Step, root: Sid)
    requires Inv(s)
    ensures RotatesChain(s, step, root) ==>
              root in s.chain && s.reqs[step.r].grant.shown.sid in s.chain[root] &&
              Live(s, Refresh(s.reqs[step.r].grant.shown.sid))
  {
    if RotatesChain(s, step, root) {
      var shown := s.reqs[step.r].grant.shown;
      assert ShownOk(s, step.r) && TokenOk(s, shown) && NodeOk(s, shown.sid);
    }
  }

  lemma ChainGoneStep(s: State, step: Step, root: Sid)
    requires Inv(s) && Enabled(s, step) && ChainGone(s, root)
    ensures ChainGone(Apply(s, step), root)
  {
    RotationNeedsLive(s, step, root);
    ChainFixedStep(s, step, root);
    forall sid | sid in s.chain[root] ensures Gone(Apply(s, step), Refresh(sid)) {
      GoneStaysGone(s, step, Refresh(sid));
    }
  }

  lemma {:induction false} ChainGoneForever(run: seq<State>, steps: seq<Step>, i: nat, j: nat, root: Sid)
    requires IsRun(run, steps) && i <= j < |run| && ChainGone(run[i], root)
    ensures ChainGone(run[j], root)
    decreases j
  {
    if i < j {
      ChainGoneForever(run, steps, i, j - 1, root);
      RunInv(run, steps, j - 1);
      ChainGoneStep(run[j - 1], steps[j - 1], root);
    }
  }

  /** A revocation ends a login for good: from its end on no descendant of the
      login is valid, old or new, unless a refresh rotated it during the scan. */
  lemma LoginRevoked(run: seq<State>, steps: seq<Step>, i: nat, j: nat, m: nat, r: Rid, root: Sid)
    requires IsRun(run, steps) && i < j <= m < |run| && root in run[i].chain
    requires StartsRevoke(run[i], steps[i], r, root.user)
    requires r in run[j].reqs && run[j].reqs[r].Revoke? && run[j].reqs[r].done
    requires forall n | i < n < j :: !RotatesChain(run[n], steps[n], root)
    ensures root in run[m].chain && forall sid | sid in run[m].chain[root] :: !Live(run[m], Refresh(sid))
  {
    ChainFixed(run, steps, i, j, root);
    RunInv(run, steps, j);
    forall p | 0 <= p < |run[j].chain[root]| ensures Gone(run[j], Refresh(run[j].chain[root][p])) {
      var sid := run[j].chain[root][p];
      ChainHasOneUser(run, steps, j, root, p);
      assert PlaceOk(run[j], root, p) && MintOk(run[j], sid);
      if Live(run[j], Refresh(sid)) {
        StillLiveWasLive(run, steps, i, j, root, p);
        RevokedForever(run, steps, i, j, j, r, root.user, sid);
      }
    }
    assert ChainGone(run[j], root);
    ChainGoneForever(run, steps, j, m, root);
  }

  /** A jti of a chain that is valid later was valid before. */
  lemma StillLiveWasLive(run: seq<State>, steps: seq<Step>, i: nat, j: nat, root: Sid, p: nat)
    requires IsRun(run, steps) && i <= j < |run| && p < |Chain(run[i], root)|
    requires Live(run[j], Refresh(Chain(run[i], root)[p]))
    ensures Live(run[i], Refresh(Chain(run[i], root)[p]))
  {
    var sid := Chain(run[i], root)[p];
    RunInv(run, steps, i);
    assert PlaceOk(run[i], root, p) && MintOk(run[i], sid);
    if !Live(run[i], Refresh(sid)) {
      GoneForever(run, steps, i, j, Refresh(sid));
    }
  }

  /** Step n appends a jti to a chain. */
  predicate Links(run: seq<State>, steps: seq<Step>, n: nat, root: Sid, sid: Sid) {
    && n < |steps| < |run| && RotatesChain(run[n], steps[n], root)
    && run[n].reqs[steps[n].r].issued.sid == sid
  }

  predicate At(s: State, root: Sid, p: nat, sid: Sid) {
    p < |Chain(s, root)| && Chain(s, root)[p] == sid
  }

  lemma LinkStep(run: seq<State>, steps: seq<Step>, n: nat, root: Sid, p: nat, sid: Sid)
    requires IsRun(run, steps) && n < |steps| && root in run[n].chain && At(run[n + 1], root, p, sid)
    ensures At(run[n], root, p, sid) || (p >= |Chain(run[n], root)| && Links(run, steps, n, root, sid))
  {
    var s, step := run[n], steps[n];
    RunInv(run, steps, n);
    ChainGrowth(s, step, root);
    assert PlaceOk(s, root, 0) && PlaceOk(s, root, |Chain(s, root)| - 1);
  }

  /** A link that a chain has gained came from a rotation in between. */
  lemma {:induction false} LinkHasStep(run: seq<State>, steps: seq<Step>, i: nat, j: nat, root: Sid, p: nat, sid: Sid)
    returns (n: nat)
    requires IsRun(run, steps) && i <= j < |run| && root in run[i].chain
    requires p >= |Chain(run[i], root)| && At(run[j], root, p, sid)
    ensures i <= n < j && Links(run, steps, n, root, sid)
    decreases j
  {
    n := j - 1;
    ChainStays(run, steps, i, n, root);
    LinkStep(run, steps, n, root, p, sid);
    if At(run[n], root, p, sid) {
      n := LinkHasStep(run, steps, i, n, root, p, sid);
    }
  }

  /** Chains only grow. */
  lemma {:induction false} ChainStays(run: seq<State>, steps: seq<Step>, i: nat, j: nat, root: Sid)
    requires IsRun(run, steps) && i <= j < |run| && root in run[i].chain
    ensures root in run[j].chain && Chain(run[i], root) <= Chain(run[j], root)
    decreases j
  {
    if i < j {
      ChainStays(run, steps, i, j - 1, root);
      RunInv(run, steps, j - 1);
      ChainGrowth(run[j - 1], steps[j - 1], root);
      assert PlaceOk(run[j - 1], root, 0);
    }
  }

  /** The login whose chain a state has and an earlier one has not. */
  lemma {:induction false} RootHasStep(run: seq<State>, steps: seq<Step>, i: nat, j: nat, root: Sid) returns (n: nat)
    requires IsRun(run, steps) && i <= j < |run| && root !in run[i].chain && root in run[j].chain
    ensures i <= n < j && LogsIn(run, steps, n, root)
    decreases j
  {
    n := j - 1;
    if root in run[n].chain {
      n := RootHasStep(run, steps, i, n, root);
    } else {
      LoginMakesChain(run, steps, n, root);
    }
  }

  /** Step n stores the jti of a login. */
  predicate LogsIn(run: seq<State>, steps: seq<Step>, n: nat, root: Sid) {
    && n < |steps| < |run| && steps[n].LoginSet? && Enabled(run[n], steps[n])
    && run[n].reqs[steps[n].r].issued.sid == root && run[n + 1].chain.Keys == run[n].chain.Keys + {root}
  }

  lemma LoginMakesChain(run: seq<State>, steps: seq<Step>, n: nat, root: Sid)
    requires IsRun(run, steps) && n < |steps| && root !in run[n].chain && root in run[n + 1].chain
    ensures LogsIn(run, steps, n, root) && |Chain(run[n + 1], root)| == 1
  {
    RunInv(run, steps, n);
    RunInv(run, steps, n + 1);
    ChainGrowth(run[n], steps[n], root);
    assert PlaceOk(run[n + 1], root, 0);
  }

  /** What is valid of a login when a revocation ends was drawn by a refresh that
      rotated the login during the scan, or the login itself was stored during
      the scan. */
  lemma SurvivorWasStored(run: seq<State>, steps: seq<Step>, i: nat, j: nat, r: Rid, root: Sid, p: nat)
    returns (n: nat)
    requires IsRun(run, steps) && i < j < |run| && StartsRevoke(run[i], steps[i], r, root.user)
    requires r in run[j].reqs && run[j].reqs[r].Revoke? && run[j].reqs[r].done
    requires p < |Chain(run[j], root)| && Live(run[j], Refresh(Chain(run[j], root)[p]))
    ensures i < n < j && (Links(run, steps, n, root, Chain(run[j], root)[p]) || LogsIn(run, steps, n, root))
  {
    var sid := Chain(run[j], root)[p];
    if root in run[i].chain {
      ChainStays(run, steps, i, j, root);
      if p < |Chain(run[i], root)| {
        StillLiveWasLive(run, steps, i, j, root, p);
        ChainHasOneUser(run, steps, i, root, p);
        RevokedForever(run, steps, i, j, j, r, root.user, sid);
      }
      n := LinkHasStep(run, steps, i, j, root, p, sid);
    } else {
      n := RootHasStep(run, steps, i, j, root);
    }
  }

  // ----- exactly which jtis are valid

  predicate StoresSid(s: State, step: Step, sid: Sid) {
    Stores(step) && Enabled(s, step) && s.reqs[step.r].issued.sid == sid
  }

  /** The step sends a DEL for the whitelist entry. */
  predicate Deletes(s: State, step: Step, sid: Sid) {
    Enabled(s, step) &&
    match step
    case Pipeline(r) => s.reqs[r].grant.shown.sid == sid
    case Rollback(r) => s.reqs[r].issued.sid == sid
    case LogoutDel(r) => s.reqs[r].shown.sid == sid
    case ScanDelete(r) => s.reqs[r].cursor.key == Refresh(sid)
    case _ => false
  }

  predicate HasEntry(s: State, sid: Sid, expires: Time) {
    Refresh(sid) in s.db && s.db[Refresh(sid)] == expires
  }

  lemma EntryStored(s: State, step: Step, sid: Sid)
    requires Enabled(s, step) && StoresSid(s, step, sid)
    ensures HasEntry(Apply(s, step), sid, s.now + TTL)
  {
  }

  lemma EntryStep(s: State, step: Step, sid: Sid, expires: Time)
    requires Enabled(s, step) && !StoresSid(s, step, sid)
    ensures HasEntry(Apply(s, step), sid, expires) <==> HasEntry(s, sid, expires) && !Deletes(s, step, sid)
  {
  }

  /** Step n stored the entry and no step before m sent a DEL for it. */
  ghost predicate KeptSince(run: seq<State>, steps: seq<Step>, n: nat, m: nat, sid: Sid) {
    && n < m < |run| && m <= |steps| && StoresSid(run[n], steps[n], sid)
    && forall k | n < k < m :: !Deletes(run[k], steps[k], sid)
  }

  /** The entry was stored by step `from` or a later one, has had no DEL since
      and is not older than a lifetime at m. */
  ghost predicate StoredSince(run: seq<State>, steps: seq<Step>, from: nat, m: nat, sid: Sid) {
    exists n: nat :: from <= n && KeptSince(run, steps, n, m, sid) && run[m].now - run[n].now < TTL
  }

  lemma {:induction false} EntryHasStep(run: seq<State>, steps: seq<Step>, m: nat, sid: Sid, expires: Time)
    returns (n: nat)
    requires IsRun(run, steps) && m < |run| && HasEntry(run[m], sid, expires)
    ensures KeptSince(run, steps, n, m, sid) && expires == run[n].now + TTL
  {
    n := m - 1;
    if StoresSid(run[n], steps[n], sid) {
      EntryStored(run[n], steps[n], sid);
    } else {
      EntryStep(run[n], steps[n], sid, expires);
      n := EntryHasStep(run, steps, m - 1, sid, expires);
    }
  }

  /** A jti is stored at most once. */
  lemma StoredOnce(run: seq<State>, steps: seq<Step>, n: nat, m: nat, sid: Sid)
    requires IsRun(run, steps) && n < m < |steps| && StoresSid(run[n], steps[n], sid)
    ensures !StoresSid(run[m], steps[m], sid)
  {
    assert sid in run[n + 1].stored;
    StoredForever(run, steps, n + 1, m, sid);
    RunInv(run, steps, m);
    if Stores(steps[m]) {
      assert IssueOk(run[m], steps[m].r);
    }
  }

  predicate IsStored(s: State, sid: Sid) { sid in s.stored }

  lemma StoredStep(run: seq<State>, steps: seq<Step>, n: nat, sid: Sid)
    requires IsRun(run, steps) && n < |steps| && IsStored(run[n], sid)
    ensures IsStored(run[n + 1], sid)
  {
    StoredStays(run[n], steps[n]);
  }

  lemma {:induction false} StoredForever(run: seq<State>, steps: seq<Step>, i: nat, j: nat, sid: Sid)
    requires IsRun(run, steps) && i <= j < |run| && IsStored(run[i], sid)
    ensures IsStored(run[j], sid)
    decreases j - i
  {
    if i < j {
      StoredStep(run, steps, i, sid);
      StoredForever(run, steps, i + 1, j, sid);
    }
  }

  lemma {:induction false} EntryKept(run: seq<State>, steps: seq<Step>, n: nat, m: nat, sid: Sid)
    requires IsRun(run, steps) && KeptSince(run, steps, n, m, sid)
    ensures HasEntry(run[m], sid, run[n].now + TTL)
    decreases m
  {
    if m == n + 1 {
      EntryStored(run[n], steps[n], sid);
    } else {
      EntryKept(run, steps, n, m - 1, sid);
      StoredOnce(run, steps, n, m - 1, sid);
      EntryStep(run[m - 1], steps[m - 1], sid, run[n].now + TTL);
    }
  }

  /** A jti is valid exactly if some step stored it, no later one sent a DEL for
      it, and less than a lifetime has passed since. */
  lemma ValidExactly(run: seq<State>, steps: seq<Step>, m: nat, sid: Sid)
    requires IsRun(run, steps) && m < |run|
    ensures Live(run[m], Refresh(sid)) <==> StoredSince(run, steps, 0, m, sid)
  {
    if Live(run[m], Refresh(sid)) {
      var n := EntryHasStep(run, steps, m, sid, run[m].db[Refresh(sid)]);
    }
    if n: nat :| KeptSince(run, steps, n, m, sid) && run[m].now - run[n].now < TTL {
      EntryKept(run, steps, n, m, sid);
    }
  }

  lemma NowStep(run: seq<State>, steps: seq<Step>, n: nat)
    requires IsRun(run, steps) && n < |steps|
    ensures run[n].now <= run[n + 1].now
  {
    Unchanged(run[n], steps[n]);
  }

  lemma {:induction false} NowGrows(run: seq<State>, steps: seq<Step>, i: nat, j: nat)
    requires IsRun(run, steps) && i <= j < |run|
    ensures run[i].now <= run[j].now
    decreases j - i
  {
    if i < j {
      NowStep(run, steps, i);
      NowGrows(run, steps, i + 1, j);
    }
  }

  /** After a revocation a jti of the user is valid exactly if it was stored after
      the revocation began, has had no DEL since and has not expired. */
  lemma ValidAfterRevocation(run: seq<State>, steps: seq<Step>, i: nat, j: nat, m: nat, r: Rid, sid: Sid)
    requires IsRun(run, steps) && i < j <= m < |run| && StartsRevoke(run[i], steps[i], r, sid.user)
    requires r in run[j].reqs && run[j].reqs[r].Revoke? && run[j].reqs[r].done
    ensures Live(run[m], Refresh(sid)) <==> StoredSince(run, steps, i + 1, m, sid)
  {
    ValidExactly(run, steps, m, sid);
    if Live(run[m], Refresh(sid)) {
      var n: nat :| KeptSince(run, steps, n, m, sid) && run[m].now - run[n].now < TTL;
      if n <= i {
        assert n < i && KeptSince(run, steps, n, i, sid);
        EntryKept(run, steps, n, i, sid);
        NowGrows(run, steps, i, m);
        RevokedForever(run, steps, i, j, m, r, sid.user, sid);
      }
    }
  }

  /** The login was stored after step i, or a refresh rotated it between i and j. */
  ghost predicate Escapes(run: seq<State>, steps: seq<Step>, i: nat, j: nat, root: Sid) {
    || (exists n: nat :: i < n && LogsIn(run, steps, n, root))
    || (exists n: nat :: i < n < j && n < |steps| < |run| && RotatesChain(run[n], steps[n], root))
  }

  /** After a revocation a login still has a valid jti, which is then its newest,
      exactly if it escaped the scan, by being stored after the revocation began
      or by a rotation before it ended, and its newest jti has had no DEL since
      it was stored and has not expired. */
  lemma LoginSurvives(run: seq<State>, steps: seq<Step>, i: nat, j: nat, m: nat, r: Rid, root: Sid)
    requires IsRun(run, steps) && i < j <= m < |run| && root in run[m].chain
    requires StartsRevoke(run[i], steps[i], r, root.user)
    requires r in run[j].reqs && run[j].reqs[r].Revoke? && run[j].reqs[r].done
    ensures var c := run[m].chain[root];
            && |c| > 0
            && (forall p | 0 <= p < |c| - 1 :: !Live(run[m], Refresh(c[p])))
            && (Live(run[m], Refresh(c[|c| - 1])) <==>
                  Escapes(run, steps, i, j, root) && StoredSince(run, steps, 0, m, c[|c| - 1]))
  {
    var c := run[m].chain[root];
    OnlyTheNewest(run, steps, m, root);
    ValidExactly(run, steps, m, c[|c| - 1]);
    if Live(run[m], Refresh(c[|c| - 1])) {
      EscapeNeeded(run, steps, i, j, m, r, root);
    }
  }

  lemma OnlyTheNewest(run: seq<State>, steps: seq<Step>, m: nat, root: Sid)
    requires IsRun(run, steps) && m < |run| && root in run[m].chain
    ensures var c := run[m].chain[root]; |c| > 0 && forall p | 0 <= p < |c| - 1 :: !Live(run[m], Refresh(c[p]))
  {
    var c := run[m].chain[root];
    RunInv(run, steps, m);
    assert PlaceOk(run[m], root, 0);
    forall p | 0 <= p < |c| - 1 ensures !Live(run[m], Refresh(c[p])) {
      assert PlaceOk(run[m], root, p) && WhiteOk(run[m], c[p]);
    }
  }

  lemma EscapeNeeded(run: seq<State>, steps: seq<Step>, i: nat, j: nat, m: nat, r: Rid, root: Sid)
    requires IsRun(run, steps) && i < j <= m < |run| && root in run[m].chain
    requires StartsRevoke(run[i], steps[i], r, root.user)
    requires r in run[j].reqs && run[j].reqs[r].Revoke? && run[j].reqs[r].done
    requires exists sid :: sid in run[m].chain[root] && Live(run[m], Refresh(sid))
    ensures Escapes(run, steps, i, j, root)
  {
    if root in run[i].chain {
      if forall n | i < n < j :: !RotatesChain(run[n], steps[n], root) {
        LoginRevoked(run, steps, i, j, m, r, root);
      }
    } else {
      var n := RootHasStep(run, steps, i, m, root);
    }
  }
}
