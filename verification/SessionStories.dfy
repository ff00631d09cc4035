/** Runs of the rotation protocol that show what it does not promise. All begin
    with one login, whose client then starts a refresh. */
module SessionStories {
  import opened Keys
  import opened Sessions
  import opened SessionRuns

  const FIRST := Sid(1, "first")
  const SECOND := Sid(1, "second")
  const SHOWN := Token(FIRST, TTL)
  const ISSUED := Token(SECOND, TTL)

  /** A run from the empty store that ends in s. */
  ghost predicate Reaches(run: seq<State>, steps: seq<Step>, s: State) {
    IsRun(run, steps) && run[|steps|] == s
  }

  lemma Extend(run: seq<State>, steps: seq<Step>, s: State, step: Step)
    requires Reaches(run, steps, s) && Enabled(s, step)
    ensures Reaches(run + [Apply(s, step)], steps + [step], Apply(s, step))
  {
    var run', steps' := run + [Apply(s, step)], steps + [step];
    forall i | 0 <= i < |steps'| ensures Enabled(run'[i], steps'[i]) && run'[i + 1] == Apply(run'[i], steps'[i]) {
      if i < |steps| {
        assert run'[i] == run[i] && run'[i + 1] == run[i + 1] && steps'[i] == steps[i];
      }
    }
  }

  /** One more step of a story. */
  lemma Then(run: seq<State>, steps: seq<Step>, s: State, step: Step, s': State)
    returns (run': seq<State>, steps': seq<Step>)
    requires Reaches(run, steps, s) && Enabled(s, step) && s' == Apply(s, step)
    ensures Reaches(run', steps', s') && steps' == steps + [step] && run' == run + [s']
  {
    Extend(run, steps, s, step);
    run', steps' := run + [s'], steps + [step];
  }

  // ----- a login, and a refresh up to its new jti

  const EMPTY := State(0, map[], map[], {}, map[], {}, {}, map[], map[])

  const LOGIN: Req := Issue(ByPassword, SHOWN, Answered)

  const BEGUN := EMPTY.(reqs := map[0 := LOGIN.(stage := Pending)], minted := map[FIRST := Mint(TTL, 0)])

  const WHITELISTED := BEGUN.(
    reqs := map[0 := LOGIN.(stage := Replying)], db := map[Refresh(FIRST) := TTL],
    stored := {FIRST}, chain := map[FIRST := [FIRST]], node := map[FIRST := Node(FIRST, 0)])

  const LOGGED_IN := WHITELISTED.(reqs := map[0 := LOGIN], released := {SHOWN})

  const PRESENTED := LOGGED_IN.(reqs := LOGGED_IN.reqs[1 := Check(SHOWN, false)])

  const TESTED := PRESENTED.(reqs := PRESENTED.reqs[1 := Check(SHOWN, true)])

  const POISED := TESTED.(
    reqs := TESTED.reqs[1 := Issue(ByToken(SHOWN), ISSUED, Pending)],
    minted := TESTED.minted[SECOND := Mint(TTL, 1)])

  lemma LoginSteps()
    ensures Enabled(EMPTY, LoginBegin(0, FIRST)) && Apply(EMPTY, LoginBegin(0, FIRST)) == BEGUN
    ensures Enabled(WHITELISTED, Answer(0)) && Apply(WHITELISTED, Answer(0)) == LOGGED_IN
  {
  }

  lemma LoginStores()
    ensures Enabled(BEGUN, LoginSet(0)) && Apply(BEGUN, LoginSet(0)) == WHITELISTED
  {
    assert Chain(BEGUN, FIRST) + [FIRST] == [FIRST];
  }

  lemma RefreshBegins()
    ensures Enabled(LOGGED_IN, RefreshBegin(1, SHOWN)) && Apply(LOGGED_IN, RefreshBegin(1, SHOWN)) == PRESENTED
  {
  }

  lemma RefreshPasses()
    ensures Enabled(PRESENTED, TestUsed(1)) && Apply(PRESENTED, TestUsed(1)) == TESTED
  {
  }

  lemma RefreshDraws()
    ensures Enabled(TESTED, MintNext(1, "second")) && Apply(TESTED, MintNext(1, "second")) == POISED
  {
  }

  lemma PoisedStory() returns (run: seq<State>, steps: seq<Step>)
    ensures Reaches(run, steps, POISED) && |steps| == 6
  {
    LoginSteps();
    LoginStores();
    RefreshBegins();
    RefreshPasses();
    RefreshDraws();
    run, steps := [EMPTY], [];
    run, steps := Then(run, steps, EMPTY, LoginBegin(0, FIRST), BEGUN);
    run, steps := Then(run, steps, BEGUN, LoginSet(0), WHITELISTED);
    run, steps := Then(run, steps, WHITELISTED, Answer(0), LOGGED_IN);
    run, steps := Then(run, steps, LOGGED_IN, RefreshBegin(1, SHOWN), PRESENTED);
    run, steps := Then(run, steps, PRESENTED, TestUsed(1), TESTED);
    run, steps := Then(run, steps, TESTED, MintNext(1, "second"), POISED);
  }

  /** A refresh in any state of any run that is about to run its pipeline. */
  ghost predicate About(s: State, r: Rid, t: Token, next: Token) {
    Inv(s) && Issuing(s, r, Pending) && s.reqs[r].grant == ByToken(t) && s.reqs[r].issued == next
  }

  lemma PoisedIsAbout(run: seq<State>, steps: seq<Step>)
    requires Reaches(run, steps, POISED)
    ensures About(POISED, 1, SHOWN, ISSUED) && Live(POISED, Refresh(FIRST))
    ensures POISED.now == 0 && 2 !in POISED.reqs && POISED.crashed == {}
  {
    RunInv(run, steps, |steps|);
  }

  // ----- a rotated token that is not recognised

  lemma PipelineUnmarked(s: State, r: Rid, t: Token, next: Token)
    requires About(s, r, t, next) && Live(s, Refresh(t.sid))
    ensures Enabled(s, Pipeline(r)) && Rotates(s, Pipeline(r), t.sid)
    ensures var s1 := Apply(s, Pipeline(r));
            && t in s1.released && s1.now == s.now && s1.reqs.Keys == s.reqs.Keys && s1.crashed == s.crashed
            && RefreshUsed(t.sid) !in s1.db
            && r in s1.reqs && s1.reqs[r] == Issue(ByToken(t), next, Marking)
  {
    assert ShownOk(s, r) && TokenOk(s, t) && WhiteOk(s, t.sid) && UsedOk(s, t.sid);
  }

  lemma UnmarkedPasses(s: State, r: Rid, t: Token)
    requires t in s.released && s.now < t.exp && r !in s.reqs && r !in s.crashed && RefreshUsed(t.sid) !in s.db
    ensures Enabled(s, RefreshBegin(r, t))
    ensures var s1 := Apply(s, RefreshBegin(r, t));
            Enabled(s1, TestUsed(r)) && s1.reqs[r] == Check(t, false) &&
            Apply(s1, TestUsed(r)).reqs[r] == Check(t, true)
  {
  }

  /** Any run with a refresh that is about to rotate can go on so that its old,
      unexpired token passes the reuse test after the rotation. */
  lemma GapStory(run0: seq<State>, steps0: seq<Step>, s: State, r: Rid, t: Token, next: Token, r': Rid)
    returns (run: seq<State>, steps: seq<Step>)
    requires Reaches(run0, steps0, s) && About(s, r, t, next) && Live(s, Refresh(t.sid)) && s.now < t.exp
    requires r' !in s.reqs && r' !in s.crashed
    ensures IsRun(run, steps) && steps == steps0 + [Pipeline(r), RefreshBegin(r', t), TestUsed(r')]
    ensures run[..|run0|] == run0 && run[|steps|].now == s.now && Rotates(s, Pipeline(r), t.sid)
    ensures r' in run[|steps|].reqs && run[|steps|].reqs[r'] == Check(t, true)
  {
    PipelineUnmarked(s, r, t, next);
    var s1 := Apply(s, Pipeline(r));
    run, steps := Then(run0, steps0, s, Pipeline(r), s1);
    UnmarkedPasses(s1, r', t);
    var s2 := Apply(s1, RefreshBegin(r', t));
    run, steps := Then(run, steps, s1, RefreshBegin(r', t), s2);
    run, steps := Then(run, steps, s2, TestUsed(r'), Apply(s2, TestUsed(r')));
  }

  /** Between the pipeline and the mark a rotated, unexpired token passes the
      reuse test. */
  lemma RotatedButUnmarked() returns (run: seq<State>, steps: seq<Step>)
    ensures |steps| == 9 && IsRun(run, steps) && Rotates(run[6], steps[6], FIRST)
    ensures steps[7] == RefreshBegin(2, SHOWN) && steps[8] == TestUsed(2) && run[9].now < SHOWN.exp
    ensures 2 in run[9].reqs && run[9].reqs[2] == Check(SHOWN, true)
  {
    var run0, steps0 := PoisedStory();
    PoisedIsAbout(run0, steps0);
    run, steps := GapStory(run0, steps0, POISED, 1, SHOWN, ISSUED, 2);
    assert run[6] == run0[6];
  }

  // ----- a valid jti that nobody holds

  /** A pipeline that deletes nothing, followed by a crash, leaves a valid jti
      that is in no chain and in no client's hands. */
  lemma CrashLeavesStray(s: State, r: Rid, t: Token, next: Token)
    requires About(s, r, t, next) && !Live(s, Refresh(t.sid))
    ensures Enabled(s, Pipeline(r))
    ensures var s1 := Apply(s, Pipeline(r));
            && Enabled(s1, Crash(r))
            && var s2 := Apply(s1, Crash(r));
               Live(s2, Refresh(next.sid)) && next.sid !in s2.node && next !in s2.released && Crashed(s2, r)
  {
    assert IssueOk(s, r);
  }

  lemma LogoutWins(s: State, r: Rid, t: Token, next: Token, r': Rid)
    requires About(s, r, t, next) && s.now < t.exp && r' !in s.reqs && r' !in s.crashed
    ensures Enabled(s, LogoutBegin(r', t))
    ensures var s1 := Apply(s, LogoutBegin(r', t));
            && Enabled(s1, LogoutDel(r'))
            && About(Apply(s1, LogoutDel(r')), r, t, next) && !Live(Apply(s1, LogoutDel(r')), Refresh(t.sid))
  {
    assert ShownOk(s, r);
    StepKeepsInv(s, LogoutBegin(r', t));
    StepKeepsInv(Apply(s, LogoutBegin(r', t)), LogoutDel(r'));
  }

  /** Any run with a refresh about to rotate can go on so that it loses against a
      logout and dies before its rollback. */
  lemma StrayStory(run0: seq<State>, steps0: seq<Step>, s: State, r: Rid, t: Token, next: Token, r': Rid)
    returns (run: seq<State>, steps: seq<Step>)
    requires Reaches(run0, steps0, s) && About(s, r, t, next) && s.now < t.exp
    requires r' !in s.reqs && r' !in s.crashed
    ensures IsRun(run, steps) && steps == steps0 + [LogoutBegin(r', t), LogoutDel(r'), Pipeline(r), Crash(r)]
    ensures var end := run[|steps|]; Live(end, Refresh(next.sid)) && next.sid !in end.node && next !in end.released
  {
    LogoutWins(s, r, t, next, r');
    var s1 := Apply(s, LogoutBegin(r', t));
    run, steps := Then(run0, steps0, s, LogoutBegin(r', t), s1);
    var s2 := Apply(s1, LogoutDel(r'));
    run, steps := Then(run, steps, s1, LogoutDel(r'), s2);
    CrashLeavesStray(s2, r, t, next);
    var s3 := Apply(s2, Pipeline(r));
    run, steps := Then(run, steps, s2, Pipeline(r), s3);
    run, steps := Then(run, steps, s3, Crash(r), Apply(s3, Crash(r)));
  }

  lemma StrayJti() returns (run: seq<State>, steps: seq<Step>)
    ensures |steps| == 10 && IsRun(run, steps) && steps[8] == Pipeline(1) && steps[9] == Crash(1)
    ensures Live(run[10], Refresh(SECOND)) && SECOND !in run[10].node && ISSUED !in run[10].released
  {
    var run0, steps0 := PoisedStory();
    PoisedIsAbout(run0, steps0);
    run, steps := StrayStory(run0, steps0, POISED, 1, SHOWN, ISSUED, 2);
  }

  // ----- sessions that survive a password reset

  /** Request r as it is and the whitelist entry of `sid`, if any, are not touched
      on the way from s to s'. */
  ghost predicate Undisturbed(s: State, s': State, r: Rid, sid: Sid) {
    && s'.now == s.now && s'.crashed == s.crashed && r in s.reqs && r in s'.reqs && s'.reqs[r] == s.reqs[r]
    && (Refresh(sid) in s'.db <==> Refresh(sid) in s.db)
    && (Refresh(sid) in s.db ==> s'.db[Refresh(sid)] == s.db[Refresh(sid)])
  }

  predicate Searching(s: State, r: Rid) {
    Scanning(s, r) && s.reqs[r].cursor.Searching?
  }

  function Unseen(s: State, r: Rid): set<Key>
    requires Searching(s, r)
  {
    set k | k in s.reqs[r].first && Live(s, k) && k !in s.reqs[r].yielded
  }

  lemma ScanOne(s: State, r': Rid, k: Key, r: Rid, sid: Sid)
    requires Inv(s) && Searching(s, r') && k in Unseen(s, r') && r in s.reqs && r != r' && k != Refresh(sid)
    ensures Enabled(s, ScanYield(r', k))
    ensures var s1 := Apply(s, ScanYield(r', k));
            && Enabled(s1, ScanDelete(r'))
            && var s2 := Apply(s1, ScanDelete(r'));
               && Searching(s2, r') && s2.reqs[r'].first == s.reqs[r'].first && Unseen(s2, r') < Unseen(s, r')
               && Undisturbed(s, s2, r, sid)
  {
    assert RevokeOk(s, r');
    var s2 := Apply(Apply(s, ScanYield(r', k)), ScanDelete(r'));
    assert k !in Unseen(s2, r');
  }

  lemma ScanEnds(s: State, r': Rid, r: Rid, sid: Sid)
    requires Searching(s, r') && Unseen(s, r') == {} && r in s.reqs && r != r'
    ensures Enabled(s, ScanEnd(r'))
    ensures var s1 := Apply(s, ScanEnd(r')); r' in s1.reqs && Ended(s1, r') && Undisturbed(s, s1, r, sid)
  {
    forall k | k in s.reqs[r'].first && Live(s, k) ensures k in s.reqs[r'].yielded {
      assert k !in Unseen(s, r');
    }
  }

  predicate Ended(s: State, r: Rid) {
    r in s.reqs && s.reqs[r].Revoke? && s.reqs[r].done
  }

  /** A scan can run to its end without touching a session that is not in its
      snapshot, or a request that is waiting. */
  lemma {:induction false} ScanStory(run0: seq<State>, steps0: seq<Step>, s: State, r': Rid, r: Rid, sid: Sid)
    returns (run: seq<State>, steps: seq<Step>, s': State)
    requires Reaches(run0, steps0, s) && Searching(s, r') && r in s.reqs && r != r'
    requires Refresh(sid) !in s.reqs[r'].first
    ensures Reaches(run, steps, s') && run0 <= run && steps0 <= steps && Ended(s', r') && Undisturbed(s, s', r, sid)
    decreases Unseen(s, r')
  {
    RunInv(run0, steps0, |steps0|);
    if Unseen(s, r') == {} {
      ScanEnds(s, r', r, sid);
      s' := Apply(s, ScanEnd(r'));
      run, steps := Then(run0, steps0, s, ScanEnd(r'), s');
    } else {
      var k :| k in Unseen(s, r');
      ScanOne(s, r', k, r, sid);
      var s1 := Apply(s, ScanYield(r', k));
      run, steps := Then(run0, steps0, s, ScanYield(r', k), s1);
      var s2 := Apply(s1, ScanDelete(r'));
      run, steps := Then(run, steps, s1, ScanDelete(r'), s2);
      run, steps, s' := ScanStory(run, steps, s2, r', r, sid);
    }
  }

  lemma ResetBegins(s: State, r: Rid, user: int, r': Rid, sid: Sid)
    requires Inv(s) && r in s.reqs && r' !in s.reqs && r' !in s.crashed && sid !in s.stored
    ensures Enabled(s, ResetBegin(r', user))
    ensures var s1 := Apply(s, ResetBegin(r', user));
            && Searching(s1, r') && Refresh(sid) !in s1.reqs[r'].first && Undisturbed(s, s1, r, sid)
            && Inv(s1) && s1.db == s.db
  {
    assert WhiteOk(s, sid);
    StepKeepsInv(s, ResetBegin(r', user));
  }

  lemma RefreshEscapes(s: State, r: Rid, t: Token, next: Token, r': Rid)
    requires About(s, r, t, next) && Live(s, Refresh(t.sid)) && Searching(s, r') && r' != r
    ensures Enabled(s, Pipeline(r))
    ensures var s1 := Apply(s, Pipeline(r));
            && Issuing(s1, r, Marking) && s1.reqs[r] == Issue(ByToken(t), next, Marking) && Live(s1, Refresh(next.sid))
            && Searching(s1, r') && s1.reqs[r'].first == s.reqs[r'].first
  {
    assert ShownOk(s, r) && TokenOk(s, t) && IssueOk(s, r) && MintOk(s, t.sid);
  }

  lemma RefreshEnds(s: State, r: Rid, t: Token, next: Token)
    requires Issuing(s, r, Marking) && s.reqs[r] == Issue(ByToken(t), next, Marking) && Live(s, Refresh(next.sid))
    ensures var s1 := Apply(s, MarkUsed(r));
            && Enabled(s, MarkUsed(r)) && Enabled(s1, Answer(r))
            && var s2 := Apply(s1, Answer(r)); Live(s2, Refresh(next.sid)) && next in s2.released
  {
  }

  lemma LoginEnds(s: State, r: Rid, next: Token)
    requires Issuing(s, r, Pending) && s.reqs[r] == Issue(ByPassword, next, Pending)
    ensures var s1 := Apply(s, LoginSet(r));
            && Enabled(s, LoginSet(r)) && Enabled(s1, Answer(r))
            && var s2 := Apply(s1, Answer(r)); Live(s2, Refresh(next.sid)) && next in s2.released
  {
  }

  /** A reset that has ended at step n left a session valid and handed out. */
  ghost predicate Outlives(run: seq<State>, steps: seq<Step>, n: nat, r': Rid, next: Token) {
    && IsRun(run, steps) && n < |run| && Ended(run[n], r')
    && Live(run[|steps|], Refresh(next.sid)) && next in run[|steps|].released
  }

  lemma TwoMore(run0: seq<State>, steps0: seq<Step>, s: State, a: Step, b: Step, r': Rid, next: Token)
    returns (run: seq<State>, steps: seq<Step>)
    requires Reaches(run0, steps0, s) && Ended(s, r') && Enabled(s, a) && Enabled(Apply(s, a), b)
    requires var s2 := Apply(Apply(s, a), b); Live(s2, Refresh(next.sid)) && next in s2.released
    ensures steps == steps0 + [a, b] && run0 <= run && Outlives(run, steps, |steps0|, r', next)
  {
    var s1 := Apply(s, a);
    run, steps := Then(run0, steps0, s, a, s1);
    run, steps := Then(run, steps, s1, b, Apply(s1, b));
  }

  /** Any run with a refresh about to rotate can go on so that the refresh survives
      a password reset: it rotates while the reset scans, and its new token is
      valid and handed out after the reset has ended. */
  lemma ResetStory(run0: seq<State>, steps0: seq<Step>, s: State, r: Rid, t: Token, next: Token, r': Rid)
    returns (run: seq<State>, steps: seq<Step>, n: nat)
    requires Reaches(run0, steps0, s) && About(s, r, t, next) && Live(s, Refresh(t.sid))
    requires r' !in s.reqs && r' !in s.crashed
    ensures steps0 + [ResetBegin(r', t.sid.user), Pipeline(r)] <= steps && |steps0| < n
    ensures Outlives(run, steps, n, r', next)
  {
    assert IssueOk(s, r);
    ResetBegins(s, r, t.sid.user, r', next.sid);
    var s1 := Apply(s, ResetBegin(r', t.sid.user));
    run, steps := Then(run0, steps0, s, ResetBegin(r', t.sid.user), s1);
    run, steps, n := EscapeStory(run, steps, s1, r, t, next, r');
  }

  lemma EscapeStory(run0: seq<State>, steps0: seq<Step>, s: State, r: Rid, t: Token, next: Token, r': Rid)
    returns (run: seq<State>, steps: seq<Step>, n: nat)
    requires Reaches(run0, steps0, s) && About(s, r, t, next) && Live(s, Refresh(t.sid)) && r != r'
    requires Searching(s, r') && Refresh(next.sid) !in s.reqs[r'].first
    ensures steps0 + [Pipeline(r)] <= steps && |steps0| < n && Outlives(run, steps, n, r', next)
  {
    RefreshEscapes(s, r, t, next, r');
    var s1 := Apply(s, Pipeline(r));
    run, steps := Then(run0, steps0, s, Pipeline(r), s1);
    var s2;
    run, steps, s2 := ScanStory(run, steps, s1, r', r, next.sid);
    n := |steps|;
    RefreshEnds(s2, r, t, next);
    run, steps := TwoMore(run, steps, s2, MarkUsed(r), Answer(r), r', next);
  }

  /** Any run with a login past its password check can go on so that the login
      survives a password reset: the reset begins and ends before the jti of the
      login is stored. */
  lemma LateLoginStory(run0: seq<State>, steps0: seq<Step>, s: State, r: Rid, next: Token, r': Rid)
    returns (run: seq<State>, steps: seq<Step>, n: nat)
    requires Reaches(run0, steps0, s) && Issuing(s, r, Pending) && s.reqs[r] == Issue(ByPassword, next, Pending)
    requires r' !in s.reqs && r' !in s.crashed
    ensures steps0 + [ResetBegin(r', next.sid.user)] <= steps && |steps0| < n
    ensures Outlives(run, steps, n, r', next) && next.sid !in run[n].stored
  {
    RunInv(run0, steps0, |steps0|);
    assert IssueOk(s, r);
    ResetBegins(s, r, next.sid.user, r', next.sid);
    var s1 := Apply(s, ResetBegin(r', next.sid.user));
    run, steps := Then(run0, steps0, s, ResetBegin(r', next.sid.user), s1);
    var s2;
    run, steps, s2 := ScanStory(run, steps, s1, r', r, next.sid);
    RunInv(run, steps, |steps|);
    assert IssueOk(s2, r);
    n := |steps|;
    LoginEnds(s2, r, next);
    run, steps := TwoMore(run, steps, s2, LoginSet(r), Answer(r), r', next);
  }

  /** A refresh that rotates while a password reset scans survives the reset. */
  lemma RefreshSurvivesReset() returns (run: seq<State>, steps: seq<Step>, n: nat)
    ensures Outlives(run, steps, n, 2, ISSUED) && 6 < n && 7 < |steps|
    ensures steps[6] == ResetBegin(2, 1) && steps[7] == Pipeline(1)
  {
    var run0, steps0 := PoisedStory();
    PoisedIsAbout(run0, steps0);
    run, steps, n := ResetStory(run0, steps0, POISED, 1, SHOWN, ISSUED, 2);
  }

  /** So does a login that checked the old password before the reset and stores
      its jti after it. */
  lemma LoginSurvivesReset() returns (run: seq<State>, steps: seq<Step>, n: nat)
    ensures Outlives(run, steps, n, 1, SHOWN) && 1 < n && 1 < |steps|
    ensures steps[0] == LoginBegin(0, FIRST) && steps[1] == ResetBegin(1, 1) && FIRST !in run[n].stored
  {
    LoginSteps();
    run, steps := [EMPTY], [];
    run, steps := Then(run, steps, EMPTY, LoginBegin(0, FIRST), BEGUN);
    run, steps, n := LateLoginStory(run, steps, BEGUN, 0, SHOWN, 1);
  }
}
