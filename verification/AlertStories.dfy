/** A run in which editing one system rule keeps the events of all others open,
    system and docker alike. */
module AlertStories {
  import opened Options
  import opened Alerts
  import opened AlertRuns

  const BUSY := Rule(7, System, "cpu_percent", Gt, 50.0, None, 300, true, None)
  const SWAMPED := Rule(7, Docker, "cpu_percent", Gt, 50.0, None, 300, true, None)

  const HIGH := Sample(1, 7, None, 0, map["cpu_percent" := 90.0])
  const LOW := Sample(2, 7, None, 1, map["cpu_percent" := 10.0])
  const WEB_HIGH := Sample(1, 7, Some("web"), 0, map["cpu_percent" := 90.0])
  const WEB_LOW := Sample(2, 7, Some("web"), 1, map["cpu_percent" := 10.0])

  function Fired(rule: Rule): Rule { rule.(last := Some(0)) }

  /** The rule now tests the time of a row. */
  const EDITED := Fired(BUSY).(field := "collected_at")

  const RULES := map[0 := BUSY, 1 := BUSY, 2 := SWAMPED]
  const FIRED_RULES := map[0 := Fired(BUSY), 1 := Fired(BUSY), 2 := Fired(SWAMPED)]
  const EDITED_RULES := FIRED_RULES[0 := EDITED]

  const SYSTEM_EVENTS := map[0 := EventOf(0, BUSY, HIGH, 0), 1 := EventOf(1, BUSY, HIGH, 0)]
  const EVENTS := SYSTEM_EVENTS[2 := EventOf(2, SWAMPED, WEB_HIGH, 0)]
  const SYSTEM_FIRINGS := [Firing(0, 0, 300), Firing(1, 0, 300)]
  const FIRINGS := SYSTEM_FIRINGS + [Firing(2, 0, 300)]

  /** Two system rules and a docker rule fire, the first is edited, and rows
      arrive that no longer breach the other two. */
  const STEPS: seq<Step> :=
    [CreateRule(BUSY), CreateRule(BUSY), CreateRule(SWAMPED), Ingest(HIGH), Ingest(WEB_HIGH),
     Evaluation(HIGH, [0, 1]), Evaluation(WEB_HIGH, [2]), EditRule(0, EDITED), Tick(1), Ingest(LOW), Ingest(WEB_LOW)]

  function DbAt(i: nat): Db {
    if i == 0 then Db(0, map[], 0, [], map[], 0, [])
    else if i == 1 then Db(0, map[0 := BUSY], 1, [], map[], 0, [])
    else if i == 2 then Db(0, map[0 := BUSY, 1 := BUSY], 2, [], map[], 0, [])
    else if i == 3 then Db(0, RULES, 3, [], map[], 0, [])
    else if i == 4 then Db(0, RULES, 3, [HIGH], map[], 0, [])
    else if i == 5 then Db(0, RULES, 3, [HIGH, WEB_HIGH], map[], 0, [])
    else if i == 6 then
      Db(0, FIRED_RULES[2 := SWAMPED], 3, [HIGH, WEB_HIGH], SYSTEM_EVENTS, 2, SYSTEM_FIRINGS)
    else if i == 7 then Db(0, FIRED_RULES, 3, [HIGH, WEB_HIGH], EVENTS, 3, FIRINGS)
    else if i == 8 then Db(0, EDITED_RULES, 3, [HIGH, WEB_HIGH], EVENTS, 3, FIRINGS)
    else if i == 9 then Db(1, EDITED_RULES, 3, [HIGH, WEB_HIGH], EVENTS, 3, FIRINGS)
    else if i == 10 then Db(1, EDITED_RULES, 3, [HIGH, WEB_HIGH, LOW], EVENTS, 3, FIRINGS)
    else Db(1, EDITED_RULES, 3, [HIGH, WEB_HIGH, LOW, WEB_LOW], EVENTS, 3, FIRINGS)
  }

  /** Between the two firings of the first evaluation. */
  const HALF_WAY := Db(
    0, RULES[0 := Fired(BUSY)], 3, [HIGH, WEB_HIGH], map[0 := EventOf(0, BUSY, HIGH, 0)], 1, [Firing(0, 0, 300)])

  lemma FirstRuleFires()
    ensures FireOne(DbAt(5), HIGH, 0) == HALF_WAY
  {
  }

  lemma SecondRuleFires()
    ensures FireOne(HALF_WAY, HIGH, 1) == DbAt(6)
  {
    assert HALF_WAY.rules[1 := Fired(BUSY)] == FIRED_RULES[2 := SWAMPED];
    assert HALF_WAY.log + [Firing(1, 0, 300)] == SYSTEM_FIRINGS;
  }

  lemma SystemRulesFire()
    ensures Evaluate(DbAt(5), HIGH, [0, 1]) == DbAt(6)
  {
    FirstRuleFires();
    SecondRuleFires();
    assert [0, 1][..1] == [0] && [0][..0] == [];
    assert Evaluate(DbAt(5), HIGH, [0]) == FireOne(DbAt(5), HIGH, 0);
  }

  lemma DockerRuleFires()
    ensures Evaluate(DbAt(6), WEB_HIGH, [2]) == DbAt(7)
  {
    var db := DbAt(6);
    assert [2][..0] == [];
    assert Evaluate(db, WEB_HIGH, [2]) == FireOne(db, WEB_HIGH, 2);
  }

  predicate StepsTo(i: nat)
    requires i < 11
  {
    Enabled(DbAt(i), STEPS[i]) && DbAt(i + 1) == Apply(DbAt(i), STEPS[i])
  }

  lemma RulesCreated()
    ensures StepsTo(0) && StepsTo(1) && StepsTo(2)
  {
  }

  lemma RowsStored()
    ensures StepsTo(3) && StepsTo(4)
  {
    assert [] + [HIGH] == [HIGH] && [HIGH] + [WEB_HIGH] == [HIGH, WEB_HIGH];
  }

  lemma RuleEdited()
    ensures StepsTo(7) && StepsTo(8)
  {
  }

  lemma RowsFollow()
    ensures StepsTo(9) && StepsTo(10)
  {
    assert [HIGH, WEB_HIGH] + [LOW] == [HIGH, WEB_HIGH, LOW];
    assert [HIGH, WEB_HIGH, LOW] + [WEB_LOW] == [HIGH, WEB_HIGH, LOW, WEB_LOW];
  }

  lemma RulesFire()
    ensures StepsTo(5) && StepsTo(6)
  {
    SystemRulesFire();
    DockerRuleFires();
  }

  lemma StoryStep(i: nat)
    requires i < 11
    ensures StepsTo(i)
  {
    RulesCreated();
    RowsStored();
    RulesFire();
    RuleEdited();
    RowsFollow();
    assert i in {0, 1, 2, 3, 4, 5, 6, 7, 8, 9, 10};
  }

  lemma LatestSnoc(rows: seq<Sample>, m: Sample, server: int, container: Option<string>)
    ensures var rest := Latest(rows, server, container);
            Latest(rows + [m], server, container) ==
            if m.server == server && m.container == container && (rest.None? || rest.value.at < m.at) then Some(m)
            else rest
  {
    assert (rows + [m])[..|rows|] == rows;
  }

  lemma LatestRows(container: Option<string>)
    ensures Latest([HIGH, WEB_HIGH, LOW, WEB_LOW], 7, container) ==
            if container == None then Some(LOW) else if container == Some("web") then Some(WEB_LOW) else None
  {
    LatestSnoc([], HIGH, 7, container);
    LatestSnoc([HIGH], WEB_HIGH, 7, container);
    LatestSnoc([HIGH, WEB_HIGH], LOW, 7, container);
    LatestSnoc([HIGH, WEB_HIGH, LOW], WEB_LOW, 7, container);
    assert [] + [HIGH] == [HIGH] && [HIGH] + [WEB_HIGH] == [HIGH, WEB_HIGH];
    assert [HIGH, WEB_HIGH] + [LOW] == [HIGH, WEB_HIGH, LOW];
    assert [HIGH, WEB_HIGH, LOW] + [WEB_LOW] == [HIGH, WEB_HIGH, LOW, WEB_LOW];
  }

  /** The other two events would close by themselves and no docker comparison
      raises, and yet the task closes nothing. */
  lemma EditBlocksTask() returns (run: seq<Db>)
    ensures IsRun(run, STEPS)
    ensures Closes(run[11], System, 1) && Closes(run[11], Docker, 2)
    ensures RaisesOn(run[11], System, 0) && !Raises(run[11], Docker) && ResolveTask(run[11]) == run[11]
  {
    run := seq(12, i requires 0 <= i => DbAt(i));
    forall i | 0 <= i < 11 ensures Enabled(run[i], STEPS[i]) && run[i + 1] == Apply(run[i], STEPS[i]) {
      StoryStep(i);
    }
    LatestRows(None);
    LatestRows(Some("web"));
    assert RaisesOn(run[11], System, 0);
  }
}
