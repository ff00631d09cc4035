/** The bot's `/createrule` dialog. The draft is a JSON dictionary kept in Redis
    whose shape depends on the step; it is shown to be a faithful record of the
    answers accepted so far, and a created rule to be what those answers say. */
module BotDialog {
  import opened Options

  type Time = int
  const DRAFT_TTL: Time := 600

  // ----- text, numbers, servers

  /** How text is read: strip and lower-case it, parse an id, parse a number. */
  datatype Parsers = Parsers(
    strip: string -> string,
    lower: string -> string,
    digits: string -> Option<int>,
    number: string -> Option<real>)

  datatype Server = Server(owner: int, name: string)

  const METRIC_TYPES := ["system", "docker"]
  const SYSTEM_FIELDS := ["cpu_percent", "memory_percent", "disk_percent"]
  const DOCKER_FIELDS := ["cpu_percent", "memory_usage_mb", "memory_limit_mb"]
  const OPERATORS := ["gt", "gte", "lt", "lte", "eq", "neq"]
  const PRESETS: map<string, seq<string>> :=
    map["telegram" := ["telegram"], "email" := ["email"], "both" := ["telegram", "email"], "none" := []]
  const YES := ["y", "yes", "да"]
  const NO := ["n", "no", "нет"]

  function FieldsOf(metricType: string): seq<string> {
    if metricType == "system" then SYSTEM_FIELDS else DOCKER_FIELDS
  }

  datatype NewRule = NewRule(
    server: int,
    owner: int,
    name: string,
    metricType: string,
    field: string,
    op: string,
    threshold: real,
    container: Option<string>,
    channels: seq<string>)

  // ----- the dialog by its answers

  datatype Slot = 
    | AskServer | AskType | AskName | AskMetric | AskContainer
    | AskOperator | AskThreshold | AskChannels | AskConfirm | Finished

  predicate IsDocker(p: Parsers, answers: seq<string>) {
    |answers| > 1 && p.lower(p.strip(answers[1])) == "docker"
  }

  /** The question that follows the given answers. Docker rules have one more. */
  function SlotAfter(p: Parsers, answers: seq<string>): Slot {
    var n := if |answers| > 3 && !IsDocker(p, answers) then |answers| + 1 else |answers|;
    if n == 0 then AskServer
    else if n == 1 then AskType
    else if n == 2 then AskName
    else if n == 3 then AskMetric
    else if n == 4 then AskContainer
    else if n == 5 then AskOperator
    else if n == 6 then AskThreshold
    else if n == 7 then AskChannels
    else if n == 8 then AskConfirm
    else Finished
  }

  /** A text that answers the question after `answers`. That the server belongs
      to the user is checked apart, against the table of that moment. */
  predicate Fits(p: Parsers, answers: seq<string>, text: string) {
    var t := p.strip(text);
    match SlotAfter(p, answers)
    case AskServer => p.digits(t).Some?
    case AskType => p.lower(t) in METRIC_TYPES
    case AskName => 0 < |t| <= 255
    case AskMetric => p.lower(t) in FieldsOf(p.lower(p.strip(answers[1])))
    case AskContainer => |t| > 0
    case AskOperator => p.lower(t) in OPERATORS
    case AskThreshold => p.number(t).Some?
    case AskChannels => p.lower(t) in PRESETS
    case AskConfirm => p.lower(t) in YES
    case Finished => false
  }

  predicate Owns(p: Parsers, servers: map<int, Server>, user: int, text: string) {
    var id := p.digits(p.strip(text));
    id.Some? && id.value in servers && servers[id.value].owner == user
  }

  predicate Accepts(p: Parsers, servers: map<int, Server>, user: int, answers: seq<string>, text: string) {
    Fits(p, answers, text) && (SlotAfter(p, answers).AskServer? ==> Owns(p, servers, user, text))
  }

  /** Every answer fitted its question. */
  predicate Accepted(p: Parsers, answers: seq<string>) {
    answers == [] ||
    (var n := |answers| - 1; Accepted(p, answers[..n]) && Fits(p, answers[..n], answers[n]))
  }

  /** A dialog that has been confirmed. */
  predicate Complete(p: Parsers, answers: seq<string>) {
    Accepted(p, answers) && SlotAfter(p, answers).Finished?
  }

  lemma {:induction false} AcceptedLength(p: Parsers, answers: seq<string>)
    requires Accepted(p, answers)
    ensures |answers| <= if IsDocker(p, answers) then 9 else 8
  {
    if answers != [] {
      AcceptedLength(p, answers[..|answers| - 1]);
    }
  }

  lemma {:induction false} FitsAt(p: Parsers, answers: seq<string>, i: nat)
    requires Accepted(p, answers) && i < |answers|
    ensures Fits(p, answers[..i], answers[i])
  {
    var n := |answers| - 1;
    if i < n {
      FitsAt(p, answers[..n], i);
      assert answers[..n][..i] == answers[..i];
    }
  }

  /** The question that was asked before the i-th answer. */
  function SlotOf(p: Parsers, answers: seq<string>, i: nat): Slot
    requires i < |answers|
  {
    SlotAfter(p, answers[..i])
  }

  lemma {:induction false} SlotsInOrder(p: Parsers, answers: seq<string>, i: nat)
    requires Accepted(p, answers) && i < |answers|
    ensures IsDocker(p, answers) && i > 1 ==> IsDocker(p, answers[..i])
    ensures !IsDocker(p, answers) ==> !IsDocker(p, answers[..i])
    ensures i == 0 ==> SlotOf(p, answers, i).AskServer?
    ensures i == 1 ==> SlotOf(p, answers, i).AskType?
    ensures i == 2 ==> SlotOf(p, answers, i).AskName?
    ensures i == 3 ==> SlotOf(p, answers, i).AskMetric?
    ensures i == 4 && IsDocker(p, answers) ==> SlotOf(p, answers, i).AskContainer?
    ensures var j := if IsDocker(p, answers) then i - 1 else i;
            && (i > 3 && j == 4 ==> SlotOf(p, answers, i).AskOperator?)
            && (j == 5 ==> SlotOf(p, answers, i).AskThreshold?)
            && (j == 6 ==> SlotOf(p, answers, i).AskChannels?)
            && (j == 7 ==> SlotOf(p, answers, i).AskConfirm?)
  {
  }

  /** A dialog is confirmed after exactly 8 answers for a system rule and
      exactly 9 for a docker rule. */
  lemma {:induction false} CompleteLength(p: Parsers, answers: seq<string>)
    requires Complete(p, answers)
    ensures |answers| == if IsDocker(p, answers) then 9 else 8
  {
    AcceptedLength(p, answers);
  }

  /** All questions but the confirmation are answered. */
  predicate Described(p: Parsers, answers: seq<string>) {
    Accepted(p, answers) && SlotAfter(p, answers) in {AskConfirm, Finished}
  }

  function Clip(t: string): string { if |t| > 255 then t[..255] else t }

  function ContainerOf(t: string): Option<string> { if t == "*" then None else Some(Clip(t)) }

  function Word(p: Parsers, text: string): string { p.lower(p.strip(text)) }

  /** The rule that the answers stand for. */
  function RuleOf(p: Parsers, owner: int, answers: seq<string>): NewRule
    requires Described(p, answers)
  {
    var docker := IsDocker(p, answers);
    var k := if docker then 5 else 4;
    FitsAt(p, answers, 0);
    SlotsInOrder(p, answers, k + 1);
    FitsAt(p, answers, k + 1);
    SlotsInOrder(p, answers, k + 2);
    FitsAt(p, answers, k + 2);
    NewRule(p.digits(p.strip(answers[0])).value, owner, p.strip(answers[2]), Word(p, answers[1]), Word(p, answers[3]),
            Word(p, answers[k]), p.number(p.strip(answers[k + 1])).value,
            if docker then ContainerOf(p.strip(answers[4])) else None,
            PRESETS[Word(p, answers[k + 2])])
  }

  predicate Legal(r: NewRule) {
    && (|| (r.metricType == "system" && r.field in ["cpu_percent", "memory_percent", "disk_percent"])
        || (r.metricType == "docker" && r.field in ["cpu_percent", "memory_usage_mb", "memory_limit_mb"]))
    && r.op in ["gt", "gte", "lt", "lte", "eq", "neq"]
    && 0 < |r.name| <= 255
    && (r.metricType == "system" ==> r.container.None?)
    && (r.container.Some? ==> 0 < |r.container.value| <= 255)
    && r.channels in [["telegram"], ["email"], ["telegram", "email"], []]
  }

  /** Created rules have a metric field that exists for their type, a known
      operator, a name, and a container only if they are docker rules. */
  lemma {:induction false} CreatedRulesAreLegal(p: Parsers, owner: int, answers: seq<string>)
    requires Described(p, answers)
    ensures Legal(RuleOf(p, owner, answers))
  {
    var k := if IsDocker(p, answers) then 5 else 4;
    forall i | 0 <= i <= k + 2 ensures Fits(p, answers[..i], answers[i]) {
      FitsAt(p, answers, i);
    }
    SlotsInOrder(p, answers, 1);
    SlotsInOrder(p, answers, 2);
    SlotsInOrder(p, answers, 3);
    assert answers[..3][1] == answers[1];
    SlotsInOrder(p, answers, 4);
    SlotsInOrder(p, answers, k);
    SlotsInOrder(p, answers, k + 2);
  }

  // ----- the dictionary

  datatype Value = IntV(n: int) | StrV(s: string) | NullV | RealV(r: real) | ListV(items: seq<string>)

  datatype Draft = Draft(step: string, data: map<string, Value>)

  function StepName(slot: Slot): string {
    match slot
    case AskServer => "server"
    case AskType => "metric_type"
    case AskName => "name"
    case AskMetric => "metric"
    case AskContainer => "container"
    case AskOperator => "operator"
    case AskThreshold => "threshold"
    case AskChannels => "channels"
    case AskConfirm => "confirm"
    case Finished => "finished"
  }

  /** The dictionary key that an answer fills; a confirmation fills none. */
  function FieldKey(slot: Slot): string {
    match slot
    case AskServer => "server_id"
    case AskType => "metric_type"
    case AskName => "name"
    case AskMetric => "metric_field"
    case AskContainer => "container_name"
    case AskOperator => "operator"
    case AskThreshold => "threshold_value"
    case AskChannels => "notification_channels"
    case AskConfirm => "confirmed"
    case Finished => "confirmed"
  }

  function FieldValue(p: Parsers, slot: Slot, text: string): Value {
    var t := p.strip(text);
    match slot
    case AskServer => if p.digits(t).Some? then IntV(p.digits(t).value) else NullV
    case AskName => StrV(t)
    case AskContainer => if t == "*" then NullV else StrV(Clip(t))
    case AskThreshold => if p.number(t).Some? then RealV(p.number(t).value) else NullV
    case AskChannels => if p.lower(t) in PRESETS then ListV(PRESETS[p.lower(t)]) else NullV
    case _ => StrV(p.lower(t))
  }

  /** The dictionary that the answers so far have filled, apart from the server
      name, which is read from the table. */
  function DataOf(p: Parsers, answers: seq<string>): map<string, Value> {
    if answers == [] then map[]
    else
      var n := |answers| - 1;
      var slot := SlotAfter(p, answers[..n]);
      DataOf(p, answers[..n])[FieldKey(slot) := FieldValue(p, slot, answers[n])]
  }

  ghost predicate Represents(p: Parsers, draft: Draft, answers: seq<string>) {
    && Accepted(p, answers) && !SlotAfter(p, answers).Finished?
    && draft.step == StepName(SlotAfter(p, answers))
    && draft.data - {"server_name"} == DataOf(p, answers)
    && (answers != [] ==> "server_name" in draft.data && draft.data["server_name"].StrV?)
  }

  lemma {:induction false} SlotKeysDiffer(p: Parsers, answers: seq<string>, i: nat, j: nat)
    requires Accepted(p, answers) && i < j < |answers|
    ensures FieldKey(SlotOf(p, answers, i)) != FieldKey(SlotOf(p, answers, j))
  {
    AcceptedLength(p, answers);
    SlotsInOrder(p, answers, i);
    SlotsInOrder(p, answers, j);
  }

  lemma {:induction false} DataUnfold(p: Parsers, answers: seq<string>)
    requires answers != []
    ensures var n := |answers| - 1;
            var slot := SlotOf(p, answers, n);
            DataOf(p, answers) == DataOf(p, answers[..n])[FieldKey(slot) := FieldValue(p, slot, answers[n])]
  {
  }

  predicate HasField(p: Parsers, data: map<string, Value>, slot: Slot, text: string) {
    FieldKey(slot) in data && data[FieldKey(slot)] == FieldValue(p, slot, text)
  }

  ghost predicate DistinctKeys(p: Parsers, answers: seq<string>) {
    forall i: nat, j: nat | i < j < |answers| :: FieldKey(SlotOf(p, answers, i)) != FieldKey(SlotOf(p, answers, j))
  }

  lemma DistinctFront(p: Parsers, answers: seq<string>)
    requires answers != [] && DistinctKeys(p, answers)
    ensures DistinctKeys(p, answers[..|answers| - 1])
  {
    var front := answers[..|answers| - 1];
    forall i: nat, j: nat | i < j < |front|
      ensures FieldKey(SlotOf(p, front, i)) != FieldKey(SlotOf(p, front, j))
    {
      assert front[..i] == answers[..i] && front[..j] == answers[..j];
      assert FieldKey(SlotOf(p, answers, i)) != FieldKey(SlotOf(p, answers, j));
    }
  }

  lemma {:induction false} DistinctDataAt(p: Parsers, answers: seq<string>, i: nat)
    requires DistinctKeys(p, answers) && i < |answers|
    ensures HasField(p, DataOf(p, answers), SlotOf(p, answers, i), answers[i])
  {
    var n := |answers| - 1;
    DataUnfold(p, answers);
    if i < n {
      var front := answers[..n];
      assert front[..i] == answers[..i] && front[i] == answers[i];
      DistinctFront(p, answers);
      DistinctDataAt(p, front, i);
      assert FieldKey(SlotOf(p, answers, i)) != FieldKey(SlotOf(p, answers, n));
    }
  }

  /** Every answer given so far can be read back from the dictionary. */
  lemma {:induction false} DataAt(p: Parsers, answers: seq<string>, i: nat)
    requires Accepted(p, answers) && i < |answers|
    ensures HasField(p, DataOf(p, answers), SlotOf(p, answers, i), answers[i])
  {
    forall i: nat, j: nat | i < j < |answers|
      ensures FieldKey(SlotOf(p, answers, i)) != FieldKey(SlotOf(p, answers, j))
    {
      SlotKeysDiffer(p, answers, i, j);
    }
    DistinctDataAt(p, answers, i);
  }

  // ----- one message of the dialog

  datatype Reaction = Again | Next | Done | Abandon

  /** What a text does to a dialog, told by the answers alone. */
  function React(p: Parsers, servers: map<int, Server>, user: int, answers: seq<string>, text: string): Reaction {
    if SlotAfter(p, answers).AskConfirm? && Word(p, text) in NO then Abandon
    else if !Accepts(p, servers, user, answers, text) then Again
    else if SlotAfter(p, answers).AskConfirm? then Done
    else Next
  }

  /** What the bot shows with its next question: the metric fields to choose
      from, or the whole rule to be confirmed. */
  datatype Prompt = Plain | Offer(fields: seq<string>) | Summary(rule: NewRule)

  datatype Outcome = Retry | Advance(draft: Draft, prompt: Prompt) | Create(rule: NewRule) | Drop

  /** What is shown after the given answers says what they were. */
  ghost predicate Shows(p: Parsers, user: int, answers: seq<string>, prompt: Prompt) {
    match SlotAfter(p, answers)
    case AskMetric => prompt == Offer(FieldsOf(Word(p, answers[1])))
    case AskConfirm => Accepted(p, answers) && prompt == Summary(RuleOf(p, user, answers))
    case _ => prompt == Plain
  }

  lemma {:induction false} ConfirmingAddsNothing(p: Parsers, owner: int, answers: seq<string>, text: string)
    requires Accepted(p, answers) && SlotAfter(p, answers).AskConfirm? && Fits(p, answers, text)
    ensures Complete(p, answers + [text]) && RuleOf(p, owner, answers + [text]) == RuleOf(p, owner, answers)
  {
    AcceptedGrows(p, answers, text);
    SlotGrows(p, answers, text);
  }

  lemma {:induction false} AcceptedGrows(p: Parsers, answers: seq<string>, text: string)
    requires Accepted(p, answers) && Fits(p, answers, text)
    ensures Accepted(p, answers + [text])
    ensures var slot := SlotAfter(p, answers);
            DataOf(p, answers + [text]) == DataOf(p, answers)[FieldKey(slot) := FieldValue(p, slot, text)]
  {
    var more := answers + [text];
    assert more[..|answers|] == answers && more[|answers|] == text;
  }

  /** Which question follows an accepted answer. */
  lemma {:induction false} SlotGrows(p: Parsers, answers: seq<string>, text: string)
    requires Accepted(p, answers) && Fits(p, answers, text)
    ensures var a, b := SlotAfter(p, answers), SlotAfter(p, answers + [text]);
            match a
            case AskServer => b.AskType?
            case AskType => b.AskName?
            case AskName => b.AskMetric?
            case AskMetric => if IsDocker(p, answers) then b.AskContainer? else b.AskOperator?
            case AskContainer => b.AskOperator?
            case AskOperator => b.AskThreshold?
            case AskThreshold => b.AskChannels?
            case AskChannels => b.AskConfirm?
            case AskConfirm => b.Finished?
            case Finished => true
  {
    var more := answers + [text];
    assert |answers| > 1 ==> more[1] == answers[1];
  }

  lemma {:induction false} NextDraft(p: Parsers, draft: Draft, answers: seq<string>, text: string, draft': Draft)
    requires Represents(p, draft, answers) && Fits(p, answers, text)
    requires answers != [] && !SlotAfter(p, answers).AskConfirm?
    requires draft'.step == StepName(SlotAfter(p, answers + [text]))
    requires var slot := SlotAfter(p, answers); draft'.data == draft.data[FieldKey(slot) := FieldValue(p, slot, text)]
    ensures Represents(p, draft', answers + [text])
  {
    AcceptedGrows(p, answers, text);
    SlotGrows(p, answers, text);
    var slot := SlotAfter(p, answers);
    assert draft'.data - {"server_name"} ==
        (draft.data - {"server_name"})[FieldKey(slot) := FieldValue(p, slot, text)];
  }

  /** The first answer also stores the name of the server. */
  lemma {:induction false} FirstDraft(p: Parsers, draft: Draft, text: string, id: int, name: string)
    requires Represents(p, draft, []) && p.digits(p.strip(text)) == Some(id)
    ensures var data := draft.data["server_id" := IntV(id)]["server_name" := StrV(name)];
            Represents(p, Draft("metric_type", data), [text])
  {
    var draft' := Draft("metric_type", draft.data["server_id" := IntV(id)]["server_name" := StrV(name)]);
    AcceptedGrows(p, [], text);
    assert [] + [text] == [text];
    assert draft'.data - {"server_name"} == (draft.data - {"server_name"})["server_id" := IntV(id)];
  }

  /** Reading back the i-th answer from a draft. */
  lemma {:induction false} DraftAt(p: Parsers, draft: Draft, answers: seq<string>, i: nat)
    requires Represents(p, draft, answers) && i < |answers|
    ensures var slot := SlotOf(p, answers, i);
            && FieldKey(slot) in draft.data
            && draft.data[FieldKey(slot)] == FieldValue(p, slot, answers[i])
            && Fits(p, answers[..i], answers[i])
  {
    DataAt(p, answers, i);
    FitsAt(p, answers, i);
    var slot := SlotOf(p, answers, i);
    assert FieldKey(slot) in draft.data - {"server_name"};
  }

  // ----- every legal rule can be told

  /** The parsers read each of the texts as it stands. */
  predicate ReadAsIs(p: Parsers, texts: seq<string>) {
    forall t | t in texts :: p.strip(t) == t && p.lower(t) == t
  }

  /** What the choice of channels is called. */
  predicate Called(channels: seq<string>, preset: string) {
    || (channels == ["telegram"] && preset == "telegram") || (channels == ["email"] && preset == "email")
    || (channels == ["telegram", "email"] && preset == "both") || (channels == [] && preset == "none")
  }

  /** The texts that describe a rule, in the order of the questions. */
  function Telling(r: NewRule, id: string, threshold: string, preset: string): seq<string> {
    if r.metricType == "docker" then
      [id, r.metricType, r.name, r.field, ContainerText(r), r.op, threshold, preset, "yes"]
    else
      [id, r.metricType, r.name, r.field, r.op, threshold, preset, "yes"]
  }

  function ContainerText(r: NewRule): string {
    if r.container == None then "*" else r.container.value
  }

  /** The rule, its texts and the parsers fit together. */
  predicate Tellable(p: Parsers, r: NewRule, id: string, threshold: string, preset: string) {
    && Legal(r) && Called(r.channels, preset) && r.container != Some("*")
    && p.digits(id) == Some(r.server) && p.number(threshold) == Some(r.threshold)
    && ReadAsIs(p, Telling(r, id, threshold, preset))
  }

  lemma {:induction false} SlotByLength(p: Parsers, front: seq<string>, docker: bool)
    requires |front| > 1 ==> (IsDocker(p, front) <==> docker)
    requires |front| <= 8
    ensures var slots := [AskServer, AskType, AskName, AskMetric, AskContainer, AskOperator, AskThreshold,
                          AskChannels, AskConfirm, Finished];
            SlotAfter(p, front) == slots[if |front| > 3 && !docker then |front| + 1 else |front|]
  {
  }

  lemma PresetsCalled(channels: seq<string>, preset: string)
    requires Called(channels, preset)
    ensures preset in PRESETS && PRESETS[preset] == channels
  {
  }

  lemma {:induction false} HeadFits(p: Parsers, r: NewRule, id: string, threshold: string, preset: string, i: nat)
    requires Tellable(p, r, id, threshold, preset) && i < 4
    ensures var all := Telling(r, id, threshold, preset); Fits(p, all[..i], all[i])
  {
    var all := Telling(r, id, threshold, preset);
    assert all[i] in all && all[1] in all;
    if i > 1 {
      assert all[..i][1] == r.metricType;
    }
    SlotByLength(p, all[..i], r.metricType == "docker");
  }

  lemma {:induction false} TailFits(p: Parsers, r: NewRule, id: string, threshold: string, preset: string, i: nat)
    requires Tellable(p, r, id, threshold, preset) && 4 <= i < |Telling(r, id, threshold, preset)|
    ensures var all := Telling(r, id, threshold, preset); Fits(p, all[..i], all[i])
  {
    var all := Telling(r, id, threshold, preset);
    var docker := r.metricType == "docker";
    assert all[i] in all && all[1] in all && all[..i][1] == r.metricType;
    SlotByLength(p, all[..i], docker);
    PresetsCalled(r.channels, preset);
    var k := if docker then i - 1 else i;
    if i == 4 && docker {
      assert all[i] == ContainerText(r);
    } else if k == 4 {
      assert all[i] == r.op;
    } else if k == 5 {
      assert all[i] == threshold;
    } else if k == 6 {
      assert all[i] == preset;
    } else {
      assert all[i] == "yes";
    }
  }

  lemma {:induction false} TellingCompletes(p: Parsers, r: NewRule, id: string, threshold: string, preset: string)
    requires Tellable(p, r, id, threshold, preset)
    ensures Complete(p, Telling(r, id, threshold, preset))
    ensures IsDocker(p, Telling(r, id, threshold, preset)) <==> r.metricType == "docker"
  {
    var all := Telling(r, id, threshold, preset);
    forall i: nat | i < |all| ensures Fits(p, all[..i], all[i]) {
      if i < 4 {
        HeadFits(p, r, id, threshold, preset, i);
      } else {
        TailFits(p, r, id, threshold, preset, i);
      }
    }
    AcceptedByParts(p, all);
    assert all[1] in all;
  }

  /** Telling a legal rule, text by text, completes the dialog and creates exactly
      that rule: every metric type, field, operator and set of channels can be
      chosen, with any name and container of at most 255 characters. */
  lemma {:induction false} RuleCanBeTold(p: Parsers, r: NewRule, id: string, threshold: string, preset: string)
    requires Tellable(p, r, id, threshold, preset)
    ensures Complete(p, Telling(r, id, threshold, preset))
    ensures RuleOf(p, r.owner, Telling(r, id, threshold, preset)) == r
  {
    var all := Telling(r, id, threshold, preset);
    TellingCompletes(p, r, id, threshold, preset);
    PresetsCalled(r.channels, preset);
    forall t | t in all ensures p.strip(t) == t && Word(p, t) == t {
    }
    var k := if r.metricType == "docker" then 5 else 4;
    assert all[0] in all && all[1] in all && all[2] in all && all[3] in all && all[4] in all;
    assert all[k] in all && all[k + 1] in all && all[k + 2] in all;
  }

  /** At the confirmation, six words decide and any other asks again. */
  lemma {:induction false} ConfirmationWords(
    p: Parsers, servers: map<int, Server>, user: int, answers: seq<string>, text: string)
    requires SlotAfter(p, answers).AskConfirm?
    ensures React(p, servers, user, answers, text) ==
            if p.lower(p.strip(text)) in ["n", "no", "нет"] then Abandon
            else if p.lower(p.strip(text)) in ["y", "yes", "да"] then Done
            else Again
  {
  }

  lemma {:induction false} AcceptedByParts(p: Parsers, all: seq<string>)
    requires forall i: nat | i < |all| :: Fits(p, all[..i], all[i])
    ensures Accepted(p, all)
  {
    if all != [] {
      var n := |all| - 1;
      forall i: nat | i < n ensures Fits(p, all[..n][..i], all[..n][i]) {
        assert all[..n][..i] == all[..i];
      }
      AcceptedByParts(p, all[..n]);
      assert Fits(p, all[..n], all[n]);
    }
  }
}
