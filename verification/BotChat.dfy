/** The message handler around the dialog: drafts with expiry, interrupting
    commands, and the rules it creates. */
module BotChat {
  import opened Options
  import opened BotDialog

  /** The outcome is what the answers so far and the new text call for: the
      dictionary stays a record of the answers, what is shown is true to them,
      and a created rule is the rule they stand for. */
  ghost predicate Follows(p: Parsers, servers: map<int, Server>, user: int, answers: seq<string>, message: string,
                          out: Outcome) {
    match React(p, servers, user, answers, message)
    case Again => out == Retry
    case Next => out.Advance? && Represents(p, out.draft, answers + [message]) &&
                 Shows(p, user, answers + [message], out.prompt)
    case Done => Complete(p, answers + [message]) && out == Create(RuleOf(p, user, answers + [message]))
    case Abandon => out == Drop
  }

  /** `_process_rule_draft`. No step reads a key that is missing or of the wrong
      type. */
  method ProcessRuleDraft(p: Parsers, servers: map<int, Server>, user: int, message: string, draft: Draft,
                          ghost answers: seq<string>) returns (out: Outcome)
    requires Represents(p, draft, answers)
    ensures Follows(p, servers, user, answers, message, out)
  {
    if draft.step == "server" {
      out := ServerStep(p, servers, user, message, draft, answers);
    } else if draft.step == "metric_type" {
      out := TypeStep(p, servers, user, message, draft, answers);
    } else if draft.step == "name" {
      out := NameStep(p, servers, user, message, draft, answers);
    } else if draft.step == "metric" {
      out := MetricStep(p, servers, user, message, draft, answers);
    } else if draft.step == "confirm" {
      out := ConfirmStep(p, servers, user, message, draft, answers);
    } else {
      out := LateStep(p, servers, user, message, draft, answers);
    }
  }

  /** A server is taken if it belongs to the user. */
  method ServerStep(p: Parsers, servers: map<int, Server>, user: int, message: string, draft: Draft,
                    ghost answers: seq<string>) returns (out: Outcome)
    requires Represents(p, draft, answers) && draft.step == "server"
    ensures Follows(p, servers, user, answers, message, out)
  {
    var text := p.strip(message);
    if p.digits(text).None? {
      return Retry;
    }
    var serverId := p.digits(text).value;
    if serverId !in servers || servers[serverId].owner != user {
      return Retry;
    }
    var data := draft.data["server_id" := IntV(serverId)];
    data := data["server_name" := StrV(servers[serverId].name)];
    out := Advance(Draft("metric_type", data), Plain);
    assert answers == [] && answers + [message] == [message];
    FirstDraft(p, draft, message, serverId, servers[serverId].name);
  }

  /** System or docker. */
  method TypeStep(p: Parsers, servers: map<int, Server>, user: int, message: string, draft: Draft,
                  ghost answers: seq<string>) returns (out: Outcome)
    requires Represents(p, draft, answers) && draft.step == "metric_type"
    ensures Follows(p, servers, user, answers, message, out)
  {
    var mt := p.lower(p.strip(message));
    if mt !in METRIC_TYPES {
      return Retry;
    }
    out := Advance(Draft("name", draft.data["metric_type" := StrV(mt)]), Plain);
    SlotGrows(p, answers, message);
    NextDraft(p, draft, answers, message, out.draft);
  }

  /** A name; the metrics of the chosen type are offered next. */
  method NameStep(p: Parsers, servers: map<int, Server>, user: int, message: string, draft: Draft,
                  ghost answers: seq<string>) returns (out: Outcome)
    requires Represents(p, draft, answers) && draft.step == "name"
    ensures Follows(p, servers, user, answers, message, out)
  {
    var text := p.strip(message);
    if text == "" || |text| > 255 {
      return Retry;
    }
    var mt := MetricType(p, draft, answers);
    out := Advance(Draft("metric", draft.data["name" := StrV(text)]), Offer(FieldsOf(mt)));
    SlotGrows(p, answers, message);
    NextDraft(p, draft, answers, message, out.draft);
  }

  /** A metric of the chosen type; only docker rules go on to the container. */
  method MetricStep(p: Parsers, servers: map<int, Server>, user: int, message: string, draft: Draft,
                    ghost answers: seq<string>) returns (out: Outcome)
    requires Represents(p, draft, answers) && draft.step == "metric"
    ensures Follows(p, servers, user, answers, message, out)
  {
    var mt := MetricType(p, draft, answers);
    var metric := p.lower(p.strip(message));
    if metric !in FieldsOf(mt) {
      return Retry;
    }
    var data := draft.data["metric_field" := StrV(metric)];
    out := Advance(Draft(if mt == "docker" then "container" else "operator", data), Plain);
    SlotGrows(p, answers, message);
    NextDraft(p, draft, answers, message, out.draft);
  }

  /** The metric type, once it has been answered. */
  method MetricType(p: Parsers, draft: Draft, ghost answers: seq<string>) returns (mt: string)
    requires Represents(p, draft, answers) && |answers| > 1
    ensures mt == Word(p, answers[1])
  {
    DraftAt(p, draft, answers, 1);
    mt := draft.data["metric_type"].s;
  }

  /** The steps from the container to the channels; the last one shows the rule
      that a confirmation would create. */
  method LateStep(p: Parsers, servers: map<int, Server>, user: int, message: string, draft: Draft,
                  ghost answers: seq<string>) returns (out: Outcome)
    requires Represents(p, draft, answers)
    requires draft.step !in ["server", "metric_type", "name", "metric", "confirm"]
    ensures Follows(p, servers, user, answers, message, out)
  {
    var step, data := draft.step, draft.data;
    var text := p.strip(message);
    if step == "container" {
      if text == "" {
        return Retry;
      }
      var container := if text == "*" then NullV else StrV(Clip(text));
      out := Advance(Draft("operator", data["container_name" := container]), Plain);
    } else if step == "operator" {
      var op := p.lower(text);
      if op !in OPERATORS {
        return Retry;
      }
      out := Advance(Draft("threshold", data["operator" := StrV(op)]), Plain);
    } else if step == "threshold" {
      if p.number(text).None? {
        return Retry;
      }
      out := Advance(Draft("channels", data["threshold_value" := RealV(p.number(text).value)]), Plain);
    } else {
      var preset := p.lower(text);
      if preset !in PRESETS {
        return Retry;
      }
      var next := Draft("confirm", data["notification_channels" := ListV(PRESETS[preset])]);
      AcceptedGrows(p, answers, message);
      SlotGrows(p, answers, message);
      NextDraft(p, draft, answers, message, next);
      DraftHasAll(p, next, answers + [message], user);
      out := Advance(next, Summary(RuleFrom(next.data, user)));
      return;
    }
    SlotGrows(p, answers, message);
    NextDraft(p, draft, answers, message, out.draft);
  }

  /** The last step: create the rule from the dictionary, or not. */
  method ConfirmStep(p: Parsers, servers: map<int, Server>, user: int, message: string, draft: Draft,
                     ghost answers: seq<string>) returns (out: Outcome)
    requires Represents(p, draft, answers) && draft.step == "confirm"
    ensures Follows(p, servers, user, answers, message, out)
  {
    var text := p.lower(p.strip(message));
    if text in NO {
      return Drop;
    }
    if text !in YES {
      return Retry;
    }
    ConfirmingAddsNothing(p, user, answers, message);
    DraftHasAll(p, draft, answers, user);
    out := Create(RuleFrom(draft.data, user));
  }

  predicate HasAll(data: map<string, Value>) {
    && "server_id" in data && data["server_id"].IntV? && "name" in data && data["name"].StrV?
    && "server_name" in data && data["server_name"].StrV?
    && "metric_type" in data && data["metric_type"].StrV? && "metric_field" in data && data["metric_field"].StrV?
    && "operator" in data && data["operator"].StrV? && "threshold_value" in data && data["threshold_value"].RealV?
    && "notification_channels" in data && data["notification_channels"].ListV?
  }

  /** The rule built from the dictionary. */
  function RuleFrom(data: map<string, Value>, user: int): NewRule
    requires HasAll(data)
  {
    NewRule(data["server_id"].n, user, data["name"].s, data["metric_type"].s, data["metric_field"].s,
            data["operator"].s, data["threshold_value"].r, GetContainer(data), data["notification_channels"].items)
  }

  function GetContainer(data: map<string, Value>): Option<string> {
    if "container_name" in data && data["container_name"].StrV? then Some(data["container_name"].s) else None
  }

  /** Only answers put keys into the dictionary. */
  lemma {:induction false} DataKeys(p: Parsers, answers: seq<string>, key: string)
    requires Accepted(p, answers) && key in DataOf(p, answers)
    ensures exists i: nat :: i < |answers| && FieldKey(SlotOf(p, answers, i)) == key
  {
    var n := |answers| - 1;
    if key == FieldKey(SlotOf(p, answers, n)) {
    } else {
      DataKeys(p, answers[..n], key);
      var i: nat :| i < n && FieldKey(SlotOf(p, answers[..n], i)) == key;
      assert answers[..n][..i] == answers[..i];
      assert FieldKey(SlotOf(p, answers, i)) == key;
    }
  }

  lemma {:induction false} SystemHasNoContainer(p: Parsers, draft: Draft, answers: seq<string>)
    requires Represents(p, draft, answers) && !IsDocker(p, answers)
    ensures "container_name" !in draft.data
  {
    if "container_name" in draft.data {
      assert "container_name" in draft.data - {"server_name"};
      DataKeys(p, answers, "container_name");
      var i: nat :| i < |answers| && FieldKey(SlotOf(p, answers, i)) == "container_name";
      AcceptedLength(p, answers);
      SlotsInOrder(p, answers, i);
    }
  }

  /** The first four answers in the dictionary. */
  lemma {:induction false} DraftHasHead(p: Parsers, draft: Draft, answers: seq<string>)
    requires Represents(p, draft, answers) && |answers| > 3
    ensures var data := draft.data;
            && p.digits(p.strip(answers[0])).Some?
            && "server_id" in data && data["server_id"] == IntV(p.digits(p.strip(answers[0])).value)
            && "metric_type" in data && data["metric_type"] == StrV(Word(p, answers[1]))
            && "name" in data && data["name"] == StrV(p.strip(answers[2]))
            && "metric_field" in data && data["metric_field"] == StrV(Word(p, answers[3]))
  {
    DraftAt(p, draft, answers, 0);
    DraftAt(p, draft, answers, 1);
    DraftAt(p, draft, answers, 2);
    DraftAt(p, draft, answers, 3);
  }

  /** The answers from the operator on; the operator is the k-th. */
  lemma {:induction false} DraftHasTail(p: Parsers, draft: Draft, answers: seq<string>, k: nat)
    requires Represents(p, draft, answers)
    requires k == (if IsDocker(p, answers) then 5 else 4) && |answers| == k + 3
    ensures var data := draft.data;
            && p.number(p.strip(answers[k + 1])).Some? && Word(p, answers[k + 2]) in PRESETS
            && "operator" in data && data["operator"] == StrV(Word(p, answers[k]))
            && "threshold_value" in data && data["threshold_value"] == RealV(p.number(p.strip(answers[k + 1])).value)
            && "notification_channels" in data
            && data["notification_channels"] == ListV(PRESETS[Word(p, answers[k + 2])])
  {
    SlotsInOrder(p, answers, k);
    SlotsInOrder(p, answers, k + 1);
    SlotsInOrder(p, answers, k + 2);
    DraftAt(p, draft, answers, k);
    DraftAt(p, draft, answers, k + 1);
    DraftAt(p, draft, answers, k + 2);
  }

  lemma {:induction false} DraftHasContainer(p: Parsers, draft: Draft, answers: seq<string>)
    requires Represents(p, draft, answers) && |answers| > 4
    ensures GetContainer(draft.data) ==
            if IsDocker(p, answers) then ContainerOf(p.strip(answers[4])) else None
  {
    if IsDocker(p, answers) {
      SlotsInOrder(p, answers, 4);
      DraftAt(p, draft, answers, 4);
    } else {
      SystemHasNoContainer(p, draft, answers);
    }
  }

  /** At the confirmation every field is there and says what was answered. */
  lemma {:induction false} DraftHasAll(p: Parsers, draft: Draft, answers: seq<string>, user: int)
    requires Represents(p, draft, answers) && SlotAfter(p, answers).AskConfirm?
    ensures HasAll(draft.data) && RuleFrom(draft.data, user) == RuleOf(p, user, answers)
  {
    var k := if IsDocker(p, answers) then 5 else 4;
    assert |answers| == k + 3;
    DraftHasHead(p, draft, answers);
    DraftHasTail(p, draft, answers, k);
    DraftHasContainer(p, draft, answers);
  }

  // ----- messages of a chat

  /** A message, the users whose rows name its chat at that moment, and the server
      table it meets. */
  datatype Message = Message(at: Time, linked: seq<int>, servers: map<int, Server>, text: string)

  /** The user a message comes from. With two or more linked users the lookup
      raises, and then nothing is done, as with none. */
  function Sender(m: Message): Option<int> {
    if |m.linked| == 1 then Some(m.linked[0]) else None
  }

  datatype Dialog = Dialog(owner: int, answers: seq<string>)

  /** A chat told by answers: the dialog in progress, when it expires, and the
      dialogs that created a rule. */
  datatype ChatState = ChatState(dialog: Option<seq<string>>, expires: Time, log: seq<Dialog>)

  predicate Command(text: string, name: string) { name <= text }

  predicate OwnsAny(servers: map<int, Server>, user: int) {
    exists id :: id in servers && servers[id].owner == user
  }

  function Expire(c: ChatState, now: Time): ChatState {
    if c.dialog.Some? && now >= c.expires then c.(dialog := None) else c
  }

  /** A text that meets a dialog. */
  function HandleAnswer(p: Parsers, c: ChatState, m: Message): ChatState
    requires c.dialog.Some? && Sender(m).Some?
  {
    var answers := c.dialog.value;
    match React(p, m.servers, Sender(m).value, answers, m.text)
    case Again => c
    case Next => c.(dialog := Some(answers + [m.text]), expires := m.at + DRAFT_TTL)
    case Done => c.(dialog := None, log := c.log + [Dialog(Sender(m).value, answers + [m.text])])
    case Abandon => c.(dialog := None)
  }

  /** `_handle_message` as far as the dialog is concerned. */
  function Handle(p: Parsers, c0: ChatState, m: Message): ChatState {
    var c := Expire(c0, m.at);
    if m.text == "" || Command(m.text, "/start") || Sender(m).None? then c
    else if Command(m.text, "/cancel") then c.(dialog := None)
    else if !Command(m.text, "/") then
      if c.dialog.Some? then HandleAnswer(p, c, m) else c
    else if Command(m.text, "/createrule") && OwnsAny(m.servers, Sender(m).value) then
      c.(dialog := Some([]), expires := m.at + DRAFT_TTL)
    else c.(dialog := None)
  }

  /** The rules that the logged dialogs stand for, in order. */
  ghost predicate Matches(p: Parsers, created: seq<NewRule>, log: seq<Dialog>) {
    && |created| == |log|
    && forall i | 0 <= i < |log| ::
         Complete(p, log[i].answers) && created[i] == RuleOf(p, log[i].owner, log[i].answers)
  }

  lemma {:induction false} MatchesGrow(p: Parsers, created: seq<NewRule>, log: seq<Dialog>, d: Dialog)
    requires Matches(p, created, log) && Complete(p, d.answers)
    ensures Matches(p, created + [RuleOf(p, d.owner, d.answers)], log + [d])
  {
  }

  class Chat {
    const p: Parsers
    var draft: Option<Draft>
    var expires: Time
    var created: seq<NewRule>
    ghost var answers: seq<string>
    ghost var log: seq<Dialog>

    ghost predicate Valid()
      reads this
    {
      && (draft.Some? ==> Represents(p, draft.value, answers))
      && Matches(p, created, log)
    }

    ghost function View(): ChatState
      reads this
    {
      ChatState(if draft.Some? then Some(answers) else None, expires, log)
    }

    constructor (p: Parsers)
      ensures Valid() && View() == ChatState(None, 0, []) && this.p == p
    {
      this.p := p;
      draft, expires, created, answers, log := None, 0, [], [], [];
    }

    /** Runs one step of the dialog and stores, clears or keeps the draft. */
    method Answer(m: Message)
      requires Valid() && draft.Some? && Sender(m).Some?
      modifies this
      ensures Valid() && View() == HandleAnswer(p, old(View()), m)
    {
      var out := ProcessRuleDraft(p, m.servers, Sender(m).value, m.text, draft.value, answers);
      match out
      case Retry =>
      case Advance(d, _) =>
        draft, expires := Some(d), m.at + DRAFT_TTL;
        answers := answers + [m.text];
      case Create(rule) =>
        MatchesGrow(p, created, log, Dialog(Sender(m).value, answers + [m.text]));
        created := created + [rule];
        log := log + [Dialog(Sender(m).value, answers + [m.text])];
        draft := None;
      case Drop =>
        draft := None;
    }

    /** `_handle_message`: every created rule is the rule its answers stand for. */
    method HandleMessage(m: Message) returns (raised: bool)
      requires Valid()
      modifies this
      ensures Valid() && View() == Handle(p, old(View()), m)
      ensures raised <==> m.text != "" && !Command(m.text, "/start") && |m.linked| > 1
    {
      raised := false;
      if draft.Some? && m.at >= expires {
        draft := None;
      }
      if m.text == "" || Command(m.text, "/start") {
        return;
      }
      if |m.linked| > 1 {
        return true;
      }
      if m.linked == [] {
        return;
      }
      if Command(m.text, "/cancel") {
        draft := None;
        return;
      }
      if draft.Some? && !Command(m.text, "/") {
        Answer(m);
        return;
      }
      if draft.Some? && Command(m.text, "/") {
        draft := None;
      }
      if !Command(m.text, "/") {
        return;
      }
      if Command(m.text, "/createrule") && OwnsAny(m.servers, Sender(m).value) {
        draft, expires := Some(Draft("server", map[])), m.at + DRAFT_TTL;
        answers := [];
      }
    }
  }

  // ----- every run of messages

  ghost predicate IsRun(p: Parsers, chats: seq<ChatState>, msgs: seq<Message>) {
    && |chats| == |msgs| + 1
    && chats[0].dialog.None? && chats[0].log == []
    && forall i | 0 <= i < |msgs| :: chats[i + 1] == Handle(p, chats[i], msgs[i])
  }

  predicate Takes(p: Parsers, c0: ChatState, m: Message) {
    var c := Expire(c0, m.at);
    && c.dialog.Some? && Sender(m).Some? && m.text != "" && !Command(m.text, "/")
    && React(p, m.servers, Sender(m).value, c.dialog.value, m.text) in {Next, Done}
  }

  /** The texts that messages i to n-1 had accepted. */
  function Taken(p: Parsers, chats: seq<ChatState>, msgs: seq<Message>, i: nat, n: nat): seq<string>
    requires i <= n <= |msgs| < |chats|
  {
    if i == n then []
    else Taken(p, chats, msgs, i, n - 1) + if Takes(p, chats[n - 1], msgs[n - 1]) then [msgs[n - 1].text] else []
  }

  predicate Opens(p: Parsers, m: Message) {
    Sender(m).Some? && Command(m.text, "/createrule") && OwnsAny(m.servers, Sender(m).value)
  }

  /** Neither a command other than /start nor an expiry. */
  predicate Undisturbed(c: ChatState, m: Message) {
    && (Command(m.text, "/") && Sender(m).Some? ==> Command(m.text, "/start"))
    && (c.dialog.Some? ==> m.at < c.expires)
  }

  ghost predicate OpenedAt(
    p: Parsers, chats: seq<ChatState>, msgs: seq<Message>, i: nat, n: nat, answers: seq<string>)
  {
    && i < n <= |msgs| < |chats|
    && Opens(p, msgs[i])
    && (forall j | i < j < n :: Undisturbed(chats[j], msgs[j]) && chats[j].dialog.Some?)
    && Taken(p, chats, msgs, i + 1, n) == answers
  }

  /** A dialog in progress goes back to one /createrule, and its answers are all
      the texts accepted since, with no clearing command and no expiry between. */
  lemma {:induction false} DialogHasOpening(p: Parsers, chats: seq<ChatState>, msgs: seq<Message>, n: nat)
    returns (i: nat)
    requires IsRun(p, chats, msgs) && n <= |msgs| && chats[n].dialog.Some?
    ensures OpenedAt(p, chats, msgs, i, n, chats[n].dialog.value)
  {
    var m, c := msgs[n - 1], chats[n - 1];
    HandleContinues(p, c, m);
    if Opens(p, m) {
      i := n - 1;
    } else {
      i := DialogHasOpening(p, chats, msgs, n - 1);
    }
  }

  /** A message that leaves a dialog open either opened it or went on with it. */
  lemma {:induction false} HandleContinues(p: Parsers, c: ChatState, m: Message)
    requires Handle(p, c, m).dialog.Some?
    ensures if Opens(p, m) then Handle(p, c, m).dialog == Some([])
            else c.dialog.Some? && Undisturbed(c, m) &&
                 Handle(p, c, m).dialog == Some(c.dialog.value + (if Takes(p, c, m) then [m.text] else []))
  {
    if Opens(p, m) {
      assert m.text[2] == 'r' && m.text[1] == 'c';
    } else {
      assert c.dialog.value + [] == c.dialog.value;
    }
  }

  lemma {:induction false} HandleAccepts(p: Parsers, c: ChatState, m: Message)
    requires c.dialog.Some? ==> Accepted(p, c.dialog.value)
    ensures Handle(p, c, m).dialog.Some? ==> Accepted(p, Handle(p, c, m).dialog.value)
  {
    if Takes(p, c, m) {
      AcceptedGrows(p, c.dialog.value, m.text);
    }
  }

  lemma {:induction false} RunAccepted(p: Parsers, chats: seq<ChatState>, msgs: seq<Message>, n: nat)
    requires IsRun(p, chats, msgs) && n <= |msgs|
    ensures chats[n].dialog.Some? ==> Accepted(p, chats[n].dialog.value)
  {
    if n > 0 {
      RunAccepted(p, chats, msgs, n - 1);
      HandleAccepts(p, chats[n - 1], msgs[n - 1]);
    }
  }

  /** The log grows only when a confirmation meets a dialog that asked for it. */
  lemma {:induction false} CreationIsConfirmation(p: Parsers, c: ChatState, m: Message)
    requires |Handle(p, c, m).log| > |c.log|
    ensures Takes(p, c, m) && c.dialog.Some? && Undisturbed(c, m)
    ensures SlotAfter(p, c.dialog.value).AskConfirm? && Fits(p, c.dialog.value, m.text)
    ensures Handle(p, c, m).log == c.log + [Dialog(Sender(m).value, c.dialog.value + [m.text])]
  {
  }

  /** Each rule was created by a confirmed dialog of exactly 8 or 9 accepted
      answers after one /createrule, undisturbed, and is legal. */
  lemma {:induction false} CreationHasDialog(p: Parsers, chats: seq<ChatState>, msgs: seq<Message>, n: nat)
    returns (i: nat)
    requires IsRun(p, chats, msgs) && n < |msgs| && |chats[n + 1].log| > |chats[n].log|
    ensures var d := chats[n + 1].log[|chats[n].log|];
            && chats[n + 1].log == chats[n].log + [d] && Some(d.owner) == Sender(msgs[n])
            && OpenedAt(p, chats, msgs, i, n + 1, d.answers)
            && Complete(p, d.answers)
            && |d.answers| == (if IsDocker(p, d.answers) then 9 else 8)
            && Legal(RuleOf(p, d.owner, d.answers))
  {
    CreationIsConfirmation(p, chats[n], msgs[n]);
    i := DialogHasOpening(p, chats, msgs, n);
    RunAccepted(p, chats, msgs, n);
    var answers := chats[n].dialog.value;
    ConfirmedIsLegal(p, answers, msgs[n].text, Sender(msgs[n]).value);
  }

  lemma {:induction false} ConfirmedIsLegal(p: Parsers, answers: seq<string>, text: string, owner: int)
    requires Accepted(p, answers) && SlotAfter(p, answers).AskConfirm? && Fits(p, answers, text)
    ensures var all := answers + [text];
            Complete(p, all) && |all| == (if IsDocker(p, all) then 9 else 8) && Legal(RuleOf(p, owner, all))
  {
    AcceptedGrows(p, answers, text);
    SlotGrows(p, answers, text);
    CompleteLength(p, answers + [text]);
    CreatedRulesAreLegal(p, owner, answers + [text]);
  }

  // ----- whose server a rule watches

  lemma {:induction false} FirstTaken(p: Parsers, chats: seq<ChatState>, msgs: seq<Message>, i: nat, n: nat)
    returns (k: nat)
    requires i <= n <= |msgs| < |chats| && Taken(p, chats, msgs, i, n) != []
    ensures i <= k < n && Takes(p, chats[k], msgs[k]) && Taken(p, chats, msgs, i, k) == []
    ensures Taken(p, chats, msgs, i, n)[0] == msgs[k].text
  {
    if Taken(p, chats, msgs, i, n - 1) == [] {
      k := n - 1;
    } else {
      k := FirstTaken(p, chats, msgs, i, n - 1);
    }
  }

  /** While a dialog is undisturbed it holds the texts taken since its opening. */
  lemma {:induction false} DialogIsTaken(p: Parsers, chats: seq<ChatState>, msgs: seq<Message>, i: nat, k: nat)
    requires IsRun(p, chats, msgs) && i < k <= |msgs| && Opens(p, msgs[i]) && chats[i + 1].dialog.Some?
    requires forall j | i < j < k :: Undisturbed(chats[j], msgs[j])
    requires forall j | i < j <= k :: chats[j].dialog.Some?
    ensures chats[k].dialog == Some(Taken(p, chats, msgs, i + 1, k))
  {
    assert chats[k] == Handle(p, chats[k - 1], msgs[k - 1]) && chats[k].dialog.Some?;
    HandleContinues(p, chats[k - 1], msgs[k - 1]);
    if k > i + 1 {
      DialogIsTaken(p, chats, msgs, i, k - 1);
      OpeningDisturbs(p, chats[k - 1], msgs[k - 1]);
    }
  }

  lemma {:induction false} OpeningDisturbs(p: Parsers, c: ChatState, m: Message)
    ensures Opens(p, m) ==> !Undisturbed(c, m)
  {
    assert Command(m.text, "/createrule") ==> m.text[1] == 'c';
  }

  /** The owner of a created rule owned its server when it was chosen exactly if
      the chat was linked to the same user then as at the confirmation. */
  lemma {:induction false} RuleServerWasOwned(p: Parsers, chats: seq<ChatState>, msgs: seq<Message>, i: nat, n: nat)
    returns (k: nat)
    requires IsRun(p, chats, msgs) && n < |msgs| && |chats[n + 1].log| > |chats[n].log|
    requires OpenedAt(p, chats, msgs, i, n + 1, chats[n + 1].log[|chats[n].log|].answers)
    ensures var d := chats[n + 1].log[|chats[n].log|];
            && d.answers != [] && i < k <= n && msgs[k].text == d.answers[0] && Takes(p, chats[k], msgs[k])
            && (Owns(p, msgs[k].servers, d.owner, d.answers[0]) <==> Sender(msgs[k]) == Sender(msgs[n]))
  {
    CreationIsConfirmation(p, chats[n], msgs[n]);
    k := FirstTaken(p, chats, msgs, i + 1, n + 1);
    DialogIsTaken(p, chats, msgs, i, k);
    FirstAnswerIsOwned(p, chats[k], msgs[k]);
  }

  /** The first answer of a dialog is taken only if the server belongs to the
      user of that moment. */
  lemma {:induction false} FirstAnswerIsOwned(p: Parsers, c: ChatState, m: Message)
    requires Takes(p, c, m) && c.dialog == Some([])
    ensures Owns(p, m.servers, Sender(m).value, m.text)
  {
    assert SlotAfter(p, []).AskServer?;
  }

  /** Whoever opened a dialog had a server. */
  lemma {:induction false} OpenerHasServer(p: Parsers, chats: seq<ChatState>, msgs: seq<Message>, n: nat)
    returns (i: nat, server: int)
    requires IsRun(p, chats, msgs) && n <= |msgs| && chats[n].dialog.Some?
    ensures i < n && "/createrule" <= msgs[i].text && |msgs[i].linked| == 1
    ensures server in msgs[i].servers && msgs[i].servers[server].owner == msgs[i].linked[0]
  {
    i := DialogHasOpening(p, chats, msgs, n);
    server :| server in msgs[i].servers && msgs[i].servers[server].owner == Sender(msgs[i]).value;
  }

  // ----- how long a dialog lasts

  /** Message k opened the dialog or gave its latest answer. */
  predicate Touches(p: Parsers, chats: seq<ChatState>, msgs: seq<Message>, k: nat)
    requires k < |msgs| < |chats|
  {
    Opens(p, msgs[k]) || Takes(p, chats[k], msgs[k])
  }

  /** A dialog in progress lasts until ten minutes after the message that opened it
      or gave its latest answer. */
  lemma {:induction false} DialogLasts(p: Parsers, chats: seq<ChatState>, msgs: seq<Message>, n: nat)
    returns (k: nat)
    requires IsRun(p, chats, msgs) && n <= |msgs| && chats[n].dialog.Some?
    ensures k < n && Touches(p, chats, msgs, k) && chats[n].expires == msgs[k].at + 10 * 60
    ensures forall j: nat | k < j < n :: !Touches(p, chats, msgs, j)
  {
    k := n - 1;
    assert chats[n] == Handle(p, chats[k], msgs[k]);
    HandleContinues(p, chats[k], msgs[k]);
    HandleExpires(p, chats[k], msgs[k]);
    if !Touches(p, chats, msgs, k) {
      k := DialogLasts(p, chats, msgs, n - 1);
    }
  }

  lemma {:induction false} HandleExpires(p: Parsers, c: ChatState, m: Message)
    requires Handle(p, c, m).dialog.Some?
    ensures Handle(p, c, m).expires == if Opens(p, m) || Takes(p, c, m) then m.at + 10 * 60 else c.expires
  {
    if Opens(p, m) {
      assert m.text[2] == 'r' && m.text[1] == 'c';
    }
  }

  /** A text that comes before that is taken as an answer if it is one, by whoever
      the chat belongs to then. */
  lemma {:induction false} AnswerInTime(p: Parsers, c: ChatState, m: Message)
    requires c.dialog.Some? && m.at < c.expires && Sender(m).Some? && m.text != "" && m.text[0] != '/'
    requires Accepts(p, m.servers, Sender(m).value, c.dialog.value, m.text) && Accepted(p, c.dialog.value)
    ensures Takes(p, c, m) || (SlotAfter(p, c.dialog.value).AskConfirm? && Word(p, m.text) in NO)
  {
  }

  // ----- what leaves a dialog alone

  /** Texts that are empty, a `/start`, from a chat without a single user, or not a
      command while no dialog is open, change nothing; an expired dialog is gone. */
  lemma {:induction false} Ignored(p: Parsers, c: ChatState, m: Message)
    requires || m.text == "" || "/start" <= m.text || |m.linked| != 1
             || (m.text[0] != '/' && (c.dialog == None || m.at >= c.expires))
    ensures Handle(p, c, m).log == c.log
    ensures Handle(p, c, m).dialog == if c.dialog != None && m.at >= c.expires then None else c.dialog
    ensures Handle(p, c, m).expires == c.expires
  {
    if m.text != "" && m.text[0] != '/' {
      assert !Command(m.text, "/start") && !Command(m.text, "/cancel") && !Command(m.text, "/");
    }
  }

  /** A command other than /start and /createrule of the user ends a dialog. */
  lemma {:induction false} CommandEnds(p: Parsers, c: ChatState, m: Message)
    requires |m.linked| == 1 && "/" <= m.text && !("/start" <= m.text) && !("/createrule" <= m.text)
    ensures Handle(p, c, m).dialog == None && Handle(p, c, m).log == c.log
  {
  }

  /** The rules created are never taken back, and a message creates one at most. */
  lemma {:induction false} LogGrows(p: Parsers, c: ChatState, m: Message)
    ensures c.log <= Handle(p, c, m).log && |Handle(p, c, m).log| <= |c.log| + 1
  {
  }
}
