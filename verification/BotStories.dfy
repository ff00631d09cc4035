/** A dialog in whose middle the chat passes from one user to another: the rule
    that comes out belongs to a user who does not own the server it watches. */
module BotStories {
  import opened Options
  import opened Listing
  import opened BotDialog
  import opened BotChat
  import opened BotLinks

  const ANN := 1
  const BEN := 2

  /** Parsers for a handful of plain texts. */
  const PLAINLY := Parsers(
    (s: string) => s,
    (s: string) => s,
    (s: string) => if s == "7" then Some(7) else None,
    (s: string) => if s == "80" then Some(80.0) else None)

  /** Ann's server; Ben has none. */
  const SERVERS: map<int, Server> := map[7 := Server(ANN, "web")]

  const ANSWERS := ["7", "system", "load", "cpu_percent", "gt", "80", "both", "yes"]

  /** Ann opens the dialog and chooses her server. `/start` with Ben's code links
      Ben too, which makes the chat mute: the next message is lost. When Ann has
      removed her own link, Ben gives the remaining answers. */
  function ActAt(i: nat): Act {
    if i == 0 then Say(Message(0, [ANN], SERVERS, "/createrule"), None)
    else if i == 1 then Say(Message(1, [ANN], SERVERS, ANSWERS[0]), None)
    else if i == 2 then Say(Message(2, [ANN], SERVERS, "/start code"), Some(BEN))
    else if i == 3 then Say(Message(3, [ANN, BEN], SERVERS, ANSWERS[1]), None)
    else if i == 4 then Relink(ANN, false)
    else Say(Message(i, [BEN], SERVERS, if i < 12 then ANSWERS[i - 4] else ""), None)
  }

  function LinkedAt(i: nat): set<int> {
    if i <= 2 then {ANN} else if i <= 4 then {ANN, BEN} else {BEN}
  }

  function ChatAt(i: nat): ChatState {
    if i == 0 then ChatState(None, 0, [])
    else if i == 1 then ChatState(Some([]), DRAFT_TTL, [])
    else if i <= 5 then ChatState(Some(ANSWERS[..1]), 1 + DRAFT_TTL, [])
    else if i <= 11 then ChatState(Some(ANSWERS[..i - 4]), i - 1 + DRAFT_TTL, [])
    else ChatState(None, 10 + DRAFT_TTL, [Dialog(BEN, ANSWERS)])
  }

  function WorldAt(i: nat): World {
    World(LinkedAt(i), ChatAt(i))
  }

  lemma {:induction false} SlotAt(i: nat)
    requires i < 8
    ensures SlotAfter(PLAINLY, ANSWERS[..i]) ==
            [AskServer, AskType, AskName, AskMetric, AskOperator, AskThreshold, AskChannels, AskConfirm][i]
  {
    if i > 1 {
      assert ANSWERS[..i][1] == "system";
      assert !IsDocker(PLAINLY, ANSWERS[..i]);
    }
  }

  lemma {:induction false} AnswerFits(i: nat)
    requires i < 8
    ensures Fits(PLAINLY, ANSWERS[..i], ANSWERS[i])
  {
    SlotAt(i);
    if i == 3 {
      assert ANSWERS[..i][1] == "system";
    }
  }

  lemma {:induction false} AnswerReacts(i: nat, user: int)
    requires i < 8 && (i == 0 ==> user == ANN)
    ensures React(PLAINLY, SERVERS, user, ANSWERS[..i], ANSWERS[i]) == if i == 7 then Done else BotDialog.Next
  {
    SlotAt(i);
    AnswerFits(i);
  }

  lemma {:induction false} AnswerSteps(i: nat)
    requires i == 1 || 5 <= i < 12
    ensures ChatAt(i + 1) == Handle(PLAINLY, ChatAt(i), ActAt(i).m)
  {
    var k := if i == 1 then 0 else i - 4;
    AnswerReacts(k, if i == 1 then ANN else BEN);
    assert ANSWERS[..k] + [ANSWERS[k]] == ANSWERS[..k + 1];
    assert ANSWERS[k][0] != '/';
    assert ANSWERS[..8] == ANSWERS;
    if i == 1 {
      assert ANSWERS[..0] == [];
    }
  }

  lemma {:induction false} OtherSteps()
    ensures ChatAt(1) == Handle(PLAINLY, ChatAt(0), ActAt(0).m)
    ensures ChatAt(3) == Handle(PLAINLY, ChatAt(2), ActAt(2).m)
    ensures ChatAt(4) == Handle(PLAINLY, ChatAt(3), ActAt(3).m)
  {
    assert SERVERS[7].owner == ANN;
    assert "/createrule"[1] == 'c' && "/createrule"[2] == 'r';
    assert "/start" <= "/start code";
  }

  lemma {:induction false} WorldStep(i: nat)
    requires i < 12
    ensures BotLinks.Enabled(WorldAt(i), ActAt(i)) && WorldAt(i + 1) == BotLinks.Next(PLAINLY, WorldAt(i), ActAt(i))
  {
    OtherSteps();
    if i == 1 || 5 <= i {
      AnswerSteps(i);
    }
    assert "/start" <= "/start code";
  }

  /** Ben's rule watches Ann's server. */
  lemma RelinkedRule() returns (ws: seq<World>, acts: seq<Act>)
    ensures BotLinks.IsRun(PLAINLY, ws, acts) && |acts| == 12
    ensures ws[11].chat.log == [] && ws[12].chat.log == [Dialog(BEN, ANSWERS)]
    ensures forall i | 0 <= i < 12 && acts[i].Say? :: !Owns(PLAINLY, acts[i].m.servers, BEN, ANSWERS[0])
  {
    ws := seq(13, i requires 0 <= i => WorldAt(i));
    acts := seq(12, i requires 0 <= i => ActAt(i));
    forall i | 0 <= i < 12
      ensures BotLinks.Enabled(ws[i], acts[i]) && ws[i + 1] == BotLinks.Next(PLAINLY, ws[i], acts[i])
    {
      WorldStep(i);
    }
  }
}
