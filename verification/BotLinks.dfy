/** Which user a chat belongs to. `/start` with a code and the profile page both
    write the chat into a user's row and leave the rows of others alone, so none,
    one or several users may be linked to a chat. */
module BotLinks {
  import opened Options
  import opened Listing
  import opened BotDialog
  import opened BotChat

  /** A message to the chat, with the user whose code it redeems if it is a
      `/start`; or a change of a user's row from elsewhere, to this chat or away. */
  datatype Act =
    | Say(m: Message, redeems: Option<int>)
    | Relink(user: int, here: bool)

  /** The users linked to the chat, and its dialog. */
  datatype World = World(linked: set<int>, chat: ChatState)

  ghost predicate Enabled(w: World, act: Act) {
    act.Say? ==> Lists(act.m.linked, w.linked) && (act.redeems.Some? ==> Command(act.m.text, "/start"))
  }

  function Linked(w: World, act: Act): set<int> {
    match act
    case Say(_, redeems) => if redeems.Some? then w.linked + {redeems.value} else w.linked
    case Relink(user, here) => if here then w.linked + {user} else w.linked - {user}
  }

  function Next(p: Parsers, w: World, act: Act): World {
    World(Linked(w, act), if act.Say? then Handle(p, w.chat, act.m) else w.chat)
  }

  ghost predicate IsRun(p: Parsers, ws: seq<World>, acts: seq<Act>) {
    && |ws| == |acts| + 1 && ws[0].chat.dialog.None? && ws[0].chat.log == []
    && forall i | 0 <= i < |acts| :: Enabled(ws[i], acts[i]) && ws[i + 1] == Next(p, ws[i], acts[i])
  }

  lemma SenderIsLinked(w: World, act: Act, user: int)
    requires Enabled(w, act) && act.Say? && Sender(act.m) == Some(user)
    ensures w.linked == {user}
  {
    forall x ensures x in w.linked <==> x == user {
      assert x in act.m.linked <==> x in w.linked;
    }
  }

  /** A chat with two linked users is mute: whatever is said, apart from an expiry
      the dialog stays as it is and no rule is created. */
  lemma SharedChatIsMute(p: Parsers, w: World, act: Act, a: int, b: int)
    requires Enabled(w, act) && a in w.linked && b in w.linked && a != b
    ensures Next(p, w, act).chat.log == w.chat.log
    ensures Next(p, w, act).chat.dialog == w.chat.dialog || Next(p, w, act).chat.dialog.None?
  {
    if act.Say? && Sender(act.m).Some? {
      SenderIsLinked(w, act, Sender(act.m).value);
    }
  }

  lemma {:induction false} UnlinkHasStep(p: Parsers, ws: seq<World>, acts: seq<Act>, i: nat, j: nat, user: int)
    returns (n: nat)
    requires IsRun(p, ws, acts) && i <= j < |ws| && user in ws[i].linked && user !in ws[j].linked
    ensures i <= n < j && acts[n] == Relink(user, false)
    decreases j
  {
    n := j - 1;
    assert ws[j] == Next(p, ws[n], acts[n]);
    if user !in ws[n].linked {
      n := UnlinkHasStep(p, ws, acts, i, n, user);
    }
  }

  /** `/start` alone does not hand a chat over: two messages of different users
      have a removal of the first user's link between them. */
  lemma HandOverNeedsUnlink(p: Parsers, ws: seq<World>, acts: seq<Act>, i: nat, j: nat, a: int, b: int)
    returns (n: nat)
    requires IsRun(p, ws, acts) && i < j < |acts| && acts[i].Say? && acts[j].Say? && a != b
    requires Sender(acts[i].m) == Some(a) && Sender(acts[j].m) == Some(b)
    ensures i < n < j && acts[n] == Relink(a, false)
  {
    SenderIsLinked(ws[i], acts[i], a);
    SenderIsLinked(ws[j], acts[j], b);
    n := UnlinkHasStep(p, ws, acts, i, j, a);
  }

  // ----- the messages of a run

  function Said(acts: seq<Act>): seq<Message> {
    if acts == [] then []
    else
      var n := |acts| - 1;
      Said(acts[..n]) + if acts[n].Say? then [acts[n].m] else []
  }

  function Chats(ws: seq<World>, acts: seq<Act>): (chats: seq<ChatState>)
    requires |ws| == |acts| + 1
    ensures |chats| == |Said(acts)| + 1
  {
    if acts == [] then [ws[0].chat]
    else
      var n := |acts| - 1;
      Chats(ws[..n + 1], acts[..n]) + if acts[n].Say? then [ws[n + 1].chat] else []
  }

  /** Changes of links aside, a run is a run of messages. */
  lemma {:induction false} SaidIsRun(p: Parsers, ws: seq<World>, acts: seq<Act>)
    requires IsRun(p, ws, acts)
    ensures BotChat.IsRun(p, Chats(ws, acts), Said(acts))
    ensures Chats(ws, acts)[|Said(acts)|] == ws[|acts|].chat
  {
    if acts != [] {
      var n := |acts| - 1;
      var front := ws[..n + 1];
      assert IsRun(p, front, acts[..n]);
      SaidIsRun(p, front, acts[..n]);
      assert ws[n + 1] == Next(p, ws[n], acts[n]);
      if acts[n].Say? {
        OneMoreMessage(p, Chats(front, acts[..n]), Said(acts[..n]), acts[n].m);
      }
    }
  }

  lemma OneMoreMessage(p: Parsers, chats: seq<ChatState>, msgs: seq<Message>, m: Message)
    requires BotChat.IsRun(p, chats, msgs)
    ensures BotChat.IsRun(p, chats + [Handle(p, chats[|msgs|], m)], msgs + [m])
  {
    var chats', msgs' := chats + [Handle(p, chats[|msgs|], m)], msgs + [m];
    forall i | 0 <= i < |msgs'| ensures chats'[i + 1] == Handle(p, chats'[i], msgs'[i]) {
      if i < |msgs| {
        assert chats'[i + 1] == chats[i + 1] && chats'[i] == chats[i] && msgs'[i] == msgs[i];
      }
    }
  }

  predicate SaysAt(acts: seq<Act>, x: nat, m: Message) {
    x < |acts| && acts[x].Say? && acts[x].m == m
  }

  /** Where the k-th message was said. */
  lemma {:induction false} SaidAt(acts: seq<Act>, k: nat) returns (x: nat)
    requires k < |Said(acts)|
    ensures SaysAt(acts, x, Said(acts)[k]) && |Said(acts[..x])| == k
  {
    var n := |acts| - 1;
    if k < |Said(acts[..n])| {
      x := SaidAt(acts[..n], k);
      assert acts[..n][..x] == acts[..x];
    } else {
      x := n;
    }
  }

  lemma {:induction false} SaidGrows(acts: seq<Act>, x: nat, y: nat)
    requires x <= y <= |acts|
    ensures |Said(acts[..x])| <= |Said(acts[..y])|
    decreases y
  {
    if x < y {
      SaidGrows(acts, x, y - 1);
      assert acts[..y][..y - 1] == acts[..y - 1];
    }
  }

  /** A created rule whose owner did not own the server when it was chosen comes
      from a chat that another user had then, and whose link to that user was
      removed before the confirmation. */
  lemma ForeignRuleNeedsUnlink(p: Parsers, ws: seq<World>, acts: seq<Act>, i: nat, n: nat)
    returns (k: nat, other: int, x: nat, y: nat, u: nat)
    requires IsRun(p, ws, acts) && n < |Said(acts)|
    requires |Chats(ws, acts)[n + 1].log| > |Chats(ws, acts)[n].log|
    requires var d := Chats(ws, acts)[n + 1].log[|Chats(ws, acts)[n].log|];
             OpenedAt(p, Chats(ws, acts), Said(acts), i, n + 1, d.answers)
    ensures var d := Chats(ws, acts)[n + 1].log[|Chats(ws, acts)[n].log|];
            && d.answers != [] && i < k <= n && Said(acts)[k].text == d.answers[0]
            && (!Owns(p, Said(acts)[k].servers, d.owner, d.answers[0]) ==>
                  && other != d.owner && Sender(Said(acts)[k]) == Some(other)
                  && x < u < y && SaysAt(acts, x, Said(acts)[k]) && SaysAt(acts, y, Said(acts)[n])
                  && acts[u] == Relink(other, false))
  {
    var chats, msgs := Chats(ws, acts), Said(acts);
    var d := chats[n + 1].log[|chats[n].log|];
    SaidIsRun(p, ws, acts);
    k := RuleServerWasOwned(p, chats, msgs, i, n);
    CreationIsConfirmation(p, chats[n], msgs[n]);
    x, y, u, other := 0, 0, 0, 0;
    if !Owns(p, msgs[k].servers, d.owner, d.answers[0]) {
      other := Sender(msgs[k]).value;
      x, y, u := UnlinkBetween(p, ws, acts, k, n, other, d.owner);
    }
  }

  lemma UnlinkBetween(p: Parsers, ws: seq<World>, acts: seq<Act>, k: nat, n: nat, a: int, b: int)
    returns (x: nat, y: nat, u: nat)
    requires IsRun(p, ws, acts) && k <= n < |Said(acts)| && a != b
    requires Sender(Said(acts)[k]) == Some(a) && Sender(Said(acts)[n]) == Some(b)
    ensures x < u < y && SaysAt(acts, x, Said(acts)[k]) && SaysAt(acts, y, Said(acts)[n])
    ensures acts[u] == Relink(a, false)
  {
    x := SaidAt(acts, k);
    y := SaidAt(acts, n);
    if y <= x {
      SaidGrows(acts, y, x);
    }
    u := HandOverNeedsUnlink(p, ws, acts, x, y, a, b);
  }
}
