/** Whole conversations run through the page's reducer, and the points where the page
    and its two view components meet. */
module Scenarios {
  import opened ChatTypes
  import opened JsText
  import opened SessionStore
  import opened ChatPage
  import ChatArea
  import HistoryPanel

  /** The user types "Hello" with no session; the server names the conversation "c1"
      and answers question "q1". The session ends up under "c1" with exactly the user's
      message and the bot's answer, in that order, and the input is enabled again. */
  lemma HelloConversation()
    ensures var s0 := Init([]);
            var t1 := Step(s0, UserSend("Hello", false, "t1", "m1", 1, 1000));
            var t2 := Step(t1.state, FrameReceived(1, InitiateConversationResponse("c1"), "f2", 1500));
            var t3 := Step(t2.state, FrameReceived(1, SubmitQuestionResponse(Some("q1"), "<p>Hi</p>"), "f3", 2000));
            var user := Message("m1", User, "Hello", 1000);
            && t1.state.sessions == [Session("t1", 1000, NoRegion, En, [user], "Hello")]
            && t1.state.viewedId == Some("t1") && t1.state.loading
            && t1.outputs == [Open(1)]
            && t2.state.sessions == [Session("c1", 1000, NoRegion, En, [user], "Hello")]
            && t2.state.viewedId == Some("c1") && t2.state.pending.None?
            && t2.outputs == [Transmit(1, SubmitQuestionRequest("Hello", NoRegion))]
            && t3.state.sessions
               == [Session("c1", 1000, NoRegion, En, [user, Message("q1", Bot, "<p>Hi</p>", 2000)], "Hello")]
            && !t3.state.loading
            && !ChatArea.Render(CurrentMessages(t3.state), En, t3.state.loading, false, "").fieldDisabled
  {
    var s0 := Init([]);
    var user := Message("m1", User, "Hello", 1000);
    var t1 := Step(s0, UserSend("Hello", false, "t1", "m1", 1, 1000));
    var x := Session("t1", 1000, NoRegion, En, [user], "Hello");
    assert Title("Hello") == "Hello";
    assert t1.state.sessions == InsertSession([], x);
    assert InsertSession([], x) == [x];
    var t2 := Step(t1.state, FrameReceived(1, InitiateConversationResponse("c1"), "f2", 1500));
    RenameInPlace([x], "t1", "c1", NoRegion, En);
    assert RenameWhere([x], "t1", "c1", NoRegion, En)[0] == Renamed(x, "c1", NoRegion, En);
    var y := Session("c1", 1000, NoRegion, En, [user], "Hello");
    assert t2.state.sessions == [y];
    var t3 := Step(t2.state, FrameReceived(1, SubmitQuestionResponse(Some("q1"), "<p>Hi</p>"), "f3", 2000));
    var bot := Message("q1", Bot, "<p>Hi</p>", 2000);
    assert BotMessageId(Some("q1"), "f3") == "q1";
    assert AppendWhere([y], "c1", bot) == [WithMessage(y, bot)];
    assert [user] + [bot] == [user, bot];
    assert t2.state.viewedId == Some("c1") && t2.state.sessions == [y];
    assert t3.state.sessions == AppendWhere(t2.state.sessions, "c1", bot);
  }

  /** While the user views a historical session, a live conversation's answer goes to the
      viewed session: the answer handler targets the viewed id, not the live one, so the
      live session's messages stay as they were. */
  lemma AnswerFollowsTheViewedSession()
    ensures var live := Session("c1", 2000, NoRegion, En, [Message("m1", User, "Hi", 2000)], "Hi");
            var past := Session("h1", 1000, InRegion(Ontario), En, [], "Old chat");
            var st := State([live, past], Some("h1"), None, true, Some(7), NoRegion, En);
            var r := Step(st, FrameReceived(7, SubmitQuestionResponse(None, "Answer"), "b1", 3000)).state;
            && r.sessions[0] == live
            && r.sessions[1].messages == [Message("b1", Bot, "Answer", 3000)]
  {
    var live := Session("c1", 2000, NoRegion, En, [Message("m1", User, "Hi", 2000)], "Hi");
    var past := Session("h1", 1000, InRegion(Ontario), En, [], "Old chat");
    var bot := Message("b1", Bot, "Answer", 3000);
    assert AppendWhere([live, past], "h1", bot)[1] == WithMessage(past, bot);
  }

  /** The page's seed data: two historical sessions, two days and one day old. */
  function SeedSessions(now: Timestamp): seq<Session> {
    var day := 24 * 60 * 60 * 1000;
    [ Session("seed-ontario", now - 2 * day, InRegion(Ontario), En,
        [ Message("seed-1", User, "Hello, I have a question about services in Ontario.", now - 2 * day),
          Message("seed-2", Bot, "Hello! I can help with that. What is your question regarding Ontario services?", now - 2 * day + 60000) ],
        "Ontario Services Query"),
      Session("seed-quebec", now - day, InRegion(Quebec), Fr,
        [ Message("seed-3", User, "Bonjour, je cherche des informations pour le Québec.", now - day),
          Message("seed-4", Bot, "Bonjour! Comment puis-je vous aider concernant le Québec?", now - day + 60000) ],
        "Infos Québec") ]
  }

  /** On the first render the seed is shown newest first and the newest session, the
      Quebec one, is viewed. */
  lemma SeedOpensOnNewestSession(now: Timestamp)
    ensures var st := Init(SeedSessions(now));
            && st.sessions == [SeedSessions(now)[1], SeedSessions(now)[0]]
            && st.viewedId == Some("seed-quebec")
  {
    var seed := SeedSessions(now);
    var st := Init(seed);
    assert seed[1..] == [seed[1]];
    assert SessionOrder.Sort(None, [seed[1]]) == [seed[1]];
    assert SessionOrder.Insert(None, seed[0], [seed[1]]) == [seed[1], seed[0]];
  }

  /** Whatever the chat area hands to the page starts a session with a non-empty title,
      so the history never labels a conversation started here "Untitled Chat". */
  lemma SentTextIsTitled(st: State, draft: string, socketOpen: bool, tempId: Id, messageId: Id, h: Handle, now: Timestamp)
    requires ChatArea.HandleSend(draft, false).sent.Some?
    ensures var text := ChatArea.HandleSend(draft, false).sent.value;
            var x := NewSession(st, text, tempId, messageId, now);
            HistoryPanel.Label(x) == x.title && x.title != [] && |x.title| <= 33
  {
  }

  /** Clicking any history row views that row's session. */
  lemma ClickingARowViewsIt(st: State, live: Option<Id>, i: nat)
    requires var p := HistoryPanel.Render(st.sessions, st.viewedId, live); p.Rows? && i < |p.rows|
    ensures var id := HistoryPanel.Click(HistoryPanel.Render(st.sessions, st.viewedId, live), i);
            Step(st, SelectSession(id)).state.viewedId == Some(id)
  {
    HistoryPanel.PanelRows(st.sessions, st.viewedId, live);
  }

  /** A server that names the conversation "" leaves the page viewing the empty id,
      which the page treats as nothing viewed: the chat area shows no messages, although
      the renamed session holds the user's message, and the auto-select effect views the
      newest session, which is the same empty id again. */
  lemma EmptyConversationIdShowsNothing()
    ensures var user := Message("m1", User, "Hi", 1000);
            var x := Session("t1", 1000, NoRegion, En, [user], "Hi");
            var st := State([x], Some("t1"), Some(Pending("Hi", NoRegion, En, "t1")), true, Some(1), NoRegion, En);
            var r := Step(st, FrameReceived(1, InitiateConversationResponse(""), "f1", 1500)).state;
            && r.viewedId == Some("")
            && r.sessions == [Session("", 1000, NoRegion, En, [user], "Hi")]
            && CurrentMessages(r) == []
            && AutoSelect(r) == r
  {
    var user := Message("m1", User, "Hi", 1000);
    var x := Session("t1", 1000, NoRegion, En, [user], "Hi");
    RenameInPlace([x], "t1", "", NoRegion, En);
    assert RenameWhere([x], "t1", "", NoRegion, En)[0] == Renamed(x, "", NoRegion, En);
  }
}
