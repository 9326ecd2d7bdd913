/** The chat page's conversation lifecycle as a pure reducer: `Step(state, event)`
    returns the next state and the requests the page hands to its sockets.

    Sockets are named by handles. Inbound frames, socket errors and socket closures
    arrive as events tagged with the handle of the socket that produced them. Fresh
    UUIDs, the current time and the socket's ready state are supplied by the event. */
module ChatPage {
  import opened ChatTypes
  import opened JsText
  import opened SessionOrder
  import opened SessionStore

  /** A socket the page opened; only `socket` in the state is the current one. */
  type Handle = nat

  /** The first question of a new conversation, held until the server names the
      conversation. */
  datatype Pending = Pending(text: string, region: RegionOrNone, language: Language, tempSessionId: Id)

  /** Everything the page's handlers read and write. `viewedId` is the session shown in
      the chat area; `region` and `language` are the header's selections. */
  datatype State = State(
    sessions: seq<Session>,
    viewedId: Option<Id>,
    pending: Option<Pending>,
    loading: bool,
    socket: Option<Handle>,
    region: RegionOrNone,
    language: Language)

  /** Client-to-server frames. */
  datatype Request =
    | SubmitQuestionRequest(question: string, region: RegionOrNone)
    | CloseRequest

  /** What a step asks of the sockets: open a new one, send a frame, or close one. */
  datatype Output =
    | Open(h: Handle)
    | Transmit(h: Handle, request: Request)
    | CloseSocket(h: Handle)

  /** Server-to-client frames after JSON parsing. `OtherFrame` is a well-formed frame of
      any other type; `Malformed` is text that failed to parse or a frame whose handling
      threw. */
  datatype Frame =
    | InitiateConversationResponse(conversationId: Id)
    | SubmitQuestionResponse(questionId: Option<string>, answer: string)
    | ErrorFrame(code: string, message: string)
    | OtherFrame(kind: string)
    | Malformed

  datatype Event =
    /** The chat area sends `text`; `socketOpen` is whether the current socket's ready
        state is OPEN; `tempId`, `messageId` are fresh UUIDs; `newSocket` names the
        socket a new conversation opens. */
    | UserSend(text: string, socketOpen: bool, tempId: Id, messageId: Id, newSocket: Handle, now: Timestamp)
    | SelectSession(id: Id)
    /** A frame from socket `from`; `freshId` is used when an answer has no question id. */
    | FrameReceived(from: Handle, frame: Frame, freshId: Id, now: Timestamp)
    | SocketError(from: Handle)
    | SocketClosed(from: Handle)
    | RegionChanged(newRegion: RegionOrNone)
    | LanguageChanged(newLanguage: Language)

  datatype Transition = Transition(state: State, outputs: seq<Output>)

  /** The number of characters of the first message kept in a new session's title. */
  const TitleLength: nat := 30

  /** A new session's title: the first 30 characters of the message, followed by "..."
      when the message is longer. */
  function Title(text: string): (t: string)
    ensures |t| <= TitleLength + 3
    ensures |text| <= TitleLength ==> t == text
    ensures |text| > TitleLength ==> |t| == TitleLength + 3 && t[..TitleLength] == text[..TitleLength]
    ensures |text| > TitleLength ==> t[TitleLength..] == "..."
    ensures t == [] <==> text == []
  {
    Prefix(text, TitleLength) + (if |text| > TitleLength then "..." else "")
  }

  /** The viewed session, when there is one under the viewed id. */
  function ViewedSession(st: State): (r: Option<Session>)
    ensures r.Some? ==> st.viewedId.Some? && r.value in st.sessions && r.value.id == st.viewedId.value
    ensures r.None? ==> st.viewedId.None? || !HasId(st.sessions, st.viewedId.value)
  {
    if st.viewedId.None? then None else Find(st.sessions, st.viewedId.value)
  }

  /** The page's falsy test on the viewed id: nothing is viewed when there is no id or
      when it is the empty string. */
  predicate NothingViewed(st: State) {
    st.viewedId.None? || st.viewedId.value == ""
  }

  /** The messages the chat area shows: those of the viewed session, or none. */
  function CurrentMessages(st: State): (r: seq<Message>)
    ensures NothingViewed(st) || ViewedSession(st).None? ==> r == []
    ensures r != [] ==> exists i :: 0 <= i < |st.sessions| && st.viewedId == Some(st.sessions[i].id)
                                    && r == st.sessions[i].messages
    ensures UniqueIds(st.sessions) ==>
              forall i :: 0 <= i < |st.sessions| && st.viewedId == Some(st.sessions[i].id)
                          && st.sessions[i].id != "" ==>
                r == st.sessions[i].messages
  {
    if NothingViewed(st) then []
    else
      match ViewedSession(st)
      case Some(x) => x.messages
      case None => []
  }

  predicate HasBotMessage(x: Session) {
    exists i :: 0 <= i < |x.messages| && x.messages[i].sender == Bot
  }

  /** A send continues the viewed conversation only when the current socket is open and
      the viewed session exists and already holds a bot reply. */
  predicate CanContinue(st: State, socketOpen: bool) {
    && st.socket.Some?
    && socketOpen
    && ViewedSession(st).Some?
    && HasBotMessage(ViewedSession(st).value)
  }

  /** The session a new conversation starts with: the typed message, the header's region
      and language, and the derived title. */
  function NewSession(st: State, text: string, tempId: Id, messageId: Id, now: Timestamp): Session {
    Session(tempId, now, st.region, st.language, [Message(messageId, User, text, now)], Title(text))
  }

  /** The user sends `text`: either it continues the viewed conversation over the open
      socket, or it starts a new conversation on a new socket. Either way the page
      waits for the bot. */
  function OnSend(st: State, text: string, socketOpen: bool, tempId: Id, messageId: Id, h: Handle, now: Timestamp)
    : (r: Transition)
    ensures r.state.loading
    ensures r.state.region == st.region && r.state.language == st.language
    ensures CanContinue(st, socketOpen) ==> |r.outputs| == 1 && r.outputs[0].Transmit? && r.outputs[0].h == st.socket.value
    ensures !CanContinue(st, socketOpen) ==> |r.outputs| > 0 && r.outputs[|r.outputs| - 1] == Open(h) && r.state.socket == Some(h)
  {
    if CanContinue(st, socketOpen) then
      var active := ViewedSession(st).value;
      var m := Message(messageId, User, text, now);
      Transition(
        st.(sessions := AppendWhere(st.sessions, st.viewedId.value, m), loading := true),
        [Transmit(st.socket.value, SubmitQuestionRequest(text, active.region))])
    else
      var closeOld :=
        if st.socket.Some? && socketOpen
        then [Transmit(st.socket.value, CloseRequest), CloseSocket(st.socket.value)]
        else [];
      var x := NewSession(st, text, tempId, messageId, now);
      Transition(
        st.(sessions := InsertSession(st.sessions, x),
            viewedId := Some(tempId),
            pending := Some(Pending(text, st.region, st.language, tempId)),
            loading := true,
            socket := Some(h)),
        closeOld + [Open(h)])
  }

  /** Selecting a history entry views it when a session has that id; nothing else changes
      and no socket is touched. */
  function OnSelect(st: State, id: Id): (r: State)
    ensures r.viewedId == (if HasId(st.sessions, id) then Some(id) else st.viewedId)
    ensures r.(viewedId := st.viewedId) == st
  {
    if Find(st.sessions, id).Some? then st.(viewedId := Some(id)) else st
  }

  /** Whether an `InitiateConversationResponse` finds a pending question to send. */
  predicate HasPendingQuestion(st: State) {
    st.pending.Some? && st.pending.value.tempSessionId != ""
  }

  /** A frame from socket `h`. Frames are handled whichever socket they come from. */
  function OnFrame(st: State, h: Handle, f: Frame, freshId: Id, now: Timestamp): (r: Transition)
    ensures r.state.socket == st.socket && r.state.region == st.region && r.state.language == st.language
    ensures forall o :: o in r.outputs ==> o.h == h && !o.Open?
    ensures |r.state.sessions| == |st.sessions|
  {
    match f
    case InitiateConversationResponse(cid) =>
      if !HasPendingQuestion(st) then
        Transition(st.(loading := false), [CloseSocket(h)])
      else
        var p := st.pending.value;
        Transition(
          st.(sessions := RenameSession(st.sessions, p.tempSessionId, cid, p.region, p.language),
              viewedId := Some(cid),
              pending := None),
          [Transmit(h, SubmitQuestionRequest(p.text, p.region))])
    case SubmitQuestionResponse(questionId, answer) =>
      var m := Message(BotMessageId(questionId, freshId), Bot, answer, now);
      var sessions := if st.viewedId.None? then st.sessions else AppendWhere(st.sessions, st.viewedId.value, m);
      Transition(st.(sessions := sessions, loading := false), [])
    case ErrorFrame(_, _) =>
      Transition(st.(loading := false, pending := None), [])
    case OtherFrame(_) =>
      Transition(st, [])
    case Malformed =>
      Transition(st.(loading := false, pending := None), [])
  }

  /** A socket reports an error: the page stops waiting and drops the pending question;
      the socket reference is cleared only when the error comes from the current socket. */
  function OnSocketError(st: State, h: Handle): (r: State)
    ensures !r.loading && r.pending.None?
    ensures r.socket != Some(h)
    ensures st.socket != Some(h) ==> r.socket == st.socket
    ensures r.sessions == st.sessions && r.viewedId == st.viewedId
    ensures r.region == st.region && r.language == st.language
  {
    st.(loading := false,
        pending := None,
        socket := if st.socket == Some(h) then None else st.socket)
  }

  /** A socket closes: the page stops waiting; the pending question and the socket
      reference are dropped only when the closing socket is the current one, so the close
      of a superseded socket leaves a new conversation's question in place. */
  function OnSocketClosed(st: State, h: Handle): (r: State)
    ensures !r.loading
    ensures st.socket == Some(h) ==> r.pending.None? && r.socket.None?
    ensures st.socket != Some(h) ==> r.pending == st.pending && r.socket == st.socket
    ensures r.(loading := st.loading, pending := st.pending, socket := st.socket) == st
  {
    var pending :=
      if st.pending.Some? && st.socket != Some(h) then st.pending
      else if st.pending.Some? then None
      else st.pending;
    st.(loading := false,
        pending := pending,
        socket := if st.socket == Some(h) then None else st.socket)
  }

  /** The page's reducer. */
  function Step(st: State, e: Event): (r: Transition)
    ensures e.SelectSession? || e.RegionChanged? || e.LanguageChanged? ==> r.outputs == []
    ensures !e.UserSend? ==> forall o :: o in r.outputs ==> !o.Open?
  {
    match e
    case UserSend(text, socketOpen, tempId, messageId, h, now) =>
      OnSend(st, text, socketOpen, tempId, messageId, h, now)
    case SelectSession(id) =>
      Transition(OnSelect(st, id), [])
    case FrameReceived(h, f, freshId, now) =>
      OnFrame(st, h, f, freshId, now)
    case SocketError(h) =>
      Transition(OnSocketError(st, h), [])
    case SocketClosed(h) =>
      Transition(OnSocketClosed(st, h), [])
    case RegionChanged(region) =>
      Transition(st.(region := region), [])
    case LanguageChanged(language) =>
      Transition(st.(language := language), [])
  }

  /** The id of the newest session, if there is any session. */
  function Newest(s: seq<Session>): (r: Option<Id>)
    ensures r.None? <==> |s| == 0
    ensures r.Some? ==> IsNewestId(s, r.value)
  {
    if |s| == 0 then None
    else
      var sorted := Sort(None, s);
      var top := sorted[0];
      assert top in multiset(s);
      var i :| 0 <= i < |s| && s[i] == top;
      forall j | 0 <= j < |s| ensures s[j].startTime <= top.startTime {
        assert s[j] in multiset(sorted);
        var p :| 0 <= p < |sorted| && sorted[p] == s[j];
        if p > 0 {
          assert InOrder(None, sorted[0], sorted[p]);
        }
      }
      assert IsNewestId(s, top.id) by {
        assert s[i].id == top.id;
      }
      Some(top.id)
  }

  /** The page as first rendered: the seed sessions sorted newest first, the newest one
      viewed, nothing pending, no socket, no region and English in the header. */
  function Init(seed: seq<Session>): (st: State)
    ensures NewestFirst(st.sessions) && multiset(st.sessions) == multiset(seed)
    ensures st.viewedId == Newest(seed)
    ensures st.pending.None? && !st.loading && st.socket.None?
    ensures st.region == NoRegion && st.language == En
  {
    State(Sort(None, seed), Newest(seed), None, false, None, NoRegion, En)
  }

  /** `id` names a session whose start time no other session exceeds. */
  predicate IsNewestId(s: seq<Session>, id: Id) {
    exists i :: 0 <= i < |s| && s[i].id == id && forall j :: 0 <= j < |s| ==> s[j].startTime <= s[i].startTime
  }

  /** The page's effect that views the newest session whenever nothing is viewed. */
  function AutoSelect(st: State): (r: State)
    ensures r.(viewedId := st.viewedId) == st
    ensures !(NothingViewed(st) && |st.sessions| > 0) ==> r == st
    ensures NothingViewed(st) && |st.sessions| > 0 ==> r.viewedId.Some? && IsNewestId(st.sessions, r.viewedId.value)
  {
    if NothingViewed(st) && |st.sessions| > 0 then st.(viewedId := Newest(st.sessions)) else st
  }

  // ---------------------------------------------------------------------------
  // Invariants kept by every step
  // ---------------------------------------------------------------------------

  /** The session list is newest first and its ids are unique. */
  predicate Inv(st: State) {
    NewestFirst(st.sessions) && UniqueIds(st.sessions)
  }

  /** The ids an event brings in are not already used by a session: a new conversation's
      temporary UUID, and the server's conversation id. */
  predicate FreshIds(st: State, e: Event) {
    match e
    case UserSend(_, _, tempId, _, _, _) => !HasId(st.sessions, tempId)
    case FrameReceived(_, InitiateConversationResponse(cid), _, _) => !HasId(st.sessions, cid)
    case _ => true
  }

  /** `after` continues `before`: same start time and title, and the old messages are a
      prefix of the new ones. */
  predicate Extends(before: Session, after: Session) {
    after.startTime == before.startTime && after.title == before.title && before.messages <= after.messages
  }

  /** `f` places every session of `before` in `after`: position `i` goes to `f[i]`, the
      positions keep their order (so no two sessions land in one place and none is
      dropped), each placed session continues the old one, and it keeps its id unless
      that id is `renamed`. */
  predicate Tracks(before: seq<Session>, after: seq<Session>, f: seq<nat>, renamed: Option<Id>) {
    && |f| == |before|
    && (forall i :: 0 <= i < |f| ==>
          && f[i] < |after|
          && Extends(before[i], after[f[i]])
          && (after[f[i]].id == before[i].id || renamed == Some(before[i].id)))
    && (forall i, j :: 0 <= i < j < |f| ==> f[i] < f[j])
  }

  /** The id an event may change: the temporary id of the pending question, when the
      server names the conversation. */
  function RenamedBy(st: State, e: Event): Option<Id> {
    if e.FrameReceived? && e.frame.InitiateConversationResponse? && HasPendingQuestion(st)
    then Some(st.pending.value.tempSessionId)
    else None
  }

  /** Where each session of `st` sits after the event: a new conversation shifts the
      sessions after its insertion point by one; every other event leaves positions. */
  function Placement(st: State, e: Event): seq<nat> {
    if e.UserSend? && !CanContinue(st, e.socketOpen) then
      Shifted(|st.sessions|, InsertIndex(None, NewSession(st, e.text, e.tempId, e.messageId, e.now), st.sessions))
    else
      Shifted(|st.sessions|, |st.sessions|)
  }

  /** The positions `0 .. n-1`, those from `k` on moved up by one to make room at `k`. */
  function Shifted(n: nat, k: nat): (f: seq<nat>)
    ensures |f| == n
    ensures forall i :: 0 <= i < n ==> f[i] == if i < k then i else i + 1
  {
    seq(n, i requires 0 <= i < n => if i < k then i else i + 1)
  }

  /** Every step keeps the session list newest first. */
  lemma {:induction false} StepKeepsOrder(st: State, e: Event)
    requires NewestFirst(st.sessions)
    ensures NewestFirst(Step(st, e).state.sessions)
  {
    match e
    case UserSend(text, socketOpen, tempId, messageId, h, now) =>
      if CanContinue(st, socketOpen) {
        AppendKeepsShape(st.sessions, st.viewedId.value, Message(messageId, User, text, now));
      }
    case FrameReceived(h, SubmitQuestionResponse(q, a), freshId, now) =>
      if st.viewedId.Some? {
        AppendKeepsShape(st.sessions, st.viewedId.value, Message(BotMessageId(q, freshId), Bot, a, now));
      }
    case _ =>
  }

  /** Every step keeps session ids unique, provided the ids it brings in are fresh. */
  lemma {:induction false} StepKeepsUniqueIds(st: State, e: Event)
    requires Inv(st) && FreshIds(st, e)
    ensures Inv(Step(st, e).state)
  {
    StepKeepsOrder(st, e);
    match e
    case UserSend(text, socketOpen, tempId, messageId, h, now) =>
      if CanContinue(st, socketOpen) {
        AppendKeepsShape(st.sessions, st.viewedId.value, Message(messageId, User, text, now));
      } else {
        InsertInPlace(st.sessions, NewSession(st, text, tempId, messageId, now));
      }
    case FrameReceived(h, InitiateConversationResponse(cid), freshId, now) =>
      if HasPendingQuestion(st) {
        var p := st.pending.value;
        RenameInPlace(st.sessions, p.tempSessionId, cid, p.region, p.language);
        RenameTouchesOnlyTarget(st.sessions, p.tempSessionId, cid, p.region, p.language);
      }
    case FrameReceived(h, SubmitQuestionResponse(q, a), freshId, now) =>
      if st.viewedId.Some? {
        AppendKeepsShape(st.sessions, st.viewedId.value, Message(BotMessageId(q, freshId), Bot, a, now));
      }
    case _ =>
  }

  /** A list continued position by position is tracked by the placement that moves
      nothing. */
  lemma PointwiseTracks(s: seq<Session>, r: seq<Session>, renamed: Option<Id>)
    requires |s| == |r|
    requires forall i :: 0 <= i < |s| ==> Extends(s[i], r[i]) && (r[i].id == s[i].id || renamed == Some(s[i].id))
    ensures Tracks(s, r, Shifted(|s|, |s|), renamed)
  {
  }

  /** Splicing `x` in at `k` moves the sessions from `k` on up by one and keeps each. */
  lemma SpliceTracks(s: seq<Session>, x: Session, k: nat, renamed: Option<Id>)
    requires k <= |s|
    ensures Tracks(s, s[..k] + [x] + s[k..], Shifted(|s|, k), renamed)
  {
    var r := s[..k] + [x] + s[k..];
    var f := Shifted(|s|, k);
    forall i | 0 <= i < |s| ensures f[i] < |r| && r[f[i]] == s[i] {
      if i >= k {
        assert r[i + 1] == s[k..][i - k];
      }
    }
  }

  /** Appending a message continues every session of the list in place. */
  lemma AppendExtends(s: seq<Session>, id: Id, m: Message)
    ensures forall i :: 0 <= i < |s| ==>
              Extends(s[i], AppendWhere(s, id, m)[i]) && AppendWhere(s, id, m)[i].id == s[i].id
  {
    var r := AppendWhere(s, id, m);
    forall i | 0 <= i < |s| ensures Extends(s[i], r[i]) {
      if s[i].id == id {
        assert r[i].messages[..|s[i].messages|] == s[i].messages;
      }
    }
  }

  lemma SendKeepsHistory(st: State, e: Event)
    requires e.UserSend? && NewestFirst(st.sessions)
    ensures Tracks(st.sessions, Step(st, e).state.sessions, Placement(st, e), RenamedBy(st, e))
  {
    var s := st.sessions;
    assert RenamedBy(st, e) == None;
    if CanContinue(st, e.socketOpen) {
      var m := Message(e.messageId, User, e.text, e.now);
      assert Step(st, e).state.sessions == AppendWhere(s, st.viewedId.value, m);
      AppendExtends(s, st.viewedId.value, m);
      PointwiseTracks(s, AppendWhere(s, st.viewedId.value, m), None);
    } else {
      var x := NewSession(st, e.text, e.tempId, e.messageId, e.now);
      var k := InsertIndex(None, x, s);
      InsertInPlace(s, x);
      assert Step(st, e).state.sessions == s[..k] + [x] + s[k..];
      SpliceTracks(s, x, k, None);
    }
  }

  lemma FrameKeepsHistory(st: State, e: Event)
    requires e.FrameReceived? && NewestFirst(st.sessions)
    ensures Tracks(st.sessions, Step(st, e).state.sessions, Placement(st, e), RenamedBy(st, e))
  {
    if e.frame.InitiateConversationResponse? && HasPendingQuestion(st) {
      RenameKeepsHistory(st, e);
    } else if e.frame.SubmitQuestionResponse? && st.viewedId.Some? {
      AnswerKeepsHistory(st, e);
    } else {
      assert Step(st, e).state.sessions == st.sessions;
      PointwiseTracks(st.sessions, st.sessions, None);
    }
  }

  lemma RenameKeepsHistory(st: State, e: Event)
    requires e.FrameReceived? && e.frame.InitiateConversationResponse? && HasPendingQuestion(st)
    requires NewestFirst(st.sessions)
    ensures Tracks(st.sessions, Step(st, e).state.sessions, Placement(st, e), RenamedBy(st, e))
  {
    var s := st.sessions;
    var p := st.pending.value;
    var cid := e.frame.conversationId;
    var w := RenameWhere(s, p.tempSessionId, cid, p.region, p.language);
    RenameInPlace(s, p.tempSessionId, cid, p.region, p.language);
    assert Step(st, e).state.sessions == w;
    assert forall i :: 0 <= i < |s| ==> Extends(s[i], w[i]);
    PointwiseTracks(s, w, Some(p.tempSessionId));
  }

  lemma AnswerKeepsHistory(st: State, e: Event)
    requires e.FrameReceived? && e.frame.SubmitQuestionResponse? && st.viewedId.Some?
    ensures Tracks(st.sessions, Step(st, e).state.sessions, Placement(st, e), RenamedBy(st, e))
  {
    var s := st.sessions;
    var m := Message(BotMessageId(e.frame.questionId, e.freshId), Bot, e.frame.answer, e.now);
    assert Step(st, e).state.sessions == AppendWhere(s, st.viewedId.value, m);
    AppendExtends(s, st.viewedId.value, m);
    PointwiseTracks(s, AppendWhere(s, st.viewedId.value, m), None);
  }

  /** Sessions are never lost and messages are append-only: every session of the list
      lives on at its own place in the new list, in the same relative order, with the
      same start time and title and its old messages as a prefix of the new ones. Its id
      is kept, except that the pending temporary session takes the server's id. */
  lemma StepKeepsHistory(st: State, e: Event)
    requires NewestFirst(st.sessions)
    ensures Tracks(st.sessions, Step(st, e).state.sessions, Placement(st, e), RenamedBy(st, e))
  {
    match e
    case UserSend(_, _, _, _, _, _) =>
      SendKeepsHistory(st, e);
    case FrameReceived(_, _, _, _) =>
      FrameKeepsHistory(st, e);
    case _ =>
      PointwiseTracks(st.sessions, Step(st, e).state.sessions, None);
  }

  /** An error followed by the same socket's close, as a browser reports a failed
      socket, leaves nothing more for the close to do. */
  lemma ErrorThenCloseSettles(st: State, h: Handle)
    ensures OnSocketClosed(OnSocketError(st, h), h) == OnSocketError(st, h)
  {
  }

  // ---------------------------------------------------------------------------
  // The sending paths
  // ---------------------------------------------------------------------------

  /** A send opens a new socket exactly when it cannot continue the viewed
      conversation. */
  lemma SendOpensSocketIffNewConversation(st: State, e: Event)
    requires e.UserSend?
    ensures Open(e.newSocket) in Step(st, e).outputs <==> !CanContinue(st, e.socketOpen)
  {
    var r := Step(st, e);
    if CanContinue(st, e.socketOpen) {
      assert r.outputs[0].Transmit?;
    }
  }

  /** A new conversation adds exactly one session: the fresh id, one user message with
      the typed text, the header's region and language. It is spliced into the list by
      start time, every earlier session is unchanged, it becomes the viewed session, and
      its question is held as pending. An open current socket gets a close request and is
      closed before the new one opens. */
  lemma NewConversation(st: State, e: Event)
    requires e.UserSend? && !CanContinue(st, e.socketOpen)
    requires NewestFirst(st.sessions)
    ensures var r := Step(st, e);
            var x := NewSession(st, e.text, e.tempId, e.messageId, e.now);
            var k := InsertIndex(None, x, st.sessions);
            && r.state.sessions == st.sessions[..k] + [x] + st.sessions[k..]
            && x.messages == [Message(e.messageId, User, e.text, e.now)]
            && r.state.viewedId == Some(e.tempId)
            && r.state.pending == Some(Pending(e.text, st.region, st.language, e.tempId))
            && r.state.loading && r.state.socket == Some(e.newSocket)
            && r.outputs == (if st.socket.Some? && e.socketOpen
                             then [Transmit(st.socket.value, CloseRequest), CloseSocket(st.socket.value)]
                             else []) + [Open(e.newSocket)]
    ensures Inv(st) && !HasId(st.sessions, e.tempId) ==>
              var r := Step(st, e);
              ViewedSession(r.state) == Some(NewSession(st, e.text, e.tempId, e.messageId, e.now))
  {
    var x := NewSession(st, e.text, e.tempId, e.messageId, e.now);
    InsertInPlace(st.sessions, x);
    var r := Step(st, e);
    if Inv(st) && !HasId(st.sessions, e.tempId) {
      var k := InsertIndex(None, x, st.sessions);
      assert r.state.sessions[k] == x;
    }
  }

  /** Continuing a conversation appends the user message to the viewed session only and
      sends the question with that session's region over the current socket; the pending
      question, the viewed id and the socket are untouched. */
  lemma ContinueConversation(st: State, e: Event)
    requires e.UserSend? && CanContinue(st, e.socketOpen)
    requires UniqueIds(st.sessions)
    ensures var r := Step(st, e);
            var k := IndexOf(st.sessions, st.viewedId.value).value;
            var m := Message(e.messageId, User, e.text, e.now);
            && r.state.sessions == st.sessions[k := WithMessage(st.sessions[k], m)]
            && r.outputs == [Transmit(st.socket.value, SubmitQuestionRequest(e.text, st.sessions[k].region))]
            && r.state.pending == st.pending && r.state.viewedId == st.viewedId
            && r.state.socket == st.socket && r.state.loading
  {
    AppendTouchesOnlyTarget(st.sessions, st.viewedId.value, Message(e.messageId, User, e.text, e.now));
  }

  // ---------------------------------------------------------------------------
  // Inbound frames
  // ---------------------------------------------------------------------------

  /** The server names the conversation while a question is pending: only the session
      under the temporary id changes, taking the server id and the pending region and
      language with its messages untouched; it becomes the viewed session; exactly one
      question is sent, carrying the pending text and region, on the socket that
      answered; the pending slot is emptied. */
  lemma InitiateRenamesTemporarySession(st: State, h: Handle, cid: Id, freshId: Id, now: Timestamp)
    requires HasPendingQuestion(st) && Inv(st)
    ensures var r := Step(st, FrameReceived(h, InitiateConversationResponse(cid), freshId, now));
            var p := st.pending.value;
            && |r.state.sessions| == |st.sessions|
            && (IndexOf(st.sessions, p.tempSessionId).Some? ==>
                  var k := IndexOf(st.sessions, p.tempSessionId).value;
                  r.state.sessions == st.sessions[k := Renamed(st.sessions[k], cid, p.region, p.language)])
            && (IndexOf(st.sessions, p.tempSessionId).None? ==> r.state.sessions == st.sessions)
            && (forall i :: 0 <= i < |st.sessions| ==> r.state.sessions[i].messages == st.sessions[i].messages)
            && r.state.viewedId == Some(cid)
            && r.outputs == [Transmit(h, SubmitQuestionRequest(p.text, p.region))]
            && r.state.pending.None?
            && r.state.loading == st.loading && r.state.socket == st.socket
            && (!HasId(st.sessions, cid) ==> Inv(r.state))
  {
    var p := st.pending.value;
    RenameInPlace(st.sessions, p.tempSessionId, cid, p.region, p.language);
    RenameTouchesOnlyTarget(st.sessions, p.tempSessionId, cid, p.region, p.language);
  }

  /** The server names a conversation while nothing is pending: the page stops waiting
      and closes the socket that sent it; sessions and the viewed id are unchanged. */
  lemma InitiateWithoutPendingCloses(st: State, h: Handle, cid: Id, freshId: Id, now: Timestamp)
    requires !HasPendingQuestion(st)
    ensures var r := Step(st, FrameReceived(h, InitiateConversationResponse(cid), freshId, now));
            && r.state == st.(loading := false)
            && r.outputs == [CloseSocket(h)]
  {
  }

  /** An answer appends exactly one bot message to the end of the viewed session (the
      live conversation or not); its id is the question id when present and non-empty,
      a fresh id otherwise. Every other session, and the earlier messages, are
      unchanged, and the page stops waiting. */
  lemma AnswerAppendsToViewedSession(st: State, h: Handle, q: Option<string>, answer: string, freshId: Id, now: Timestamp)
    requires UniqueIds(st.sessions)
    ensures var r := Step(st, FrameReceived(h, SubmitQuestionResponse(q, answer), freshId, now));
            var m := Message(BotMessageId(q, freshId), Bot, answer, now);
            && (ViewedSession(st).Some? ==>
                  var k := IndexOf(st.sessions, st.viewedId.value).value;
                  && r.state.sessions == st.sessions[k := WithMessage(st.sessions[k], m)]
                  && (st.viewedId.value != "" ==> CurrentMessages(r.state) == CurrentMessages(st) + [m]))
            && (ViewedSession(st).None? ==> r.state.sessions == st.sessions)
            && !r.state.loading
            && r.state.pending == st.pending && r.state.viewedId == st.viewedId
            && r.state.socket == st.socket && r.outputs == []
  {
    var m := Message(BotMessageId(q, freshId), Bot, answer, now);
    var r := Step(st, FrameReceived(h, SubmitQuestionResponse(q, answer), freshId, now));
    if st.viewedId.Some? {
      AppendTouchesOnlyTarget(st.sessions, st.viewedId.value, m);
      AppendKeepsShape(st.sessions, st.viewedId.value, m);
      if ViewedSession(st).Some? {
        var k := IndexOf(st.sessions, st.viewedId.value).value;
        assert r.state.sessions[k] == WithMessage(st.sessions[k], m);
      }
    }
  }

  /** An error frame, or a frame that fails to parse, stops the wait and drops the pending
      question; sessions, the viewed id and the socket are unchanged and nothing is sent.
      A well-formed frame of any other type changes nothing at all. */
  lemma ErrorFramesClearPending(st: State, h: Handle, f: Frame, freshId: Id, now: Timestamp)
    requires f.ErrorFrame? || f.Malformed? || f.OtherFrame?
    ensures var r := Step(st, FrameReceived(h, f, freshId, now));
            && r.outputs == []
            && (f.OtherFrame? ==> r.state == st)
            && (!f.OtherFrame? ==> r.state == st.(loading := false, pending := None))
  {
  }

  // ---------------------------------------------------------------------------
  // Socket errors and closures
  // ---------------------------------------------------------------------------

  /** An error or close from a superseded socket leaves the sessions, the viewed id and
      the current socket alone; a close also leaves the pending question alone, while an
      error drops it. From the current socket, both clear the socket reference and the
      pending question. */
  lemma StaleSocketEvents(st: State, h: Handle)
    ensures var r := Step(st, SocketError(h)).state;
            && r.sessions == st.sessions && r.viewedId == st.viewedId && !r.loading && r.pending.None?
            && r.socket == (if st.socket == Some(h) then None else st.socket)
    ensures var r := Step(st, SocketClosed(h)).state;
            && r.sessions == st.sessions && r.viewedId == st.viewedId && !r.loading
            && (st.socket != Some(h) ==> r.pending == st.pending && r.socket == st.socket)
            && (st.socket == Some(h) ==> r.pending.None? && r.socket.None?)
  {
  }

  /** A frame, unlike an error or a close, is not checked against the current socket: a
      superseded socket that answers still changes the viewed session. */
  lemma StaleFramesAreNotDiscarded(st: State, h: Handle, answer: string, freshId: Id, now: Timestamp)
    requires st.socket != Some(h)
    requires UniqueIds(st.sessions) && ViewedSession(st).Some?
    ensures Step(st, FrameReceived(h, SubmitQuestionResponse(None, answer), freshId, now)).state.sessions != st.sessions
  {
    var m := Message(freshId, Bot, answer, now);
    AnswerAppendsToViewedSession(st, h, None, answer, freshId, now);
    var k := IndexOf(st.sessions, st.viewedId.value).value;
    var r := Step(st, FrameReceived(h, SubmitQuestionResponse(None, answer), freshId, now)).state.sessions;
    assert |r[k].messages| == |st.sessions[k].messages| + 1;
  }

  // ---------------------------------------------------------------------------
  // Selection and the header
  // ---------------------------------------------------------------------------

  /** Selecting a session views it exactly when a session has that id (or it is already
      viewed), changes nothing else, and asks nothing of the sockets. */
  lemma SelectionViewsKnownSession(st: State, id: Id)
    ensures var r := Step(st, SelectSession(id));
            && (r.state.viewedId == Some(id) <==> HasId(st.sessions, id) || st.viewedId == Some(id))
            && r.state.(viewedId := st.viewedId) == st
            && r.outputs == []
  {
  }

  /** Changing the header's region or language only records the choice: the sessions,
      the pending question and the socket are untouched and nothing is sent. */
  lemma HeaderChangeOnlyRecords(st: State, region: RegionOrNone, language: Language)
    ensures Step(st, RegionChanged(region)) == Transition(st.(region := region), [])
    ensures Step(st, LanguageChanged(language)) == Transition(st.(language := language), [])
  {
  }

  /** A send that starts a new conversation while a question is still pending (the
      socket is still connecting, or it is open but cannot continue the viewed session)
      replaces that question: its session stays in the list with the question never
      sent. An open socket is told to close before the new one opens. */
  lemma SendWhileConnectingReplacesPending(st: State, e: Event)
    requires e.UserSend? && !CanContinue(st, e.socketOpen) && st.pending.Some?
    requires NewestFirst(st.sessions)
    ensures var r := Step(st, e).state;
            && r.pending == Some(Pending(e.text, st.region, st.language, e.tempId))
            && |r.sessions| == |st.sessions| + 1
            && (forall i :: 0 <= i < |st.sessions| ==> st.sessions[i] in r.sessions)
    ensures var out := Step(st, e).outputs;
            && |out| > 0 && out[|out| - 1] == Open(e.newSocket)
            && (st.socket.Some? && e.socketOpen ==> out[0] == Transmit(st.socket.value, CloseRequest))
  {
    NewConversation(st, e);
  }
}
