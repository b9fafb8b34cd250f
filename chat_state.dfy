/**
  The ChatBox component's state as one value, and each handler as a function
  from the state before it runs to the state after it has finished, together
  with the requests it issued. Every handler is modelled as one atomic run:
  the awaited responses are parameters, in the order the handler awaits them.
 */
module ChatState {
  import opened ChatTypes
  import opened JsText

  /** The component's state fields, in declaration order (dark mode and the sidebar flag left out). */
  datatype State = State(
    sessions: seq<Session>,
    activeSession: Option<Session>,
    messages: seq<Message>,
    input: string,
    loading: bool,
    page: nat,
    totalMessages: nat,
    error: Option<string>,
    typing: bool)

  /** The state after a handler, and the requests it sent, in order. */
  datatype Transition = Transition(next: State, issued: seq<Request>)

  /** The initial values given to the state hooks. */
  const Initial: State := State([], None, [], "", false, 0, 0, None, false)

  /** Number of pages needed to show `total` messages, `PAGE_SIZE` at a time. */
  function PageCount(total: nat): nat
  {
    (total + PAGE_SIZE - 1) / PAGE_SIZE
  }

  /** `canLoadMore`: another page exists past the current one. */
  predicate CanLoadMore(st: State)
  {
    (st.page + 1) * PAGE_SIZE < st.totalMessages
  }

  /** `canLoadMore` holds exactly when the current page is not the last page of the history. */
  lemma CanLoadMoreIffNotLastPage(st: State)
    ensures CanLoadMore(st) <==> st.page + 1 < PageCount(st.totalMessages)
  {
  }

  /** A click on a session in the sidebar. */
  function SelectSession(st: State, s: Session): (r: State)
    ensures r.activeSession == Some(s) && r.page == 0 && r.messages == []
    ensures r.sessions == st.sessions && r.totalMessages == st.totalMessages && r.error == st.error
    ensures r.input == st.input && r.loading == st.loading && r.typing == st.typing
  {
    st.(activeSession := Some(s), page := 0, messages := [])
  }

  /**
    The "Load More" button: the next page becomes current, and while the
    button is shown that page starts within the history.
   */
  function LoadMore(st: State): (r: State)
    ensures r.page == st.page + 1 && r == st.(page := r.page)
    ensures CanLoadMore(st) ==> r.page * PAGE_SIZE < r.totalMessages
  {
    st.(page := st.page + 1)
  }

  /** Typing into the composer: the typed text alone decides whether Send would send. */
  function SetInput(st: State, text: string): (r: State)
    ensures r == st.(input := text)
    ensures CanSend(r) <==> !IsBlank(text) && st.activeSession.Some?
  {
    st.(input := text)
  }

  /** `fetchSessions`: list the user's sessions. */
  function FetchSessions(st: State, resp: Response<seq<Session>>): (t: Transition)
    ensures t.issued == [ListSessions(USER_ID)]
    ensures resp.Ok? ==> t.next.sessions == resp.body && t.next.error == None
    ensures resp.Ok? && |resp.body| > 0 && st.activeSession.None? ==> t.next.activeSession == Some(resp.body[0])
    ensures !(resp.Ok? && |resp.body| > 0 && st.activeSession.None?) ==> t.next.activeSession == st.activeSession
    ensures !resp.Ok? ==> t.next.sessions == st.sessions && t.next.error == Some(ErrorText(resp, SESSIONS_FAILED))
    ensures t.next == st.(sessions := t.next.sessions, activeSession := t.next.activeSession, error := t.next.error)
  {
    var next :=
      match resp
      case Ok(data) =>
        var s1 := st.(sessions := data);
        var s2 := if |data| > 0 && st.activeSession.None? then s1.(activeSession := Some(data[0])) else s1;
        s2.(error := None)
      case _ => st.(error := Some(ErrorText(resp, SESSIONS_FAILED)));
    Transition(next, [ListSessions(USER_ID)])
  }

  /** `fetchMessages(sessionId, pageNum)`: load one page of a session's messages. */
  function FetchMessages(st: State, sessionId: int, pageNum: nat, resp: Response<MessagePage>): (t: Transition)
    ensures t.issued == [ListMessages(USER_ID, sessionId, pageNum, PAGE_SIZE)]
    ensures !t.next.loading
    ensures resp.Ok? ==> t.next.error == None
    ensures resp.Ok? && resp.body.messages.Some? ==> t.next.messages == resp.body.messages.value
    ensures resp.Ok? && resp.body.messages.None? ==> t.next.messages == []
    ensures resp.Ok? && resp.body.total.Some? ==> t.next.totalMessages == resp.body.total.value
    ensures resp.Ok? && resp.body.total.None? ==> t.next.totalMessages == 0
    ensures !resp.Ok? ==> t.next.messages == [] && t.next.totalMessages == 0
    ensures !resp.Ok? ==> t.next.error == Some(ErrorText(resp, MESSAGES_FAILED))
    ensures t.next == st.(messages := t.next.messages, totalMessages := t.next.totalMessages,
                          error := t.next.error, loading := false)
  {
    var s1 := st.(loading := true);
    var s2 :=
      match resp
      case Ok(data) => s1.(messages := PageMessages(resp), totalMessages := PageTotal(resp), error := None)
      case _ => s1.(messages := [], totalMessages := 0, error := Some(ErrorText(resp, MESSAGES_FAILED)));
    Transition(s2.(loading := false), [ListMessages(USER_ID, sessionId, pageNum, PAGE_SIZE)])
  }

  /** The placeholder shown at once for a message being sent. */
  function OptimisticMessage(text: string, now: int, nowIso: string): Message
  {
    Message(now, text, User, nowIso, Some(Sent))
  }

  /** What `sendMessage` does before it awaits the POST: the optimistic append. */
  function BeginSend(st: State, now: int, nowIso: string): (r: State)
    ensures |r.messages| == |st.messages| + 1
    ensures forall i :: 0 <= i < |st.messages| ==> r.messages[i] == st.messages[i]
    ensures var m := r.messages[|st.messages|];
      m.id == now && m.text == st.input && m.sender == User && m.createdAt == nowIso && m.status == Some(Sent)
    ensures r.input == "" && r.loading && r.typing
    ensures r.error == st.error && r.sessions == st.sessions && r.activeSession == st.activeSession
    ensures r.page == st.page && r.totalMessages == st.totalMessages
  {
    var s1 := st.(loading := true, typing := true);
    var s2 := s1.(messages := s1.messages + [OptimisticMessage(st.input, now, nowIso)]);
    s2.(input := "")
  }

  /** The guard at the top of `sendMessage`: `!input.trim() || !activeSession` sends nothing. */
  function CanSend(st: State): (r: bool)
    ensures r <==> Trim(st.input) != [] && st.activeSession.Some?
  {
    TrimEmptyIffBlank(st.input);
    !IsBlank(st.input) && st.activeSession.Some?
  }

  /**
    `sendMessage`: append the optimistic message, POST the untrimmed input,
    and on success refetch the current page and then the session list.
   */
  function SendMessage(st: State, now: int, nowIso: string, post: Response<()>,
                       pageResp: Response<MessagePage>, sessionsResp: Response<seq<Session>>): (t: Transition)
    ensures !CanSend(st) ==> t == Transition(st, [])
    ensures CanSend(st) ==> !t.next.loading && !t.next.typing && t.next.input == ""
    ensures CanSend(st) ==> t.next.activeSession == st.activeSession && t.next.page == st.page
    ensures CanSend(st) && !post.Ok? ==>
      && t.next.messages == st.messages + [OptimisticMessage(st.input, now, nowIso)]
      && t.next.error == Some(ErrorText(post, SEND_FAILED))
      && t.next.sessions == st.sessions && t.next.totalMessages == st.totalMessages
      && t.issued == [CreateMessage(st.input, USER_ID, st.activeSession.value.id)]
    ensures CanSend(st) && post.Ok? ==>
      && t.next.messages == PageMessages(pageResp)
      && t.next.totalMessages == PageTotal(pageResp)
      && t.next.error == None
      && t.next.sessions == (if sessionsResp.Ok? then sessionsResp.body else st.sessions)
      && t.issued == [CreateMessage(st.input, USER_ID, st.activeSession.value.id),
                      ListMessages(USER_ID, st.activeSession.value.id, st.page, PAGE_SIZE),
                      ListSessions(USER_ID)]
  {
    if !CanSend(st) then Transition(st, [])
    else
      var session := st.activeSession.value;
      SettleSend(BeginSend(st, now, nowIso), st.input, session.id, st.page, post, pageResp, sessionsResp)
  }

  /**
    What `sendMessage` does once the optimistic message is shown: POST `text`
    and, if accepted, refetch page `pageNum` and then the sessions; typing and
    loading end false.
   */
  function SettleSend(sending: State, text: string, sessionId: int, pageNum: nat, post: Response<()>,
                      pageResp: Response<MessagePage>, sessionsResp: Response<seq<Session>>): Transition
  {
    var posted := [CreateMessage(text, USER_ID, sessionId)];
    var settled :=
      if post.Ok? then
        var fm := FetchMessages(sending, sessionId, pageNum, pageResp);
        var fs := FetchSessions(fm.next, sessionsResp);
        Transition(fs.next.(error := None), posted + fm.issued + fs.issued)
      else
        Transition(sending.(error := Some(ErrorText(post, SEND_FAILED))), posted);
    Transition(settled.next.(typing := false, loading := false), settled.issued)
  }

  /** The title `prompt(...) || "New session"`: a cancelled or empty prompt gives the default. */
  function PromptedTitle(prompted: Option<string>): (r: string)
    ensures r != []
    ensures prompted.Some? && prompted.value != [] ==> r == prompted.value
    ensures prompted.None? || prompted.value == [] ==> r == DEFAULT_TITLE
  {
    match prompted
    case Some(t) => if t == "" then DEFAULT_TITLE else t
    case None => DEFAULT_TITLE
  }

  /** Only a non-empty, whitespace-only answer to the prompt gives a blank title. */
  lemma BlankTitleOnlyFromWhitespace(prompted: Option<string>)
    ensures IsBlank(PromptedTitle(prompted)) <==>
      prompted.Some? && prompted.value != "" && forall i :: 0 <= i < |prompted.value| ==> IsWhitespace(prompted.value[i])
  {
    assert !IsWhitespace(DEFAULT_TITLE[0]);
  }

  /** `startNewSession`: create a session with the prompted title and make it active. */
  function StartNewSession(st: State, prompted: Option<string>, resp: Response<Session>): (t: Transition)
    ensures IsBlank(PromptedTitle(prompted)) ==> t == Transition(st, [])
    ensures !IsBlank(PromptedTitle(prompted)) ==> t.issued == [CreateSession(USER_ID, PromptedTitle(prompted))]
    ensures !IsBlank(PromptedTitle(prompted)) ==> !t.next.loading
    ensures !IsBlank(PromptedTitle(prompted)) && resp.Ok? ==>
      && t.next.sessions == [resp.body] + st.sessions
      && t.next.activeSession == Some(resp.body)
      && t.next.page == 0 && t.next.messages == [] && t.next.error == None
      && t.next.totalMessages == st.totalMessages && t.next.input == st.input && t.next.typing == st.typing
    ensures !IsBlank(PromptedTitle(prompted)) && !resp.Ok? ==>
      t.next == st.(error := Some(ErrorText(resp, CREATE_FAILED)), loading := false)
  {
    var title := PromptedTitle(prompted);
    if IsBlank(title) then Transition(st, [])
    else
      var s1 := st.(loading := true);
      var s2 :=
        match resp
        case Ok(session) =>
          s1.(sessions := [session] + st.sessions, activeSession := Some(session),
              page := 0, messages := [], error := None)
        case _ => s1.(error := Some(ErrorText(resp, CREATE_FAILED)));
      Transition(s2.(loading := false), [CreateSession(USER_ID, title)])
  }
}
