/**
  The ChatBox component as an object: its state hooks are fields, and each
  handler updates them step by step as the component does. Every method is
  proved to leave exactly the state its transition function in ChatState
  describes and to return the requests it sent.
 */
module ChatBoxComponent {
  import opened ChatTypes
  import opened JsText
  import ChatState

  class ChatBox {
    var sessions: seq<Session>
    var activeSession: Option<Session>
    var messages: seq<Message>
    var input: string
    var loading: bool
    var page: nat
    var totalMessages: nat
    var error: Option<string>
    var typing: bool

    /** The fields as one state value. */
    function Snapshot(): ChatState.State
      reads this
    {
      ChatState.State(sessions, activeSession, messages, input, loading, page, totalMessages, error, typing)
    }

    /** The component as first rendered, before the mount effect runs. */
    constructor ()
      ensures Snapshot() == ChatState.Initial
    {
      sessions := [];
      activeSession := None;
      messages := [];
      input := "";
      loading := false;
      page := 0;
      totalMessages := 0;
      error := None;
      typing := false;
    }

    /** A click on a session in the sidebar. */
    method SelectSession(s: Session)
      modifies this
      ensures Snapshot() == ChatState.SelectSession(old(Snapshot()), s)
    {
      activeSession := Some(s);
      page := 0;
      messages := [];
    }

    /** The "Load More" button. */
    method LoadMore()
      modifies this
      ensures Snapshot() == ChatState.LoadMore(old(Snapshot()))
    {
      page := page + 1;
    }

    /** The composer's change handler. */
    method SetInput(text: string)
      modifies this
      ensures Snapshot() == ChatState.SetInput(old(Snapshot()), text)
    {
      input := text;
    }

    method FetchSessions(resp: Response<seq<Session>>) returns (issued: seq<Request>)
      modifies this
      ensures Snapshot() == ChatState.FetchSessions(old(Snapshot()), resp).next
      ensures issued == ChatState.FetchSessions(old(Snapshot()), resp).issued
    {
      issued := [ListSessions(USER_ID)];
      if resp.Ok? {
        var data := resp.body;
        sessions := data;
        if |data| > 0 && activeSession.None? {
          activeSession := Some(data[0]);
        }
        error := None;
      } else {
        error := Some(ErrorText(resp, SESSIONS_FAILED));
      }
    }

    method FetchMessages(sessionId: int, pageNum: nat, resp: Response<MessagePage>) returns (issued: seq<Request>)
      modifies this
      ensures Snapshot() == ChatState.FetchMessages(old(Snapshot()), sessionId, pageNum, resp).next
      ensures issued == ChatState.FetchMessages(old(Snapshot()), sessionId, pageNum, resp).issued
    {
      loading := true;
      issued := [ListMessages(USER_ID, sessionId, pageNum, PAGE_SIZE)];
      if resp.Ok? {
        messages := PageMessages(resp);
        totalMessages := PageTotal(resp);
        error := None;
      } else {
        messages := [];
        totalMessages := 0;
        error := Some(ErrorText(resp, MESSAGES_FAILED));
      }
      loading := false;
    }

    /**
      The effect that runs when `activeSession` or `page` changes: load the
      current page of the active session, if there is one.
     */
    method MessagesEffect(resp: Response<MessagePage>) returns (issued: seq<Request>)
      modifies this
      ensures old(activeSession).None? ==> Snapshot() == old(Snapshot()) && issued == []
      ensures old(activeSession).Some? ==>
        var t := ChatState.FetchMessages(old(Snapshot()), old(activeSession).value.id, old(page), resp);
        Snapshot() == t.next && issued == t.issued
    {
      issued := [];
      if activeSession.Some? {
        issued := FetchMessages(activeSession.value.id, page, resp);
      }
    }

    /** The part of `sendMessage` before the POST is awaited: the optimistic append. */
    method BeginSend(now: int, nowIso: string)
      modifies this
      ensures Snapshot() == ChatState.BeginSend(old(Snapshot()), now, nowIso)
    {
      loading := true;
      typing := true;
      messages := messages + [ChatState.OptimisticMessage(input, now, nowIso)];
      input := "";
    }

    method SendMessage(now: int, nowIso: string, post: Response<()>,
                       pageResp: Response<MessagePage>, sessionsResp: Response<seq<Session>>)
      returns (issued: seq<Request>)
      modifies this
      ensures Snapshot() == ChatState.SendMessage(old(Snapshot()), now, nowIso, post, pageResp, sessionsResp).next
      ensures issued == ChatState.SendMessage(old(Snapshot()), now, nowIso, post, pageResp, sessionsResp).issued
    {
      if IsBlank(input) || activeSession.None? {
        return [];
      }
      var session := activeSession.value;
      var text := input;
      var pageNum := page;
      BeginSend(now, nowIso);
      issued := SettleSend(text, session.id, pageNum, post, pageResp, sessionsResp);
    }

    /** The part of `sendMessage` after the optimistic append: the POST and, if accepted, the refetches. */
    method SettleSend(text: string, sessionId: int, pageNum: nat, post: Response<()>,
                      pageResp: Response<MessagePage>, sessionsResp: Response<seq<Session>>)
      returns (issued: seq<Request>)
      modifies this
      ensures Snapshot() == ChatState.SettleSend(old(Snapshot()), text, sessionId, pageNum, post, pageResp, sessionsResp).next
      ensures issued == ChatState.SettleSend(old(Snapshot()), text, sessionId, pageNum, post, pageResp, sessionsResp).issued
    {
      issued := [CreateMessage(text, USER_ID, sessionId)];
      if post.Ok? {
        var fetchedPage := FetchMessages(sessionId, pageNum, pageResp);
        var fetchedSessions := FetchSessions(sessionsResp);
        error := None;
        issued := issued + fetchedPage + fetchedSessions;
      } else {
        error := Some(ErrorText(post, SEND_FAILED));
      }
      typing := false;
      loading := false;
    }

    method StartNewSession(prompted: Option<string>, resp: Response<Session>) returns (issued: seq<Request>)
      modifies this
      ensures Snapshot() == ChatState.StartNewSession(old(Snapshot()), prompted, resp).next
      ensures issued == ChatState.StartNewSession(old(Snapshot()), prompted, resp).issued
    {
      var title := ChatState.PromptedTitle(prompted);
      if IsBlank(title) {
        return [];
      }
      loading := true;
      issued := [CreateSession(USER_ID, title)];
      if resp.Ok? {
        var session := resp.body;
        sessions := [session] + sessions;
        activeSession := Some(session);
        page := 0;
        messages := [];
        error := None;
      } else {
        error := Some(ErrorText(resp, CREATE_FAILED));
      }
      loading := false;
    }
  }
}
