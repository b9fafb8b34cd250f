/**
  The component as the user drives it: each UI event runs its handler and
  then, when the handler left a different object in `activeSession` or a
  different `page`, the effect that loads the active session's current page.
  React compares the effect's dependencies by object identity, so the state
  is paired with one extra fact: whether the object held as `activeSession`
  is one of the objects of the `sessions` list.
 */
module ChatEvents {
  import opened ChatTypes
  import opened JsText
  import opened ChatState

  /**
    The component's state, and whether the object held as `activeSession`
    is the very object found in `sessions` (it was taken from that list)
    rather than an object of an earlier listing.
   */
  datatype Component = Component(state: State, activeListed: bool)

  /** The component as mounted: no session is held, so none is listed. */
  const Start: Component := Component(Initial, false)

  /** The component after one event, and the requests sent, in order. */
  datatype Reaction = Reaction(next: Component, issued: seq<Request>)

  /**
    A UI event, with the responses to every request it leads to: `refetch`
    answers the page load of the effect, if the effect fires. A click on a
    session names the position of the sidebar entry clicked.
   */
  datatype Event =
    | Mounted(sessionsResp: Response<seq<Session>>, refetch: Response<MessagePage>)
    | Typed(text: string)
    | SessionClicked(index: nat, refetch: Response<MessagePage>)
    | LoadMoreClicked(refetch: Response<MessagePage>)
    | SendPressed(now: int, nowIso: string, post: Response<()>,
                  pageResp: Response<MessagePage>, sessionsResp: Response<seq<Session>>)
    | NewSessionClicked(prompted: Option<string>, created: Response<Session>, refetch: Response<MessagePage>)

  /**
    Every request is made for the one user, and every page request asks for
    `PAGE_SIZE` messages of the session shown, at the page shown.
   */
  predicate ForShownPage(issued: seq<Request>, st: State)
  {
    forall k :: 0 <= k < |issued| ==>
      && issued[k].userId == USER_ID
      && (issued[k].ListMessages? ==>
            && st.activeSession.Some? && issued[k].sessionId == st.activeSession.value.id
            && issued[k].page == st.page && issued[k].limit == PAGE_SIZE)
  }

  /**
    The page-load effect after a handler: it runs when the handler changed a
    dependency (`depsChanged`) and a session is active at that point, and it
    loads that session's current page.
   */
  function WithMessagesEffect(t: Transition, depsChanged: bool, refetch: Response<MessagePage>): (r: Transition)
    ensures !(depsChanged && t.next.activeSession.Some?) ==> r == t
    ensures depsChanged && t.next.activeSession.Some? ==>
      && r.issued == t.issued + [ListMessages(USER_ID, t.next.activeSession.value.id, t.next.page, PAGE_SIZE)]
      && r.next.messages == PageMessages(refetch) && r.next.totalMessages == PageTotal(refetch)
      && r.next.activeSession == t.next.activeSession && r.next.page == t.next.page
      && r.next.sessions == t.next.sessions && !r.next.loading
    ensures ForShownPage(t.issued, t.next) ==> ForShownPage(r.issued, r.next)
  {
    if depsChanged && t.next.activeSession.Some? then
      var f := FetchMessages(t.next, t.next.activeSession.value.id, t.next.page, refetch);
      Transition(f.next, t.issued + f.issued)
    else t
  }

  /**
    Whether the held object is listed after a session listing: a successful
    listing replaces every object in `sessions`, so only a session it has
    just made active (its first entry) is listed; a failed one changes nothing.
   */
  function ListedAfterListing(c: Component, resp: Response<seq<Session>>): bool
  {
    match resp
    case Ok(data) => c.state.activeSession.None? && |data| > 0
    case _ => c.activeListed
  }

  /** Mounting: list the sessions, then load the page of the session that became active, if one did. */
  function OnMount(c: Component, sessionsResp: Response<seq<Session>>, refetch: Response<MessagePage>): (r: Reaction)
    ensures ForShownPage(r.issued, r.next.state)
  {
    var t := FetchSessions(c.state, sessionsResp);
    var t2 := WithMessagesEffect(t, t.next.activeSession != c.state.activeSession, refetch);
    Reaction(Component(t2.next, ListedAfterListing(c, sessionsResp)), t2.issued)
  }

  /**
    A click on the sidebar entry at `i`, which passes that entry's object:
    the held object exactly when the held object is listed and equal to it.
    Only listed sessions can be clicked.
   */
  function OnSessionClick(c: Component, i: nat, refetch: Response<MessagePage>): (r: Reaction)
    ensures ForShownPage(r.issued, r.next.state)
  {
    if i < |c.state.sessions| then
      var s := c.state.sessions[i];
      var sameObject := c.activeListed && c.state.activeSession == Some(s);
      var t := WithMessagesEffect(Transition(SelectSession(c.state, s), []), !sameObject || c.state.page != 0, refetch);
      Reaction(Component(t.next, true), t.issued)
    else Reaction(c, [])
  }

  /** "Load More", which can only be clicked while it is shown: the effect loads the next page. */
  function OnLoadMore(c: Component, refetch: Response<MessagePage>): (r: Reaction)
    ensures ForShownPage(r.issued, r.next.state)
  {
    if CanLoadMore(c.state) then
      var t := WithMessagesEffect(Transition(LoadMore(c.state), []), true, refetch);
      Reaction(Component(t.next, c.activeListed), t.issued)
    else Reaction(c, [])
  }

  /**
    Send: neither effect dependency changes, so no effect runs; a successful
    session refetch replaces the listed objects, the held one excepted.
   */
  function OnSend(c: Component, now: int, nowIso: string, post: Response<()>,
                  pageResp: Response<MessagePage>, sessionsResp: Response<seq<Session>>): (r: Reaction)
    ensures ForShownPage(r.issued, r.next.state)
  {
    var t := SendMessage(c.state, now, nowIso, post, pageResp, sessionsResp);
    var relisted := CanSend(c.state) && post.Ok? && sessionsResp.Ok?;
    Reaction(Component(t.next, if relisted then false else c.activeListed), t.issued)
  }

  /** "New session": a created session is held and listed, and the effect loads its first page. */
  function OnNewSession(c: Component, prompted: Option<string>, created: Response<Session>,
                        refetch: Response<MessagePage>): (r: Reaction)
    ensures ForShownPage(r.issued, r.next.state)
  {
    var t := StartNewSession(c.state, prompted, created);
    var made := !IsBlank(PromptedTitle(prompted)) && created.Ok?;
    var t2 := WithMessagesEffect(t, made, refetch);
    Reaction(Component(t2.next, if made then true else c.activeListed), t2.issued)
  }

  /** One event: its handler, then the effect. */
  function Step(c: Component, e: Event): (r: Reaction)
    ensures ForShownPage(r.issued, r.next.state)
  {
    match e
    case Mounted(sessionsResp, refetch) => OnMount(c, sessionsResp, refetch)
    case Typed(text) => Reaction(Component(SetInput(c.state, text), c.activeListed), [])
    case SessionClicked(i, refetch) => OnSessionClick(c, i, refetch)
    case LoadMoreClicked(refetch) => OnLoadMore(c, refetch)
    case SendPressed(now, nowIso, post, pageResp, sessionsResp) => OnSend(c, now, nowIso, post, pageResp, sessionsResp)
    case NewSessionClicked(prompted, created, refetch) => OnNewSession(c, prompted, created, refetch)
  }

  /** The component after a sequence of events. */
  function Run(c: Component, es: seq<Event>): Component
    decreases |es|
  {
    if es == [] then c else Run(Step(c, es[0]).next, es[1..])
  }

  /** No request in flight and no typing indicator. */
  predicate Settled(st: State)
  {
    !st.loading && !st.typing
  }

  /** While no session is active there is no window: no messages, no total, the first page. */
  predicate NoSessionNoWindow(st: State)
  {
    st.activeSession.None? ==> st.messages == [] && st.totalMessages == 0 && st.page == 0
  }

  predicate Inv(st: State)
  {
    Settled(st) && NoSessionNoWindow(st)
  }

  /** "Load More" is only shown once a session is active. */
  lemma LoadMoreNeedsSession(st: State)
    requires NoSessionNoWindow(st) && CanLoadMore(st)
    ensures st.activeSession.Some?
  {
  }

  /** Every event, with its effect, keeps the invariant. */
  lemma StepPreservesInv(c: Component, e: Event)
    requires Inv(c.state)
    ensures Inv(Step(c, e).next.state)
  {
  }

  /** Any sequence of events keeps the invariant. */
  lemma {:induction false} RunPreservesInv(c: Component, es: seq<Event>)
    requires Inv(c.state)
    ensures Inv(Run(c, es).state)
    decreases |es|
  {
    if es != [] {
      StepPreservesInv(c, es[0]);
      RunPreservesInv(Step(c, es[0]).next, es[1..]);
    }
  }

  /** Every reachable state is settled and shows no window without an active session. */
  lemma ReachableStatesKeepInv(es: seq<Event>)
    ensures Inv(Run(Start, es).state)
  {
    RunPreservesInv(Start, es);
  }

  /** Once a session is active, some session stays active: nothing clears the selection. */
  lemma {:induction false} ActiveSessionPersists(c: Component, es: seq<Event>)
    requires c.state.activeSession.Some?
    ensures Run(c, es).state.activeSession.Some?
    decreases |es|
  {
    if es != [] {
      var next := Step(c, es[0]).next;
      assert next.state.activeSession.Some?;
      ActiveSessionPersists(next, es[1..]);
    }
  }

  /** A page response within the `limit` the component asks for. */
  predicate WithinLimit(resp: Response<MessagePage>)
  {
    |PageMessages(resp)| <= PAGE_SIZE
  }

  /** Every page response an event carries is within the limit. */
  predicate PagesWithinLimit(e: Event)
  {
    match e
    case Mounted(_, refetch) => WithinLimit(refetch)
    case Typed(_) => true
    case SessionClicked(_, refetch) => WithinLimit(refetch)
    case LoadMoreClicked(refetch) => WithinLimit(refetch)
    case SendPressed(_, _, _, pageResp, _) => WithinLimit(pageResp)
    case NewSessionClicked(_, _, refetch) => WithinLimit(refetch)
  }

  /** Every message past the first `PAGE_SIZE` is an optimistic entry: a user message still marked sent. */
  predicate OverflowIsOptimistic(st: State)
  {
    forall i :: PAGE_SIZE <= i < |st.messages| ==> st.messages[i].sender == User && st.messages[i].status == Some(Sent)
  }

  /** A page load within the limit leaves nothing past the first page. */
  lemma EffectKeepsOverflowOptimistic(t: Transition, depsChanged: bool, refetch: Response<MessagePage>)
    requires OverflowIsOptimistic(t.next) && WithinLimit(refetch)
    ensures OverflowIsOptimistic(WithMessagesEffect(t, depsChanged, refetch).next)
  {
  }

  /** A send appends only an optimistic entry, or replaces the window by a page within the limit. */
  lemma SendKeepsOverflowOptimistic(st: State, now: int, nowIso: string, post: Response<()>,
                                    pageResp: Response<MessagePage>, sessionsResp: Response<seq<Session>>)
    requires OverflowIsOptimistic(st) && WithinLimit(pageResp)
    ensures OverflowIsOptimistic(SendMessage(st, now, nowIso, post, pageResp, sessionsResp).next)
  {
    var next := SendMessage(st, now, nowIso, post, pageResp, sessionsResp).next;
    if CanSend(st) && !post.Ok? {
      assert next.messages == st.messages + [OptimisticMessage(st.input, now, nowIso)];
    }
  }

  /** An event whose pages are within the limit only ever grows the window past a page by optimistic entries. */
  lemma StepKeepsOverflowOptimistic(c: Component, e: Event)
    requires OverflowIsOptimistic(c.state) && PagesWithinLimit(e)
    ensures OverflowIsOptimistic(Step(c, e).next.state)
  {
    var st := c.state;
    match e
    case Mounted(sessionsResp, refetch) =>
      var t := FetchSessions(st, sessionsResp);
      EffectKeepsOverflowOptimistic(t, t.next.activeSession != st.activeSession, refetch);
    case Typed(_) =>
    case SessionClicked(i, refetch) =>
      if i < |st.sessions| {
        var s := st.sessions[i];
        var sameObject := c.activeListed && st.activeSession == Some(s);
        EffectKeepsOverflowOptimistic(Transition(SelectSession(st, s), []), !sameObject || st.page != 0, refetch);
      }
    case LoadMoreClicked(refetch) =>
      EffectKeepsOverflowOptimistic(Transition(LoadMore(st), []), true, refetch);
    case SendPressed(now, nowIso, post, pageResp, sessionsResp) =>
      SendKeepsOverflowOptimistic(st, now, nowIso, post, pageResp, sessionsResp);
    case NewSessionClicked(prompted, created, refetch) =>
      var t := StartNewSession(st, prompted, created);
      EffectKeepsOverflowOptimistic(t, !IsBlank(PromptedTitle(prompted)) && created.Ok?, refetch);
  }

  /**
    While the service honours the page limit, the window exceeds one page
    only by optimistic entries of failed sends.
   */
  lemma {:induction false} RunKeepsOverflowOptimistic(c: Component, es: seq<Event>)
    requires OverflowIsOptimistic(c.state)
    requires forall k :: 0 <= k < |es| ==> PagesWithinLimit(es[k])
    ensures OverflowIsOptimistic(Run(c, es).state)
    decreases |es|
  {
    if es != [] {
      StepKeepsOverflowOptimistic(c, es[0]);
      RunKeepsOverflowOptimistic(Step(c, es[0]).next, es[1..]);
    }
  }

  /**
    Switching to another session clears the window and loads only that
    session's first page: nothing from the previous session survives.
   */
  lemma SwitchLoadsFirstPageOfNewSession(c: Component, i: nat, refetch: Response<MessagePage>)
    requires i < |c.state.sessions| && c.state.activeSession != Some(c.state.sessions[i])
    ensures var s := c.state.sessions[i];
      var r := Step(c, SessionClicked(i, refetch));
      && r.issued == [ListMessages(USER_ID, s.id, 0, PAGE_SIZE)]
      && r.next.state.activeSession == Some(s) && r.next.state.page == 0
      && r.next.state.messages == PageMessages(refetch) && r.next.state.totalMessages == PageTotal(refetch)
      && r.next.state.sessions == c.state.sessions && !r.next.state.loading && r.next.activeListed
  {
  }

  /**
    Clicking the very object held as the active session, on the first page,
    clears the window and loads nothing, since neither effect dependency
    changed. This happens when no session listing has succeeded since that
    session was selected (a double click is the usual case).
   */
  lemma ReselectOnFirstPageClearsWindow(c: Component, i: nat, refetch: Response<MessagePage>)
    requires i < |c.state.sessions| && c.activeListed
    requires c.state.activeSession == Some(c.state.sessions[i]) && c.state.page == 0
    ensures var r := Step(c, SessionClicked(i, refetch));
      r.issued == [] && r.next.state == c.state.(messages := [])
  {
  }

  /**
    Clicking the active session after a listing has replaced the session
    objects passes a new, equal object: the effect fires and page 0 is loaded.
   */
  lemma ReselectAfterListingReloads(c: Component, i: nat, refetch: Response<MessagePage>)
    requires i < |c.state.sessions| && !c.activeListed
    requires c.state.activeSession == Some(c.state.sessions[i])
    ensures var r := Step(c, SessionClicked(i, refetch));
      && r.issued == [ListMessages(USER_ID, c.state.sessions[i].id, 0, PAGE_SIZE)]
      && r.next.state.messages == PageMessages(refetch) && r.next.state.page == 0
  {
  }

  /**
    A send whose POST and session refetch both succeed replaces the session
    objects while keeping the held one: the active session is no longer listed.
   */
  lemma SendWithListingUnlistsActive(c: Component, now: int, nowIso: string,
                                     pageResp: Response<MessagePage>, data: seq<Session>)
    requires CanSend(c.state)
    ensures var r := Step(c, SendPressed(now, nowIso, Ok(()), pageResp, Ok(data)));
      && r.next.state.sessions == data
      && r.next.state.activeSession == c.state.activeSession
      && !r.next.activeListed
  {
  }

  /** A shown "Load More" loads the next page of the active session in place of the current one. */
  lemma LoadMoreLoadsNextPage(c: Component, refetch: Response<MessagePage>)
    requires Inv(c.state) && CanLoadMore(c.state)
    ensures var st := c.state;
      var r := Step(c, LoadMoreClicked(refetch));
      && r.issued == [ListMessages(USER_ID, st.activeSession.value.id, st.page + 1, PAGE_SIZE)]
      && r.next.state.page == st.page + 1 && r.next.state.messages == PageMessages(refetch)
      && r.next.state.activeSession == st.activeSession
  {
  }

  /** Two sessions, none active: mounting makes the first one active and loads its first page. */
  lemma MountSelectsFirstSession(refetch: Response<MessagePage>)
    ensures var career := Session(1, "Career", "2024-01-01");
      var resume := Session(2, "Resume", "2024-01-02");
      var r := Step(Start, Mounted(Ok([career, resume]), refetch));
      && r.next.state.activeSession == Some(career)
      && r.next.state.sessions == [career, resume]
      && r.next.activeListed
      && r.issued == [ListSessions(USER_ID), ListMessages(USER_ID, 1, 0, PAGE_SIZE)]
  {
  }

  /** With 25 messages, "Load More" is shown on pages 0 and 1 and hidden on page 2. */
  lemma PagingThroughTwentyFive(c: Component, ms: seq<Message>)
    requires c.state.activeSession.Some? && c.state.page == 0 && c.state.totalMessages == 25
    ensures CanLoadMore(c.state)
    ensures var p1 := Step(c, LoadMoreClicked(Ok(MessagePage(Some(ms), Some(25))))).next;
      && p1.state.page == 1 && CanLoadMore(p1.state)
      && var p2 := Step(p1, LoadMoreClicked(Ok(MessagePage(Some(ms), Some(25))))).next;
      && p2.state.page == 2 && !CanLoadMore(p2.state)
      && Step(p2, LoadMoreClicked(Ok(MessagePage(Some(ms), Some(25))))) == Reaction(p2, [])
  {
  }

  /** "Hello" typed in session 1: a failed POST leaves the optimistic entry last and sets the error. */
  lemma SendHelloPostFails(c: Component, now: int, nowIso: string,
                           pageResp: Response<MessagePage>, sessionsResp: Response<seq<Session>>)
    requires c.state.activeSession.Some? && c.state.activeSession.value.id == 1 && c.state.input == "Hello"
    ensures var r := Step(c, SendPressed(now, nowIso, NotOk, pageResp, sessionsResp));
      && r.next.state.messages == c.state.messages + [Message(now, "Hello", User, nowIso, Some(Sent))]
      && r.next.state.error == Some("Failed to send message")
      && r.issued == [CreateMessage("Hello", USER_ID, 1)]
      && Settled(r.next.state)
  {
    assert !IsWhitespace("Hello"[0]);
  }

  /**
    "Hello" typed in session 1: when the POST succeeds and the page refetch
    then fails, the window ends empty, optimistic entry included, and the
    error ends cleared, because the refetch swallows its own failure.
   */
  lemma SendHelloRefetchFails(c: Component, now: int, nowIso: string, sessionsResp: Response<seq<Session>>)
    requires c.state.activeSession.Some? && c.state.activeSession.value.id == 1 && c.state.input == "Hello"
    ensures var r := Step(c, SendPressed(now, nowIso, Ok(()), NotOk, sessionsResp));
      && r.next.state.messages == [] && r.next.state.totalMessages == 0
      && r.next.state.error == None
      && r.issued == [CreateMessage("Hello", USER_ID, 1), ListMessages(USER_ID, 1, c.state.page, PAGE_SIZE),
                      ListSessions(USER_ID)]
  {
    assert !IsWhitespace("Hello"[0]);
  }

  /**
    The window is not bounded by the pages loaded: a failed send on a full
    first page leaves `PAGE_SIZE + 1` messages on page 0.
   */
  lemma OptimisticEntryCanOverflowPage(c: Component, now: int, nowIso: string,
                                       pageResp: Response<MessagePage>, sessionsResp: Response<seq<Session>>)
    requires CanSend(c.state) && c.state.page == 0 && |c.state.messages| == PAGE_SIZE
    ensures var st := Step(c, SendPressed(now, nowIso, NotOk, pageResp, sessionsResp)).next.state;
      st.page == 0 && |st.messages| == PAGE_SIZE + 1 > (st.page + 1) * PAGE_SIZE
  {
  }
}
