/** The decision and state logic of the chat screen component: which list
    panel is rendered, whether the user is subscribed to the narrow, what
    the compose area shows, and what a scroll of the message list does. */
module ChatScreen {
  import opened ChatTypes
  import opened ArrayFind

  // ---------------------------------------------------------------------
  // List view state

  /** The three booleans `render` derives from the message count and the
      fetch flags. */
  datatype ListFlags = ListFlags(noMessages: bool, noMessagesButLoading: bool, showMessageList: bool)

  predicate ExactlyOne(a: bool, b: bool, c: bool) {
    (a && !b && !c) || (!a && b && !c) || (!a && !b && c)
  }

  function ListViewFlags(messageCount: nat, fetching: Fetching): (f: ListFlags)
    ensures f.showMessageList <==> messageCount > 0
    ensures f.noMessages || f.noMessagesButLoading <==> messageCount == 0
    ensures f.noMessages ==> !fetching.older && !fetching.newer
    ensures f.noMessagesButLoading ==> fetching.older || fetching.newer
    ensures ExactlyOne(f.noMessages, f.noMessagesButLoading, f.showMessageList)
  {
    var anyFetch := fetching.older || fetching.newer;
    var noMessages := messageCount == 0 && !anyFetch;
    var noMessagesButLoading := messageCount == 0 && anyFetch;
    ListFlags(noMessages, noMessagesButLoading, !noMessages && !noMessagesButLoading)
  }

  /** Which of the three list panels appear on screen. */
  datatype Panels = Panels(noMessages: bool, loading: bool, messageList: bool)

  predicate NoPanel(p: Panels) {
    !p.noMessages && !p.loading && !p.messageList
  }

  function VisiblePanels(messageCount: nat, fetching: Fetching, needsInitialFetch: bool): (p: Panels)
    ensures p.noMessages <==> !needsInitialFetch && messageCount == 0 && !fetching.older && !fetching.newer
    ensures p.loading <==> messageCount == 0 && (fetching.older || fetching.newer)
    ensures p.messageList <==> messageCount > 0
    ensures !(p.noMessages && p.loading) && !(p.noMessages && p.messageList) && !(p.loading && p.messageList)
    ensures NoPanel(p) <==> needsInitialFetch && messageCount == 0 && !fetching.older && !fetching.newer
  {
    var f := ListViewFlags(messageCount, fetching);
    Panels(!needsInitialFetch && f.noMessages, f.noMessagesButLoading, f.showMessageList)
  }

  /** A pending initial fetch neither shows a loading indicator nor hides the
      message list: only the empty panel is suppressed. */
  lemma InitialFetchOnlySuppressesEmptyPanel(messageCount: nat, fetching: Fetching)
    ensures var pending := VisiblePanels(messageCount, fetching, true);
            var settled := VisiblePanels(messageCount, fetching, false);
            pending.loading == settled.loading && pending.messageList == settled.messageList &&
            !pending.noMessages
  {
  }

  // ---------------------------------------------------------------------
  // Subscription checks

  /** Some subscription carries the narrow's first operand as its name. */
  predicate HasSubscriptionNamed(subscriptions: seq<Subscription>, name: string) {
    exists i :: 0 <= i < |subscriptions| && subscriptions[i].name == name
  }

  /** Whether the user is subscribed to the narrow. The `find` callback reads
      `narrow[0].operand`, so for an empty narrow it throws as soon as it is
      first called, that is, unless the subscription list is empty. */
  function IsSubscribed(narrow: Narrow, subscriptions: seq<Subscription>, h: Helpers): (r: Outcome<bool>)
    ensures !h.isStreamOrTopicNarrow(narrow) ==> r == Returned(true)
    ensures h.isStreamOrTopicNarrow(narrow) && narrow != [] ==>
              r == Returned(HasSubscriptionNamed(subscriptions, narrow[0].operand))
    ensures h.isStreamOrTopicNarrow(narrow) && subscriptions == [] ==> r == Returned(false)
    ensures r == Threw <==> h.isStreamOrTopicNarrow(narrow) && narrow == [] && subscriptions != []
  {
    if !h.isStreamOrTopicNarrow(narrow) then Returned(true)
    else if narrow == [] then
      if subscriptions == [] then Returned(false) else Threw
    else
      var operand := narrow[0].operand;
      Returned(Find(subscriptions, (sub: Subscription) => operand == sub.name).Some?)
  }

  /** Whether to offer a subscribe button: the negated invite-only flag of
      the first stream named by the narrow's first operand. With no such
      stream the property read on `undefined` throws. */
  function ShowSubscribeButton(narrow: Narrow, streams: seq<Stream>): (r: Outcome<bool>)
    ensures r.Returned? <==>
              narrow != [] && exists i :: 0 <= i < |streams| && streams[i].name == narrow[0].operand
    ensures r.Returned? ==>
              exists i :: 0 <= i < |streams| && streams[i].name == narrow[0].operand &&
                          r.value == !streams[i].inviteOnly &&
                          forall j :: 0 <= j < i ==> streams[j].name != narrow[0].operand
  {
    if narrow == [] then Threw
    else
      var operand := narrow[0].operand;
      match Find(streams, (s: Stream) => operand == s.name)
      case None => Threw
      case Some(s) => Returned(!s.inviteOnly || false)
  }

  // ---------------------------------------------------------------------
  // Compose area

  /** What is rendered below the message list. */
  datatype ComposeArea = Hidden | ComposeBox | NotSubscribed(narrow: Narrow)

  function ComposeAreaFor(narrow: Narrow, subscriptions: seq<Subscription>, h: Helpers): (r: Outcome<ComposeArea>)
    ensures !h.canSendToNarrow(narrow) ==> r == Returned(Hidden)
    ensures r == Returned(ComposeBox) <==>
              h.canSendToNarrow(narrow) &&
              (!h.isStreamOrTopicNarrow(narrow) ||
               (narrow != [] && HasSubscriptionNamed(subscriptions, narrow[0].operand)))
    ensures r == Returned(NotSubscribed(narrow)) <==>
              h.canSendToNarrow(narrow) && h.isStreamOrTopicNarrow(narrow) &&
              (narrow == [] ==> subscriptions == []) &&
              (narrow != [] ==> !HasSubscriptionNamed(subscriptions, narrow[0].operand))
    ensures r.Returned? && r.value.NotSubscribed? ==> r.value.narrow == narrow
    ensures r == Threw <==>
              h.canSendToNarrow(narrow) && h.isStreamOrTopicNarrow(narrow) &&
              narrow == [] && subscriptions != []
  {
    if !h.canSendToNarrow(narrow) then Returned(Hidden)
    else
      match IsSubscribed(narrow, subscriptions, h)
      case Threw => Threw
      case Returned(subscribed) => Returned(if subscribed then ComposeBox else NotSubscribed(narrow))
  }

  // ---------------------------------------------------------------------
  // Render

  /** The decisions `render` makes, without the markup around them. */
  datatype Screen = Screen(
    unreadCount: int,
    noticeScrollOffset: int,
    noticeOffsetForInput: bool,
    offlineNotice: bool,
    panels: Panels,
    compose: ComposeArea)

  function MessageIds(messages: seq<Message>): (ids: seq<MessageId>)
    ensures |ids| == |messages|
    ensures forall i :: 0 <= i < |messages| ==> ids[i] == messages[i].id
  {
    seq(|messages|, i requires 0 <= i < |messages| => messages[i].id)
  }

  function RenderScreen(props: Props, scrollOffset: int, h: Helpers): (r: Outcome<Screen>)
    ensures r == Threw <==>
              h.canSendToNarrow(props.narrow) && h.isStreamOrTopicNarrow(props.narrow) &&
              props.narrow == [] && props.subscriptions != []
    ensures r.Returned? ==>
              && r.value.noticeScrollOffset == scrollOffset
              && r.value.offlineNotice == !props.isOnline
              && r.value.noticeOffsetForInput == h.canSendToNarrow(props.narrow)
              && r.value.unreadCount == h.countUnread(MessageIds(props.messages), props.readIds)
              && r.value.panels == VisiblePanels(|props.messages|, props.fetching, props.needsInitialFetch)
              && (r.value.panels.messageList <==> |props.messages| > 0)
              && Returned(r.value.compose) == ComposeAreaFor(props.narrow, props.subscriptions, h)
              && (r.value.compose == Hidden <==> !h.canSendToNarrow(props.narrow))
  {
    var panels := VisiblePanels(|props.messages|, props.fetching, props.needsInitialFetch);
    var unreadCount := h.countUnread(MessageIds(props.messages), props.readIds);
    match ComposeAreaFor(props.narrow, props.subscriptions, h)
    case Threw => Threw
    case Returned(compose) =>
      Returned(Screen(unreadCount, scrollOffset, h.canSendToNarrow(props.narrow),
                      !props.isOnline, panels, compose))
  }

  // ---------------------------------------------------------------------
  // Scroll handling

  /** The ids the unread filter reports among the visible ones. The source
      coerces each visible id with unary plus; ids here are already numbers. */
  function UnreadOnScroll(props: Props, e: ScrollEvent, h: Helpers): seq<MessageId> {
    h.filterUnreadMessageIds(e.visibleIds, props.flags)
  }

  /** The read-marking branch of the scroll handler is taken. */
  predicate MarksRead(props: Props, e: ScrollEvent, h: Helpers) {
    props.hasMarkMessagesRead && |UnreadOnScroll(props, e, h)| > 0
  }

  /** The calls one scroll event emits, in order. */
  function ScrollCalls(props: Props, e: ScrollEvent, h: Helpers): (s: seq<Call>)
    ensures |s| == if MarksRead(props, e, h) then 3 else 1
    ensures s[|s| - 1] == RegisterAppActivity(props.auth)
  {
    var unread := UnreadOnScroll(props, e, h);
    (if MarksRead(props, e, h)
     then [MarkMessagesRead(unread), QueueMarkAsRead(props.auth, unread)]
     else [])
    + [RegisterAppActivity(props.auth)]
  }

  /** The calls a series of scroll events emits, in order. */
  function ScrollLog(props: Props, events: seq<ScrollEvent>, h: Helpers): (log: seq<Call>)
    decreases |events|
  {
    if events == [] then []
    else ScrollLog(props, events[..|events| - 1], h) + ScrollCalls(props, events[|events| - 1], h)
  }

  /** The log of a series holds one call per event plus two per event that
      takes the read-marking branch, and ends with an activity call. */
  lemma {:induction false} ScrollLogLength(props: Props, events: seq<ScrollEvent>, h: Helpers)
    ensures var log := ScrollLog(props, events, h);
            && |log| == |events| + 2 * MarkingEvents(props, events, h)
            && (events != [] ==> log[|log| - 1] == RegisterAppActivity(props.auth))
    decreases |events|
  {
    if events != [] {
      ScrollLogLength(props, events[..|events| - 1], h);
    }
  }

  /** The number of events in a series that take the read-marking branch. */
  function MarkingEvents(props: Props, events: seq<ScrollEvent>, h: Helpers): nat
    decreases |events|
  {
    if events == [] then 0
    else MarkingEvents(props, events[..|events| - 1], h) +
         (if MarksRead(props, events[|events| - 1], h) then 1 else 0)
  }

  datatype CallKind = MarkKind | QueueKind | ActivityKind

  function KindOf(c: Call): CallKind {
    match c
    case MarkMessagesRead(_) => MarkKind
    case QueueMarkAsRead(_, _) => QueueKind
    case RegisterAppActivity(_) => ActivityKind
  }

  /** How many calls of the given kind a log holds. */
  function CountKind(calls: seq<Call>, k: CallKind): nat
    decreases |calls|
  {
    if calls == [] then 0
    else CountKind(calls[..|calls| - 1], k) + (if KindOf(calls[|calls| - 1]) == k then 1 else 0)
  }

  lemma {:induction false} CountKindAppend(a: seq<Call>, b: seq<Call>, k: CallKind)
    ensures CountKind(a + b, k) == CountKind(a, k) + CountKind(b, k)
    decreases |b|
  {
    if b == [] {
      assert a + b == a;
    } else {
      var last := |b| - 1;
      assert (a + b)[..|a + b| - 1] == a + b[..last];
      CountKindAppend(a, b[..last], k);
    }
  }

  lemma CountKindSingle(c: Call, k: CallKind)
    ensures CountKind([c], k) == if KindOf(c) == k then 1 else 0
  {
  }

  /** One scroll event: `markMessagesRead` and `queueMarkAsRead` are each
      called exactly once when the callback is present and something is
      unread, and never otherwise; both receive the unread list, the local
      mark comes first; `registerAppActivity` is called exactly once, last. */
  lemma {:induction false} ScrollCallsSpec(props: Props, e: ScrollEvent, h: Helpers)
    ensures var s := ScrollCalls(props, e, h);
            && CountKind(s, MarkKind) == (if MarksRead(props, e, h) then 1 else 0)
            && CountKind(s, QueueKind) == (if MarksRead(props, e, h) then 1 else 0)
            && CountKind(s, ActivityKind) == 1
            && |s| > 0 && s[|s| - 1] == RegisterAppActivity(props.auth)
            && (MarksRead(props, e, h) ==>
                  s[0] == MarkMessagesRead(UnreadOnScroll(props, e, h)) &&
                  s[1] == QueueMarkAsRead(props.auth, UnreadOnScroll(props, e, h)))
  {
    forall k: CallKind
      ensures CountKind(ScrollCalls(props, e, h), k) == PerEventCount(k, MarksRead(props, e, h))
    {
      ScrollCallsCount(props, e, h, k);
    }
  }

  /** How many calls of kind `k` one scroll event emits. */
  function PerEventCount(k: CallKind, marks: bool): nat {
    if k == ActivityKind || marks then 1 else 0
  }

  lemma {:induction false} ScrollCallsCount(props: Props, e: ScrollEvent, h: Helpers, k: CallKind)
    ensures CountKind(ScrollCalls(props, e, h), k) == PerEventCount(k, MarksRead(props, e, h))
  {
    var unread := UnreadOnScroll(props, e, h);
    var m, q, a := MarkMessagesRead(unread), QueueMarkAsRead(props.auth, unread), RegisterAppActivity(props.auth);
    CountKindSingle(a, k);
    if MarksRead(props, e, h) {
      assert ScrollCalls(props, e, h) == [m] + [q] + [a];
      CountKindSingle(m, k);
      CountKindSingle(q, k);
      CountKindAppend([m], [q], k);
      CountKindAppend([m] + [q], [a], k);
    } else {
      assert ScrollCalls(props, e, h) == [a];
    }
  }

  /** Over a series of scroll events, activity is registered once per event,
      and each of the two read-marking calls is made once per event that
      takes the read-marking branch. */
  lemma {:induction false} ScrollLogCounts(props: Props, events: seq<ScrollEvent>, h: Helpers, k: CallKind)
    ensures CountKind(ScrollLog(props, events, h), k) ==
              if k == ActivityKind then |events| else MarkingEvents(props, events, h)
    decreases |events|
  {
    if events != [] {
      var init, e := events[..|events| - 1], events[|events| - 1];
      ScrollLogCounts(props, init, h, k);
      ScrollCallsCount(props, e, h, k);
      CountKindAppend(ScrollLog(props, init, h), ScrollCalls(props, e, h), k);
    }
  }

  /** How far the viewport's bottom edge is above the bottom of the content. */
  function BottomDistance(e: ScrollEvent): int {
    e.contentHeight - e.contentOffsetY - e.layoutHeight
  }

  /** The chat screen component: its props, the offset from the bottom of the
      list recorded by the last scroll, and the log of calls it has emitted. */
  class Chat {
    var props: Props
    var scrollOffset: int
    var calls: seq<Call>

    constructor (props: Props)
      ensures this.props == props && scrollOffset == 0 && calls == []
    {
      this.props := props;
      scrollOffset := 0;
      calls := [];
    }

    /** The message list's scroll callback. */
    method HandleMessageListScroll(e: ScrollEvent, h: Helpers)
      modifies this`scrollOffset, this`calls
      ensures scrollOffset == e.contentHeight - e.contentOffsetY - e.layoutHeight
      ensures calls == old(calls) + ScrollCalls(props, e, h)
    {
      var visibleMessageIds := e.visibleIds;
      var unreadMessageIds := h.filterUnreadMessageIds(visibleMessageIds, props.flags);
      if props.hasMarkMessagesRead && |unreadMessageIds| > 0 {
        calls := calls + [MarkMessagesRead(unreadMessageIds)];
        calls := calls + [QueueMarkAsRead(props.auth, unreadMessageIds)];
      }
      scrollOffset := e.contentHeight - e.contentOffsetY - e.layoutHeight;
      calls := calls + [RegisterAppActivity(props.auth)];
    }
  }

  /** A fresh screen that receives the scroll events of a series one after
      another: its log is the series' log, so the counts of `ScrollLogCounts`
      hold of the screen's own calls, and its offset is that of the last event. */
  method ScrollSeries(props: Props, events: seq<ScrollEvent>, h: Helpers) returns (chat: Chat)
    ensures fresh(chat) && chat.props == props
    ensures chat.calls == ScrollLog(props, events, h)
    ensures CountKind(chat.calls, ActivityKind) == |events|
    ensures CountKind(chat.calls, MarkKind) == MarkingEvents(props, events, h)
    ensures CountKind(chat.calls, QueueKind) == MarkingEvents(props, events, h)
    ensures chat.scrollOffset == if events == [] then 0 else BottomDistance(events[|events| - 1])
  {
    chat := new Chat(props);
    var i := 0;
    while i < |events|
      invariant 0 <= i <= |events|
      invariant chat.props == props
      invariant chat.calls == ScrollLog(props, events[..i], h)
      invariant chat.scrollOffset == if i == 0 then 0 else BottomDistance(events[i - 1])
    {
      ghost var done := events[..i + 1];
      assert done[..|done| - 1] == events[..i] && done[|done| - 1] == events[i];
      chat.HandleMessageListScroll(events[i], h);
      assert chat.calls == ScrollLog(props, done, h);
      i := i + 1;
    }
    assert events[..i] == events;
    ghost var log := chat.calls;
    assert log == ScrollLog(props, events, h);
    ScrollLogCounts(props, events, h, ActivityKind);
    ScrollLogCounts(props, events, h, MarkKind);
    ScrollLogCounts(props, events, h, QueueKind);
  }

  /** A fresh screen handed the scroll of the worked example (content 1000
      high, scrolled to 700, viewport 200 high) renders its unread notice
      100 units above the bottom, and has registered activity once. */
  method ScrollThenRender(props: Props, h: Helpers) returns (screen: Outcome<Screen>, activity: nat)
    ensures screen.Returned? ==> screen.value.noticeScrollOffset == 100
    ensures activity == 1
  {
    var chat := new Chat(props);
    chat.HandleMessageListScroll(ScrollEvent([10, 11, 12], 1000, 700, 200), h);
    ScrollCallsSpec(props, ScrollEvent([10, 11, 12], 1000, 700, 200), h);
    assert chat.calls == ScrollCalls(props, ScrollEvent([10, 11, 12], 1000, 700, 200), h);
    activity := CountKind(chat.calls, ActivityKind);
    screen := RenderScreen(chat.props, chat.scrollOffset, h);
  }
}
