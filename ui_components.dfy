/** shared/js/ui-components.js: the presentational components shared by the
    demos, and the two apps built from them, `ListSidebarApp` and
    `CardsStreamApp`. The apps hold the same queue and cursor as the other
    front ends, behind a gate: a spinner while the data loads, a sign-in
    prompt when the load failed. The data comes from a fetch whose outcome
    is an input here. */
module UiComponents {
  import opened QueueCore
  import Cards

  /** An item as the demos hand it over: every field may be missing, and
      `source`/`time`/`content` have the alternatives `type`/`timeAgo`/`body`. */
  datatype Record = Record(
    source: Option<string>,
    kind: Option<string>,       // the `type` field
    time: Option<string>,
    timeAgo: Option<string>,
    title: Option<string>,
    content: Option<string>,
    body: Option<string>)

  /** A string value is truthy when it is present and not empty. */
  predicate Truthy(v: Option<string>)
  {
    v.Some? && |v.value| > 0
  }

  /** JavaScript's `a || b` on two string values. */
  function Or(a: Option<string>, b: Option<string>): (r: Option<string>)
    ensures Truthy(a) ==> r == a
    ensures !Truthy(a) ==> r == b
  {
    if Truthy(a) then a else b
  }

  /** What a text node shows: a missing value shows nothing. */
  function Text(v: Option<string>): string
  {
    if v.Some? then v.value else ""
  }

  /** A caller's render function, from an item to what it wants shown. */
  type Renderer = Record -> string

  // The components.

  datatype HeaderBar = HeaderBar(backLink: bool, title: string, count: nat)

  /** `OperatorHeader`: the back link (shown unless switched off), the
      title, and the queue count. */
  function OperatorHeader(title: string, queueLength: nat, showBackLink: Option<bool>): (h: HeaderBar)
    ensures h.backLink <==> showBackLink != Some(false)
    ensures h.title == title && h.count == queueLength
  {
    HeaderBar(if showBackLink.Some? then showBackLink.value else true, title, queueLength)
  }

  /** The default list preview: the first 60 characters of the content, or
      of the body when the content is empty, then the ellipsis. */
  function DefaultPreview(item: Record): (r: string)
    ensures Truthy(item.content) ==> r == Cards.Preview(item.content.value)
    ensures !Truthy(item.content) ==> r == Cards.Preview(Text(item.body))
  {
    Cards.Preview(Text(Or(Or(item.content, item.body), Some(""))))
  }

  /** `ListItem`: source falls back to type, time to timeAgo, and the
      preview is the caller's when one is given, else the default. */
  function ListItem(item: Record, isActive: bool, renderPreview: Option<Renderer>): (r: Cards.Row)
    ensures r.source == if Truthy(item.source) then item.source.value else Text(item.kind)
    ensures r.time == if Truthy(item.time) then item.time.value else Text(item.timeAgo)
    ensures r.title == Text(item.title)
    ensures r.preview == if renderPreview.Some? then renderPreview.value(item) else DefaultPreview(item)
    ensures r.active == isActive
  {
    Cards.Row(
      Text(Or(item.source, item.kind)),
      Text(Or(item.time, item.timeAgo)),
      Text(item.title),
      if renderPreview.Some? then renderPreview.value(item) else DefaultPreview(item),
      isActive)
  }

  /** `Sidebar`: one row per item, the row at the index active. It takes no
      preview function, so every row carries the default preview. */
  function Sidebar(queue: seq<Record>, currentIndex: nat): (r: seq<Cards.Row>)
    ensures |r| == |queue|
    ensures forall k :: 0 <= k < |r| ==> r[k] == ListItem(queue[k], k == currentIndex, None)
    ensures forall k :: 0 <= k < |r| ==> r[k].preview == DefaultPreview(queue[k])
    ensures forall k :: 0 <= k < |r| ==> (r[k].active <==> k == currentIndex)
  {
    seq(|queue|, k requires 0 <= k < |queue| => ListItem(queue[k], k == currentIndex, None))
  }

  datatype CardView = CardView(source: string, time: string, title: string, content: string)

  /** `Card`: the same source and time fallbacks as a row; the content is
      the caller's rendering when one is given, else the content, falling
      back to the body. */
  function Card(card: Record, renderContent: Option<Renderer>): (r: CardView)
    ensures r.source == if Truthy(card.source) then card.source.value else Text(card.kind)
    ensures r.time == if Truthy(card.time) then card.time.value else Text(card.timeAgo)
    ensures r.title == Text(card.title)
    ensures renderContent.Some? ==> r.content == renderContent.value(card)
    ensures renderContent.None? && Truthy(card.content) ==> r.content == card.content.value
    ensures renderContent.None? && !Truthy(card.content) ==> r.content == Text(card.body)
  {
    CardView(
      Text(Or(card.source, card.kind)),
      Text(Or(card.time, card.timeAgo)),
      Text(card.title),
      if renderContent.Some? then renderContent.value(card) else Text(Or(card.content, card.body)))
  }

  /** A row and the card of the same item agree: the same source, time and
      title after the fallbacks, and, with neither render function given,
      the row's preview is the preview of exactly the text the card shows. */
  lemma RowAgreesWithCard(item: Record, isActive: bool)
    ensures var row, card := ListItem(item, isActive, None), Card(item, None);
      row.source == card.source && row.time == card.time && row.title == card.title &&
      row.preview == Cards.Preview(card.content)
  {
    assert Text(Or(Or(item.content, item.body), Some(""))) == Text(Or(item.content, item.body));
  }

  const DefaultEmptyMessage: string := "No items in queue"
  const EmptySubtitle: string := "All tasks completed!"
  const DefaultActionLabel: string := "Reload"

  datatype EmptyStateView = EmptyStateView(heading: string, subtitle: string, button: Option<string>)

  /** `EmptyState`: the message, by default "No items in queue"; the fixed
      subtitle; the action button only when there is an action, labelled
      "Reload" by default. */
  function EmptyState(message: Option<string>, hasAction: bool, actionLabel: Option<string>): (r: EmptyStateView)
    ensures r.heading == if Truthy(message) then message.value else DefaultEmptyMessage
    ensures r.subtitle == EmptySubtitle
    ensures r.button.Some? <==> hasAction
    ensures r.button.Some? ==> r.button.value == if Truthy(actionLabel) then actionLabel.value else DefaultActionLabel
  {
    EmptyStateView(
      Text(Or(message, Some(DefaultEmptyMessage))),
      EmptySubtitle,
      if hasAction then Some(Text(Or(actionLabel, Some(DefaultActionLabel)))) else None)
  }

  datatype AuthView = AuthView(heading: string, message: string, button: string)

  /** `AuthPrompt`: "<platform> Authentication", the custom message or the
      default request, and a "Connect <platform>" button. */
  function AuthPrompt(platform: string, customMessage: Option<string>): (r: AuthView)
    ensures r.heading == platform + " Authentication"
    ensures Truthy(customMessage) ==> r.message == customMessage.value
    ensures !Truthy(customMessage) ==>
      r.message == "Please authenticate with " + platform + " to access your data."
    ensures r.button == "Connect " + platform
  {
    AuthView(
      platform + " Authentication",
      Text(Or(customMessage, Some("Please authenticate with " + platform + " to access your data."))),
      "Connect " + platform)
  }

  /** `LoadingSpinner`: the spinner, and the message under it when there is one. */
  function LoadingSpinner(message: Option<string>): (r: Option<string>)
    ensures r.Some? <==> Truthy(message)
    ensures r.Some? ==> r == message
  {
    if Truthy(message) then message else None
  }

  const LoadingMessage: string := "Loading..."
  const ReloadLabel: string := "Reload Data"

  // The two apps.

  /** The two apps differ in their layout and in ArrowLeft. */
  datatype Variant = ListSidebar | CardsStream

  /** What the demo page passes in (`fetchData` is the load outcome below). */
  datatype Props = Props(title: string, platform: string,
                         renderContent: Option<Renderer>, renderPreview: Option<Renderer>)

  /** The `useState` values of either app. */
  datatype AppState = AppState(queue: seq<Record>, currentIndex: nat, loading: bool, authenticated: bool)

  function CursorOf(s: AppState): Cursor<Record>
  {
    Cursor(s.queue, s.currentIndex)
  }

  /** How the awaited `fetchData()` ended. */
  datatype Outcome = Fetched(items: seq<Record>) | FetchFailed

  /** The first render, with the mount effect's load under way. */
  const Initial: AppState := AppState([], 0, true, false)

  /** The invariant of either app: the cursor is Valid, and there are no
      items while a load is under way or after it failed. */
  predicate Inv(s: AppState)
  {
    Valid(CursorOf(s)) && (s.loading || !s.authenticated ==> s.queue == [])
  }

  lemma InitialInv()
    ensures Inv(Initial) && Initial.loading && !Initial.authenticated
  {
  }

  /** `handleDone` of either app: splice a copy, repair the index. */
  method HandleDone(s: AppState) returns (t: AppState)
    requires InBounds(CursorOf(s))
    ensures CursorOf(t) == Done(CursorOf(s))
    ensures t.loading == s.loading && t.authenticated == s.authenticated
  {
    if |s.queue| == 0 {
      return s;
    }
    var newQueue := s.queue;
    newQueue := RemoveAt(newQueue, s.currentIndex);
    t := s.(queue := newQueue);
    if s.currentIndex >= |newQueue| && s.currentIndex > 0 {
      t := t.(currentIndex := |newQueue| - 1);
    }
  }

  /** `handleNext` of either app: the item on display goes to the back of
      a copy; the reset to 0 never fires. */
  method HandleNext(s: AppState) returns (t: AppState)
    requires InBounds(CursorOf(s))
    ensures CursorOf(t) == Next(CursorOf(s))
    ensures t.loading == s.loading && t.authenticated == s.authenticated
  {
    if |s.queue| == 0 {
      return s;
    }
    var newQueue := s.queue;
    var currentItem := newQueue[s.currentIndex];
    newQueue := RemoveAt(newQueue, s.currentIndex);
    newQueue := newQueue + [currentItem];
    t := s.(queue := newQueue, currentIndex := NextReset(s.currentIndex, |newQueue|));
  }

  /** `handleSelectCard` of `ListSidebarApp`: set the index, no bounds check. */
  method HandleSelectCard(s: AppState, index: nat) returns (t: AppState)
    ensures CursorOf(t) == Select(CursorOf(s), index)
    ensures t.loading == s.loading && t.authenticated == s.authenticated
  {
    t := s.(currentIndex := index);
  }

  /** The keydown effect. `ListSidebarApp` steps back on ArrowLeft whatever
      the layout, as if always in list mode; `CardsStreamApp` has no
      ArrowLeft binding, as if never in list mode. */
  method HandleKeyDown(variant: Variant, s: AppState, key: string) returns (t: AppState, prevented: bool)
    requires InBounds(CursorOf(s))
    ensures var e := KeyTable(key, |s.queue| == 0, variant == ListSidebar, s.currentIndex);
      prevented == (e != NoEffect) && CursorOf(t) == ApplyKey(CursorOf(s), e)
    ensures t.loading == s.loading && t.authenticated == s.authenticated
  {
    t, prevented := s, false;
    if |s.queue| == 0 {
      return;
    }
    if key == "d" || key == "D" {
      prevented := true;
      t := HandleDone(s);
    }
    if key == "n" || key == "N" || key == "ArrowRight" {
      prevented := true;
      t := HandleNext(s);
    }
    if variant == ListSidebar && key == "ArrowLeft" && s.currentIndex > 0 {
      prevented := true;
      t := s.(currentIndex := s.currentIndex - 1);
    }
  }

  /** The start of `loadData`: the loading flag goes up, nothing else changes. */
  method StartLoad(s: AppState) returns (t: AppState)
    ensures t == s.(loading := true)
  {
    t := s.(loading := true);
  }

  /** The end of `loadData`. On success the queue is the data and the user
      counts as signed in; on failure the user does not, and the queue is
      kept; either way loading stops. The index is not reset: from a load
      the apps can start (an empty queue, index 0) the result is exactly
      LOAD, but from a cursor past the end of the new data it would not be
      Valid. */
  method SettleLoad(s: AppState, outcome: Outcome) returns (t: AppState)
    ensures !t.loading && (t.authenticated <==> outcome.Fetched?)
    ensures t.currentIndex == s.currentIndex
    ensures t.queue == if outcome.Fetched? then outcome.items else s.queue
    ensures outcome.Fetched? && s.queue == [] && Valid(CursorOf(s)) ==>
      CursorOf(t) == Load(outcome.items)
    ensures outcome.Fetched? && 0 < |outcome.items| <= s.currentIndex ==> !InBounds(CursorOf(t))
  {
    t := s;
    if outcome.Fetched? {
      t := t.(queue := outcome.items);
      t := t.(authenticated := true);
    } else {
      t := t.(authenticated := false);
    }
    t := t.(loading := false);
  }

  // What the apps render.

  datatype MainBody = EmptyBody(empty: EmptyStateView) | CardBody(card: CardView)

  datatype AppView =
    | Spinner(message: Option<string>)
    | Prompt(auth: AuthView)
    | Main(header: HeaderBar, sidebar: Option<seq<Cards.Row>>, focusLayout: bool, body: MainBody)

  /** A state the render can draw: the card read at the index exists
      whenever the card is drawn. */
  predicate Drawable(s: AppState)
  {
    s.loading || !s.authenticated || InBounds(CursorOf(s))
  }

  /** The render of either app: the spinner while loading, else the sign-in
      prompt when not signed in, else the header with the count, the
      sidebar (`ListSidebarApp` only; `CardsStreamApp` has the focus
      layout instead), and the empty state with its Reload Data button on
      an empty queue, otherwise the card on display. */
  function View(variant: Variant, props: Props, s: AppState): (v: AppView)
    requires Drawable(s)
    ensures v.Spinner? <==> s.loading
    ensures v.Spinner? ==> v.message == Some(LoadingMessage)
    ensures v.Prompt? <==> !s.loading && !s.authenticated
    ensures v.Prompt? ==> v.auth == AuthPrompt(props.platform, None)
    ensures v.Main? <==> !s.loading && s.authenticated
    ensures v.Main? ==> v.header == OperatorHeader(props.title, |s.queue|, None) && v.header.count == |s.queue|
    ensures v.Main? ==> (v.sidebar.Some? <==> variant == ListSidebar) && (v.focusLayout <==> variant == CardsStream)
    ensures v.Main? && v.sidebar.Some? ==> v.sidebar.value == Sidebar(s.queue, s.currentIndex)
    ensures v.Main? ==> (v.body.EmptyBody? <==> |s.queue| == 0)
    ensures v.Main? && v.body.EmptyBody? ==> v.body.empty == EmptyState(None, true, Some(ReloadLabel))
    ensures v.Main? && v.body.EmptyBody? ==>
      v.body.empty.heading == DefaultEmptyMessage && v.body.empty.subtitle == EmptySubtitle &&
      v.body.empty.button == Some(ReloadLabel)
    ensures v.Main? && v.body.CardBody? ==>
      v.body.card == Card(s.queue[s.currentIndex], props.renderContent)
  {
    if s.loading then
      Spinner(LoadingSpinner(Some(LoadingMessage)))
    else if !s.authenticated then
      Prompt(AuthPrompt(props.platform, None))
    else
      Main(
        OperatorHeader(props.title, |s.queue|, None),
        if variant == ListSidebar then Some(Sidebar(s.queue, s.currentIndex)) else None,
        variant == CardsStream,
        if |s.queue| == 0 then EmptyBody(EmptyState(None, true, Some(ReloadLabel)))
        else CardBody(Card(s.queue[s.currentIndex], props.renderContent)))
  }

  /** `ListSidebarApp` hands its `renderPreview` to `Sidebar`, which drops
      it: the view is the same whatever preview function the page passed. */
  lemma RenderPreviewIgnored(props: Props, s: AppState, renderPreview: Option<Renderer>)
    requires Drawable(s)
    ensures View(ListSidebar, props, s) == View(ListSidebar, props.(renderPreview := renderPreview), s)
  {
  }

  // The events the user and the fetch can cause, and which the view offers.

  datatype Event =
    | Key(key: string)
    | ClickRow(index: nat)
    | ClickDone
    | ClickNext
    | ClickReload
    | ClickConnect
    | FetchSettles(outcome: Outcome)

  /** The keydown listener is attached on every render; rows, DONE, NEXT,
      Reload Data and Connect exist only where the view draws them; the
      fetch settles only while a load is under way. */
  predicate Offered(variant: Variant, props: Props, s: AppState, ev: Event)
    requires Drawable(s)
  {
    var v := View(variant, props, s);
    match ev
    case Key(_) => true
    case ClickRow(i) => v.Main? && v.sidebar.Some? && i < |v.sidebar.value|
    case ClickDone => v.Main? && v.body.CardBody?
    case ClickNext => v.Main? && v.body.CardBody?
    case ClickReload => v.Main? && v.body.EmptyBody?
    case ClickConnect => v.Prompt?
    case FetchSettles(_) => s.loading
  }

  /** One event, routed to its handler. Every offered event keeps Inv, so
      with InitialInv every state either app reaches satisfies it; in
      particular a load always ends in exactly LOAD of the fetched data,
      although `loadData` never resets the index. */
  method Step(variant: Variant, props: Props, s: AppState, ev: Event) returns (t: AppState)
    requires Inv(s) && Offered(variant, props, s, ev)
    ensures Inv(t)
    ensures ev.ClickReload? || ev.ClickConnect? ==> t == s.(loading := true)
    ensures ev.FetchSettles? && ev.outcome.Fetched? ==>
      CursorOf(t) == Load(ev.outcome.items) && t.authenticated && !t.loading
    ensures ev.FetchSettles? && ev.outcome.FetchFailed? ==> t == AppState([], 0, false, false)
    ensures ev.ClickRow? ==> t.queue == s.queue && t.currentIndex == ev.index && ActiveItem(CursorOf(t)) == Some(s.queue[ev.index])
    ensures ev.ClickDone? ==> |t.queue| + 1 == |s.queue|
    ensures ev.ClickNext? ==> t.currentIndex == s.currentIndex && |t.queue| == |s.queue|
    ensures ev.Key? && s.loading ==> t == s
  {
    match ev
    case Key(key) =>
      var prevented;
      t, prevented := HandleKeyDown(variant, s, key);
    case ClickRow(i) =>
      t := HandleSelectCard(s, i);
    case ClickDone =>
      t := HandleDone(s);
    case ClickNext =>
      t := HandleNext(s);
    case ClickReload =>
      t := StartLoad(s);
    case ClickConnect =>
      t := StartLoad(s);
    case FetchSettles(outcome) =>
      t := SettleLoad(s, outcome);
  }
}
