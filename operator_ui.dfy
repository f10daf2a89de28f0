/** shared/js/operator-ui.js: the same queue as a React `App`. Its state is
    three values; each handler builds the next values from the current ones
    (on a copy of the queue) and hands them to the setters, which here is
    one step from an old state to a new one. The components are pure
    functions from props to a view. */
module OperatorUi {
  import opened QueueCore
  import opened Cards

  /** The `useState` values of `App`. */
  datatype AppState = AppState(queue: seq<Item>, currentIndex: nat, viewMode: Mode)

  function CursorOf(s: AppState): Cursor<Item>
  {
    Cursor(s.queue, s.currentIndex)
  }

  /** The state once mounted: the initial values, then the mount effect's
      `setQueue(getSampleData())`. */
  method Mount() returns (s: AppState)
    ensures CursorOf(s) == Load(SampleData()) && s.viewMode == Focus
  {
    s := AppState([], 0, Focus);
    s := s.(queue := SampleData());
  }

  /** `handleDone`: splice the item on display out of a copy, then repair
      the index. Nothing happens on an empty queue. */
  method HandleDone(s: AppState) returns (t: AppState)
    requires InBounds(CursorOf(s))
    ensures CursorOf(t) == Done(CursorOf(s)) && t.viewMode == s.viewMode
  {
    if |s.queue| == 0 {
      return s;
    }
    var newQueue := s.queue;
    newQueue := RemoveAt(newQueue, s.currentIndex);
    t := s.(queue := newQueue);
    if s.currentIndex >= |newQueue| && s.currentIndex > 0 {
      t := t.(currentIndex := |newQueue| - 1);
    }
  }

  /** `handleNext`: splice the item on display out of a copy and push it
      at the back; the reset to 0 when out of range never fires. Nothing
      happens on an empty queue. */
  method HandleNext(s: AppState) returns (t: AppState)
    requires InBounds(CursorOf(s))
    ensures CursorOf(t) == Next(CursorOf(s)) && t.viewMode == s.viewMode
  {
    if |s.queue| == 0 {
      return s;
    }
    var newQueue := s.queue;
    var currentItem := newQueue[s.currentIndex];
    newQueue := RemoveAt(newQueue, s.currentIndex);
    newQueue := newQueue + [currentItem];
    t := s.(queue := newQueue, currentIndex := NextReset(s.currentIndex, |newQueue|));
  }

  /** `handleSelectCard`: set the index, with no bounds check. */
  method HandleSelectCard(s: AppState, index: nat) returns (t: AppState)
    ensures CursorOf(t) == Select(CursorOf(s), index) && t.viewMode == s.viewMode
  {
    t := s.(currentIndex := index);
  }

  /** `handleAddSample`: the eight sample items, the cursor on the first. */
  method HandleAddSample(s: AppState) returns (t: AppState)
    ensures CursorOf(t) == Load(SampleData()) && t.viewMode == s.viewMode
  {
    t := s.(queue := SampleData());
    t := t.(currentIndex := 0);
  }

  /** The keydown effect. The result tells whether the default action was
      prevented; the table is the one app.js has. */
  method HandleKeyDown(s: AppState, key: string) returns (t: AppState, prevented: bool)
    requires InBounds(CursorOf(s))
    ensures var e := KeyTable(key, |s.queue| == 0, s.viewMode == List, s.currentIndex);
      prevented == (e != NoEffect) && CursorOf(t) == ApplyKey(CursorOf(s), e)
    ensures t.viewMode == s.viewMode
  {
    t, prevented := s, false;
    if |s.queue| == 0 {
      return;
    }
    if key == "d" || key == "D" {
      prevented := true;
      t := HandleDone(s);
    }
    if key == "n" || key == "N" || key == "ArrowRight" {
      prevented := true;
      t := HandleNext(s);
    }
    if key == "ArrowLeft" && s.viewMode == List && s.currentIndex > 0 {
      prevented := true;
      t := s.(currentIndex := s.currentIndex - 1);
    }
  }

  // The components.

  datatype HeaderView = HeaderView(focusButtonActive: bool, listButtonActive: bool, count: nat)

  /** `Header`: the button of the current mode is marked active, and the
      count is the queue length. */
  function Header(viewMode: Mode, queueLength: nat): (h: HeaderView)
    ensures h.focusButtonActive <==> viewMode == Focus
    ensures h.listButtonActive <==> viewMode == List
    ensures h.focusButtonActive != h.listButtonActive
    ensures h.count == queueLength
  {
    HeaderView(viewMode == Focus, viewMode == List, queueLength)
  }

  /** `Sidebar`: nothing unless visible; otherwise one `ListItem` row per
      item, the row at the index marked active. */
  function Sidebar(queue: seq<Item>, currentIndex: nat, isVisible: bool): (r: Option<seq<Row>>)
    ensures r.None? <==> !isVisible
    ensures r.Some? ==> |r.value| == |queue|
    ensures r.Some? ==> forall k :: 0 <= k < |queue| ==>
      r.value[k] == ItemRow(queue[k], k == currentIndex) && (r.value[k].active <==> k == currentIndex)
  {
    if !isVisible then None else Some(Rows(queue, currentIndex))
  }

  datatype EmptyView = EmptyView(heading: string, message: string, button: string)

  const EmptyHeading: string := "No items in queue"
  const EmptyMessage: string := "All tasks completed!"
  const AddSampleLabel: string := "Add Sample Items"

  /** `EmptyState`: fixed texts, whatever the state, and the button that
      adds the sample items. */
  function EmptyState(): (e: EmptyView)
    ensures e.heading == EmptyHeading && e.message == EmptyMessage
    ensures e.button == AddSampleLabel
  {
    EmptyView(EmptyHeading, EmptyMessage, AddSampleLabel)
  }

  /** What the card container holds. */
  datatype Body = ShowEmpty(empty: EmptyView) | ShowCard(card: Item)

  datatype AppView = AppView(header: HeaderView, sidebar: Option<seq<Row>>, focusLayout: bool, body: Body)

  /** What `App` renders: the header; the sidebar in list mode only; the
      focus layout in focus mode only; the empty state on an empty queue,
      otherwise the `Card` of the item on display. */
  function Render(s: AppState): (v: AppView)
    requires InBounds(CursorOf(s))
    ensures v.header == Header(s.viewMode, |s.queue|) && v.header.count == |s.queue|
    ensures v.sidebar == Sidebar(s.queue, s.currentIndex, s.viewMode == List)
    ensures v.focusLayout <==> s.viewMode == Focus
    ensures v.body.ShowEmpty? <==> |s.queue| == 0
    ensures v.body.ShowEmpty? ==> v.body.empty == EmptyState()
    ensures v.body.ShowCard? ==> ActiveItem(CursorOf(s)) == Some(v.body.card)
  {
    AppView(
      Header(s.viewMode, |s.queue|),
      Sidebar(s.queue, s.currentIndex, s.viewMode == List),
      s.viewMode == Focus,
      if |s.queue| == 0 then ShowEmpty(EmptyState()) else ShowCard(s.queue[s.currentIndex]))
  }

  // The events the user can cause, and which of them the view offers.

  datatype Event =
    | KeyDown(key: string)
    | ClickMode(mode: Mode)
    | ClickRow(index: nat)
    | ClickDone
    | ClickNext
    | ClickAddSample

  /** Keys and the mode buttons always work; a row can be clicked when the
      sidebar shows it; DONE and NEXT are on the card; Add Sample is on the
      empty state. */
  predicate Offered(s: AppState, ev: Event)
    requires InBounds(CursorOf(s))
  {
    var v := Render(s);
    match ev
    case KeyDown(_) => true
    case ClickMode(_) => true
    case ClickRow(i) => v.sidebar.Some? && i < |v.sidebar.value|
    case ClickDone => v.body.ShowCard?
    case ClickNext => v.body.ShowCard?
    case ClickAddSample => v.body.ShowEmpty?
  }

  /** One event, routed to its handler. Every event the view offers keeps
      the cursor invariant; with Mount, every reachable state is Valid. */
  method Step(s: AppState, ev: Event) returns (t: AppState)
    requires Valid(CursorOf(s)) && Offered(s, ev)
    ensures Valid(CursorOf(t))
    ensures t.viewMode == if ev.ClickMode? then ev.mode else s.viewMode
    ensures ev.ClickRow? ==> t.queue == s.queue && t.currentIndex == ev.index && ActiveItem(CursorOf(t)) == Some(s.queue[ev.index])
    ensures ev.ClickDone? ==> |t.queue| + 1 == |s.queue|
    ensures ev.ClickNext? ==> t.currentIndex == s.currentIndex && |t.queue| == |s.queue|
  {
    match ev
    case KeyDown(key) =>
      var prevented;
      t, prevented := HandleKeyDown(s, key);
    case ClickMode(mode) =>
      t := s.(viewMode := mode);
    case ClickRow(i) =>
      t := HandleSelectCard(s, i);
    case ClickDone =>
      t := HandleDone(s);
    case ClickNext =>
      t := HandleNext(s);
    case ClickAddSample =>
      t := HandleAddSample(s);
  }
}
