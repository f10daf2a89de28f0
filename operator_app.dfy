/** app.js: the single-page OperatorApp. It keeps the queue, the cursor and
    the view mode in its own fields, changes them in place, and redraws the
    page after every change. */
module OperatorApp {
  import opened QueueCore
  import opened Cards

  /** The classes `switchMode` sets: which toggle button is active, whether
      the sidebar is shown, whether the card container has the focus layout. */
  datatype Toggles = Toggles(focusButton: bool, listButton: bool, sidebar: bool, focusLayout: bool)

  /** What the page shows: the elements `updateUI`, `renderList` and
      `switchMode` write. */
  datatype Screen = Screen(
    count: nat,         // the queue count
    emptyShown: bool,   // the empty state is displayed
    cardShown: bool,    // the card view is displayed
    card: Item,         // the source, time, title and content of the card
    rows: seq<Row>,     // the rows of the card list
    toggles: Toggles)

  /** The page before the first redraw. Its markup is not part of this
      model; it is taken to be in focus mode with an empty card list. */
  const InitialScreen: Screen :=
    Screen(0, true, false, Item("", "", "", ""), [], Toggles(true, false, false, true))

  class App {
    var queue: seq<Item>
    var currentIndex: nat
    var viewMode: Mode
    var screen: Screen

    function State(): Cursor<Item>
      reads this
    {
      Cursor(queue, currentIndex)
    }

    /** The toggles carry the classes of the current mode. */
    ghost predicate TogglesMatch()
      reads this
    {
      screen.toggles == Toggles(viewMode == Focus, viewMode == List, viewMode == List, viewMode == Focus)
    }

    /** The page shows the current state: the count, the empty state or the
        card on display, and in list mode one row per item. In focus mode the
        hidden list keeps whatever it last held. */
    ghost predicate Shows()
      reads this
    {
      screen.count == |queue| &&
      (|queue| == 0 ==> screen.emptyShown && !screen.cardShown && screen.rows == []) &&
      (|queue| > 0 ==>
        !screen.emptyShown && screen.cardShown &&
        currentIndex < |queue| && screen.card == queue[currentIndex]) &&
      (viewMode == List ==> screen.rows == Rows(queue, currentIndex))
    }

    ghost predicate Valid()
      reads this
    {
      QueueCore.Valid(State()) && TogglesMatch() && Shows()
    }

    /** `new OperatorApp()`: an empty queue in focus mode, then the sample
        data, then the first redraw. */
    constructor ()
      ensures Valid()
      ensures State() == Load(SampleData()) && viewMode == Focus
    {
      queue, currentIndex, viewMode := [], 0, Focus;
      screen := InitialScreen;
      new;
      LoadSampleData();
      UpdateUI();
    }

    /** `loadSampleData`: the eight sample items, the cursor on the first.
        It does not redraw. */
    method LoadSampleData()
      modifies this
      ensures State() == Load(SampleData())
      ensures viewMode == old(viewMode) && screen == old(screen)
    {
      queue := SampleData();
      currentIndex := 0;
    }

    /** The Add Sample button: load the sample data and redraw. */
    method AddSample()
      requires Valid()
      modifies this
      ensures Valid()
      ensures State() == Load(SampleData()) && viewMode == old(viewMode)
    {
      LoadSampleData();
      UpdateUI();
    }

    /** `switchMode`: set the mode, move the classes to match, redraw. */
    method SwitchMode(mode: Mode)
      requires Valid()
      modifies this
      ensures Valid()
      ensures viewMode == mode && State() == old(State())
      ensures screen.toggles.sidebar <==> mode == List
    {
      viewMode := mode;
      if mode == Focus {
        screen := screen.(toggles := Toggles(true, false, false, true));
      } else {
        screen := screen.(toggles := Toggles(false, true, true, false));
      }
      UpdateUI();
    }

    /** `handleDone`: remove the item on display in place, repair the
        index, redraw. Nothing happens on an empty queue. */
    method HandleDone()
      requires Valid()
      modifies this
      ensures Valid()
      ensures State() == Done(old(State())) && viewMode == old(viewMode)
      ensures |old(queue)| == 0 ==> screen == old(screen)
    {
      if |queue| == 0 {
        return;
      }
      queue := RemoveAt(queue, currentIndex);
      currentIndex := DoneRepair(currentIndex, |queue|);
      UpdateUI();
    }

    /** `handleNext`: move the item on display to the back in place, keep
        the index (the reset to 0 cannot fire), redraw. Nothing happens on
        an empty queue. */
    method HandleNext()
      requires Valid()
      modifies this
      ensures Valid()
      ensures State() == Next(old(State())) && viewMode == old(viewMode)
      ensures |old(queue)| == 0 ==> screen == old(screen)
    {
      if |queue| == 0 {
        return;
      }
      var currentItem := queue[currentIndex];
      queue := RemoveAt(queue, currentIndex);
      queue := queue + [currentItem];
      // the reset to 0 when out of range; the length is back to what it was
      currentIndex := NextReset(currentIndex, |queue|);
      UpdateUI();
    }

    /** `selectCard`: set the index and redraw. There is no bounds check;
        the redraw reads the item at the index, so callers pass a row index. */
    method SelectCard(index: nat)
      requires Valid() && index < |queue|
      modifies this
      ensures Valid()
      ensures State() == Select(old(State()), index) && viewMode == old(viewMode)
    {
      currentIndex := index;
      UpdateUI();
    }

    /** The click listener `renderList` puts on row `index`. Rows can be
        clicked only while the sidebar is shown, that is in list mode, where
        the rows are those of the current queue: so the index is in range. */
    method ClickRow(index: nat)
      requires Valid() && screen.toggles.sidebar && index < |screen.rows|
      modifies this
      ensures Valid()
      ensures queue == old(queue) && currentIndex == index && viewMode == old(viewMode)
      ensures ActiveItem(State()) == Some(queue[index])
    {
      SelectCard(index);
    }

    /** The keydown listener. The result tells whether the default action
        was prevented. Each branch runs at most once: the keys they test are
        distinct. */
    method KeyDown(key: string) returns (prevented: bool)
      requires Valid()
      modifies this
      ensures Valid() && viewMode == old(viewMode)
      ensures var e := KeyTable(key, |old(queue)| == 0, old(viewMode) == List, old(currentIndex));
        prevented == (e != NoEffect) && State() == ApplyKey(old(State()), e) &&
        (e == NoEffect ==> screen == old(screen))
    {
      prevented := false;
      if |queue| == 0 {
        return;
      }
      if key == "d" || key == "D" {
        prevented := true;
        HandleDone();
      }
      if key == "n" || key == "N" || key == "ArrowRight" {
        prevented := true;
        HandleNext();
      }
      if key == "ArrowLeft" && viewMode == List && currentIndex > 0 {
        prevented := true;
        currentIndex := currentIndex - 1;
        UpdateUI();
      }
    }

    /** `updateUI`: write the count; on an empty queue show the empty state,
        hide the card and clear the list; otherwise show the card of the
        item on display and, in list mode only, redraw the list. */
    method UpdateUI()
      requires InBounds(State())
      modifies this
      ensures State() == old(State()) && viewMode == old(viewMode)
      ensures Shows() && screen.toggles == old(screen.toggles)
      ensures |queue| > 0 && viewMode == Focus ==> screen.rows == old(screen.rows)
    {
      screen := screen.(count := |queue|);
      if |queue| == 0 {
        screen := screen.(emptyShown := true, cardShown := false, rows := []);
        return;
      }
      screen := screen.(emptyShown := false, cardShown := true);
      screen := screen.(card := queue[currentIndex]);
      if viewMode == List {
        RenderList();
      }
    }

    /** `renderList`: clear the list, then append one row per item in queue
        order, the row at the index marked active. */
    method RenderList()
      modifies this
      ensures State() == old(State()) && viewMode == old(viewMode)
      ensures screen == old(screen).(rows := Rows(queue, currentIndex))
    {
      screen := screen.(rows := []);
      var index := 0;
      while index < |queue|
        invariant 0 <= index <= |queue|
        invariant State() == old(State()) && viewMode == old(viewMode)
        invariant screen == old(screen).(rows := Rows(queue, currentIndex)[..index])
      {
        screen := screen.(rows := screen.rows + [ItemRow(queue[index], index == currentIndex)]);
        index := index + 1;
      }
    }
  }
}
