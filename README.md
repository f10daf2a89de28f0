# Operator decision queue, in Dafny

Operator shows a queue of items waiting for a decision (messages, review
requests, reports), one at a time. The cursor `currentIndex` names the item
on display. The user acts on that item:

- DONE removes it.
- NEXT moves it to the back of the queue.
- A click on a row of the list selects a row.
- ArrowLeft steps back one.
- A load replaces the queue.

The same rules are written three times:

- `app.js`: a class that splices its own array in place and redraws the page.
- `shared/js/operator-ui.js`: a React `App` with a focus/list mode toggle.
- `shared/js/ui-components.js`: two reusable apps, `ListSidebarApp` and `CardsStreamApp`. They put a loading/sign-in gate around the queue.

The project keeps the cursor state machine in one generic module and proves
its properties once. Each front end is then modelled in its own form, and
each of its operations is proved equal to the shared transition.

| file | module | models |
|---|---|---|
| `queue_core.dfy` | `QueueCore` | The cursor and its invariant. DONE, NEXT, SELECT, ArrowLeft and LOAD as functions. The keyboard table. The lemmas: DONE removes one item, NEXT is a permutation, NEXT at the tail is a no-op, a full cycle of NEXTs restores the queue. |
| `cards.dfy` | `Cards` | The item record of `app.js` and `operator-ui.js`, the eight sample items, the 60-character preview and the list rows. |
| `operator_app.dfy` | `OperatorApp` | `app.js` as a class. The page is a `screen` field written by `updateUI`, `renderList` and `switchMode`. `Valid()` says the page shows the state. |
| `operator_ui.dfy` | `OperatorUi` | The React `App`. Each handler is a method from the old state values to the new ones, working on a copy. The components are pure view functions. An event step covers every event the view offers. |
| `ui_components.dfy` | `UiComponents` | The shared components with their fallbacks from one optional field to another. The two apps, the load outcome and the render priority. An invariant that every event keeps. |

The invariant is `QueueCore.Valid`: on a non-empty queue the index points at
an item, and on an empty queue it is 0. The second half is stronger than
"in range when non-empty", and every front end keeps it. It shows why
`loadData` in `ui-components.js` is correct although it never resets the
index (line 176):

- a load can only start from an empty queue;
- an empty queue has index 0;
- so the settled load is exactly LOAD, which sets the index to 0.

`UiComponents.SettleLoad` also proves the other side. Started from an index
past the end of non-empty data, the same code would leave the cursor out of
range.

Three places where the front ends do not behave alike:

- `loadSampleData` (app.js:235) and `handleAddSample`
  (shared/js/operator-ui.js:235) set the index to 0 on a load, while
  `loadData` (shared/js/ui-components.js:176) does not. The model sets no
  index there and proves that no reachable state can tell the difference.
- There are three ArrowLeft rules:
  - `ListSidebarApp` steps back whatever the layout;
  - `CardsStreamApp` has no ArrowLeft at all;
  - `app.js` and `operator-ui.js` step back in list mode only.
- `ListSidebarApp` accepts a `renderPreview` function and passes it to
  `Sidebar`. `Sidebar` drops it, so the rows always show the default
  preview.

## Model

| member | source | states |
|---|---|---|
| `QueueCore.RemoveAt` | app.js:101 | `splice(i, 1)`: the queue is one shorter; the items before `i` stay where they were and the items after it move up one. |
| `QueueCore.RemoveAtMultiset` | app.js:101 | What the splice takes out is exactly one copy of the item at `i`, and nothing else. |
| `QueueCore.ActiveItem` | app.js:147 | The item on display: none exactly when the queue is empty, otherwise the item at the index. |
| `QueueCore.DoneRepair` | app.js:104-106 | The index repair after DONE: an index still in range is kept; one past the end of a non-empty queue moves to the new last slot; an index at most one past the end of a non-empty queue ends in range; index 0 stays 0. |
| `QueueCore.NextReset` | app.js:119-121 | The index rule after NEXT: an index in range is kept, one out of range becomes 0, and on a non-empty queue the result is in range. |
| `QueueCore.Done` | app.js:97-109 | No-op on an empty queue. Otherwise: one item shorter; the others keep their order; off the tail, the index stays and the next item slides into view; at the tail of a longer queue, the index moves to the new tail; removing the sole item leaves `[]` with index 0; the invariant is kept. |
| `QueueCore.DoneRemovesOne` | app.js:100-101 | DONE removes exactly one copy of the item on display. |
| `QueueCore.Next` | app.js:111-124 | No-op on an empty queue. The length is unchanged, so the index never changes and the reset-to-0 branch never fires. The item on display goes last. At the tail NEXT changes nothing. The invariant is kept. |
| `QueueCore.NextIsPermutation` | app.js:114-116 | NEXT leaves the same items, each as many times as before. |
| `QueueCore.NextKeepsOrder` | app.js:114-116 | The items before the index stay in place; those after it move up one, in order. |
| `QueueCore.Select` | app.js:126-129 | The queue is unchanged and the index becomes exactly `i`, with no bounds check. On a non-empty queue the invariant holds afterwards exactly when the index is a row index (both directions). A row index puts that row's item on display. |
| `QueueCore.Back` | app.js:71-75 | ArrowLeft: the queue is unchanged, the index goes down by one, and the invariant is kept. |
| `QueueCore.Load` | app.js:183-236 | The queue becomes the given items, the index becomes 0, the cursor is valid, and the first item is on display (none when there are no items). |
| `QueueCore.NextTimes` | app.js:111-124 | Any number of NEXTs in a row leave the index and the length unchanged and keep the index in range. |
| `QueueCore.NextTimesRotates` | app.js:114-116 | `k` NEXTs from index `i` send the `k` items from `i` on, in order, to the back. The rest stays in order. |
| `QueueCore.NextCycleRestores` | app.js:111-124 | As many NEXTs as there are items from index `i` to the end restore the original queue. From index 0, one NEXT per item restores it. |
| `QueueCore.KeyTable` | app.js:55-76 | The keydown table. Nothing happens on an empty queue. `d`/`D` is DONE and `n`/`N`/ArrowRight is NEXT. ArrowLeft steps back exactly when in list mode and the index is positive. Each case is stated both ways. |
| `QueueCore.ApplyKey` | app.js:59-75 | The transition for each key effect. Stepping back leaves the queue alone. Every effect keeps the invariant. |
| `QueueCore.Examples` | app.js:97-124 | Worked cases on `[A, B, C]`: NEXT from the front gives `[B, C, A]` at 0; DONE at 1 gives `[A, C]` at 1; DONE at the tail gives `[A, B]` at 1; ArrowLeft from 2 gives 1; DONE of the sole item gives `[]` at 0; DONE and NEXT on an empty queue change nothing. |
| `Cards.Preview` | app.js:175 | `content.substring(0, 60)` plus an ellipsis. Its length is the smaller of 60 and the content's length, plus 3, and it starts with the content. The ellipsis is added even when nothing was cut. |
| `Cards.ItemRow` | shared/js/operator-ui.js:85-101 | One row: the item's source, time and title as they are, the preview of its content (its first 60 characters before the ellipsis), and the active mark as asked. The app.js row markup (169-176) is the same. |
| `Cards.Rows` | app.js:159-181 | One row per item, in queue order. Each row shows its item's source, time, title and preview. A row is marked active exactly when its position is the index. |
| `Cards.ExactlyOneActive` | app.js:165-167 | The set of active rows is `{index}` when the index is in range, and empty otherwise. |
| `Cards.SampleData` | shared/js/operator-ui.js:5-54 | The sample data is eight items. `loadSampleData` in app.js (183-236) holds the same list. |
| `OperatorApp.App.constructor` | app.js:3-12 | A new app has the sample data, the cursor on the first item, focus mode, and a page that shows the state. |
| `OperatorApp.App.LoadSampleData` | app.js:183-236 | The queue becomes the eight sample items and the index becomes 0. The page and the mode are untouched, since there is no redraw. |
| `OperatorApp.App.AddSample` | app.js:49-52 | Add Sample loads the sample data and redraws, so the page again shows the state. |
| `OperatorApp.App.SwitchMode` | app.js:79-95 | The mode is set and the toggle classes follow it: the sidebar is shown exactly in list mode. The queue and cursor are unchanged. |
| `OperatorApp.App.HandleDone` | app.js:97-109 | The in-place splice and index repair equal `QueueCore.Done`. With an empty queue the page stays as it was. |
| `OperatorApp.App.HandleNext` | app.js:111-124 | The in-place splice and push equal `QueueCore.Next`. With an empty queue the page stays as it was. |
| `OperatorApp.App.SelectCard` | app.js:126-129 | Equals `QueueCore.Select`, then redraws. The caller passes a row index. |
| `OperatorApp.App.ClickRow` | app.js:178 | A row can be clicked only while the sidebar shows it. The click selects that row's item and keeps the invariant. |
| `OperatorApp.App.KeyDown` | app.js:55-76 | The sequential `if`s equal `QueueCore.KeyTable` followed by `QueueCore.ApplyKey`. The default action is prevented exactly when a key has an effect. A key with no effect leaves the page as it was. |
| `OperatorApp.App.UpdateUI` | app.js:131-157 | The count is the queue length. An empty queue shows the empty state, hides the card and clears the list. Otherwise the card shows the item on display, and in list mode the list is redrawn. |
| `OperatorApp.App.RenderList` | app.js:159-181 | The `forEach` loop leaves the list holding exactly `Cards.Rows` of the queue and index. |
| `OperatorUi.Mount` | shared/js/operator-ui.js:164-173 | After the mount effect the state is LOAD of the sample data, in focus mode. |
| `OperatorUi.HandleDone` | shared/js/operator-ui.js:202-213 | Splicing a copy and repairing the index equals `QueueCore.Done`. The mode is kept. |
| `OperatorUi.HandleNext` | shared/js/operator-ui.js:215-227 | Splicing a copy and pushing the item equals `QueueCore.Next`. The mode is kept. |
| `OperatorUi.HandleSelectCard` | shared/js/operator-ui.js:229-231 | Equals `QueueCore.Select`. |
| `OperatorUi.HandleAddSample` | shared/js/operator-ui.js:233-236 | Equals LOAD of the eight sample items. |
| `OperatorUi.HandleKeyDown` | shared/js/operator-ui.js:175-200 | The same table as app.js, with ArrowLeft in list mode only. The default action is prevented exactly when a key has an effect. |
| `OperatorUi.Header` | shared/js/operator-ui.js:57-82 | Exactly one toggle button is active, the one for the current mode. The count is the queue length. |
| `OperatorUi.Sidebar` | shared/js/operator-ui.js:104-124 | Nothing unless visible. Otherwise one `ListItem` row per item, active exactly at the index. |
| `OperatorUi.EmptyState` | shared/js/operator-ui.js:151-161 | The fixed heading "No items in queue", the message "All tasks completed!" and the "Add Sample Items" button. |
| `OperatorUi.Render` | shared/js/operator-ui.js:238-270 | The header count is the queue length. The sidebar is shown exactly in list mode and the focus layout exactly in focus mode. The empty state (`EmptyState`) is shown exactly when the queue is empty; otherwise the card is the item on display. |
| `OperatorUi.Step` | shared/js/operator-ui.js:245-265 | Every event the rendered view offers keeps the invariant. A row click keeps the queue and sets the index to that row. DONE shortens the queue by one. NEXT keeps the index and the length. Only the mode buttons change the mode. |
| `UiComponents.OperatorHeader` | shared/js/ui-components.js:7-26 | The back link is shown unless `showBackLink` is false. The title is shown. The count is the queue length. |
| `UiComponents.DefaultPreview` | shared/js/ui-components.js:39-42 | The preview of the content; when the content is missing or empty, the preview of the body; when both are missing, the preview of the empty string. |
| `UiComponents.ListItem` | shared/js/ui-components.js:29-44 | Source falls back to type and time to timeAgo (on a missing or empty value). The title is shown. The preview is the caller's rendering when given, else the default. The row is active when asked. |
| `UiComponents.Sidebar` | shared/js/ui-components.js:47-63 | One row per item, active exactly at the index. Every row carries the default preview. |
| `UiComponents.Card` | shared/js/ui-components.js:66-94 | The same source and time fallbacks as a row. The content is the caller's rendering when given; otherwise the content, falling back to the body. |
| `UiComponents.RowAgreesWithCard` | shared/js/ui-components.js:35-42 | A row and the card of the same item show the same source, time and title after the fallbacks. With no render functions, the row's preview is the preview of exactly the text the card shows (Card: 69-75). |
| `UiComponents.EmptyState` | shared/js/ui-components.js:97-106 | The heading is the message, by default "No items in queue", over the fixed subtitle. The button exists exactly when there is an action, labelled "Reload" by default. |
| `UiComponents.AuthPrompt` | shared/js/ui-components.js:109-121 | "`platform` Authentication". The custom message, or else the default request naming the platform. A "Connect `platform`" button. |
| `UiComponents.LoadingSpinner` | shared/js/ui-components.js:124-129 | The message is shown exactly when it is present and not empty. |
| `UiComponents.InitialInv` | shared/js/ui-components.js:139-146 | The first state (no items, index 0, loading, not signed in) satisfies the apps' invariant. |
| `UiComponents.HandleDone` | shared/js/ui-components.js:186-196 | Equals `QueueCore.Done`; `CardsStreamApp`'s copy at 312-322 is the same. The loading and sign-in flags are kept. |
| `UiComponents.HandleNext` | shared/js/ui-components.js:198-209 | Equals `QueueCore.Next`, so its reset branch never fires; `CardsStreamApp`'s copy at 324-335 is the same. The flags are kept. |
| `UiComponents.HandleSelectCard` | shared/js/ui-components.js:211-213 | Equals `QueueCore.Select`. The flags are kept. |
| `UiComponents.HandleKeyDown` | shared/js/ui-components.js:148-170 | `ListSidebarApp` steps back on ArrowLeft whenever the index is positive; `CardsStreamApp` (279-296) never does. Otherwise it is the shared table, and the default action is prevented exactly when a key has an effect. |
| `UiComponents.StartLoad` | shared/js/ui-components.js:172-173 | Starting a load raises the loading flag and changes nothing else. |
| `UiComponents.SettleLoad` | shared/js/ui-components.js:174-184 | On success the queue is the data and the user is signed in. On failure the user is not, and the queue is kept. Either way loading stops and the index is not reset. From an empty valid cursor the result is exactly LOAD. From an index past the end of non-empty data it would be out of range. |
| `UiComponents.View` | shared/js/ui-components.js:215-260 | The spinner ("Loading...") exactly while loading. Otherwise the sign-in prompt exactly when not signed in. Otherwise the header with count = queue length, with the sidebar in `ListSidebarApp` only and the focus layout in `CardsStreamApp` (339-376) only. Then, exactly on an empty queue, the empty state "No items in queue" over "All tasks completed!" with a "Reload Data" button (`EmptyState` with that action); else the card on display. |
| `UiComponents.RenderPreviewIgnored` | shared/js/ui-components.js:238-243 | The `ListSidebarApp` view is the same whatever `renderPreview` the page passes. |
| `UiComponents.Step` | shared/js/ui-components.js:132-261 | Every event the view offers keeps the invariant: keys, row clicks, DONE, NEXT, Reload Data, Connect, and the fetch settling. A load settles to exactly LOAD of the fetched data, and a failed load to the empty, signed-out state. A row click sets the index to that row. Keys do nothing while loading. |

## Left out

- React and the DOM are not modelled: `useState`/`useEffect` scheduling, listener registration and removal, `ReactDOM.createRoot`, and the `innerHTML`/`classList`/`style` writes. Each render is a view value, and each handler is one step from the old state values to the new ones.
- `preventDefault` is not modelled as a call. The key handlers return whether the default action was prevented.
- `fetchData` and the `async`/`await` of `loadData` are not modelled as code: the load is split into its start (`StartLoad`) and its settling, and what the fetch returned is an input `Outcome`. Only one load is in flight at a time, because no button that starts one is drawn while loading.
- `console.error` on a failed load is left out.
- `shared/js/auth-utils.js` is not part of this model. It is storage, redirects, random values and SHA-256 via the browser's crypto API.
- `scripts/*`, the end-to-end and unit tests, and the Jest configuration are not part of this model.
- `app.js:238-247` `getSampleData` is dead code that nothing calls, and is left out.
- The page markup of `app.js` (the HTML file) is not part of this model. `OperatorApp.InitialScreen` assumes the page starts in focus mode with an empty list.
- `Cards.Rows`: app.js builds each row by putting the item's source, time, title and 60-character preview into `innerHTML` markup, unescaped (app.js:169-176). The browser parses that text as HTML, so a `<` or `&` in a field changes what the row shows, and the 60-character cut can split a tag or an entity. The card writes the same fields through `textContent` (app.js:148-151) and shows them as they are. The rows here hold the raw strings, so they match the app.js page only for fields without markup characters. The React front ends escape text and match it always.
- `OperatorApp.App.ClickRow`: requires the sidebar to be shown (list mode). This assumes the stylesheet hides the sidebar, and so its rows, when the sidebar lacks the `active` class. The stylesheet is not part of this model. The rows can be stale in focus mode: `updateUI` redraws them only in list mode (app.js:154-156) and clears them only on an empty queue (app.js:139). So after list mode, focus mode and then DONE, eight rows remain for seven items. If a stale last row could be clicked, `selectCard(7)` would leave the index out of range and the redraw would fail at app.js:148. The model does not cover that click.
- `OperatorApp.App.SelectCard`: requires the index to be a row index, because the redraw after it reads the item at the index and would fail on any other. The only caller, the row click, passes a row index (`ClickRow`).
- `OperatorUi.Render`: requires the index to be in range on a non-empty queue. The source passes `undefined` to `Card` otherwise, and that fails.
- `UiComponents.View`: requires the same whenever the card is drawn (`Drawable`). The spinner and prompt views need nothing.
- `Cards.Preview`: counts Dafny characters, while `substring` counts UTF-16 code units. The two differ only on characters outside the Basic Multilingual Plane.
- `UiComponents.Record`: the caller's `renderContent` and `renderPreview` return elements in the source. Here they are functions from a record to a string.
