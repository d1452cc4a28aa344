# sangocui in Dafny

A model of the logic layer of sangocui, a thin wrapper around the gocui
terminal library. Panels are configured as named rectangles. Each panel has
offsets relative to the terminal size, display flags and a selection colour
record. Keybindings are configured as lists of (key, action) pairs per view.
The wrapper does these things, and the model covers each of them:

- it scales panel offsets into absolute coordinates;
- it turns configured key and colour names into backend codes;
- it registers one backend keybinding per configured pair;
- it dispatches named events to an ordered list of subscribers;
- it keeps the backend's views in step with the panels: create, rebuild, show, hide, select;
- it moves view cursors.

Two controller variants exist. `Sangocui` (package sangocui) holds the renderer
methods as well. `Songocui` (package songocui) has no renderer methods. It also
panics where sangocui carries on: on a configuration that fails to decode, and on
a keybinding the backend refuses. The model keeps the second of these, as an
early return of an error.

Layout, one module per file:

- `wrappers.dfy`: `Option`, which stands for Go's nil-or-value results.
- `backend.dfy`: the gocui backend as class `Gui`. It holds a map from view
  name to a `View` record and the list of registered bindings. It also has the
  `SetView`, `DeleteView`, `SetCursor`, `SetOrigin` and `SetKeybinding`
  operations the layer calls.
- `mapper.dfy`: the key and colour tables.
- `coordinate.dfy`: the `Coordinate` record and its in-place `Scale`.
- `panel.dfy`: `SelectionColor`, the `Panel` record and its selection toggles.
- `dispatch.dfy`: subscriber dispatch as a function, with its properties.
- `keybinds.dfy`: expansion of a keybinding configuration into registrations,
  and which of them a backend keeps.
- `renderer.dfy`: what the renderer does, as functions of the panel values and
  the views before the call. This covers view creation, the rebuild over all
  panels, lookup by name, the by-name updates and the cursor rules.
- `sangocui.dfy`: class `Sangocui`, the controller plus the renderer methods.
  Each method is proved against the functions above.
- `songocui.dfy`: class `Songocui`, the second controller.

## Model

| member | source | states |
|---|---|---|
| Coordinates.Coord.Scaled | coordinate.go:11-24 | An absolute field becomes extent + offset when its offset is non-zero, with X fields using maxX and Y fields using maxY. A zero offset leaves its absolute field exactly as before. The four offsets never change. |
| Coordinates.Coordinate.Scale | coordinate.go:11-24 | The in-place update leaves the record equal to the old record scaled, field by field as `Scaled` states. |
| Coordinates.Coordinate.constructor | coordinate.go:4-7 | A record holding the eight given fields. |
| Coordinates.ScaleIdempotent | coordinate.go:11-24 | Scaling twice with the same extents equals scaling once. |
| Coordinates.RescaleForgetsOldExtents | coordinate.go:11-24 | Re-scaling with new extents gives the same record as scaling once with the new extents, so the old extents leave no trace. |
| Coordinates.ScaleAxesIndependent | coordinate.go:12-23 | X absolute fields do not depend on maxY. Y absolute fields do not depend on maxX. |
| Panels.SelectionColor.Enabled | panel.go:12-15 | The current pair equals the active pair. The active and unactive pairs are unchanged. |
| Panels.SelectionColor.Disabled | panel.go:18-21 | The current pair equals the unactive pair. The active and unactive pairs are unchanged. |
| Panels.Panel.EnableSelection | panel.go:12-15 | The panel afterwards equals the panel before with only its selection replaced by the enabled one. Title, name, flags and coordinate are untouched. |
| Panels.Panel.DisableSelection | panel.go:18-21 | The same, with the disabled selection. |
| Panels.Panel.constructor | panel.go:3-10 | A panel holding the given field values. |
| Panels.ToggleIdempotent | panel.go:12-21 | Enabling twice equals enabling once. Disabling twice equals disabling once. |
| Panels.LastToggleDecides | panel.go:12-21 | For any non-empty sequence of enable and disable calls, the colours equal the effect of the last call alone. |
| Panels.ToggledShowsAPair | panel.go:12-21 | After at least one call, the current pair is the active pair or the unactive pair. The fixed pairs are those of the start. |
| Mapper.KeyStrToCode | mapper.go:8-39 | A name maps to a code other than KeyCtrl2 if and only if it is one of the thirteen listed names. That code is the one the name denotes. Every other string maps to KeyCtrl2. |
| Mapper.KeyNameRoundTrip | mapper.go:9-35 | Every key code except the fallback is reached from its own name. |
| Mapper.KeyStrToCodeInjectiveOnNames | mapper.go:9-35 | Two different listed names give different codes. |
| Mapper.ColorStrToCode | mapper.go:42-55 | The result is ColorBlack if and only if the name is "black" or not one of the four listed names. Otherwise it is the colour the name denotes. |
| Mapper.ColorNameRoundTrip | mapper.go:43-51 | Every colour is reached from its own name. |
| Mapper.ColorStrToCodeNotInjective | mapper.go:46-53 | Any unlisted name maps to the same code as "black". |
| Dispatching.DispatchOf | sangocui.go:83-92 | Dispatch calls a prefix of the subscribers, in order, and all but the last one called succeeded. The result is nil exactly when every subscriber was called and every one succeeded. Otherwise the result is the error of the last one called. |
| Dispatching.DispatchEmpty | sangocui.go:83-92 | With no subscribers, nobody is called and the result is nil. |
| Dispatching.DispatchAllSucceed | sangocui.go:84-91 | If every subscriber succeeds, all are called and the result is nil. |
| Dispatching.DispatchStopsAtFirstFailure | sangocui.go:85-88 | If subscriber k is the first to fail, exactly subscribers 0..k are called and the result is k's error. |
| Dispatching.DispatchSecondOfThreeFails | sangocui.go:84-88 | With three subscribers where the first succeeds and the second fails, the third is not called and the second's error is returned. |
| Dispatching.DispatchAppend | sangocui.go:84-91 | Dispatch over two lists in sequence: the second list is reached only when the whole first list succeeds. |
| Keybinds.Expand | sangocui.go:116-132 | The registrations a configuration asks for, for each entry in order and each pair in order: exactly one per (view, key) pair. |
| Keybinds.Kept | sangocui.go:115-133 | The registrations a backend keeps when each refused one is skipped and the rest keep their order. |
| Keybinds.ExpandAppend | sangocui.go:116-132 | The registrations for a concatenated configuration are those of the first part followed by those of the second. |
| Keybinds.ExpandAt | sangocui.go:116-132 | Pair j of entry i is registration PairCount(entries before i) + j. It carries the entry's view name, the key through KeyStrToCode, and the pair's action. |
| Keybinds.ExpandPrefix | songocui.go:114-125 | The registrations made before pair j of entry i are a prefix of the whole expansion. |
| Keybinds.KeptAll | sangocui.go:115-133 | A backend that refuses nothing keeps every registration. |
| Keybinds.KeptRefusesNone | sangocui.go:115-133 | None of the kept registrations is refused. |
| Keybinds.FirstRefused | songocui.go:118-122 | The position of the first refused registration, or the length when none is refused. Every registration before it is accepted. |
| Keybinds.FirstRefusedAt | songocui.go:118-122 | A prefix that is accepted throughout and is followed by a refusal (or by the end) locates the first refusal. |
| Sangocui.Sangocui.RegisterSubscribers | sangocui.go:79-81 | The subscriber list is replaced wholesale and the panels are unchanged. |
| Sangocui.Sangocui.Dispatch | sangocui.go:83-92 | The loop's error and the number of subscribers called equal `DispatchOf` of the subscriber list. |
| Sangocui.Sangocui.Boot | sangocui.go:57-63 | "Launch" is dispatched, and as many subscribers hear it as `DispatchOf` says. Its error is discarded. |
| Sangocui.Sangocui.LoadPanels | sangocui.go:72-76 | Every decoded panel is scaled exactly once, in place, with the same extents. Nothing else in a panel changes. The order is kept, and the panels become the controller's panels. |
| Sangocui.Sangocui.CreateKeybinds | sangocui.go:115-133 | The backend's bindings grow by exactly the kept registrations of the expansion, in nested order. Refused registrations are skipped and the views are untouched. |
| Sangocui.Sangocui.CreateEntryKeybinds | sangocui.go:117-131 | The inner loop for one entry: the bindings grow by exactly that entry's kept registrations, pair by pair, and the views are untouched. |
| Sangocui.Sangocui.CreateView | renderer.go:29-52 | The result equals `Realize`. It is nil exactly when SetView reports an error other than ErrUnknownView. Otherwise the view shows the panel's rectangle, ColorStrToCode of the current selection colours, the copied flags and title, and Wrap set to true. The view map changes only at the panel's name. |
| Renderer.Realize | renderer.go:29-52 | No view exactly when SetView refuses the panel. Otherwise the view presents the panel. An existing view keeps its content, cursor and origin, and a new one starts empty at (0, 0). |
| Sangocui.Sangocui.CreateViews | renderer.go:10-27 | The returned views and the new view map equal `Render` over the panels in order. The panels themselves are unchanged. |
| Renderer.Render | renderer.go:13-24 | One rebuild over the panels in order. A hidden panel is skipped, a panel SetView refuses adds nothing, and every other panel's view is stored under its name and appended to the result. It never removes a view and returns at most one view per panel; RenderCreatesShown, RenderTouchesOnlyShown and RenderStoresShown state the rest. |
| Renderer.RenderCreatesShown | renderer.go:13-24 | The rebuild returns one view per panel that is not hidden and not refused, in panel order, and each view presents its panel. |
| Renderer.ShownAreVisible | renderer.go:13-22 | No returned view belongs to a hidden panel. There are never more views than non-hidden panels. |
| Renderer.RenderTouchesOnlyShown | renderer.go:13-24 | A rebuild never removes a view. A view whose name no shown panel carries is left exactly as it was. |
| Renderer.RenderHasShownPanel | renderer.go:13-24 | After a rebuild, every panel that is not hidden and is accepted has a view under its name. |
| Renderer.RenderStoresShown | renderer.go:13-24 | After a rebuild, the backend view stored under a visible, accepted panel's name presents that panel (name, rectangle, colours, flags, title, wrapping), unless a later visible, accepted panel has the same name. |
| Renderer.FirstMatch | renderer.go:127-135 | The first position whose panel carries the name, or none exactly when no panel carries it. |
| Sangocui.Sangocui.GetPanelByViewName | renderer.go:127-135 | The result is nil exactly when no panel has the name. Otherwise it is the panel at the first matching position. |
| Renderer.UpdateFirst | renderer.go:137-153 | The first panel with the name becomes the changed panel: hidden set, or selection enabled or disabled. No other panel differs. Names and length are kept. With no match, nothing changes. |
| Renderer.FirstMatchByNames | renderer.go:127-135 | The lookup depends only on the panel names. |
| Renderer.HideThenShow | renderer.go:182-202 | Hiding a visible panel and then showing it restores the panel list. The rebuild that Show runs gives the panel a view under its name again, unless SetView refuses it. That view presents the panel unless a later shown panel has the same name. |
| Sangocui.Sangocui.EnableSelection | renderer.go:137-144 | The returned error is nil. Only the first panel with the name changes, and only its selection, which becomes enabled. With no match, nothing changes. |
| Sangocui.Sangocui.DisableSelection | renderer.go:146-153 | The same, with the selection disabled. |
| Sangocui.Sangocui.Show | renderer.go:182-191 | The returned error is nil. Only the first panel with the name is unhidden. The views are then rebuilt from the new panels. With no match, nothing changes. |
| Sangocui.Sangocui.Hide | renderer.go:193-202 | The returned error is nil. Only the first panel with the name is hidden, and the view of that name is deleted. With no match, nothing changes. |
| Renderer.NextLine | renderer.go:166-171 | The content row just below the cursor, counted from the origin, or "" when that row lies past the content. |
| Renderer.Down | renderer.go:83-98 | Nothing changes when the line after the cursor is empty. Otherwise the cursor moves down one row exactly when that point fits. When it does not fit and the origin point below fits, the origin moves down one row without error. When neither fits, the view is unchanged and the origin's ErrInvalidPoint is returned. An error comes only from the origin move. |
| Sangocui.Sangocui.CursorDown | renderer.go:83-98 | An unknown view gives ErrUnknownView and no change. Otherwise the view and the error are as `Down` says. |
| Renderer.Up | renderer.go:100-113 | When the point above fits, the cursor moves up one row. When it does not, the origin is above 0 and the origin point above fits, the origin moves up one row; if that origin point does not fit, the view is unchanged and ErrInvalidPoint is returned. The origin moves only in that case, so it never goes below 0. At cursor row 0 with origin 0, nothing changes. |
| Sangocui.Sangocui.CursorUp | renderer.go:100-113 | An unknown view gives ErrUnknownView and no change. Otherwise the view and the error are as `Up` says. |
| Renderer.Reset | renderer.go:115-125 | The cursor goes to (0, 0), without error exactly when the view has a positive inner size. Otherwise the view is unchanged and the backend's error is returned. |
| Sangocui.Sangocui.ResetCursor | renderer.go:115-125 | An unknown view gives ErrUnknownView and no change. Otherwise the view and the error are as `Reset` says. |
| Sangocui.Sangocui.Quit | renderer.go:155-157 | The result is always the backend's quit signal. |
| Songocui.Songocui.RegisterSubscribers | songocui.go:83-85 | The subscriber list is replaced wholesale and the panels are unchanged. |
| Songocui.Songocui.Dispatch | songocui.go:88-95 | The loop's error and the number of subscribers called equal `DispatchOf` of the subscriber list. |
| Songocui.Songocui.Boot | songocui.go:54-61 | "Launch" is dispatched and its result ignored. As many subscribers hear it as `DispatchOf` says. |
| Songocui.Songocui.LoadPanels | songocui.go:75-79 | Every decoded panel is scaled exactly once with the same extents. Nothing else changes, and the order is kept. |
| Songocui.Songocui.CreateKeybinds | songocui.go:113-126 | Registration proceeds in nested order up to the first refused registration. The bindings grow by exactly the registrations before it. The abort is reported as ErrKeybinding exactly when some registration is refused. |

## Left out

- `UpdateListView` and `UpdateTextView` (renderer.go:54-81) are left out. They post closures onto the backend's update queue from goroutines, and concurrency is not modelled.
- `Configure`, the manager callback that rebuilds the views on every frame, and `Boot`'s `MainLoop`/`Close` are left out. They create the terminal GUI and run its blocking event loop. So is `NewWithLogger`: the constructors stand in for it, with the backend as a parameter.
- Reading the configuration files and decoding their JSON in `loadPanels`/`loadKeybinds` are left out. So are the panics when either fails in songocui.go (songocui.go:66-73, 99-107), and sangocui.go's silent use of whatever the decoder produced. `LoadPanels` and `CreateKeybinds` take the decoded sequences as inputs.
- `Focus` and `GetCurrentBuffer` (renderer.go:173-180, 204-210) are left out. Each is a single backend call followed by a fatal `log.Panicln`.
- `GetCurrentLine` is left out. `GetNextLine` appears only as `NextLine`: the content row below the cursor, counted from the origin, or "" past the end of the content. Line wrapping is not modelled.
- Backend rules are stated as predicates rather than reproduced:
  - SetView accepts a non-empty name and a rectangle of positive extent.
  - SetCursor accepts a point inside the view's inner size.
  - SetOrigin accepts any non-negative point.
- Whether the backend refuses a keybinding is an input of the model (`Gui.refuses`), so that the aborting registration of `Songocui.CreateKeybinds` can be stated.
- The integer values of the backend's key and colour constants are not modelled. Keys and colours are enumerations of names, so nothing is claimed about two names sharing an integer code.
- Views are values in the backend's map, whereas Go hands out `*View` pointers. Aliasing through a returned view is not captured, and `CreateViews` returns copies.
- A subscriber is modelled by its reply to each event name. Its own side effects and state are not modelled, and neither is the callback a registered binding would run: a binding records the action it would dispatch.
- Logging is left out.
- Songocui.Songocui.CreateKeybinds: the Go code calls `log.Panicln` when a registration fails (songocui.go:121-122), which ends the program. The model returns `ErrKeybinding` early instead. Process termination and panic recovery are not modelled; the bindings made before the refusal are stated exactly.
- Coordinates.Coord.Scaled: integers are unbounded. Go's `int` is fixed-width, so `maxX + rel` wraps on overflow (coordinate.go:13, 16, 19, 22). The model does not capture that wrap-around; terminal extents and configured offsets are far from the limits.
- Sangocui.Sangocui.LoadPanels and Songocui.Songocui.LoadPanels require the decoded panels to be distinct objects, as decoding always produces. They also install the panels directly: in Go, `Configure` assigns the returned list.
- Sangocui.Sangocui.LoadPanels and Songocui.Songocui.LoadPanels apply `Scaled` to the panel's embedded coordinate value. Go calls `Scale` on that embedded field; `Coordinate.Scale` is proved to have exactly that effect.
- Sangocui.Sangocui.EnableSelection, DisableSelection, Show and Hide require that no panel object occurs twice in the list (`Valid`). A list from `LoadPanels` meets this.

Notes on the source:

- The Go `Panel` struct has no Wrap field. `CreateView` sets Wrap to true on every view, and the model does the same.
- songocui.go calls `CreateViews`, `KeyStrToCode` and uses `Panel`, which are defined only in package sangocui. The model's `Songocui` therefore reuses the `Mapper` and `Panels` modules. songocui.go defines no renderer methods, so `Songocui` has none.
