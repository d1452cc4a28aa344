/**
 * The terminal backend (gocui) as seen from this layer: named views with a
 * rectangle, text lines, a cursor, an origin and display properties, plus the
 * list of registered keybindings. The backend's own rules are stated here as
 * simple predicates; nothing of its drawing or input polling is modelled.
 */
module Backend {
  import opened Wrappers

  /** Backend key codes, by name (their integer values are the backend's). */
  datatype Key =
    | KeyCtrlC | KeyArrowUp | KeyArrowDown | KeyArrowRight | KeyArrowLeft
    | KeyCtrlD | KeyCtrlP | KeyCtrlSpace | KeyCtrlF | KeyCtrlB | KeyCtrlA
    | KeyEnter | KeyCtrlL | KeyCtrl2

  /** Backend colour attributes, by name. */
  datatype Color = ColorGreen | ColorBlack | ColorWhite | ColorDefault

  /** Errors compared by identity: the backend's own signals, and a subscriber's failure. */
  datatype Error =
    | ErrUnknownView          // the view does not exist (also: SetView just created it)
    | ErrQuit                 // the quit signal that ends the main loop cleanly
    | ErrInvalidDimensions    // SetView refused the rectangle
    | ErrInvalidName          // SetView refused the empty name
    | ErrInvalidPoint         // SetCursor / SetOrigin refused the point
    | ErrKeybinding           // the backend refused a keybinding registration
    | Failed(message: string) // any error a subscriber returns

  /** A live view: rectangle, content, cursor, origin and the properties the layer copies onto it. */
  datatype View = View(
    name: string,
    x0: int, y0: int, x1: int, y1: int,
    lines: seq<string>,
    cx: int, cy: int,
    ox: int, oy: int,
    selBg: Color, selFg: Color,
    highlight: bool, frame: bool, title: string,
    editable: bool, wrap: bool, overwrite: bool)

  /** One registered keybinding: a key on a view whose callback dispatches `action`. */
  datatype Binding = Binding(viewName: string, key: Key, action: string)

  /** Inner size of a view: its rectangle less the border. */
  function Width(v: View): int { v.x1 - v.x0 - 1 }
  function Height(v: View): int { v.y1 - v.y0 - 1 }

  /** SetView accepts a non-empty name and a rectangle of positive extent. */
  predicate SetViewAccepts(name: string, x0: int, y0: int, x1: int, y1: int)
  {
    x0 < x1 && y0 < y1 && name != ""
  }

  /** SetCursor accepts a point inside the view's inner size. */
  predicate CursorFits(v: View, x: int, y: int)
  {
    0 <= x < Width(v) && 0 <= y < Height(v)
  }

  /** SetOrigin accepts any point with non-negative coordinates. */
  predicate OriginFits(x: int, y: int)
  {
    0 <= x && 0 <= y
  }

  /** A freshly created view: no content, cursor and origin at (0, 0), default properties. */
  function FreshView(name: string, x0: int, y0: int, x1: int, y1: int): View
  {
    View(name, x0, y0, x1, y1, [], 0, 0, 0, 0,
         ColorDefault, ColorDefault, false, true, "", false, false, false)
  }

  /**
   * The view named `name` after SetView: moved if it existed (the backend finds
   * a view by its name, so the view found carries it), created otherwise.
   */
  function Placed(views: map<string, View>, name: string, x0: int, y0: int, x1: int, y1: int): View
  {
    if name in views then views[name].(name := name, x0 := x0, y0 := y0, x1 := x1, y1 := y1)
    else FreshView(name, x0, y0, x1, y1)
  }

  class Gui {
    var views: map<string, View>
    var bindings: seq<Binding>
    /** The backend's verdict on a keybinding registration (an input of the model). */
    const refuses: Binding -> bool

    constructor (refuses: Binding -> bool)
      ensures views == map[] && bindings == [] && this.refuses == refuses
    {
      views := map[];
      bindings := [];
      this.refuses := refuses;
    }

    /** Creates or moves a view. A new view is reported with ErrUnknownView. */
    method SetView(name: string, x0: int, y0: int, x1: int, y1: int) returns (err: Option<Error>)
      modifies this
      ensures bindings == old(bindings)
      ensures !(x0 < x1 && y0 < y1) ==> err == Some(ErrInvalidDimensions) && views == old(views)
      ensures x0 < x1 && y0 < y1 && name == "" ==> err == Some(ErrInvalidName) && views == old(views)
      ensures SetViewAccepts(name, x0, y0, x1, y1) ==>
                views == old(views)[name := Placed(old(views), name, x0, y0, x1, y1)] &&
                err == (if name in old(views) then None else Some(ErrUnknownView))
    {
      if !(x0 < x1 && y0 < y1) {
        return Some(ErrInvalidDimensions);
      }
      if name == "" {
        return Some(ErrInvalidName);
      }
      err := if name in views then None else Some(ErrUnknownView);
      views := views[name := Placed(views, name, x0, y0, x1, y1)];
    }

    /** Removes a view; a missing view is reported with ErrUnknownView. */
    method DeleteView(name: string) returns (err: Option<Error>)
      modifies this
      ensures bindings == old(bindings)
      ensures views == old(views) - {name}
      ensures err == (if name in old(views) then None else Some(ErrUnknownView))
    {
      err := if name in views then None else Some(ErrUnknownView);
      views := views - {name};
    }

    /** Moves the cursor of an existing view, if the point fits. */
    method SetCursor(name: string, x: int, y: int) returns (err: Option<Error>)
      requires name in views
      modifies this
      ensures bindings == old(bindings)
      ensures CursorFits(old(views)[name], x, y) ==>
                err == None && views == old(views)[name := old(views)[name].(cx := x, cy := y)]
      ensures !CursorFits(old(views)[name], x, y) ==> err == Some(ErrInvalidPoint) && views == old(views)
    {
      if CursorFits(views[name], x, y) {
        views := views[name := views[name].(cx := x, cy := y)];
        err := None;
      } else {
        err := Some(ErrInvalidPoint);
      }
    }

    /** Moves the origin of an existing view, if the point fits. */
    method SetOrigin(name: string, x: int, y: int) returns (err: Option<Error>)
      requires name in views
      modifies this
      ensures bindings == old(bindings)
      ensures OriginFits(x, y) ==>
                err == None && views == old(views)[name := old(views)[name].(ox := x, oy := y)]
      ensures !OriginFits(x, y) ==> err == Some(ErrInvalidPoint) && views == old(views)
    {
      if OriginFits(x, y) {
        views := views[name := views[name].(ox := x, oy := y)];
        err := None;
      } else {
        err := Some(ErrInvalidPoint);
      }
    }

    /** Registers a keybinding unless the backend refuses it. */
    method SetKeybinding(b: Binding) returns (err: Option<Error>)
      modifies this
      ensures views == old(views)
      ensures refuses(b) ==> err == Some(ErrKeybinding) && bindings == old(bindings)
      ensures !refuses(b) ==> err == None && bindings == old(bindings) + [b]
    {
      if refuses(b) {
        err := Some(ErrKeybinding);
      } else {
        bindings := bindings + [b];
        err := None;
      }
    }
  }
}
