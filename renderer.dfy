/**
 * What the renderer does to the backend's views, as functions of the panel
 * values and the views before the call: view creation with its error filter
 * and property copy, the rebuild of all visible views, panel lookup by name
 * and the cursor rules.
 */
module Renderer {
  import opened Wrappers
  import opened Backend
  import opened Mapper
  import opened Panels

  /** SetView accepts the panel's name and absolute rectangle. */
  predicate Accepted(p: PanelValue)
  {
    SetViewAccepts(p.name, p.coordinate.topLeftXabs, p.coordinate.topLeftYabs,
                   p.coordinate.bottomRightXabs, p.coordinate.bottomRightYabs)
  }

  /**
   * The view shows the panel: its name and absolute rectangle, the current
   * selection colours through ColorStrToCode, the panel's flags and title,
   * and wrapping always on.
   */
  predicate Presents(v: View, p: PanelValue)
  {
    && v.name == p.name
    && v.x0 == p.coordinate.topLeftXabs && v.y0 == p.coordinate.topLeftYabs
    && v.x1 == p.coordinate.bottomRightXabs && v.y1 == p.coordinate.bottomRightYabs
    && v.selBg == ColorStrToCode(p.selection.bgCurrent)
    && v.selFg == ColorStrToCode(p.selection.fgCurrent)
    && v.highlight == p.highlight && v.frame == p.frame && v.title == p.title
    && v.editable == p.editable && v.overwrite == p.overwrite
    && v.wrap
  }

  /** The panel's properties copied onto a view. */
  function Dressed(v: View, p: PanelValue): View
  {
    v.(selBg := ColorStrToCode(p.selection.bgCurrent),
       selFg := ColorStrToCode(p.selection.fgCurrent),
       highlight := p.highlight, frame := p.frame, title := p.title,
       editable := p.editable, wrap := true, overwrite := p.overwrite)
  }

  /**
   * The view CreateView produces for a panel: None exactly when SetView
   * reports an error other than ErrUnknownView; otherwise the view presents
   * the panel, and a view that already existed keeps its content, cursor and origin.
   */
  function Realize(views: map<string, View>, p: PanelValue): (r: Option<View>)
    ensures r.None? <==> !Accepted(p)
    ensures r.Some? ==> Presents(r.value, p)
    ensures r.Some? && p.name in views ==>
              r.value.lines == views[p.name].lines &&
              r.value.cx == views[p.name].cx && r.value.cy == views[p.name].cy &&
              r.value.ox == views[p.name].ox && r.value.oy == views[p.name].oy
    ensures r.Some? && p.name !in views ==>
              r.value.lines == [] && r.value.cx == 0 && r.value.cy == 0 && r.value.ox == 0 && r.value.oy == 0
  {
    if !Accepted(p) then None
    else
      var c := p.coordinate;
      Some(Dressed(Placed(views, p.name, c.topLeftXabs, c.topLeftYabs, c.bottomRightXabs, c.bottomRightYabs), p))
  }

  /** The backend's views after a rebuild, and the views the rebuild returned. */
  datatype Rendering = Rendering(views: map<string, View>, created: seq<View>)

  /** One rebuild over the panels in order: hidden panels are skipped, refused ones produce nothing. */
  function Render(views: map<string, View>, ps: seq<PanelValue>): (r: Rendering)
    ensures views.Keys <= r.views.Keys
    ensures |r.created| <= |ps|
    decreases |ps|
  {
    if ps == [] then Rendering(views, [])
    else
      var r := Render(views, ps[..|ps| - 1]);
      var p := ps[|ps| - 1];
      if p.hidden then r
      else match Realize(r.views, p)
        case None => r
        case Some(v) => Rendering(r.views[p.name := v], r.created + [v])
  }

  /** The panels that are not hidden, in order. */
  function Visible(ps: seq<PanelValue>): seq<PanelValue>
    decreases |ps|
  {
    if ps == [] then []
    else Visible(ps[..|ps| - 1]) + (if ps[|ps| - 1].hidden then [] else [ps[|ps| - 1]])
  }

  /** The panels that get a view: not hidden and accepted by SetView, in order. */
  function Shown(ps: seq<PanelValue>): seq<PanelValue>
    decreases |ps|
  {
    if ps == [] then []
    else
      var p := ps[|ps| - 1];
      Shown(ps[..|ps| - 1]) + (if !p.hidden && Accepted(p) then [p] else [])
  }

  /** The rebuild returns one view per shown panel, in panel order, each presenting its panel. */
  lemma {:induction false} RenderCreatesShown(views: map<string, View>, ps: seq<PanelValue>)
    ensures |Render(views, ps).created| == |Shown(ps)|
    ensures forall k :: 0 <= k < |Shown(ps)| ==> Presents(Render(views, ps).created[k], Shown(ps)[k])
    decreases |ps|
  {
    if ps != [] {
      RenderCreatesShown(views, ps[..|ps| - 1]);
    }
  }

  /** No shown panel is hidden, and there are never more views than visible panels. */
  lemma {:induction false} ShownAreVisible(ps: seq<PanelValue>)
    ensures forall k :: 0 <= k < |Shown(ps)| ==> !Shown(ps)[k].hidden && Accepted(Shown(ps)[k])
    ensures |Shown(ps)| <= |Visible(ps)| <= |ps|
    ensures forall k :: 0 <= k < |Visible(ps)| ==> !Visible(ps)[k].hidden
    decreases |ps|
  {
    if ps != [] {
      ShownAreVisible(ps[..|ps| - 1]);
    }
  }

  /** A rebuild never removes a view, and a view whose name no shown panel carries is left as it was. */
  lemma {:induction false} RenderTouchesOnlyShown(views: map<string, View>, ps: seq<PanelValue>, n: string)
    ensures n in views ==> n in Render(views, ps).views
    ensures (forall k :: 0 <= k < |Shown(ps)| ==> Shown(ps)[k].name != n) ==>
              (n in Render(views, ps).views <==> n in views) &&
              (n in views ==> Render(views, ps).views[n] == views[n])
    decreases |ps|
  {
    if ps != [] {
      var front := ps[..|ps| - 1];
      var p := ps[|ps| - 1];
      assert forall k :: 0 <= k < |Shown(front)| ==> Shown(ps)[k] == Shown(front)[k];
      RenderTouchesOnlyShown(views, front, n);
      if !p.hidden && Accepted(p) {
        assert Shown(ps)[|Shown(front)|] == p;
      }
    }
  }

  /** After a rebuild, every panel that is visible and accepted has a view under its name. */
  lemma {:induction false} RenderHasShownPanel(views: map<string, View>, ps: seq<PanelValue>, k: nat)
    requires k < |ps| && !ps[k].hidden && Accepted(ps[k])
    ensures ps[k].name in Render(views, ps).views
    decreases |ps|
  {
    if k < |ps| - 1 {
      assert ps[..|ps| - 1][k] == ps[k];
      RenderHasShownPanel(views, ps[..|ps| - 1], k);
      RenderTouchesOnlyShown(Render(views, ps[..|ps| - 1]).views, [ps[|ps| - 1]], ps[k].name);
      assert [ps[|ps| - 1]][..0] == [];
    }
  }

  /**
   * After a rebuild, a visible, accepted panel that no later visible, accepted
   * panel shares a name with has under its name a view presenting it.
   */
  lemma {:induction false} RenderStoresShown(views: map<string, View>, ps: seq<PanelValue>, k: nat)
    requires k < |ps| && !ps[k].hidden && Accepted(ps[k])
    requires forall m :: k < m < |ps| && !ps[m].hidden && Accepted(ps[m]) ==> ps[m].name != ps[k].name
    ensures ps[k].name in Render(views, ps).views
    ensures Presents(Render(views, ps).views[ps[k].name], ps[k])
    decreases |ps|
  {
    if k < |ps| - 1 {
      assert ps[..|ps| - 1][k] == ps[k];
      RenderStoresShown(views, ps[..|ps| - 1], k);
    }
  }

  /** The position of the first panel named `name`, or None when no panel has that name. */
  function FirstMatch(ps: seq<PanelValue>, name: string): (r: Option<nat>)
    ensures r.None? <==> forall j :: 0 <= j < |ps| ==> ps[j].name != name
    ensures r.Some? ==> r.value < |ps| && ps[r.value].name == name &&
                        forall j :: 0 <= j < r.value ==> ps[j].name != name
    decreases |ps|
  {
    if ps == [] then None
    else if ps[0].name == name then Some(0)
    else match FirstMatch(ps[1..], name)
      case None => None
      case Some(k) => Some(k + 1)
  }

  /** What Show, Hide, EnableSelection and DisableSelection do to the panel they find. */
  datatype Change = SetHidden(hidden: bool) | Select(toggle: Toggle)

  function Changed(p: PanelValue, c: Change): PanelValue
  {
    match c
    case SetHidden(h) => p.(hidden := h)
    case Select(t) => p.(selection := Apply(p.selection, t))
  }

  /** The panels after a by-name operation: only the first panel carrying the name changes. */
  function UpdateFirst(ps: seq<PanelValue>, name: string, c: Change): (r: seq<PanelValue>)
    ensures |r| == |ps|
    ensures forall j :: 0 <= j < |ps| ==> r[j].name == ps[j].name
    ensures forall j :: 0 <= j < |ps| && FirstMatch(ps, name) != Some(j) ==> r[j] == ps[j]
    ensures FirstMatch(ps, name).None? ==> r == ps
    ensures FirstMatch(ps, name).Some? ==>
              r[FirstMatch(ps, name).value] == Changed(ps[FirstMatch(ps, name).value], c)
  {
    match FirstMatch(ps, name)
    case None => ps
    case Some(k) => ps[k := Changed(ps[k], c)]
  }

  /** Panels that agree on their names agree on the first match of every name. */
  lemma {:induction false} FirstMatchByNames(ps: seq<PanelValue>, qs: seq<PanelValue>, name: string)
    requires |ps| == |qs| && forall j :: 0 <= j < |ps| ==> ps[j].name == qs[j].name
    ensures FirstMatch(ps, name) == FirstMatch(qs, name)
    decreases |ps|
  {
    if ps != [] && ps[0].name != name {
      FirstMatchByNames(ps[1..], qs[1..], name);
    }
  }

  /**
   * Hiding a visible panel and showing it again restores the panels, and the
   * rebuild that Show runs gives the panel a view under its name again, one
   * presenting it unless a later shown panel takes the same name.
   */
  lemma HideThenShow(views: map<string, View>, ps: seq<PanelValue>, name: string)
    requires FirstMatch(ps, name).Some? && !ps[FirstMatch(ps, name).value].hidden
    ensures UpdateFirst(UpdateFirst(ps, name, SetHidden(true)), name, SetHidden(false)) == ps
    ensures Accepted(ps[FirstMatch(ps, name).value]) ==>
              name in Render(views, UpdateFirst(UpdateFirst(ps, name, SetHidden(true)), name, SetHidden(false))).views
    ensures Accepted(ps[FirstMatch(ps, name).value]) &&
            (forall m :: FirstMatch(ps, name).value < m < |ps| && !ps[m].hidden && Accepted(ps[m]) ==> ps[m].name != name) ==>
              Presents(Render(views, UpdateFirst(UpdateFirst(ps, name, SetHidden(true)), name, SetHidden(false))).views[name],
                       ps[FirstMatch(ps, name).value])
  {
    var k := FirstMatch(ps, name).value;
    var hid := UpdateFirst(ps, name, SetHidden(true));
    FirstMatchByNames(ps, hid, name);
    var back := UpdateFirst(hid, name, SetHidden(false));
    assert back == ps;
    if Accepted(ps[k]) {
      RenderHasShownPanel(views, ps, k);
      if forall m :: k < m < |ps| && !ps[m].hidden && Accepted(ps[m]) ==> ps[m].name != name {
        RenderStoresShown(views, ps, k);
      }
    }
  }

  /** The result of a cursor operation on one view: the view afterwards and the error returned. */
  datatype Step = Step(view: View, err: Option<Error>)

  /** The line after the cursor (content row origin + cursor + 1), or "" past the content. */
  function NextLine(v: View): (l: string)
    ensures l == "" || l in v.lines
    ensures !(0 <= v.oy + v.cy + 1 < |v.lines|) ==> l == ""
  {
    var y := v.oy + v.cy + 1;
    if 0 <= y < |v.lines| then v.lines[y] else ""
  }

  /**
   * CursorDown on one view: nothing happens when the line after the cursor is
   * empty; otherwise the cursor moves down one row or, when it cannot, the
   * origin does; an error comes only from the origin move.
   */
  function Down(v: View): (r: Step)
    ensures NextLine(v) == "" ==> r == Step(v, None)
    ensures r.view == v || r.view == v.(cy := v.cy + 1) || r.view == v.(oy := v.oy + 1)
    ensures r.view == v.(cy := v.cy + 1) <==> NextLine(v) != "" && CursorFits(v, v.cx, v.cy + 1)
    ensures r.err.Some? ==> r.view == v && NextLine(v) != "" && !CursorFits(v, v.cx, v.cy + 1)
    ensures NextLine(v) != "" && !CursorFits(v, v.cx, v.cy + 1) && OriginFits(v.ox, v.oy + 1) ==>
              r == Step(v.(oy := v.oy + 1), None)
    ensures NextLine(v) != "" && !CursorFits(v, v.cx, v.cy + 1) && !OriginFits(v.ox, v.oy + 1) ==>
              r == Step(v, Some(ErrInvalidPoint))
  {
    if NextLine(v) == "" then Step(v, None)
    else if CursorFits(v, v.cx, v.cy + 1) then Step(v.(cy := v.cy + 1), None)
    else if OriginFits(v.ox, v.oy + 1) then Step(v.(oy := v.oy + 1), None)
    else Step(v, Some(ErrInvalidPoint))
  }

  /**
   * CursorUp on one view: the cursor moves up one row, or, when it cannot and
   * the origin is below row 0, the origin moves up one row; the origin is
   * never driven below 0, and at row 0 with origin 0 nothing happens.
   */
  function Up(v: View): (r: Step)
    ensures r.view == v || r.view == v.(cy := v.cy - 1) || r.view == v.(oy := v.oy - 1)
    ensures r.view.oy != v.oy ==> !CursorFits(v, v.cx, v.cy - 1) && v.oy > 0 && r.view.oy == v.oy - 1 >= 0
    ensures v.cy == 0 && v.oy == 0 ==> r == Step(v, None)
    ensures r.err.Some? ==> r.view == v && v.oy > 0 && !CursorFits(v, v.cx, v.cy - 1)
    ensures CursorFits(v, v.cx, v.cy - 1) ==> r == Step(v.(cy := v.cy - 1), None)
    ensures !CursorFits(v, v.cx, v.cy - 1) && v.oy > 0 && OriginFits(v.ox, v.oy - 1) ==>
              r == Step(v.(oy := v.oy - 1), None)
    ensures !CursorFits(v, v.cx, v.cy - 1) && v.oy > 0 && !OriginFits(v.ox, v.oy - 1) ==>
              r == Step(v, Some(ErrInvalidPoint))
  {
    if CursorFits(v, v.cx, v.cy - 1) then Step(v.(cy := v.cy - 1), None)
    else if v.oy > 0 then
      (if OriginFits(v.ox, v.oy - 1) then Step(v.(oy := v.oy - 1), None) else Step(v, Some(ErrInvalidPoint)))
    else Step(v, None)
  }

  /** ResetCursor on one view: the cursor goes to (0, 0), or the backend's refusal is returned. */
  function Reset(v: View): (r: Step)
    ensures r.err.None? <==> Width(v) > 0 && Height(v) > 0
    ensures r.err.None? ==> r.view == v.(cx := 0, cy := 0)
    ensures r.err.Some? ==> r.view == v
  {
    if CursorFits(v, 0, 0) then Step(v.(cx := 0, cy := 0), None) else Step(v, Some(ErrInvalidPoint))
  }
}
