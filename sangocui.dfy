/**
 * The controller of package sangocui: it owns the backend, the panels and the
 * subscribers, dispatches events, scales the loaded panels, registers the
 * keybindings, and (the renderer's half) keeps the backend's views in step
 * with the panels and moves cursors.
 */
module Sangocui {
  import opened Wrappers
  import opened Backend
  import opened Mapper
  import opened Coordinates
  import opened Panels
  import opened Dispatching
  import opened Keybinds
  import opened Renderer

  class Sangocui {
    const gui: Gui
    var panels: seq<Panel>
    var subscribers: seq<Subscriber>

    /** No panel object occurs twice in the panel list. */
    ghost predicate Valid()
      reads this
    {
      Distinct(panels)
    }

    function PanelValues(): seq<PanelValue>
      reads this, panels
    {
      Values(panels)
    }

    /** A controller on a backend, with no panels and no subscribers yet. */
    constructor (gui: Gui)
      ensures Valid() && this.gui == gui && panels == [] && subscribers == []
    {
      this.gui := gui;
      panels := [];
      subscribers := [];
    }

    /** Replaces the subscriber list wholesale. */
    method RegisterSubscribers(subs: seq<Subscriber>)
      modifies this
      ensures subscribers == subs && panels == old(panels)
    {
      subscribers := subs;
    }

    /**
     * Sends an event to the subscribers in order, stopping at the first one
     * that fails and returning its error; `invoked` counts the subscribers called.
     */
    method Dispatch(event: string) returns (err: Option<Error>, invoked: nat)
      ensures Dispatched(invoked, err) == DispatchOf(subscribers, event)
    {
      var i := 0;
      while i < |subscribers|
        invariant 0 <= i <= |subscribers|
        invariant forall j :: 0 <= j < i ==> subscribers[j].on(event).None?
      {
        var e := subscribers[i].on(event);
        if e.Some? {
          DispatchStopsAtFirstFailure(subscribers, event, i);
          return e, i + 1;
        }
        i := i + 1;
      }
      DispatchAllSucceed(subscribers, event);
      return None, |subscribers|;
    }

    /** Dispatches "Launch" before the main loop and discards its result; returns how many subscribers heard it. */
    method Boot() returns (launched: nat)
      ensures launched == DispatchOf(subscribers, "Launch").invoked
    {
      var _, n := Dispatch("Launch");
      launched := n;
    }

    /** Scales every decoded panel once, in place and in order, and installs them as the panels. */
    method LoadPanels(decoded: seq<Panel>, maxX: int, maxY: int)
      requires Distinct(decoded)
      modifies this, decoded
      ensures Valid() && panels == decoded && subscribers == old(subscribers)
      ensures forall j :: 0 <= j < |decoded| ==>
                decoded[j].Value() == old(decoded[j].Value()).(coordinate := old(decoded[j].coordinate).Scaled(maxX, maxY))
    {
      var i := 0;
      while i < |decoded|
        invariant 0 <= i <= |decoded|
        invariant forall j :: 0 <= j < i ==>
                    decoded[j].Value() == old(decoded[j].Value()).(coordinate := old(decoded[j].coordinate).Scaled(maxX, maxY))
        invariant forall j :: i <= j < |decoded| ==> decoded[j].Value() == old(decoded[j].Value())
        invariant subscribers == old(subscribers)
      {
        decoded[i].coordinate := decoded[i].coordinate.Scaled(maxX, maxY);
        i := i + 1;
      }
      panels := decoded;
    }

    /**
     * Registers one keybinding per (view, key) pair, in nested order, each
     * dispatching its action; registrations the backend refuses are ignored.
     */
    method CreateKeybinds(cs: seq<ViewKeybinds>)
      modifies gui
      ensures gui.views == old(gui.views)
      ensures gui.bindings == old(gui.bindings) + Kept(Expand(cs), gui.refuses)
    {
      var i := 0;
      while i < |cs|
        invariant 0 <= i <= |cs|
        invariant gui.views == old(gui.views)
        invariant gui.bindings == old(gui.bindings) + KeptFirst(cs, i, gui.refuses)
      {
        CreateEntryKeybinds(cs[i]);
        KeptEntryStep(old(gui.bindings), cs, i, gui.refuses);
        i := i + 1;
      }
      KeptAllEntries(cs, gui.refuses);
    }

    /** The inner loop of CreateKeybinds: registers one entry's pairs in order, ignoring refusals. */
    method CreateEntryKeybinds(c: ViewKeybinds)
      modifies gui
      ensures gui.views == old(gui.views)
      ensures gui.bindings == old(gui.bindings) + Kept(ViewBindings(c)[..|c.keybinds|], gui.refuses)
    {
      var j := 0;
      while j < |c.keybinds|
        invariant 0 <= j <= |c.keybinds|
        invariant gui.views == old(gui.views)
        invariant gui.bindings == old(gui.bindings) + Kept(ViewBindings(c)[..j], gui.refuses)
      {
        KeptPairStep(old(gui.bindings), c, j, gui.refuses);
        var _ := gui.SetKeybinding(Binding(c.viewName, KeyStrToCode(c.keybinds[j].key), c.keybinds[j].action));
        j := j + 1;
      }
    }

    /**
     * Creates or moves the panel's view and copies the panel's properties onto
     * it; None when the backend reports an error other than ErrUnknownView.
     */
    method CreateView(p: Panel) returns (v: Option<View>)
      modifies gui
      ensures v == Realize(old(gui.views), p.Value())
      ensures gui.views == if v.Some? then old(gui.views)[p.name := v.value] else old(gui.views)
      ensures gui.bindings == old(gui.bindings)
    {
      var c := p.coordinate;
      var err := gui.SetView(p.name, c.topLeftXabs, c.topLeftYabs, c.bottomRightXabs, c.bottomRightYabs);
      if err.Some? && err.value != ErrUnknownView {
        return None;
      }
      var w := gui.views[p.name];
      w := w.(selBg := ColorStrToCode(p.selection.bgCurrent));
      w := w.(selFg := ColorStrToCode(p.selection.fgCurrent));
      w := w.(highlight := p.highlight);
      w := w.(frame := p.frame);
      w := w.(title := p.title);
      w := w.(editable := p.editable);
      w := w.(wrap := true);
      w := w.(overwrite := p.overwrite);
      gui.views := gui.views[p.name := w];
      v := Some(w);
    }

    /** Creates a view for every panel that is not hidden, in panel order, keeping those the backend produced. */
    method CreateViews() returns (created: seq<View>)
      modifies gui
      ensures PanelValues() == old(PanelValues())
      ensures Render(old(gui.views), PanelValues()) == Rendering(gui.views, created)
      ensures gui.bindings == old(gui.bindings)
    {
      ghost var ps := PanelValues();
      created := [];
      var i := 0;
      while i < |panels|
        invariant 0 <= i <= |panels|
        invariant PanelValues() == ps
        invariant gui.bindings == old(gui.bindings)
        invariant Render(old(gui.views), ps[..i]) == Rendering(gui.views, created)
      {
        assert ps[..i + 1][..i] == ps[..i];
        assert ps[i] == panels[i].Value();
        if !panels[i].hidden {
          var v := CreateView(panels[i]);
          if v.Some? {
            created := created + [v.value];
          }
        }
        i := i + 1;
      }
      assert ps[..i] == ps;
    }

    /** The first panel whose name is `viewName`, or null when there is none. */
    method GetPanelByViewName(viewName: string) returns (pan: Panel?)
      ensures pan == null <==> FirstMatch(PanelValues(), viewName).None?
      ensures pan != null ==> pan == panels[FirstMatch(PanelValues(), viewName).value]
    {
      ghost var ps := PanelValues();
      var i := 0;
      while i < |panels|
        invariant 0 <= i <= |panels|
        invariant forall j :: 0 <= j < i ==> ps[j].name != viewName
      {
        assert ps[i].name == panels[i].name;
        if panels[i].name == viewName {
          assert FirstMatch(ps, viewName) == Some(i);
          return panels[i];
        }
        i := i + 1;
      }
      assert FirstMatch(ps, viewName).None?;
      return null;
    }

    /** Turns on the selection colours of the first panel named `viewName`; nothing when there is none. */
    method EnableSelection(viewName: string) returns (err: Option<Error>)
      requires Valid()
      modifies panels
      ensures err == None
      ensures PanelValues() == UpdateFirst(old(PanelValues()), viewName, Select(Enable))
    {
      var pan := GetPanelByViewName(viewName);
      if pan == null {
        return None;
      }
      pan.EnableSelection();
      return None;
    }

    /** Turns off the selection colours of the first panel named `viewName`; nothing when there is none. */
    method DisableSelection(viewName: string) returns (err: Option<Error>)
      requires Valid()
      modifies panels
      ensures err == None
      ensures PanelValues() == UpdateFirst(old(PanelValues()), viewName, Select(Disable))
    {
      var pan := GetPanelByViewName(viewName);
      if pan == null {
        return None;
      }
      pan.DisableSelection();
      return None;
    }

    /** Unhides the first panel named `viewName` and rebuilds all views; nothing when there is none. */
    method Show(viewName: string) returns (err: Option<Error>)
      requires Valid()
      modifies panels, gui
      ensures err == None
      ensures PanelValues() == UpdateFirst(old(PanelValues()), viewName, SetHidden(false))
      ensures FirstMatch(old(PanelValues()), viewName).None? ==> gui.views == old(gui.views)
      ensures FirstMatch(old(PanelValues()), viewName).Some? ==> gui.views == Render(old(gui.views), PanelValues()).views
      ensures gui.bindings == old(gui.bindings)
    {
      var pan := GetPanelByViewName(viewName);
      if pan == null {
        return None;
      }
      ghost var ps := PanelValues();
      assert ps == old(PanelValues());
      ghost var k := FirstMatch(ps, viewName).value;
      assert pan == panels[k] && ps[k] == pan.Value();
      pan.hidden := false;
      UpdatedAt(PanelValues(), ps, k);
      ghost var after := PanelValues();
      assert after == UpdateFirst(ps, viewName, SetHidden(false));
      var _ := CreateViews();
      assert PanelValues() == after;
      return None;
    }

    /** Hides the first panel named `viewName` and deletes its view; nothing when there is none. */
    method Hide(viewName: string) returns (err: Option<Error>)
      requires Valid()
      modifies panels, gui
      ensures err == None
      ensures PanelValues() == UpdateFirst(old(PanelValues()), viewName, SetHidden(true))
      ensures FirstMatch(old(PanelValues()), viewName).None? ==> gui.views == old(gui.views)
      ensures FirstMatch(old(PanelValues()), viewName).Some? ==> gui.views == old(gui.views) - {viewName}
      ensures gui.bindings == old(gui.bindings)
    {
      var pan := GetPanelByViewName(viewName);
      if pan == null {
        return None;
      }
      ghost var ps := PanelValues();
      ghost var k := FirstMatch(ps, viewName).value;
      assert pan == panels[k] && ps[k] == pan.Value();
      pan.hidden := true;
      UpdatedAt(PanelValues(), ps, k);
      ghost var after := PanelValues();
      assert after == UpdateFirst(ps, viewName, SetHidden(true));
      var _ := gui.DeleteView(viewName);
      assert PanelValues() == after;
      return None;
    }

    /** Moves the cursor of the named view down one line, as Down says; ErrUnknownView when it does not exist. */
    method CursorDown(viewName: string) returns (err: Option<Error>)
      modifies gui
      ensures gui.bindings == old(gui.bindings)
      ensures viewName !in old(gui.views) ==> err == Some(ErrUnknownView) && gui.views == old(gui.views)
      ensures viewName in old(gui.views) ==>
                err == Down(old(gui.views)[viewName]).err &&
                gui.views == old(gui.views)[viewName := Down(old(gui.views)[viewName]).view]
    {
      if viewName !in gui.views {
        return Some(ErrUnknownView);
      }
      var v := gui.views[viewName];
      if NextLine(v) != "" {
        var cx, cy := v.cx, v.cy;
        var e := gui.SetCursor(viewName, cx, cy + 1);
        if e.Some? {
          var ox, oy := v.ox, v.oy;
          var e' := gui.SetOrigin(viewName, ox, oy + 1);
          if e'.Some? {
            return e';
          }
        }
      }
      return None;
    }

    /** Moves the cursor of the named view up one line, as Up says; ErrUnknownView when it does not exist. */
    method CursorUp(viewName: string) returns (err: Option<Error>)
      modifies gui
      ensures gui.bindings == old(gui.bindings)
      ensures viewName !in old(gui.views) ==> err == Some(ErrUnknownView) && gui.views == old(gui.views)
      ensures viewName in old(gui.views) ==>
                err == Up(old(gui.views)[viewName]).err &&
                gui.views == old(gui.views)[viewName := Up(old(gui.views)[viewName]).view]
    {
      if viewName !in gui.views {
        return Some(ErrUnknownView);
      }
      var v := gui.views[viewName];
      var ox, oy := v.ox, v.oy;
      var cx, cy := v.cx, v.cy;
      var e := gui.SetCursor(viewName, cx, cy - 1);
      if e.Some? && oy > 0 {
        var e' := gui.SetOrigin(viewName, ox, oy - 1);
        if e'.Some? {
          return e';
        }
      }
      return None;
    }

    /** Puts the cursor of the named view at (0, 0); ErrUnknownView when it does not exist. */
    method ResetCursor(viewName: string) returns (err: Option<Error>)
      modifies gui
      ensures gui.bindings == old(gui.bindings)
      ensures viewName !in old(gui.views) ==> err == Some(ErrUnknownView) && gui.views == old(gui.views)
      ensures viewName in old(gui.views) ==>
                err == Reset(old(gui.views)[viewName]).err &&
                gui.views == old(gui.views)[viewName := Reset(old(gui.views)[viewName]).view]
    {
      if viewName !in gui.views {
        return Some(ErrUnknownView);
      }
      var e := gui.SetCursor(viewName, 0, 0);
      if e.Some? {
        return e;
      }
      return None;
    }

    /** The backend's quit signal, returned by a subscriber to end the main loop cleanly. */
    function Quit(): (err: Option<Error>)
      ensures err.Some? && err.value == ErrQuit
    {
      Some(ErrQuit)
    }
  }
}
