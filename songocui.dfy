/**
 * The controller of package songocui, a second variant of the sangocui
 * controller: the same dispatch, subscriber registration and panel scaling,
 * but a keybinding registration the backend refuses aborts the whole
 * registration instead of being skipped.
 */
module Songocui {
  import opened Wrappers
  import opened Backend
  import opened Mapper
  import opened Panels
  import opened Dispatching
  import opened Keybinds

  class Songocui {
    const gui: Gui
    var panels: seq<Panel>
    var subscribers: seq<Subscriber>

    /** A controller on a backend, with no panels and no subscribers yet. */
    constructor (gui: Gui)
      ensures this.gui == gui && panels == [] && subscribers == []
    {
      this.gui := gui;
      panels := [];
      subscribers := [];
    }

    /** Replaces the subscriber list wholesale. */
    method RegisterSubscribers(subs: seq<Subscriber>)
      modifies this
      ensures subscribers == subs && panels == old(panels)
    {
      subscribers := subs;
    }

    /**
     * Sends an event to each subscriber in turn and returns the first error;
     * `invoked` counts the subscribers called.
     */
    method Dispatch(event: string) returns (err: Option<Error>, invoked: nat)
      ensures Dispatched(invoked, err) == DispatchOf(subscribers, event)
    {
      for i := 0 to |subscribers|
        invariant forall j :: 0 <= j < i ==> subscribers[j].on(event).None?
      {
        var sub := subscribers[i];
        err := sub.on(event);
        if err.Some? {
          DispatchStopsAtFirstFailure(subscribers, event, i);
          return err, i + 1;
        }
      }
      DispatchAllSucceed(subscribers, event);
      return None, |subscribers|;
    }

    /** Dispatches "Launch" before the main loop, ignoring its result; returns how many subscribers heard it. */
    method Boot() returns (launched: nat)
      ensures launched == DispatchOf(subscribers, "Launch").invoked
    {
      var _, n := Dispatch("Launch");
      launched := n;
    }

    /** Scales every decoded panel once with the same extents, keeping their order, and installs them. */
    method LoadPanels(decoded: seq<Panel>, maxX: int, maxY: int)
      requires Distinct(decoded)
      modifies this, decoded
      ensures panels == decoded && subscribers == old(subscribers)
      ensures forall j :: 0 <= j < |decoded| ==>
                decoded[j].Value() == old(decoded[j].Value()).(coordinate := old(decoded[j].coordinate).Scaled(maxX, maxY))
    {
      for i := 0 to |decoded|
        invariant forall j :: 0 <= j < i ==>
                    decoded[j].Value() == old(decoded[j].Value()).(coordinate := old(decoded[j].coordinate).Scaled(maxX, maxY))
        invariant forall j :: i <= j < |decoded| ==> decoded[j].Value() == old(decoded[j].Value())
        invariant subscribers == old(subscribers)
      {
        var panel := decoded[i];
        panel.coordinate := panel.coordinate.Scaled(maxX, maxY);
      }
      panels := decoded;
    }

    /**
     * Registers one keybinding per (view, key) pair, in nested order, until the
     * backend refuses one: then registration stops with that error (the Go code
     * panics), leaving exactly the registrations before the refused one.
     */
    method CreateKeybinds(cs: seq<ViewKeybinds>) returns (err: Option<Error>)
      modifies gui
      ensures gui.views == old(gui.views)
      ensures gui.bindings == old(gui.bindings) + Expand(cs)[..FirstRefused(Expand(cs), gui.refuses)]
      ensures err.None? <==> FirstRefused(Expand(cs), gui.refuses) == |Expand(cs)|
      ensures err.Some? ==> err.value == ErrKeybinding
    {
      ghost var done: seq<Binding> := [];
      for i := 0 to |cs|
        invariant gui.views == old(gui.views)
        invariant done == Expand(cs[..i])
        invariant gui.bindings == old(gui.bindings) + done
        invariant forall m :: 0 <= m < |done| ==> !gui.refuses(done[m])
      {
        RegisteredEntry(cs, i);
        for j := 0 to |cs[i].keybinds|
          invariant gui.views == old(gui.views)
          invariant done == Expand(cs[..i]) + ViewBindings(cs[i])[..j]
          invariant gui.bindings == old(gui.bindings) + done
          invariant forall m :: 0 <= m < |done| ==> !gui.refuses(done[m])
        {
          var viewName, key, action := cs[i].viewName, cs[i].keybinds[j].key, cs[i].keybinds[j].action;
          var b := Binding(viewName, KeyStrToCode(key), action);
          var e := gui.SetKeybinding(b);
          if e.Some? {
            FirstRefusedInEntry(cs, i, j, gui.refuses);
            return e;
          }
          RegisteredStep(cs, i, j);
          AppendAssociates(old(gui.bindings), done, [b]);
          done := done + [b];
        }
      }
      assert cs[..|cs|] == cs;
      FirstRefusedAt(Expand(cs), done, gui.refuses);
      return None;
    }
  }
}
