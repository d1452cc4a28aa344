/**
 * Panels: a named rectangular region with display flags, an embedded Coordinate and a
 * SelectionColor whose "current" pair mirrors either the active or the
 * unactive pair.
 */
module Panels {
  import opened Coordinates

  /** The six colour names of a panel's selection (color.go). */
  datatype SelectionColor = SelectionColor(
    bgCurrent: string, fgCurrent: string,
    bgActive: string, fgActive: string,
    bgUnactive: string, fgUnactive: string)
  {
    /** The current pair shows the active pair. */
    predicate ShowsActive() { bgCurrent == bgActive && fgCurrent == fgActive }

    /** The current pair shows the unactive pair. */
    predicate ShowsUnactive() { bgCurrent == bgUnactive && fgCurrent == fgUnactive }

    /** Everything but the current pair. */
    predicate SameFixedPairs(other: SelectionColor)
    {
      bgActive == other.bgActive && fgActive == other.fgActive &&
      bgUnactive == other.bgUnactive && fgUnactive == other.fgUnactive
    }

    /** The colours after selection is enabled: current shows active, nothing else moves. */
    function Enabled(): (r: SelectionColor)
      ensures r.ShowsActive() && r.SameFixedPairs(this)
    {
      this.(bgCurrent := bgActive, fgCurrent := fgActive)
    }

    /** The colours after selection is disabled: current shows unactive, nothing else moves. */
    function Disabled(): (r: SelectionColor)
      ensures r.ShowsUnactive() && r.SameFixedPairs(this)
    {
      this.(bgCurrent := bgUnactive, fgCurrent := fgUnactive)
    }
  }

  /** One call of EnableSelection or DisableSelection. */
  datatype Toggle = Enable | Disable

  function Apply(s: SelectionColor, t: Toggle): SelectionColor
  {
    match t
    case Enable => s.Enabled()
    case Disable => s.Disabled()
  }

  /** The colours after a sequence of calls, in order. */
  function ApplyAll(s: SelectionColor, ts: seq<Toggle>): SelectionColor
    decreases |ts|
  {
    if ts == [] then s else ApplyAll(Apply(s, ts[0]), ts[1..])
  }

  /** Each operation is idempotent. */
  lemma ToggleIdempotent(s: SelectionColor)
    ensures s.Enabled().Enabled() == s.Enabled()
    ensures s.Disabled().Disabled() == s.Disabled()
  {
  }

  /** In any non-empty sequence of calls, the last call alone decides the colours. */
  lemma {:induction false} LastToggleDecides(s: SelectionColor, ts: seq<Toggle>)
    requires ts != []
    ensures ApplyAll(s, ts) == Apply(s, ts[|ts| - 1])
    decreases |ts|
  {
    if |ts| > 1 {
      LastToggleDecides(Apply(s, ts[0]), ts[1..]);
      assert ts[1..][|ts| - 2] == ts[|ts| - 1];
      match ts[0]
      case Enable => assert Apply(Apply(s, Enable), ts[|ts| - 1]) == Apply(s, ts[|ts| - 1]);
      case Disable => assert Apply(Apply(s, Disable), ts[|ts| - 1]) == Apply(s, ts[|ts| - 1]);
    }
  }

  /** After at least one call the current pair is the active or the unactive pair, never a third. */
  lemma {:induction false} ToggledShowsAPair(s: SelectionColor, ts: seq<Toggle>)
    requires ts != []
    ensures ApplyAll(s, ts).ShowsActive() || ApplyAll(s, ts).ShowsUnactive()
    ensures ApplyAll(s, ts).SameFixedPairs(s)
  {
    LastToggleDecides(s, ts);
  }

  /** The fields of a Panel, as a value (the source's Panel has no Wrap field). */
  datatype PanelValue = PanelValue(
    title: string, name: string,
    highlight: bool, frame: bool, overwrite: bool, hidden: bool, editable: bool,
    coordinate: Coord, selection: SelectionColor)

  class Panel {
    var title: string
    var name: string
    var highlight: bool
    var frame: bool
    var overwrite: bool
    var hidden: bool
    var editable: bool
    /** The embedded Coordinate record, held by value as in the Go struct. */
    var coordinate: Coord
    var selection: SelectionColor

    function Value(): PanelValue
      reads this
    {
      PanelValue(title, name, highlight, frame, overwrite, hidden, editable,
                 coordinate, selection)
    }

    /** A panel holding the given fields, as the configuration decoder builds it. */
    constructor (v: PanelValue)
      ensures Value() == v
    {
      title, name := v.title, v.name;
      highlight, frame, overwrite, hidden, editable := v.highlight, v.frame, v.overwrite, v.hidden, v.editable;
      coordinate := v.coordinate;
      selection := v.selection;
    }

    /** Sets the current selection colours to the active pair. */
    method EnableSelection()
      modifies this
      ensures Value() == old(Value()).(selection := old(selection).Enabled())
    {
      selection := selection.(bgCurrent := selection.bgActive);
      selection := selection.(fgCurrent := selection.fgActive);
    }

    /** Sets the current selection colours to the unactive pair. */
    method DisableSelection()
      modifies this
      ensures Value() == old(Value()).(selection := old(selection).Disabled())
    {
      selection := selection.(bgCurrent := selection.bgUnactive);
      selection := selection.(fgCurrent := selection.fgUnactive);
    }
  }

  /** No panel occurs twice. */
  predicate Distinct(ps: seq<Panel>)
  {
    forall i, j :: 0 <= i < j < |ps| ==> ps[i] != ps[j]
  }

  /** The values of a sequence of panels, in order. */
  function Values(ps: seq<Panel>): (r: seq<PanelValue>)
    reads ps
    ensures |r| == |ps|
    ensures forall i :: 0 <= i < |ps| ==> r[i] == ps[i].Value()
  {
    seq(|ps|, i requires 0 <= i < |ps| reads ps => ps[i].Value())
  }

  // Proof helper for the by-name operations of Sangocui; no counterpart in the source.

  /** Two sequences of panel values that agree everywhere but at k differ by one update. */
  lemma UpdatedAt(now: seq<PanelValue>, before: seq<PanelValue>, k: nat)
    requires |now| == |before| && k < |now|
    requires forall j :: 0 <= j < |now| && j != k ==> now[j] == before[j]
    ensures now == before[k := now[k]]
  {
  }
}
