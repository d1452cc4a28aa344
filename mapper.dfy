/**
 * Translation of the configuration's key and colour names into backend
 * codes: two closed tables, each with a fixed fallback for every other name.
 */
module Mapper {
  import opened Backend

  /** The thirteen key names a keybinding configuration may use. */
  const KeyNames: set<string> := {
    "ctrlC", "arrowUp", "arrowDown", "arrowRight", "arrowLeft", "ctrlD", "ctrlP",
    "ctrlSpace", "ctrlF", "ctrlB", "ctrlA", "enter", "ctrlL"
  }

  /** The four colour names a panel configuration may use. */
  const ColorNames: set<string> := {"green", "black", "white", "default"}

  /** The configuration name of a key code; the fallback KeyCtrl2 has none. */
  function KeyName(k: Key): string
  {
    match k
    case KeyCtrlC => "ctrlC"
    case KeyArrowUp => "arrowUp"
    case KeyArrowDown => "arrowDown"
    case KeyArrowRight => "arrowRight"
    case KeyArrowLeft => "arrowLeft"
    case KeyCtrlD => "ctrlD"
    case KeyCtrlP => "ctrlP"
    case KeyCtrlSpace => "ctrlSpace"
    case KeyCtrlF => "ctrlF"
    case KeyCtrlB => "ctrlB"
    case KeyCtrlA => "ctrlA"
    case KeyEnter => "enter"
    case KeyCtrlL => "ctrlL"
    case KeyCtrl2 => ""
  }

  /** The configuration name of a colour. */
  function ColorName(c: Color): string
  {
    match c
    case ColorGreen => "green"
    case ColorBlack => "black"
    case ColorWhite => "white"
    case ColorDefault => "default"
  }

  /**
   * Every listed name maps to its own code, and exactly the unlisted names
   * map to the fallback KeyCtrl2.
   */
  function KeyStrToCode(keyStr: string): (k: Key)
    ensures k != KeyCtrl2 <==> keyStr in KeyNames
    ensures k != KeyCtrl2 ==> KeyName(k) == keyStr
  {
    match keyStr
    case "ctrlC" => KeyCtrlC
    case "arrowUp" => KeyArrowUp
    case "arrowDown" => KeyArrowDown
    case "arrowRight" => KeyArrowRight
    case "arrowLeft" => KeyArrowLeft
    case "ctrlD" => KeyCtrlD
    case "ctrlP" => KeyCtrlP
    case "ctrlSpace" => KeyCtrlSpace
    case "ctrlF" => KeyCtrlF
    case "ctrlB" => KeyCtrlB
    case "ctrlA" => KeyCtrlA
    case "enter" => KeyEnter
    case "ctrlL" => KeyCtrlL
    case _ => KeyCtrl2
  }

  /**
   * "green", "white" and "default" map to their own colour; "black" and every
   * unlisted name map to ColorBlack.
   */
  function ColorStrToCode(color: string): (c: Color)
    ensures c == ColorBlack <==> color == "black" || color !in ColorNames
    ensures c != ColorBlack ==> ColorName(c) == color
  {
    match color
    case "green" => ColorGreen
    case "black" => ColorBlack
    case "white" => ColorWhite
    case "default" => ColorDefault
    case _ => ColorBlack
  }

  /** Round trip: every key code but the fallback is reached from its own name. */
  lemma KeyNameRoundTrip(k: Key)
    requires k != KeyCtrl2
    ensures KeyName(k) in KeyNames && KeyStrToCode(KeyName(k)) == k
  {
  }

  /** Distinct listed key names give distinct codes. */
  lemma KeyStrToCodeInjectiveOnNames(a: string, b: string)
    requires a in KeyNames && b in KeyNames && a != b
    ensures KeyStrToCode(a) != KeyStrToCode(b)
  {
    assert KeyName(KeyStrToCode(a)) == a;
  }

  /** Round trip: every colour is reached from its own name. */
  lemma ColorNameRoundTrip(c: Color)
    ensures ColorName(c) in ColorNames && ColorStrToCode(ColorName(c)) == c
  {
  }

  /** The colour table is not injective: "black" and any unlisted name agree. */
  lemma ColorStrToCodeNotInjective(unknown: string)
    requires unknown !in ColorNames
    ensures ColorStrToCode(unknown) == ColorStrToCode("black")
  {
  }
}
