/**
 * The light/dark segmented control: arrow keys move to the neighbouring mode
 * with wrap-around, Enter and Space toggle, a click selects, and a disabled
 * control ignores all of them. A handler that calls `onChange(mode)` yields
 * `Some(mode)`.
 */
module ModeSegmented {
  import opened Wrappers

  /** The values of `modes`, in order. */
  const Modes: seq<string> := ["light", "dark"]

  /** `modes.findIndex(mode => mode.value === value)`: -1 when the value is no mode. */
  function FindIndex(value: string): (r: int)
    ensures -1 <= r < |Modes|
    ensures r >= 0 <==> value in Modes
    ensures r >= 0 ==> Modes[r] == value
  {
    if value == Modes[0] then 0 else if value == Modes[1] then 1 else -1
  }

  /** `handleKeyDown(event)` */
  function HandleKeyDown(value: string, key: string, disabled: bool): (r: Option<string>)
    ensures disabled ==> r == None
    ensures r.Some? ==> r.value in Modes
    ensures !disabled && (key == "ArrowLeft" || key == "ArrowUp") ==>
      r == Some(Modes[if FindIndex(value) > 0 then FindIndex(value) - 1 else |Modes| - 1])
    ensures !disabled && (key == "ArrowRight" || key == "ArrowDown") ==>
      r == Some(Modes[if FindIndex(value) < |Modes| - 1 then FindIndex(value) + 1 else 0])
    ensures !disabled && (key == "Enter" || key == " ") ==> r == Some(if value == "light" then "dark" else "light")
    ensures !(key in {"ArrowLeft", "ArrowUp", "ArrowRight", "ArrowDown", "Enter", " "}) ==> r == None
  {
    if disabled then None
    else
      var current := FindIndex(value);
      if key == "ArrowLeft" || key == "ArrowUp" then
        Some(Modes[if current > 0 then current - 1 else |Modes| - 1])
      else if key == "ArrowRight" || key == "ArrowDown" then
        Some(Modes[if current < |Modes| - 1 then current + 1 else 0])
      else if key == "Enter" || key == " " then
        Some(if value == "light" then "dark" else "light")
      else None
  }

  /** `handleClick(modeValue)` */
  function HandleClick(modeValue: string, disabled: bool): (r: Option<string>)
    ensures disabled <==> r == None
    ensures r.Some? ==> r.value == modeValue
  {
    if disabled then None else Some(modeValue)
  }

  /** From either mode, every arrow and the toggle keys select the other mode. */
  lemma EveryKeyFlipsMode(value: string, key: string)
    requires value in Modes
    requires key in {"ArrowLeft", "ArrowUp", "ArrowRight", "ArrowDown", "Enter", " "}
    ensures var r := HandleKeyDown(value, key, false);
      r.Some? && r.value in Modes && r.value != value
  {
  }

  /** Pressing a key twice from a mode comes back to it. */
  lemma KeyTwiceRestores(value: string, key: string)
    requires value in Modes
    requires key in {"ArrowLeft", "ArrowUp", "ArrowRight", "ArrowDown", "Enter", " "}
    ensures HandleKeyDown(HandleKeyDown(value, key, false).value, key, false) == Some(value)
  {
  }

  /**
   * A value that is no mode is not at any index: the backward arrows select
   * the last mode and the forward arrows the first, and the toggle keys give
   * "light".
   */
  lemma UnknownValue(value: string)
    requires value !in Modes
    ensures HandleKeyDown(value, "ArrowLeft", false) == Some("dark")
    ensures HandleKeyDown(value, "ArrowRight", false) == Some("light")
    ensures HandleKeyDown(value, "Enter", false) == Some("light")
  {
  }
}
