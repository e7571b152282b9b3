/**
  The settings screen's logic: preset and custom grid sizes, the two-digit
  text buffer for a custom size, and the difficulty choice. The grid size is
  the shared `Config` object; a changed size is applied through its
  `UpdateLayout`.
*/
module SettingsLogicModel {
  import opened Wrappers
  import opened PyText
  import opened Events
  import opened CoreConfig
  import opened CoreGameState

  /** The range apply_custom_size accepts. */
  const MIN_CUSTOM_GRID := 5
  const MAX_CUSTOM_GRID := 20

  /** What the custom-size buffer may hold: at most two digits. */
  predicate InputOk(buf: string) {
    |buf| <= 2 && forall k :: 0 <= k < |buf| ==> IsDigit(buf[k])
  }

  /**
    The buffer after a key other than Return: Backspace drops exactly the
    last character, and digit text is appended only while the buffer holds
    fewer than two characters. A key press produces at most one character,
    so a well-formed buffer stays well-formed.
  */
  function EditBuffer(buf: string, key: Key, text: string): (r: string)
    ensures key == Backspace && buf != [] ==> r + [buf[|buf| - 1]] == buf
    ensures key == Backspace && buf == [] ==> r == []
    ensures key != Backspace ==> r == buf || (r == buf + text && IsDigits(text) && |buf| < 2)
    ensures InputOk(buf) && |text| <= 1 ==> InputOk(r)
  {
    if key == Backspace then
      if buf == [] then [] else buf[..|buf| - 1]
    else if IsDigits(text) && |buf| < 2 then buf + text
    else buf
  }

  /** The grid size a buffer asks for, when int() reads it and it lies in 5..20. */
  function CustomSize(buf: string): (r: Option<int>)
    ensures r.Some? <==> IsDigits(buf) && MIN_CUSTOM_GRID <= DecimalValue(buf) <= MAX_CUSTOM_GRID
    ensures r.Some? ==> r.value == DecimalValue(buf) && MIN_CUSTOM_GRID <= r.value <= MAX_CUSTOM_GRID
  {
    match ParseInt(buf)
    case Some(v) => if MIN_CUSTOM_GRID <= v <= MAX_CUSTOM_GRID then Some(v) else None
    case None => None
  }

  /**
    Every size in 5..20 can be typed: its decimal spelling fits the
    two-character buffer and is read back as that size.
  */
  lemma CustomSizeReachable(v: int)
    requires MIN_CUSTOM_GRID <= v <= MAX_CUSTOM_GRID
    ensures InputOk(Decimal(v))
    ensures CustomSize(Decimal(v)) == Some(v)
  {
    DecimalRoundTrip(v);
    if v >= 10 {
      assert Decimal(v / 10) == [DigitChar(v / 10)];
      assert |Decimal(v)| == 2;
    }
  }

  class SettingsLogic {
    const state: GameState
    const cfg: Config
    var gridSizeInput: string
    var showCustomInput: bool

    constructor (state: GameState, cfg: Config)
      ensures this.state == state && this.cfg == cfg
      ensures gridSizeInput == [] && !showCustomInput
    {
      this.state := state;
      this.cfg := cfg;
      gridSizeInput := [];
      showCustomInput := false;
    }

    /**
      handle_event: only a key press while the custom input is shown does
      anything; Return applies the buffer, any other key edits it.
    */
    method HandleEvent(ev: Event)
      modifies this`gridSizeInput, this`showCustomInput, cfg
      ensures !(old(showCustomInput) && ev.KeyDown?) ==>
        gridSizeInput == old(gridSizeInput) && showCustomInput == old(showCustomInput) && unchanged(cfg)
      ensures old(showCustomInput) && ev.KeyDown? && ev.key == Return ==>
        gridSizeInput == [] && !showCustomInput &&
        match CustomSize(old(gridSizeInput))
        case Some(v) => cfg.gridSize == v && cfg.Valid()
        case None => unchanged(cfg)
      ensures old(showCustomInput) && ev.KeyDown? && ev.key != Return ==>
        gridSizeInput == EditBuffer(old(gridSizeInput), ev.key, ev.unicode) && showCustomInput && unchanged(cfg)
    {
      if showCustomInput && ev.KeyDown? {
        if ev.key == Return {
          ApplyCustomSize();
        } else if ev.key == Backspace {
          gridSizeInput := if gridSizeInput == [] then [] else gridSizeInput[..|gridSizeInput| - 1];
        } else if IsDigits(ev.unicode) {
          if |gridSizeInput| < 2 {
            gridSizeInput := gridSizeInput + ev.unicode;
          }
        }
      }
    }

    /** apply_grid_size: the new size, with the layout and fleet recomputed for it. */
    method ApplyGridSize(size: int)
      requires size >= 1
      modifies cfg
      ensures cfg.gridSize == size && cfg.Valid()
    {
      cfg.gridSize := size;
      cfg.UpdateLayout();
    }

    /**
      apply_custom_size: a buffer reading as a size in 5..20 becomes the grid
      size; empty, non-numeric and out-of-range input leaves the
      configuration as it was. Either way the buffer is cleared and the
      input closed.
    */
    method ApplyCustomSize()
      modifies this`gridSizeInput, this`showCustomInput, cfg
      ensures gridSizeInput == [] && !showCustomInput
      ensures match CustomSize(old(gridSizeInput))
        case Some(v) => cfg.gridSize == v && cfg.Valid()
        case None => unchanged(cfg)
    {
      var val := ParseInt(gridSizeInput);
      if val.Some? && MIN_CUSTOM_GRID <= val.value <= MAX_CUSTOM_GRID {
        ApplyGridSize(val.value);
      }
      gridSizeInput := [];
      showCustomInput := false;
    }

    /** toggle_custom_input: flips between presets and the text input, clearing the buffer. */
    method ToggleCustomInput()
      modifies this`gridSizeInput, this`showCustomInput
      ensures showCustomInput == !old(showCustomInput) && gridSizeInput == []
    {
      showCustomInput := !showCustomInput;
      gridSizeInput := [];
    }

    /** apply_difficulty: the AI level used by the next match. */
    method ApplyDifficulty(level: string)
      modifies state`difficulty
      ensures state.difficulty == level
    {
      state.difficulty := level;
    }
  }
}
