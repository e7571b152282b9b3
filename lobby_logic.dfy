/**
  The join side of the multiplayer lobby: the address text box and the
  parsing of `HOST:PORT` before a connection is attempted. Opening the
  connection is the caller's: `StartJoin` is handed the channel the attempt
  produced, or null when it failed.
*/
module LobbyLogicModel {
  import opened Wrappers
  import opened PyText
  import opened Events
  import opened NetworkChannel
  import opened CoreGameState

  /** The port used when the text gives none, or gives one that is not all digits. */
  const DEFAULT_PORT := 5000

  datatype Address = Address(host: string, port: int)

  /** Which lobby panel is open (the source's `mode` of None, 'host' or 'join'). */
  datatype LobbyMode = NoMode | HostMode | JoinMode

  /**
    The address start_join connects to: the stripped text, split at its
    first colon into a stripped host and a port; None for blank text.
  */
  function ParseAddress(text: string): (r: Option<Address>)
  {
    var t := Strip(text);
    if t == [] then None
    else if ':' !in t then Some(Address(t, DEFAULT_PORT))
    else
      var parts := SplitFirst(t, ':');
      var p := Strip(parts.1);
      Some(Address(Strip(parts.0), if IsDigits(p) then DecimalValue(p) else DEFAULT_PORT))
  }

  /** Stripping twice strips nothing more. */
  lemma StripIdempotent(s: string)
    ensures Strip(Strip(s)) == Strip(s)
  {
    StripSpec(s);
    StripTrimmed(Strip(s));
  }

  /** Stripping removes characters but never adds one. */
  lemma StripKeepsOut(s: string, c: char)
    requires c !in s
    ensures c !in Strip(s)
  {
    StripSpec(s);
    var i, j :| 0 <= i <= j <= |s| && Strip(s) == s[i..j];
  }

  /**
    No address comes exactly from blank text; a parsed host carries no
    colon and no surrounding whitespace, and a parsed port is never
    negative (no upper bound is checked).
  */
  lemma ParseAddressSpec(text: string)
    ensures ParseAddress(text).None? <==> AllSpace(text)
    ensures ParseAddress(text).Some? ==>
      var a := ParseAddress(text).value;
      ':' !in a.host && Strip(a.host) == a.host && a.port >= 0
  {
    StripSpec(text);
    var t := Strip(text);
    if t != [] {
      if ':' in t {
        var h := SplitFirst(t, ':').0;
        StripKeepsOut(h, ':');
        StripIdempotent(h);
      } else {
        StripIdempotent(text);
      }
    }
  }

  /** Text that neither begins nor ends with whitespace. */
  predicate Trimmed(s: string) {
    s == [] || (!IsSpace(s[0]) && !IsSpace(s[|s| - 1]))
  }

  /** Digits are not whitespace, so a trimmed host, a colon and digits make trimmed text. */
  lemma JoinTrimmed(host: string, d: string)
    requires Trimmed(host) && IsDigits(d)
    ensures Trimmed(d)
    ensures Trimmed(host + ":" + d)
  {
    var text := host + ":" + d;
    assert IsDigit(d[0]) && IsDigit(d[|d| - 1]);
    assert text[|text| - 1] == d[|d| - 1];
    assert text[0] == if host == [] then ':' else host[0];
  }

  /**
    A host without colons or surrounding whitespace, a colon and a run of
    digits parse to that host and the digits' value.
  */
  lemma ParseHostDigits(host: string, digits: string)
    requires ':' !in host && Strip(host) == host && IsDigits(digits)
    ensures ParseAddress(host + ":" + digits) == Some(Address(host, DecimalValue(digits)))
  {
    var text := host + ":" + digits;
    assert Trimmed(text) && Trimmed(digits) by {
      StripSpec(host);
      JoinTrimmed(host, digits);
    }
    StripTrimmed(text);
    StripTrimmed(digits);
    SplitFirstUnique(host, digits, ':');
  }

  /**
    A host without colons or surrounding whitespace, written with a port in
    decimal after a colon, is parsed back to that host and port.
  */
  lemma AddressRoundTrip(host: string, port: nat)
    requires ':' !in host && Strip(host) == host
    ensures ParseAddress(host + ":" + Decimal(port)) == Some(Address(host, port))
  {
    ParseHostDigits(host, Decimal(port));
    DecimalRoundTrip(port);
  }

  /**
    The address buffer after a key press in join mode: Backspace drops
    exactly the last character, printable text is appended, anything else
    is ignored; the buffer stays printable.
  */
  function EditAddress(buf: string, key: Key, text: string): (r: string)
    ensures key == Backspace && buf != [] ==> r + [buf[|buf| - 1]] == buf
    ensures key == Backspace && buf == [] ==> r == []
    ensures key != Backspace ==> (if IsPrintable(text) then r == buf + text else r == buf)
    ensures IsPrintable(buf) ==> IsPrintable(r)
  {
    if key == Backspace then
      if buf == [] then [] else buf[..|buf| - 1]
    else if IsPrintable(text) then buf + text
    else buf
  }

  class LobbyLogic {
    const state: GameState
    var ipInput: string
    var mode: LobbyMode
    var network: Channel?
    var waiting: bool
    var hostIpStr: string

    constructor (state: GameState)
      ensures this.state == state && ipInput == [] && mode == NoMode
      ensures network == null && !waiting && hostIpStr == []
    {
      this.state := state;
      ipInput := [];
      mode := NoMode;
      network := null;
      waiting := false;
      hostIpStr := [];
    }

    /**
      start_join: blank text makes no attempt; otherwise the parsed address
      is the attempt. A failed attempt (`connected` null) changes nothing;
      a successful one hands the channel to the game as the joining side
      and moves to placement.
    */
    method StartJoin(connected: Channel?) returns (attempt: Option<Address>)
      modifies this`network, state`network, state`isHost, state`scene
      ensures attempt == ParseAddress(old(ipInput))
      ensures attempt.None? || connected == null ==>
        network == old(network) && state.network == old(state.network) &&
        state.isHost == old(state.isHost) && state.scene == old(state.scene)
      ensures attempt.Some? && connected != null ==>
        network == connected && state.network == connected && !state.isHost && state.scene == Placing
    {
      attempt := ParseAddress(ipInput);
      if attempt.Some? && connected != null {
        network := connected;
        state.network := connected;
        state.isHost := false;
        state.scene := Placing;
      }
    }

    /** handle_event: key presses edit the address only while the join panel is open. */
    method HandleEvent(ev: Event)
      modifies this`ipInput
      ensures ev.KeyDown? && mode == JoinMode ==> ipInput == EditAddress(old(ipInput), ev.key, ev.unicode)
      ensures !(ev.KeyDown? && mode == JoinMode) ==> ipInput == old(ipInput)
    {
      if ev.KeyDown? && mode == JoinMode {
        if ev.key == Backspace {
          ipInput := if ipInput == [] then [] else ipInput[..|ipInput| - 1];
        } else if IsPrintable(ev.unicode) {
          ipInput := ipInput + ev.unicode;
        }
      }
    }
  }
}
