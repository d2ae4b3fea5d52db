/**
 * Keyboard state shared with scripts (src/input.rs).
 *
 * `VirtualKeyCode` is glutin's key enumeration; only the fourteen keys the
 * decoders know are modelled. `Ord` stands for the `as u32` cast: it gives
 * each key its position in glutin's declaration order.
 */
module Input {
  import opened Wrappers

  newtype u32 = x: int | 0 <= x < 0x1_0000_0000

  datatype VirtualKeyCode =
    | Key1 | Key2 | Key3 | Key4 | Key5 | Key6 | Key7 | Key8 | Key9 | Key0
    | Left | Up | Right | Down

  datatype ElementState = Pressed | Released

  /** `key as u32`. */
  function Ord(k: VirtualKeyCode): u32 {
    match k
    case Key1 => 0
    case Key2 => 1
    case Key3 => 2
    case Key4 => 3
    case Key5 => 4
    case Key6 => 5
    case Key7 => 6
    case Key8 => 7
    case Key9 => 8
    case Key0 => 9
    case Left => 70
    case Up => 71
    case Right => 72
    case Down => 73
  }

  /** The name under which a key is published to scripts (the key table of `set_virtual_key_codes`). */
  function Name(k: VirtualKeyCode): string {
    match k
    case Key1 => "Key1"
    case Key2 => "Key2"
    case Key3 => "Key3"
    case Key4 => "Key4"
    case Key5 => "Key5"
    case Key6 => "Key6"
    case Key7 => "Key7"
    case Key8 => "Key8"
    case Key9 => "Key9"
    case Key0 => "Key0"
    case Right => "Right"
    case Left => "Left"
    case Up => "Up"
    case Down => "Down"
  }

  /** The cast is injective: distinct keys have distinct codes. */
  lemma OrdInjective(a: VirtualKeyCode, b: VirtualKeyCode)
    requires Ord(a) == Ord(b)
    ensures a == b
  {
  }

  /**
   * `virtual_key_code_from_string`: recognises exactly the fourteen key
   * names, case-sensitively; every other string gives `None`.
   */
  function VirtualKeyCodeFromString(code: string): (r: Option<VirtualKeyCode>)
    ensures forall k :: r == Some(k) <==> code == Name(k)
  {
    match code
    case "Key1" => Some(Key1)
    case "Key2" => Some(Key2)
    case "Key3" => Some(Key3)
    case "Key4" => Some(Key4)
    case "Key5" => Some(Key5)
    case "Key6" => Some(Key6)
    case "Key7" => Some(Key7)
    case "Key8" => Some(Key8)
    case "Key9" => Some(Key9)
    case "Key0" => Some(Key0)
    case "Right" => Some(Right)
    case "Left" => Some(Left)
    case "Up" => Some(Up)
    case "Down" => Some(Down)
    case _ => None
  }

  /**
   * `virtual_key_code_from_int`: gives the key whose code is `code`, and
   * `None` for an integer that is no key's code.
   */
  function VirtualKeyCodeFromInt(code: u32): (r: Option<VirtualKeyCode>)
    ensures forall k :: r == Some(k) <==> code == Ord(k)
  {
    if code == Ord(Key1) then Some(Key1)
    else if code == Ord(Key2) then Some(Key2)
    else if code == Ord(Key3) then Some(Key3)
    else if code == Ord(Key4) then Some(Key4)
    else if code == Ord(Key5) then Some(Key5)
    else if code == Ord(Key6) then Some(Key6)
    else if code == Ord(Key7) then Some(Key7)
    else if code == Ord(Key8) then Some(Key8)
    else if code == Ord(Key9) then Some(Key9)
    else if code == Ord(Key0) then Some(Key0)
    else if code == Ord(Right) then Some(Right)
    else if code == Ord(Left) then Some(Left)
    else if code == Ord(Up) then Some(Up)
    else if code == Ord(Down) then Some(Down)
    else None
  }

  /** Both decoders invert their encodings: a key's name and its code each decode to that key. */
  lemma DecodersInvertEncodings(k: VirtualKeyCode)
    ensures VirtualKeyCodeFromString(Name(k)) == Some(k)
    ensures VirtualKeyCodeFromInt(Ord(k)) == Some(k)
  {
  }

  /** A key decoded from its name is decoded again from its integer code. */
  lemma StringDecodeThenIntDecode(name: string)
    requires VirtualKeyCodeFromString(name).Some?
    ensures VirtualKeyCodeFromInt(Ord(VirtualKeyCodeFromString(name).value)) == VirtualKeyCodeFromString(name)
  {
  }

  /** `InputStateMap`: the last state recorded for each key. */
  class InputStateMap {
    var keyCodes: map<VirtualKeyCode, ElementState>

    /** `InputStateMap::new`: no key has a recorded state. */
    constructor ()
      ensures keyCodes == map[]
      ensures forall k :: GetVirtualKeyCode(k) == None
    {
      keyCodes := map[];
    }

    /** `virtual_key_code`: the recorded state of `code`, or `None` if none was recorded. */
    function GetVirtualKeyCode(code: VirtualKeyCode): (r: Option<ElementState>)
      reads this
      ensures r.Some? <==> code in keyCodes
      ensures r.Some? ==> keyCodes[code] == r.value
    {
      if code in keyCodes then Some(keyCodes[code]) else None
    }

    /** `set_virtual_key_code`: records `state` for `code`, replacing any earlier state; other keys keep theirs. */
    method SetVirtualKeyCode(code: VirtualKeyCode, state: ElementState)
      modifies this
      ensures keyCodes == old(keyCodes)[code := state]
      ensures GetVirtualKeyCode(code) == Some(state)
      ensures forall k :: k != code ==> GetVirtualKeyCode(k) == old(GetVirtualKeyCode(k))
    {
      keyCodes := keyCodes[code := state];
    }

    /** `clear`: forgets every recorded state. */
    method Clear()
      modifies this
      ensures keyCodes == map[]
      ensures forall k :: GetVirtualKeyCode(k) == None
    {
      keyCodes := map[];
    }
  }
}
