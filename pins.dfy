/**
 * The pin bitmask of a digital output array: what each peripheral call does
 * to the eight pins, and the pin state reached after a log of such calls.
 */
module Pins {

  /** The bitmask that selects pin `i` alone. */
  function Pin(i: nat): bv8
    requires i < 8
  {
    match i
    case 0 => 0x01
    case 1 => 0x02
    case 2 => 0x04
    case 3 => 0x08
    case 4 => 0x10
    case 5 => 0x20
    case 6 => 0x40
    case _ => 0x80
  }

  /** Pin `i` is ON in the bitmask `s`. */
  predicate PinOn(s: bv8, i: nat)
    requires i < 8
  {
    s & Pin(i) != 0
  }

  /**
   * The eight pins determine the bitmask, so the per-pin contracts below
   * fix each result completely.
   */
  lemma PinsDetermineMask(a: bv8, b: bv8)
    requires forall i: nat | i < 8 :: PinOn(a, i) == PinOn(b, i)
    ensures a == b
  {
    assert PinOn(a, 0) == PinOn(b, 0) && PinOn(a, 1) == PinOn(b, 1);
    assert PinOn(a, 2) == PinOn(b, 2) && PinOn(a, 3) == PinOn(b, 3);
    assert PinOn(a, 4) == PinOn(b, 4) && PinOn(a, 5) == PinOn(b, 5);
    assert PinOn(a, 6) == PinOn(b, 6) && PinOn(a, 7) == PinOn(b, 7);
  }

  /** `set_state(m)`: the pins in `m` turn ON, every other pin keeps its state. */
  function SetPins(s: bv8, m: bv8): (r: bv8)
    ensures forall i: nat | i < 8 :: PinOn(r, i) == (PinOn(m, i) || PinOn(s, i))
  {
    s | m
  }

  /** `clear_state(m)`: the pins in `m` turn OFF, every other pin keeps its state. */
  function ClearPins(s: bv8, m: bv8): (r: bv8)
    ensures forall i: nat | i < 8 :: PinOn(r, i) == (!PinOn(m, i) && PinOn(s, i))
  {
    s & !m
  }

  /** `toggle_state(m)`: the pins in `m` invert, every other pin keeps its state. */
  function TogglePins(s: bv8, m: bv8): (r: bv8)
    ensures forall i: nat | i < 8 :: PinOn(r, i) == (PinOn(m, i) != PinOn(s, i))
  {
    s ^ m
  }

  /** A call the register layer makes on a digital output array. */
  datatype OutputCall =
    | ClearAllCall            // clear_state() with no mask
    | SetCall(mask: bv8)      // set_state(mask)
    | ClearCall(mask: bv8)    // clear_state(mask)
    | ToggleCall(mask: bv8)   // toggle_state(mask)

  /** The pin state after one call. */
  function ApplyCall(s: bv8, c: OutputCall): bv8
  {
    match c
    case ClearAllCall => 0
    case SetCall(m) => SetPins(s, m)
    case ClearCall(m) => ClearPins(s, m)
    case ToggleCall(m) => TogglePins(s, m)
  }

  /** The pin state reached from `s` by the calls of `log`, oldest first. */
  function Replay(s: bv8, log: seq<OutputCall>): bv8
    decreases |log|
  {
    if log == [] then s else ApplyCall(Replay(s, log[..|log| - 1]), log[|log| - 1])
  }

  /** The call `c` may change pin `i`. */
  predicate Touches(c: OutputCall, i: nat)
    requires i < 8
  {
    c.ClearAllCall? || PinOn(c.mask, i)
  }

  /** A pin that no call of the log touches keeps the state it started with. */
  lemma {:induction false} ReplayLeavesUntouchedPins(s: bv8, log: seq<OutputCall>, i: nat)
    requires i < 8
    requires forall k | 0 <= k < |log| :: !Touches(log[k], i)
    ensures PinOn(Replay(s, log), i) == PinOn(s, i)
  {
    if log != [] {
      var prefix := log[..|log| - 1];
      assert forall k | 0 <= k < |prefix| :: prefix[k] == log[k];
      ReplayLeavesUntouchedPins(s, prefix, i);
      assert !Touches(log[|log| - 1], i);
    }
  }

  /**
   * Once the pins have been cleared, the state they reach no longer depends
   * on the state they had before: start-up is deterministic.
   */
  lemma {:induction false} ReplayAfterClearAll(s: bv8, log: seq<OutputCall>)
    ensures Replay(s, [ClearAllCall] + log) == Replay(0, log)
    decreases |log|
  {
    if log != [] {
      var prefix := log[..|log| - 1];
      assert ([ClearAllCall] + log)[..|log|] == [ClearAllCall] + prefix;
      ReplayAfterClearAll(s, prefix);
    } else {
      assert ([ClearAllCall] + log)[..0] == [];
    }
  }

  /** Replaying two logs one after the other is replaying their concatenation. */
  lemma {:induction false} ReplayAppend(s: bv8, a: seq<OutputCall>, b: seq<OutputCall>)
    ensures Replay(s, a + b) == Replay(Replay(s, a), b)
    decreases |b|
  {
    if b == [] {
      assert a + b == a;
    } else {
      var b' := b[..|b| - 1];
      assert (a + b)[..|a + b| - 1] == a + b';
      assert (a + b)[|a + b| - 1] == b[|b| - 1];
      ReplayAppend(s, a, b');
    }
  }

  /**
   * A clear-all anywhere in the log makes the final pins independent of
   * everything before it.
   */
  lemma {:induction false} ReplaySinceClearAll(s: bv8, before: seq<OutputCall>, after: seq<OutputCall>)
    ensures Replay(s, before + [ClearAllCall] + after) == Replay(0, after)
  {
    assert before + [ClearAllCall] + after == before + ([ClearAllCall] + after);
    ReplayAppend(s, before, [ClearAllCall] + after);
    ReplayAfterClearAll(Replay(s, before), after);
  }

  /** Toggling the same mask twice gives back the original pins. */
  lemma ToggleTwiceRestores(s: bv8, m: bv8)
    ensures Replay(s, [ToggleCall(m), ToggleCall(m)]) == s
  {
    assert [ToggleCall(m), ToggleCall(m)][..1] == [ToggleCall(m)];
    assert [ToggleCall(m)][..0] == [];
    assert Replay(s, [ToggleCall(m)]) == TogglePins(s, m);
    assert TogglePins(TogglePins(s, m), m) == s;
  }
}
