/**
 * The CHIP-8 hexadecimal keypad: sixteen keys, each either held down or
 * released, with no repeat or debounce state.
 */
module Keypad {
  import opened Bits
  import opened Wrappers

  const KeyCount: nat := 16

  /** `[bool; 16]`: entry `i` is true while key `i` is held down. */
  type Keys = s: seq<bool> | |s| == KeyCount witness seq(KeyCount, _ => false)

  datatype Keypad = Keypad(keys: Keys)

  /** The index is a key of the pad; any other index makes the Rust code panic. */
  predicate IsKey(index: int)
  {
    0 <= index < KeyCount
  }

  predicate AllReleased(k: Keypad)
  {
    forall i :: 0 <= i < KeyCount ==> !IsPressed(k, i)
  }

  /** A keypad with every key released. */
  function New(): (k: Keypad)
    ensures AllReleased(k)
  {
    Keypad(seq(KeyCount, _ => false))
  }

  function IsPressed(k: Keypad, index: int): bool
    requires IsKey(index)
  {
    k.keys[index]
  }

  /** Records that key `index` went up; no other key changes. */
  function SetUp(k: Keypad, index: int): (r: Keypad)
    requires IsKey(index)
    ensures !IsPressed(r, index)
    ensures forall j :: 0 <= j < KeyCount && j != index ==> IsPressed(r, j) == IsPressed(k, j)
  {
    Keypad(k.keys[index := false])
  }

  /** Records that key `index` went down; no other key changes. */
  function SetDown(k: Keypad, index: int): (r: Keypad)
    requires IsKey(index)
    ensures IsPressed(r, index)
    ensures forall j :: 0 <= j < KeyCount && j != index ==> IsPressed(r, j) == IsPressed(k, j)
  {
    Keypad(k.keys[index := true])
  }

  /**
   * The first pressed key at or after `from`, scanning upwards; `None` when
   * every key from `from` on is released.
   */
  function FirstPressedFrom(k: Keypad, from: nat): (r: Option<nat>)
    requires from <= KeyCount
    ensures r.None? <==> forall j :: from <= j < KeyCount ==> !IsPressed(k, j)
    ensures r.Some? ==> from <= r.value < KeyCount && IsPressed(k, r.value)
    ensures r.Some? ==> forall j :: from <= j < r.value ==> !IsPressed(k, j)
    decreases KeyCount - from
  {
    if from == KeyCount then None
    else if k.keys[from] then assert IsPressed(k, from); Some(from)
    else FirstPressedFrom(k, from + 1)
  }

  /**
   * The lowest-numbered pressed key, or `None` when no key is pressed. The
   * keypad itself is a value, so the scan cannot alter it.
   */
  function GetKeyPressed(k: Keypad): (r: Option<Byte>)
    ensures r.None? <==> AllReleased(k)
    ensures r.Some? ==> IsKey(r.value) && IsPressed(k, r.value)
    ensures r.Some? ==> forall j :: 0 <= j < r.value ==> !IsPressed(k, j)
  {
    match FirstPressedFrom(k, 0)
    case None => None
    case Some(i) => Some(i)
  }

  /** Pressing a key that is already down changes nothing, and likewise releasing. */
  lemma SetIdempotent(k: Keypad, index: int)
    requires IsKey(index)
    ensures SetDown(SetDown(k, index), index) == SetDown(k, index)
    ensures SetUp(SetUp(k, index), index) == SetUp(k, index)
  {
  }

  /** After a key goes down, the scan reports it or a lower-numbered pressed key. */
  lemma PressedKeyIsFoundNoHigher(k: Keypad, index: int)
    requires IsKey(index)
    ensures GetKeyPressed(SetDown(k, index)).Some?
    ensures GetKeyPressed(SetDown(k, index)).value <= index
  {
  }

  /** On an otherwise released pad, the scan reports exactly the key that went down. */
  lemma SinglePressIsFound(index: int)
    requires IsKey(index)
    ensures GetKeyPressed(SetDown(New(), index)) == Some(index)
  {
  }
}
