/**
 * The button layout: four push buttons on pins 4 to 7 of one GPIO port,
 * a mask selecting exactly those pins, and the press/release tests on a
 * sample of the port and the bits that changed since the previous sample.
 */
module Buttons {

  const NUM_BUTTONS: nat := 4

  /** The GPIO pin mask of pin `k` of an 8-bit port. */
  function Pin(k: nat): bv8
    requires k < 8
  {
    (1 as bv8) << k
  }

  // The driver library's pin masks GPIO_PIN_4 .. GPIO_PIN_7.
  const CONFIG_BUTTON: bv8 := 0x10
  const DEC_BUTTON: bv8 := 0x20
  const INC_BUTTON: bv8 := 0x40
  const RUN_BUTTON: bv8 := 0x80

  const ALL_BUTTONS: bv8 := CONFIG_BUTTON | DEC_BUTTON | INC_BUTTON | RUN_BUTTON

  /** Each button constant is the mask of the pin it is wired to. */
  lemma ButtonMasks()
    ensures CONFIG_BUTTON == Pin(4) && DEC_BUTTON == Pin(5)
    ensures INC_BUTTON == Pin(6) && RUN_BUTTON == Pin(7)
    ensures ALL_BUTTONS == 0xF0
  {
  }

  /** Whether pin `k` is set in a port sample. */
  predicate PinSet(m: bv8, k: nat)
    requires k < 8
  {
    (m >> k) & 1 == 1
  }

  /** The indices of the pins set in a port sample. */
  function Pins(m: bv8): set<nat> {
    set k: nat | k < 8 && PinSet(m, k)
  }

  /** Each button is the single pin its number says, so no two buttons share a pin. */
  lemma ButtonPins()
    ensures Pins(CONFIG_BUTTON) == {4}
    ensures Pins(DEC_BUTTON) == {5}
    ensures Pins(INC_BUTTON) == {6}
    ensures Pins(RUN_BUTTON) == {7}
    ensures Pins(ALL_BUTTONS) == {4, 5, 6, 7}
    ensures |Pins(ALL_BUTTONS)| == NUM_BUTTONS
  {
    assert forall k: nat :: k < 8 ==> (k in Pins(CONFIG_BUTTON) <==> k == 4);
    assert forall k: nat :: k < 8 ==> (k in Pins(DEC_BUTTON) <==> k == 5);
    assert forall k: nat :: k < 8 ==> (k in Pins(INC_BUTTON) <==> k == 6);
    assert forall k: nat :: k < 8 ==> (k in Pins(RUN_BUTTON) <==> k == 7);
    assert forall k: nat :: k < 8 ==> (k in Pins(ALL_BUTTONS) <==> 4 <= k <= 7);
  }

  /** Masking a sample keeps exactly the pins set in both. */
  lemma MaskPins(s: bv8, mask: bv8)
    ensures Pins(s & mask) == Pins(s) * Pins(mask)
  {
    forall k: nat | k < 8
      ensures PinSet(s & mask, k) <==> PinSet(s, k) && PinSet(mask, k)
    {
      assert ((s & mask) >> k) & 1 == ((s >> k) & 1) & ((mask >> k) & 1);
    }
  }

  /** Masking a sample with ALL_BUTTONS discards every pin that carries no button. */
  lemma MaskKeepsOnlyButtons(s: bv8)
    ensures Pins(s & ALL_BUTTONS) == Pins(s) * {4, 5, 6, 7}
  {
    ButtonPins();
    MaskPins(s, ALL_BUTTONS);
  }

  /** BUTTON_PRESSED: the button's bit changed and is now set. */
  predicate ButtonPressed(button: bv8, buttons: bv8, changed: bv8) {
    button & changed != 0 && button & buttons != 0
  }

  /** BUTTON_RELEASED: the button's bit changed and is now clear. */
  predicate ButtonReleased(button: bv8, buttons: bv8, changed: bv8) {
    button & changed != 0 && button & buttons == 0
  }

  /** Testing a sample against a single-pin mask is testing that pin's bit. */
  lemma PinTest(k: nat, m: bv8)
    requires k < 8
    ensures Pin(k) & m != 0 <==> PinSet(m, k)
  {
    if k == 0 {
    } else if k == 1 {
    } else if k == 2 {
    } else if k == 3 {
    } else if k == 4 {
    } else if k == 5 {
    } else if k == 6 {
    } else {
      assert k == 7;
    }
  }

  /** For a single-pin button, pressed means its pin is set both in `changed` and in `buttons`. */
  lemma PressedIffPinSetInBoth(k: nat, buttons: bv8, changed: bv8)
    requires k < 8
    ensures ButtonPressed(Pin(k), buttons, changed) <==> k in Pins(changed) && k in Pins(buttons)
  {
    PinTest(k, changed);
    PinTest(k, buttons);
  }

  /** For a single-pin button, released means its pin is set in `changed` and clear in `buttons`. */
  lemma ReleasedIffPinChangedAndClear(k: nat, buttons: bv8, changed: bv8)
    requires k < 8
    ensures ButtonReleased(Pin(k), buttons, changed) <==> k in Pins(changed) && k !in Pins(buttons)
  {
    PinTest(k, changed);
    PinTest(k, buttons);
  }

  /** A button is never pressed and released at once, and neither when its bit did not change. */
  lemma PressedReleasedExclusive(button: bv8, buttons: bv8, changed: bv8)
    ensures !(ButtonPressed(button, buttons, changed) && ButtonReleased(button, buttons, changed))
    ensures button & changed == 0 ==>
              !ButtonPressed(button, buttons, changed) && !ButtonReleased(button, buttons, changed)
  {
  }
}
