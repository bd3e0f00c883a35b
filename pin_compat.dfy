/**
 * The daemon and the firmware pack a PIN the same way: the key set_access
 * stores for a PIN string is the key the door controller accumulates when
 * the same digits are typed on the keypad, and so the key it hands to the
 * validator on ENTER.
 */
module PinCompat {
  import opened Util
  import opened CText
  import opened DoorController
  import opened DaemonMethods

  /** The key codes the keypad sends for the characters of a PIN. */
  function KeypadDigits(s: CString): (ds: seq<bv32>)
    requires AllDigits(s)
    ensures |ds| == |s|
  {
    if s == [] then [] else KeypadDigits(s[..|s| - 1]) + [DigitOf(s[|s| - 1]) as bv32]
  }

  /** Every key code of a PIN string is a digit key. */
  lemma {:induction false} KeypadDigitsAreDigits(s: CString)
    requires AllDigits(s)
    ensures Digits(KeypadDigits(s))
  {
    if s != [] {
      KeypadDigitsAreDigits(s[..|s| - 1]);
      DigitOfChar(s[|s| - 1]);
      DigitBound(DigitOf(s[|s| - 1]));
    }
  }

  lemma DigitBound(d: bv8)
    requires !BadDigit(d)
    ensures d as bv32 <= 9
  {
  }

  /** Accumulating one more digit shifts it in after the others. */
  lemma {:induction false} AccumulateLast(acc: bv32, ds: seq<bv32>, d: bv32)
    ensures Accumulate(acc, ds + [d]) == Accumulate(Accumulate(acc, ds), [d])
    decreases |ds|
  {
    var longer := ds + [d];
    if ds != [] {
      assert longer[0] == ds[0] && longer[1..] == ds[1..] + [d];
      AccumulateLast((acc << 4) | ds[0], ds[1..], d);
    } else {
      assert longer == [d];
    }
  }

  lemma AccumulateOne(acc: bv32, d: bv32)
    ensures Accumulate(acc, [d]) == (acc << 4) | d
  {
    assert [d][1..] == [];
  }

  /** The daemon's PIN key is the keypad accumulator over the same digits. */
  lemma {:induction false} KeypadMatchesDaemon(s: CString)
    requires AllDigits(s)
    ensures DaemonMethods.PinKey(s) == Some(Accumulate(PIN_SEED, KeypadDigits(s)))
  {
    if s != [] {
      var init := s[..|s| - 1];
      assert AllDigits(init);
      KeypadMatchesDaemon(init);
      DigitOfChar(s[|s| - 1]);
      var d := DigitOf(s[|s| - 1]) as bv32;
      AccumulateLast(PIN_SEED, KeypadDigits(init), d);
      AccumulateOne(Accumulate(PIN_SEED, KeypadDigits(init)), d);
    }
  }

  /** Typing a PIN stored with set_access and then ENTER asks the validator
      about exactly the key set_access stored for it. */
  lemma TypedPinChecksStoredKey(c: Ctl, cfg: Config, s: CString, doors: Option<bv32>)
    requires c.state == Idle && 1 <= |s| && AllDigits(s)
    requires cfg.checkKey.Some?
    ensures SetAccessQuery(Some(s), None, doors).Done?
    ensures var stored := FromLe32(SetAccessQuery(Some(s), None, doors).query[..4]);
      var o := Run(Step(cfg), c,
                   Keys(KeypadDigits(s)) + [Input(WIEGAND_READER_EVENT_KEY, WIEGAND_KEY_ENTER as bv32)]);
      KeyChecked(DOOR_CTRL_PIN, stored) in o.effects
  {
    KeypadDigitsAreDigits(s);
    KeypadMatchesDaemon(s);
    PinKeyAccepts(s);
    var key := DaemonMethods.PinKey(s).value;
    XorZero(key);
    StoredRecord(Some(s), None, doors, 0, key);
    RecordKey(key, PermsByte(DoorsField(doors), ACCESS_TYPE_PIN));
    PinEntry(c, cfg, KeypadDigits(s));
  }
}
