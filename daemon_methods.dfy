/**
 * The ubus methods of the door-controller daemon: encoding access records
 * (a PIN as one decimal digit per nibble, a card number as an unsigned
 * 32-bit value, both merged into one little-endian key beside a permission
 * byte), decoding them back into text, decoding the device descriptor,
 * and finding a method by name.
 *
 * The blobmsg arguments are modelled as optional strings (C strings as
 * bytes) and optional integers; the query and response buffers as byte
 * sequences.
 */
module DaemonMethods {
  import opened Util
  import opened CText

  // Access record types, the index into ACCESS_RECORD_TYPES.
  const ACCESS_TYPE_NONE: bv8 := 0
  const ACCESS_TYPE_PIN: bv8 := 1
  const ACCESS_TYPE_CARD: bv8 := 2
  const ACCESS_TYPE_CARD_AND_PIN: bv8 := 3

  const ACCESS_RECORD_TYPES: seq<string> := ["none", "pin", "card", "pin+card"]

  /** Bit 2 of the permission byte marks a record as invalid. */
  const RECORD_INVALID: bv8 := 0x04

  /** The key of a PIN before any digit is shifted in. */
  const PIN_SEED: bv32 := 0xFFFF_FFFF

  /** Size of the buffer the decoded key is printed into. */
  const SKEY_SIZE: nat := 9

  const UBUS_STATUS_OK: int := 0
  const UBUS_STATUS_INVALID_ARGUMENT: int := 2

  /** What a query writer produces: the query, or the invalid-argument status. */
  datatype Reply<T> = Done(query: T) | Invalid

  function Status<T>(r: Reply<T>): (status: int)
    ensures status == UBUS_STATUS_OK <==> r.Done?
  {
    if r.Done? then UBUS_STATUS_OK else UBUS_STATUS_INVALID_ARGUMENT
  }

  // ---------------------------------------------------------------------
  // Little-endian fields

  function Le16(x: bv16): (b: seq<bv8>)
    ensures |b| == 2
  {
    [(x & 0xFF) as bv8, (x >> 8) as bv8]
  }

  /** The value of two little-endian bytes: the low byte first. */
  function FromLe16(b: seq<bv8>): bv16
    requires |b| == 2
  {
    b[0] as bv16 | (b[1] as bv16 << 8)
  }

  function Le32(x: bv32): (b: seq<bv8>)
    ensures |b| == 4
  {
    [(x & 0xFF) as bv8, ((x >> 8) & 0xFF) as bv8, ((x >> 16) & 0xFF) as bv8, (x >> 24) as bv8]
  }

  function FromLe32(b: seq<bv8>): bv32
    requires |b| == 4
  {
    b[0] as bv32 | (b[1] as bv32 << 8) | (b[2] as bv32 << 16) | (b[3] as bv32 << 24)
  }

  /** le16toh undoes htole16, and every two bytes are some value's encoding. */
  lemma Le16RoundTrip(x: bv16, b: seq<bv8>)
    requires |b| == 2
    ensures FromLe16(Le16(x)) == x
    ensures Le16(FromLe16(b)) == b
  {
  }

  /** le32toh undoes htole32, and every four bytes are some value's encoding. */
  lemma Le32RoundTrip(x: bv32, b: seq<bv8>)
    requires |b| == 4
    ensures FromLe32(Le32(x)) == x
    ensures Le32(FromLe32(b)) == b
  {
  }

  // ---------------------------------------------------------------------
  // PIN keys

  /** The digit a PIN character stands for: the byte minus '0' in 8 bits,
      so that characters below '0' wrap around to large values. */
  function DigitOf(c: bv8): bv8
  {
    c - ZERO
  }

  /** The writers' test `digit > 9` that refuses a PIN character. */
  predicate BadDigit(digit: bv8)
  {
    digit > 9
  }

  /** One step of PIN encoding: the key moves up a nibble and the digit
      fills the low nibble. */
  function ShiftIn(pin: bv32, digit: bv8): bv32
  {
    (pin << 4) | digit as bv32
  }

  /** Exactly the decimal digits pass the `digit > 9` test, which then
      yields their value. */
  lemma DigitOfChar(c: bv8)
    ensures BadDigit(DigitOf(c)) <==> !IsDigit(c)
    ensures IsDigit(c) ==> DigitOf(c) as nat == DigitValue(c)
  {
  }

  /**
   * The key of a PIN string: starting from PIN_SEED, each digit is shifted
   * into the low nibble. None when a character is not a decimal digit.
   */
  function PinKey(s: CString): Option<bv32>
  {
    if s == [] then Some(PIN_SEED)
    else
      match PinKey(s[..|s| - 1])
      case None => None
      case Some(p) =>
        var digit := DigitOf(s[|s| - 1]);
        if BadDigit(digit) then None else Some(ShiftIn(p, digit))
  }

  /** A PIN string is accepted exactly when all its characters are digits. */
  lemma {:induction false} PinKeyAccepts(s: CString)
    ensures PinKey(s).Some? <==> AllDigits(s)
  {
    if s != [] {
      PinKeyAccepts(s[..|s| - 1]);
      DigitOfChar(s[|s| - 1]);
      assert AllDigits(s) <==> AllDigits(s[..|s| - 1]) && IsDigit(s[|s| - 1]);
    }
  }

  /** A prefix that is refused makes the whole PIN refused. */
  lemma {:induction false} PinKeyRefusedPrefix(s: CString, i: nat)
    requires i <= |s| && PinKey(s[..i]).None?
    ensures PinKey(s).None?
    decreases |s| - i
  {
    if i < |s| {
      assert s[..i + 1][..i] == s[..i];
      PinKeyRefusedPrefix(s, i + 1);
    } else {
      assert s[..i] == s;
    }
  }

  /** One turn of the encoding loop: the next character refuses the PIN or
      shifts its digit in. */
  lemma PinKeyStep(s: CString, i: nat, pin: bv32)
    requires i < |s| && PinKey(s[..i]) == Some(pin)
    ensures BadDigit(DigitOf(s[i])) ==> PinKey(s).None?
    ensures !BadDigit(DigitOf(s[i])) ==> PinKey(s[..i + 1]) == Some(ShiftIn(pin, DigitOf(s[i])))
  {
    assert s[..i + 1][..i] == s[..i];
    if BadDigit(DigitOf(s[i])) {
      PinKeyRefusedPrefix(s, i + 1);
    }
  }

  /** The encoding loop of the query writers. */
  method EncodePin(s: CString) returns (ok: bool, pin: bv32)
    ensures ok <==> AllDigits(s)
    ensures ok ==> PinKey(s) == Some(pin)
  {
    PinKeyAccepts(s);
    pin := PIN_SEED;
    var i := 0;
    while i < |s|
      invariant 0 <= i <= |s|
      invariant PinKey(s[..i]) == Some(pin)
    {
      PinKeyStep(s, i, pin);
      var digit := DigitOf(s[i]);
      if BadDigit(digit) {
        return false, pin;
      }
      pin := ShiftIn(pin, digit);
      i := i + 1;
    }
    assert s[..i] == s;
    ok := true;
  }

  /** Nibble i of a key, counted from the least significant: the key
      shifted right by 4 * i, masked to 4 bits (written out per nibble). */
  function Nibble(key: bv32, i: nat): bv8
    requires i < 8
  {
    var shifted :=
      if i == 0 then key else if i == 1 then key >> 4 else if i == 2 then key >> 8
      else if i == 3 then key >> 12 else if i == 4 then key >> 16 else if i == 5 then key >> 20
      else if i == 6 then key >> 24 else key >> 28;
    (shifted & 0xF) as bv8
  }

  /** The character the reader prints for a nibble: the nibble plus '0'. */
  function NibbleChar(digit: bv8): bv8
  {
    digit + ZERO
  }

  /** The nibble 0xF pads a PIN of fewer than 8 digits. */
  predicate IsFiller(digit: bv8)
  {
    digit == 0xF
  }

  /** The text of nibble i of a PIN key: nothing for the filler, else its
      character. */
  function PinChar(key: bv32, i: nat): seq<bv8>
    requires i < 8
  {
    var digit := Nibble(key, i);
    if IsFiller(digit) then [] else [NibbleChar(digit)]
  }

  /** The text of nibbles n - 1 down to 0. */
  function PinDigits(key: bv32, n: nat): (s: CString)
    requires n <= 8
    ensures |s| <= n
  {
    if n == 0 then [] else PinChar(key, n - 1) + PinDigits(key, n - 1)
  }

  /** The decoded text of a PIN key; it fits the 9-byte buffer with its NUL. */
  function PinText(key: bv32): (s: CString)
    ensures |s| < SKEY_SIZE
  {
    PinDigits(key, 8)
  }

  /** The decoding loop of the response reader. */
  method DecodePin(key: bv32) returns (skey: CString)
    ensures skey == PinText(key)
    ensures |skey| < SKEY_SIZE
  {
    skey := [];
    var n := 8;
    while n > 0
      invariant n <= 8
      invariant skey + PinDigits(key, n) == PinText(key)
    {
      skey := DecodeNibble(key, n - 1, skey);
      n := n - 1;
    }
  }

  /** One turn of the decoding loop: nibble i is printed unless it is the
      filler. */
  method DecodeNibble(key: bv32, i: nat, skey: CString) returns (skey': CString)
    requires i < 8 && skey + PinDigits(key, i + 1) == PinText(key)
    ensures skey' + PinDigits(key, i) == PinText(key)
  {
    var digit := Nibble(key, i);
    skey' := skey;
    if !IsFiller(digit) {
      skey' := skey' + [NibbleChar(digit)];
    }
    DecodeStep(key, i, digit, skey, skey');
  }

  /** One turn of the decoding loop: the text of nibble i is appended. */
  lemma DecodeStep(key: bv32, i: nat, digit: bv8, before: CString, after: CString)
    requires i < 8 && before + PinDigits(key, i + 1) == PinText(key)
    requires digit == Nibble(key, i)
    requires after == if IsFiller(digit) then before else before + [NibbleChar(digit)]
    ensures after + PinDigits(key, i) == PinText(key)
  {
    assert after == before + PinChar(key, i);
    AppendAssociative(before, PinChar(key, i), PinDigits(key, i));
  }

  /** Shifting a digit into a key moves every nibble up by one place. */
  lemma NibbleShift(key: bv32, digit: bv8, i: nat)
    requires !BadDigit(digit) && i < 8
    ensures Nibble(ShiftIn(key, digit), i) == if i == 0 then digit else Nibble(key, i - 1)
  {
    if i == 0 {
    } else if i == 1 {
    } else if i == 2 {
    } else if i == 3 {
    } else if i == 4 {
    } else if i == 5 {
    } else if i == 6 {
    } else {
    }
  }

  /** A digit is never the 0xF filler and is printed as its character. */
  lemma DigitNotFiller(c: bv8)
    requires IsDigit(c)
    ensures !IsFiller(DigitOf(c)) && NibbleChar(DigitOf(c)) == c
  {
  }

  /** Shifting a digit character in moves every nibble's text up a place,
      and the character itself becomes the text of the low nibble. */
  lemma PinCharShift(key: bv32, c: bv8, i: nat)
    requires IsDigit(c) && i < 8
    ensures PinChar(ShiftIn(key, DigitOf(c)), i) == if i == 0 then [c] else PinChar(key, i - 1)
  {
    DigitOfChar(c);
    DigitNotFiller(c);
    NibbleShift(key, DigitOf(c), i);
  }

  /** Shifting a digit character in appends it to the decoded text. */
  lemma {:induction false} PinDigitsShift(key: bv32, c: bv8, i: nat)
    requires IsDigit(c) && i < 8
    ensures PinDigits(ShiftIn(key, DigitOf(c)), i + 1) == PinDigits(key, i) + [c]
  {
    var k := ShiftIn(key, DigitOf(c));
    PinCharShift(key, c, i);
    if i > 0 {
      PinDigitsShift(key, c, i - 1);
      AppendAssociative(PinChar(key, i - 1), PinDigits(key, i - 1), [c]);
    }
  }

  /** The seed decodes to the empty text. */
  lemma {:induction false} SeedDigits(n: nat)
    requires n <= 8
    ensures PinDigits(PIN_SEED, n) == []
  {
    if n > 0 {
      SeedDigits(n - 1);
    }
  }

  lemma {:induction false} PinDigitsOfKey(s: CString, n: nat)
    requires AllDigits(s) && |s| <= n <= 8
    ensures PinKey(s).Some? && PinDigits(PinKey(s).value, n) == s
  {
    PinKeyAccepts(s);
    if s == [] {
      SeedDigits(n);
    } else {
      var init := s[..|s| - 1];
      var c := s[|s| - 1];
      assert AllDigits(init);
      PinDigitsOfKey(init, n - 1);
      DigitOfChar(c);
      PinDigitsShift(PinKey(init).value, c, n - 1);
      assert s == init + [c];
    }
  }

  /** Decoding the key of a PIN of at most 8 digits gives the PIN back. */
  lemma PinRoundTrip(s: CString)
    requires AllDigits(s) && |s| <= 8
    ensures PinKey(s).Some? && PinText(PinKey(s).value) == s
  {
    PinDigitsOfKey(s, 8);
  }

  /** The per-nibble table is the shift by 4 * i. */
  lemma NibbleIsShift(key: bv32, i: nat)
    requires i < 8
    ensures Nibble(key, i) == ((key >> (i * 4)) & 0xF) as bv8
  {
    if i == 0 {
    } else if i == 1 {
    } else if i == 2 {
    } else if i == 3 {
    } else if i == 4 {
    } else if i == 5 {
    } else if i == 6 {
    } else {
    }
  }

  // ---------------------------------------------------------------------
  // Access records: 4 bytes of little-endian key, then the permission byte

  /** The type of a record: both strings give CARD_AND_PIN, a card alone
      CARD, a PIN alone PIN, neither NONE. */
  function RecordType(hasPin: bool, hasCard: bool): bv8
  {
    if hasCard && hasPin then ACCESS_TYPE_CARD_AND_PIN
    else if hasCard then ACCESS_TYPE_CARD
    else if hasPin then ACCESS_TYPE_PIN
    else ACCESS_TYPE_NONE
  }

  /** The type has its PIN bit exactly when a PIN is given and its card bit
      exactly when a card is given. */
  lemma RecordTypeBits(hasPin: bool, hasCard: bool)
    ensures RecordType(hasPin, hasCard) <= ACCESS_TYPE_CARD_AND_PIN
    ensures RecordType(hasPin, hasCard) & ACCESS_TYPE_PIN != 0 <==> hasPin
    ensures RecordType(hasPin, hasCard) & ACCESS_TYPE_CARD != 0 <==> hasCard
  {
  }

  /** The doors argument, masked to its 4 low bits; 0 when absent. */
  function DoorsField(doors: Option<bv32>): bv8
  {
    if doors.Some? then (doors.value & 0xF) as bv8 else 0
  }

  /** The permission byte: doors in the high nibble, type in the low bits. */
  function PermsByte(doors: bv8, t: bv8): bv8
  {
    (doors << 4) | t
  }

  predicate MarkedInvalid(perms: bv8)
  {
    perms & RECORD_INVALID != 0
  }

  function TypeOf(perms: bv8): bv8
  {
    perms & 0x3
  }

  function DoorsOf(perms: bv8): bv8
  {
    perms >> 4
  }

  /** The reader recovers type and doors from the writer's permission byte,
      and such a byte never carries the invalid mark. */
  lemma PermsRoundTrip(doors: Option<bv32>, t: bv8)
    requires t <= ACCESS_TYPE_CARD_AND_PIN
    ensures !MarkedInvalid(PermsByte(DoorsField(doors), t))
    ensures TypeOf(PermsByte(DoorsField(doors), t)) == t
    ensures DoorsOf(PermsByte(DoorsField(doors), t)) == DoorsField(doors)
    ensures DoorsField(doors) <= 0xF
  {
  }

  /** The part of the key a card string gives: its %u value, 0 when absent,
      None when it holds no number. */
  function CardPart(card: Option<CString>): Option<bv32>
  {
    if card.None? then Some(0) else ScanUnsigned(card.value)
  }

  /** The part of the key a PIN string gives: its key, 0 when absent, None
      when it holds a character that is not a digit. */
  function PinPart(pin: Option<CString>): Option<bv32>
  {
    if pin.None? then Some(0) else PinKey(pin.value)
  }

  /** The record both writers store: the key card ^ pin in little-endian
      order, then the permission byte. None for an invalid argument. */
  function EncodeRecord(pin: Option<CString>, card: Option<CString>, doors: Option<bv32>): (r: Option<seq<bv8>>)
    ensures r.Some? ==> |r.value| == 5
  {
    var c := CardPart(card);
    var p := PinPart(pin);
    if c.None? || p.None? then None
    else Some(Le32(c.value ^ p.value) + [PermsByte(DoorsField(doors), RecordType(pin.Some?, card.Some?))])
  }

  /** The set_access_record query: a little-endian 16-bit index, then the
      record. */
  datatype SetRecordCmd = SetRecordCmd(index: seq<bv8>, record: seq<bv8>)

  /** write_set_access_record_query: the index is cut to 16 bits; with
      neither a PIN nor a card the record is an empty NONE record. */
  function SetAccessRecordQuery(index: bv32, pin: Option<CString>, card: Option<CString>, doors: Option<bv32>)
    : (r: Reply<SetRecordCmd>)
    ensures r.Done? ==>
      |r.query.index| == 2 && FromLe16(r.query.index) == (index & 0xFFFF) as bv16 && |r.query.record| == 5
  {
    match EncodeRecord(pin, card, doors)
    case None => Invalid
    case Some(record) =>
      Le16RoundTrip((index & 0xFFFF) as bv16, [0, 0]);
      Done(SetRecordCmd(Le16((index & 0xFFFF) as bv16), record))
  }

  /** write_set_access_query: like set_access_record without an index, but
      a record needs a PIN or a card. */
  function SetAccessQuery(pin: Option<CString>, card: Option<CString>, doors: Option<bv32>): (r: Reply<seq<bv8>>)
    ensures r.Done? ==> |r.query| == 5
  {
    if pin.None? && card.None? then Invalid
    else
      match EncodeRecord(pin, card, doors)
      case None => Invalid
      case Some(record) => Done(record)
  }

  /** The writers refuse a card string without a number and a PIN string
      with a character that is not a digit; set_access also refuses a call
      with neither. Everything else is accepted. */
  lemma InvalidArguments(index: bv32, pin: Option<CString>, card: Option<CString>, doors: Option<bv32>)
    ensures SetAccessRecordQuery(index, pin, card, doors).Invalid? <==>
      (card.Some? && ScanUnsigned(card.value).None?) || (pin.Some? && !AllDigits(pin.value))
    ensures SetAccessQuery(pin, card, doors).Invalid? <==>
      (pin.None? && card.None?) ||
      (card.Some? && ScanUnsigned(card.value).None?) || (pin.Some? && !AllDigits(pin.value))
  {
    if pin.Some? {
      PinKeyAccepts(pin.value);
    }
  }

  /** Given a PIN or a card, both writers store the same record. */
  lemma WritersAgree(index: bv32, pin: Option<CString>, card: Option<CString>, doors: Option<bv32>)
    requires pin.Some? || card.Some?
    ensures SetAccessRecordQuery(index, pin, card, doors).Invalid? <==> SetAccessQuery(pin, card, doors).Invalid?
    ensures SetAccessQuery(pin, card, doors).Done? ==>
      SetAccessRecordQuery(index, pin, card, doors).query.record == SetAccessQuery(pin, card, doors).query
  {
  }

  /** The reply of get_access_record: the type name, and for a record that
      is not NONE its key as text and its doors. */
  datatype Report = Report(typeName: string, key: Option<CString>, doors: Option<bv8>)

  /** The buffer a card key needs: 10 digits and the NUL. */
  const CARD_TEXT_SIZE: nat := 11

  /** The text of a card key, printed by %u into a buffer large enough for
      every 32-bit value. */
  function CardText(key: bv32): (s: CString)
    ensures s == Decimal(key as nat)
  {
    CardDigits(key);
    FormatUnsigned(key, CARD_TEXT_SIZE)
  }

  /** A 32-bit number has at most 10 decimal digits. */
  lemma CardDigits(key: bv32)
    ensures |Decimal(key as nat)| <= CARD_TEXT_SIZE - 1
  {
    assert Pow10(10) == 10_000_000_000;
    DecimalLength(key as nat, 10);
  }

  /** The text of a card key as printed into the 9-byte buffer sized for
      a PIN. */
  function CardTextAsWritten(key: bv32): (s: CString)
    ensures s <= Decimal(key as nat)
    ensures |s| == if |Decimal(key as nat)| < SKEY_SIZE then |Decimal(key as nat)| else SKEY_SIZE - 1
  {
    FormatUnsigned(key, SKEY_SIZE)
  }

  /** read_get_access_record_response on a 5-byte record, with the key text
      printed into a buffer of `size` bytes. */
  function RecordReport(rec: seq<bv8>, size: nat): (r: Report)
    requires |rec| == 5 && size >= SKEY_SIZE
    ensures r.typeName in ACCESS_RECORD_TYPES
    ensures r.key.Some? <==> r.typeName != "none"
    ensures r.doors.Some? <==> r.key.Some?
    ensures r.doors.Some? ==> r.doors.value <= 0xF
  {
    var perms := if MarkedInvalid(rec[4]) then 0 else rec[4];
    var key := FromLe32(rec[..4]);
    var t := TypeOf(perms);
    assert t <= 3 && DoorsOf(perms) <= 0xF;
    if t == ACCESS_TYPE_NONE then Report(ACCESS_RECORD_TYPES[0], None, None)
    else
      var text := if t == ACCESS_TYPE_PIN then PinText(key) else FormatUnsigned(key, size);
      Report(ACCESS_RECORD_TYPES[t], Some(text), Some(DoorsOf(perms)))
  }

  /** The reply, with a buffer large enough for every card key. */
  function AccessRecordReport(rec: seq<bv8>): (r: Report)
    requires |rec| == 5
    ensures r.key.Some? && r.typeName != "pin" ==> r.key.value == CardText(FromLe32(rec[..4]))
  {
    RecordReport(rec, CARD_TEXT_SIZE)
  }

  /** The reply as the 9-byte buffer makes it. */
  function AccessRecordReportAsWritten(rec: seq<bv8>): (r: Report)
    requires |rec| == 5
    ensures r.key.Some? && r.typeName != "pin" ==> r.key.value == CardTextAsWritten(FromLe32(rec[..4]))
  {
    RecordReport(rec, SKEY_SIZE)
  }

  /** The reading of the response as written, with the PIN decoding loop
      and the card key printed into the 9-byte `skey`. */
  method ReadAccessRecordResponse(rec: seq<bv8>) returns (r: Report)
    requires |rec| == 5
    ensures r == AccessRecordReportAsWritten(rec)
  {
    var perms := rec[4];
    var key := FromLe32(rec[..4]);
    if MarkedInvalid(perms) {
      perms := 0;
    }
    var t := TypeOf(perms);
    if t == ACCESS_TYPE_NONE {
      return Report(ACCESS_RECORD_TYPES[0], None, None);
    }
    var skey: CString;
    if t == ACCESS_TYPE_PIN {
      skey := DecodePin(key);
    } else {
      skey := FormatUnsigned(key, SKEY_SIZE);
    }
    r := Report(ACCESS_RECORD_TYPES[t], Some(skey), Some(DoorsOf(perms)));
  }

  /** A record marked invalid reads as an empty record. */
  lemma InvalidRecordIgnored(rec: seq<bv8>)
    requires |rec| == 5 && MarkedInvalid(rec[4])
    ensures AccessRecordReport(rec) == Report("none", None, None)
  {
  }

  /** The key bytes of a stored record read back as the key. */
  lemma RecordKey(key: bv32, perms: bv8)
    ensures FromLe32((Le32(key) + [perms])[..4]) == key
    ensures (Le32(key) + [perms])[4] == perms
  {
    assert (Le32(key) + [perms])[..4] == Le32(key);
    Le32RoundTrip(key, Le32(key));
  }

  /** A record the writers store with a credential reads back with its
      type name, the key as text and the doors. */
  lemma ReportOfRecord(key: bv32, doors: Option<bv32>, t: bv8, size: nat)
    requires ACCESS_TYPE_PIN <= t <= ACCESS_TYPE_CARD_AND_PIN && size >= SKEY_SIZE
    ensures RecordReport(Le32(key) + [PermsByte(DoorsField(doors), t)], size)
      == Report(ACCESS_RECORD_TYPES[t],
                Some(if t == ACCESS_TYPE_PIN then PinText(key) else FormatUnsigned(key, size)),
                Some(DoorsField(doors)))
  {
    PermsRoundTrip(doors, t);
    RecordKey(key, PermsByte(DoorsField(doors), t));
  }

  /** What both writers store for accepted strings. */
  lemma EncodedRecord(pin: Option<CString>, card: Option<CString>, doors: Option<bv32>, c: bv32, p: bv32)
    requires CardPart(card) == Some(c) && PinPart(pin) == Some(p)
    ensures EncodeRecord(pin, card, doors)
      == Some(Le32(c ^ p) + [PermsByte(DoorsField(doors), RecordType(pin.Some?, card.Some?))])
  {
    var t := RecordType(pin.Some?, card.Some?);
    var expected := Le32(c ^ p) + [PermsByte(DoorsField(doors), t)];
    if pin.Some? && card.Some? {
      assert EncodeRecord(pin, card, doors) == Some(expected);
    } else if pin.Some? {
      assert EncodeRecord(pin, card, doors) == Some(expected);
    } else if card.Some? {
      assert EncodeRecord(pin, card, doors) == Some(expected);
    } else {
      assert EncodeRecord(pin, card, doors) == Some(expected);
    }
  }

  /** What set_access stores for accepted strings. */
  lemma StoredRecord(pin: Option<CString>, card: Option<CString>, doors: Option<bv32>, c: bv32, p: bv32)
    requires pin.Some? || card.Some?
    requires CardPart(card) == Some(c) && PinPart(pin) == Some(p)
    ensures SetAccessQuery(pin, card, doors)
      == Done(Le32(c ^ p) + [PermsByte(DoorsField(doors), RecordType(pin.Some?, card.Some?))])
  {
    EncodedRecord(pin, card, doors, c, p);
  }

  /** A PIN of at most 8 digits reads back as itself, with its doors. */
  lemma PinRecordRoundTrip(pin: CString, doors: Option<bv32>)
    requires AllDigits(pin) && |pin| <= 8
    ensures SetAccessQuery(Some(pin), None, doors).Done?
    ensures AccessRecordReport(SetAccessQuery(Some(pin), None, doors).query)
      == Report("pin", Some(pin), Some(DoorsField(doors)))
  {
    PinRoundTrip(pin);
    var key := PinKey(pin).value;
    XorZero(key);
    StoredRecord(Some(pin), None, doors, 0, key);
    ReportOfRecord(key, doors, ACCESS_TYPE_PIN, CARD_TEXT_SIZE);
  }

  lemma XorZero(x: bv32)
    ensures 0 ^ x == x && x ^ 0 == x
  {
  }

  /** A card reads back as the decimal text of its number, with its doors. */
  lemma CardRecordRoundTrip(card: CString, n: bv32, doors: Option<bv32>)
    requires ScanUnsigned(card) == Some(n)
    ensures SetAccessQuery(None, Some(card), doors)
      == Done(Le32(n) + [PermsByte(DoorsField(doors), ACCESS_TYPE_CARD)])
    ensures AccessRecordReport(SetAccessQuery(None, Some(card), doors).query)
      == Report("card", Some(Decimal(n as nat)), Some(DoorsField(doors)))
  {
    XorZero(n);
    StoredRecord(None, Some(card), doors, n, 0);
    CardReport(n, doors, ACCESS_TYPE_CARD);
  }

  /** A record with a card key reports the key in full decimal. */
  lemma CardReport(key: bv32, doors: Option<bv32>, t: bv8)
    requires t == ACCESS_TYPE_CARD || t == ACCESS_TYPE_CARD_AND_PIN
    ensures AccessRecordReport(Le32(key) + [PermsByte(DoorsField(doors), t)])
      == Report(ACCESS_RECORD_TYPES[t], Some(Decimal(key as nat)), Some(DoorsField(doors)))
  {
    ReportOfRecord(key, doors, t, CARD_TEXT_SIZE);
    CardDigits(key);
  }

  /** In particular the decimal text of a 32-bit number reads back as itself. */
  lemma CardTextRoundTrip(n: bv32, doors: Option<bv32>)
    ensures AccessRecordReport(SetAccessQuery(None, Some(Decimal(n as nat)), doors).query)
      == Report("card", Some(Decimal(n as nat)), Some(DoorsField(doors)))
  {
    ScanDecimal(n as nat, []);
    assert Decimal(n as nat) + [] == Decimal(n as nat);
    CardRecordRoundTrip(Decimal(n as nat), n, doors);
  }

  /** A card with a PIN reads back as type "pin+card" with its doors; the
      key text is the decimal number card ^ pin. */
  lemma CardAndPinRecord(pin: CString, card: CString, p: bv32, c: bv32, doors: Option<bv32>)
    requires PinKey(pin) == Some(p) && ScanUnsigned(card) == Some(c)
    ensures SetAccessQuery(Some(pin), Some(card), doors)
      == Done(Le32(c ^ p) + [PermsByte(DoorsField(doors), ACCESS_TYPE_CARD_AND_PIN)])
    ensures AccessRecordReport(SetAccessQuery(Some(pin), Some(card), doors).query)
      == Report("pin+card", Some(Decimal((c ^ p) as nat)), Some(DoorsField(doors)))
  {
    StoredRecord(Some(pin), Some(card), doors, c, p);
    CardReport(c ^ p, doors, ACCESS_TYPE_CARD_AND_PIN);
  }

  /** set_access_record without PIN or card stores the empty record, which
      reads back as "none" without key or doors. */
  lemma EmptyRecord(index: bv32, doors: Option<bv32>)
    ensures SetAccessRecordQuery(index, None, None, doors).Done?
    ensures SetAccessRecordQuery(index, None, None, doors).query.record
      == [0, 0, 0, 0, PermsByte(DoorsField(doors), ACCESS_TYPE_NONE)]
    ensures AccessRecordReport(SetAccessRecordQuery(index, None, None, doors).query.record)
      == Report("none", None, None)
  {
    PermsRoundTrip(doors, ACCESS_TYPE_NONE);
    RecordKey(0, PermsByte(DoorsField(doors), ACCESS_TYPE_NONE));
  }

  // ---------------------------------------------------------------------
  // The card text buffer

  /** The 9-byte buffer prints a card key in full exactly below 10^8. */
  lemma CardTextAsWrittenExact(key: bv32)
    ensures CardTextAsWritten(key) == CardText(key) <==> key < 100_000_000
  {
    assert Pow10(8) == 100_000_000;
    DecimalLength(key as nat, 8);
  }

  /** The 9-byte buffer prints the card number 100000000 as 10000000. */
  lemma CardTextTruncated()
    ensures CardTextAsWritten(100_000_000) == Decimal(10_000_000)
    ensures Decimal(10_000_000) != Decimal(100_000_000)
  {
    NineDigits();
    assert (100_000_000 as bv32) as nat == 100_000_000;
  }

  /** 100000000 is 10000000, of 8 digits, followed by a 0. */
  lemma NineDigits()
    ensures Decimal(100_000_000) == Decimal(10_000_000) + [DigitChar(0)]
    ensures |Decimal(10_000_000)| == 8
  {
    assert Pow10(7) == 10_000_000;
    assert Pow10(8) == 100_000_000;
    DecimalLength(10_000_000, 7);
    DecimalLength(10_000_000, 8);
  }

  /** A card stored by set_access reads back, in the 9-byte buffer, as the
      first 8 digits of its number. */
  lemma CardRecordAsWritten(card: CString, n: bv32, doors: Option<bv32>)
    requires ScanUnsigned(card) == Some(n)
    ensures AccessRecordReportAsWritten(SetAccessQuery(None, Some(card), doors).query)
      == Report("card", Some(CardTextAsWritten(n)), Some(DoorsField(doors)))
  {
    XorZero(n);
    StoredRecord(None, Some(card), doors, n, 0);
    ReportOfRecord(n, doors, ACCESS_TYPE_CARD, SKEY_SIZE);
  }

  /** As written, a card with a PIN reads back as the first 8 digits of
      card ^ pin. */
  lemma CardAndPinRecordAsWritten(pin: CString, card: CString, p: bv32, c: bv32, doors: Option<bv32>)
    requires PinKey(pin) == Some(p) && ScanUnsigned(card) == Some(c)
    ensures AccessRecordReportAsWritten(SetAccessQuery(Some(pin), Some(card), doors).query)
      == Report("pin+card", Some(CardTextAsWritten(c ^ p)), Some(DoorsField(doors)))
  {
    StoredRecord(Some(pin), Some(card), doors, c, p);
    ReportOfRecord(c ^ p, doors, ACCESS_TYPE_CARD_AND_PIN, SKEY_SIZE);
  }

  /** The nibbles of a PIN key above its digits are 0xF fillers. */
  lemma {:induction false} PinKeyFiller(s: CString, i: nat)
    requires AllDigits(s) && |s| <= i < 8
    ensures PinKey(s).Some? && IsFiller(Nibble(PinKey(s).value, i))
  {
    PinKeyAccepts(s);
    if s != [] {
      var init := s[..|s| - 1];
      assert AllDigits(init);
      PinKeyFiller(init, i - 1);
      DigitOfChar(s[|s| - 1]);
      NibbleShift(PinKey(init).value, DigitOf(s[|s| - 1]), i);
    } else {
      NibbleIsShift(PIN_SEED, i);
    }
  }

  /** A key whose top nibble is 0xF has ten decimal digits. */
  lemma TopFillerKey(c: bv32, p: bv32)
    requires IsFiller(Nibble(p, 7)) && c < 0x1000_0000
    ensures (c ^ p) as nat >= 100_000_000
  {
    NibbleIsShift(p, 7);
    assert (c ^ p) >> 28 == 0xF;
  }

  /** As written, a card with a PIN of at most 7 digits and a card number
      below 2^28 never reads back in full: the filler nibbles above the PIN
      make card ^ pin a ten-digit number. */
  lemma ShortPinCardCut(pin: CString, card: CString, p: bv32, c: bv32, doors: Option<bv32>)
    requires PinKey(pin) == Some(p) && |pin| <= 7 && ScanUnsigned(card) == Some(c) && c < 0x1000_0000
    ensures AccessRecordReportAsWritten(SetAccessQuery(Some(pin), Some(card), doors).query)
      != AccessRecordReport(SetAccessQuery(Some(pin), Some(card), doors).query)
  {
    PinKeyAccepts(pin);
    PinKeyFiller(pin, 7);
    TopFillerKey(c, p);
    CardAndPinRecordAsWritten(pin, card, p, c, doors);
    CardAndPinRecord(pin, card, p, c, doors);
    CardTextAsWrittenExact(c ^ p);
  }

  // ---------------------------------------------------------------------
  // Query writers

  /** The switch both writers share: scan the card, encode the PIN, and lay
      out the record. */
  method StoreRecord(pin: Option<CString>, card: Option<CString>, doors: Option<bv32>)
    returns (rec: Option<seq<bv8>>)
    ensures rec == EncodeRecord(pin, card, doors)
  {
    var c: bv32 := 0;
    var p: bv32 := 0;
    var t := RecordType(pin.Some?, card.Some?);
    if t == ACCESS_TYPE_CARD || t == ACCESS_TYPE_CARD_AND_PIN {
      var scanned := ScanUnsigned(card.value);
      if scanned.None? {
        return None;
      }
      c := scanned.value;
    }
    if t == ACCESS_TYPE_PIN || t == ACCESS_TYPE_CARD_AND_PIN {
      var ok;
      ok, p := EncodePin(pin.value);
      if !ok {
        PinKeyAccepts(pin.value);
        return None;
      }
    }
    EncodedRecord(pin, card, doors, c, p);
    rec := Some(Le32(c ^ p) + [PermsByte(DoorsField(doors), t)]);
  }

  method WriteSetAccessRecordQuery(index: bv32, pin: Option<CString>, card: Option<CString>, doors: Option<bv32>)
    returns (r: Reply<SetRecordCmd>)
    ensures r == SetAccessRecordQuery(index, pin, card, doors)
  {
    var indexField := Le16((index & 0xFFFF) as bv16);
    var rec := StoreRecord(pin, card, doors);
    if rec.None? {
      return Invalid;
    }
    r := Done(SetRecordCmd(indexField, rec.value));
  }

  method WriteSetAccessQuery(pin: Option<CString>, card: Option<CString>, doors: Option<bv32>)
    returns (r: Reply<seq<bv8>>)
    ensures r == SetAccessQuery(pin, card, doors)
  {
    if pin.None? && card.None? {
      return Invalid;
    }
    var rec := StoreRecord(pin, card, doors);
    if rec.None? {
      return Invalid;
    }
    r := Done(rec.value);
  }

  // ---------------------------------------------------------------------
  // Device descriptor

  /** The device descriptor response: three bytes and a little-endian
      16-bit count of access records. */
  datatype DeviceDescriptor = DeviceDescriptor(
    majorVersion: bv8, minorVersion: bv8, numDoors: bv8, numAccessRecords: seq<bv8>)

  /** The reply of get_device_descriptor. */
  datatype DescriptorReport = DescriptorReport(
    majorVersion: nat, minorVersion: nat, numDoors: nat, numAccessRecords: nat)

  function DeviceDescriptorReport(d: DeviceDescriptor): (r: DescriptorReport)
    requires |d.numAccessRecords| == 2
    ensures r.numAccessRecords < 0x1_0000
    ensures r.majorVersion < 256 && r.minorVersion < 256 && r.numDoors < 256
  {
    DescriptorReport(d.majorVersion as nat, d.minorVersion as nat, d.numDoors as nat,
                     FromLe16(d.numAccessRecords) as nat)
  }

  /** A count the device stores with htole16 reads back unchanged. */
  lemma DescriptorRoundTrip(major: bv8, minor: bv8, doors: bv8, records: bv16)
    ensures DeviceDescriptorReport(DeviceDescriptor(major, minor, doors, Le16(records)))
      == DescriptorReport(major as nat, minor as nat, doors as nat, records as nat)
  {
    Le16RoundTrip(records, [0, 0]);
  }

  // ---------------------------------------------------------------------
  // Method table

  /** A ubus method: its name, its number of arguments, the bit set of the
      optional ones, and whether it writes a query and reads a response. */
  datatype MethodEntry = MethodEntry(
    name: string, numArgs: nat, optionalArgs: bv32, writesQuery: bool, readsResponse: bool)

  const METHODS: seq<MethodEntry> := [
    MethodEntry("get_device_descriptor", 0, 0, false, true),
    MethodEntry("get_door_config", 1, 0, true, true),
    MethodEntry("get_access_record", 1, 0, true, true),
    MethodEntry("set_access_record", 4, 0, true, false),
    MethodEntry("set_access", 3, 0x7, true, false),
    MethodEntry("remove_all_access", 0, 0, false, false)
  ]

  /** avr_door_ctrl_get_method: the index of the first entry named `name`,
      None when no entry has that name. */
  method GetMethod(name: string) returns (m: Option<nat>)
    ensures m.Some? ==>
      m.value < |METHODS| && METHODS[m.value].name == name &&
      forall j :: 0 <= j < m.value ==> METHODS[j].name != name
    ensures m.None? <==> forall j :: 0 <= j < |METHODS| ==> METHODS[j].name != name
  {
    var i := 0;
    while i < |METHODS|
      invariant 0 <= i <= |METHODS|
      invariant forall j :: 0 <= j < i ==> METHODS[j].name != name
    {
      if METHODS[i].name == name {
        return Some(i);
      }
      i := i + 1;
    }
    return None;
  }
}
