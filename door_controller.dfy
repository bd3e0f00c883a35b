/**
 * The door controller state machine of the firmware
 * (firmware/door-controller.c).
 *
 * A controller is driven by the events of its Wiegand reader (keys, cards,
 * reader errors) and by its own events (idle timeout, buzzer finished),
 * all delivered by the event queue to `on_event`. It keeps a state, a PIN
 * accumulator with one key per nibble, and `open_status`, the set of
 * reasons (reader, button) for which the door is held open.
 *
 * The timer, trigger (relay, LED, buzzer) and reader drivers are not part of
 * this model: their calls are recorded as `Effect`s in the order the C code
 * makes them. The `check_key` callback is an opaque function of the door id,
 * the credential type and the key. `event_remove` is the real one of
 * module Events, so a cancelled idle timeout leaves the queue.
 *
 * The pure functions `After...` say what each C function does to the
 * controller (`Ctl`) and which effects it has; class `DoorCtrl` performs the
 * same steps on its fields and is proved to follow them.
 */
module DoorController {
  import opened Util
  import opened Events

  /** A C int8_t, the return type of check_key. */
  newtype int8 = x: int | -128 <= x < 128

  /** enum door_state, in declaration order. */
  datatype DoorState = Idle | ReadingPin | Opening | Rejected | Timeout | Error

  /* Event ids and key codes come from door-controller.h and
     wiegand-reader.h, which are not part of this model. The values below
     are placeholders: the state machine only relies on their being
     distinct, and on the key codes being above 9. */
  const DOOR_CTRL_EVENT_STATE_CHANGED: bv8 := 0x80
  const DOOR_CTRL_EVENT_BUZZER_FINISHED: bv8 := 0x81
  const DOOR_CTRL_EVENT_IDLE_TIMEOUT: bv8 := 0x82
  const WIEGAND_READER_EVENT_KEY: bv8 := 0
  const WIEGAND_READER_EVENT_CARD: bv8 := 1
  const WIEGAND_READER_ERROR: bv8 := 2

  const WIEGAND_KEY_ESC: bv8 := 10
  const WIEGAND_KEY_ENTER: bv8 := 11

  /** Credential types given to check_key (the access record types). */
  const DOOR_CTRL_PIN: bv8 := 1
  const DOOR_CTRL_CARD: bv8 := 2
  const DOOR_CTRL_CARD_AND_PIN: bv8 := 3

  /** The bits of open_status. */
  const DOOR_OPEN_FROM_READER: bv8 := 0
  const DOOR_OPEN_FROM_BUTTON: bv8 := 1

  /** Durations in milliseconds, and the buzzer sequences. */
  const IDLE_TIMEOUT: int := 10000
  const BUZZER_ERROR_DURATION: int := 400
  const BUZZER_REJECTED_SEQ: seq<int> := [0, 200, 600, 200, 600, 200, 600]
  const BUZZER_TIMEOUT_SEQ: seq<int> := [0, 100, 200, 100, 200, 100, 200]
  const BUZZER_ACCEPTED_SEQ: seq<int> := [0, 100, 200]

  /** The check_key callback with its context: door id, type, key. */
  type Validator = (bv8, bv8, bv32) -> int8

  /** The parts of `struct door_ctrl_config` the state machine uses. */
  datatype Config = Config(doorId: bv8, openTime: bv16, checkKey: Option<Validator>)

  /** The three trigger outputs of a door. */
  datatype Trigger = OpenRelay | Led | Buzzer

  /** A call into a driver, in the order the controller makes it. */
  datatype Effect =
    | TimerDescheduled                              // timer_deschedule(&dc->idle_timer)
    | TimeoutsRemoved                               // event_remove(&dc->wr, IDLE_TIMEOUT)
    | TimerScheduled(delay: int)                    // timer_schedule_in(&dc->idle_timer, delay)
    | TriggerSet(trigger: Trigger, level: bv8)      // trigger_set
    | TriggerStarted(trigger: Trigger, time: int)   // trigger_start
    | TriggerSequence(trigger: Trigger, steps: seq<int>) // trigger_start_seq
    | KeyChecked(kind: bv8, key: bv32)              // dc->check_key(door_id, kind, key, ...)

  /** The mutable part of `struct door_ctrl`. */
  datatype Ctl = Ctl(state: DoorState, pin: bv32, openStatus: bv8)

  /** A controller after a step, and the effects of the step. */
  datatype Out = Out(ctl: Ctl, effects: seq<Effect>)

  /** The states whose entry ends the processing of a credential. */
  predicate EndsProcessing(s: DoorState)
  {
    s == Idle || s == Rejected || s == Opening || s == Error
  }

  /** door_ctrl_set_state */
  function AfterSetState(c: Ctl, s: DoorState): (o: Out)
    ensures o.ctl == c.(state := s)
    ensures TimeoutsRemoved in o.effects <==> c.state != s && EndsProcessing(s)
    ensures TimerDescheduled in o.effects <==> c.state != s && EndsProcessing(s)
    ensures forall e :: e in o.effects ==> e == TimerDescheduled || e == TimeoutsRemoved
  {
    if c.state == s then Out(c, [])
    else Out(c.(state := s), if EndsProcessing(s) then [TimerDescheduled, TimeoutsRemoved] else [])
  }

  /** BIT(source) of an 8-bit open_status. */
  function Bit(source: bv8): bv8
    requires source < 8
  {
    (1 as bv8) << source
  }

  /** open_status with the bit of `source` set. */
  function WithBit(st: bv8, source: bv8): bv8
    requires source < 8
  {
    st | Bit(source)
  }

  /** open_status with the bit of `source` cleared. */
  function WithoutBit(st: bv8, source: bv8): bv8
    requires source < 8
  {
    st & !Bit(source)
  }

  /** Some reason holds the door open. */
  predicate AnyReason(st: bv8)
  {
    st != 0
  }

  /** door_ctrl_set_open: set or clear one reason bit, leaving the others;
      on a rising edge of "any reason set" engage relay and LED, on a
      falling edge start their release countdown of open_time. */
  function AfterSetOpen(c: Ctl, source: bv8, status: bv8, openTime: bv16): (o: Out)
    requires source < 8
    ensures o.ctl.state == c.state && o.ctl.pin == c.pin
  {
    var st := if status != 0 then WithBit(c.openStatus, source) else WithoutBit(c.openStatus, source);
    var effects :=
      if AnyReason(c.openStatus) == AnyReason(st) then []
      else if AnyReason(st) then [TriggerSet(OpenRelay, 1), TriggerSet(Led, 1)]
      else [TriggerStarted(OpenRelay, openTime as int), TriggerStarted(Led, openTime as int)];
    Out(c.(openStatus := st), effects)
  }

  /** Only the bit of `source` changes, and it ends up set exactly when
      `status` is non-zero. */
  lemma SetOpenBits(c: Ctl, source: bv8, status: bv8, openTime: bv16)
    requires source < 8
    ensures var o := AfterSetOpen(c, source, status, openTime);
            && o.ctl.openStatus & !Bit(source) == c.openStatus & !Bit(source)
            && (o.ctl.openStatus & Bit(source) != 0) == (status != 0)
  {
  }

  /** The relay and the LED follow the edges of "any reason set" only. */
  lemma SetOpenEdges(c: Ctl, source: bv8, status: bv8, openTime: bv16)
    requires source < 8
    ensures var o := AfterSetOpen(c, source, status, openTime);
            && (c.openStatus == 0 && o.ctl.openStatus != 0 ==>
                  o.effects == [TriggerSet(OpenRelay, 1), TriggerSet(Led, 1)])
            && (c.openStatus != 0 && o.ctl.openStatus == 0 ==>
                  o.effects == [TriggerStarted(OpenRelay, openTime as int), TriggerStarted(Led, openTime as int)])
            && ((c.openStatus == 0) == (o.ctl.openStatus == 0) ==> o.effects == [])
  {
  }

  /** door_ctrl_check_key: -ENOENT without a validator. */
  function CheckResult(cfg: Config, kind: bv8, key: bv32): (r: int8)
    ensures cfg.checkKey.None? ==> r as int == -ENOENT
  {
    match cfg.checkKey
    case None => -ENOENT as int8
    case Some(f) => f(cfg.doorId, kind, key)
  }

  /** The validator call door_ctrl_check_key makes, if any. */
  function CheckEffects(cfg: Config, kind: bv8, key: bv32): seq<Effect>
  {
    if cfg.checkKey.Some? then [KeyChecked(kind, key)] else []
  }

  /** door_ctrl_open: the reader bit is set and at once cleared, so the
      door ends with its other reasons only. Unless the button already holds
      it open, relay and LED are engaged and their countdown started. */
  function AfterOpen(c: Ctl, cfg: Config): (o: Out)
    ensures o.ctl == c.(state := Opening, openStatus := WithoutBit(c.openStatus, DOOR_OPEN_FROM_READER))
    ensures c.openStatus & Bit(DOOR_OPEN_FROM_READER) == 0 ==>
              o.effects == AfterSetState(c, Opening).effects
                           + (if c.openStatus == 0 then
                                [TriggerSet(OpenRelay, 1), TriggerSet(Led, 1),
                                 TriggerStarted(OpenRelay, cfg.openTime as int), TriggerStarted(Led, cfg.openTime as int)]
                              else [])
                           + [TriggerSequence(Buzzer, BUZZER_ACCEPTED_SEQ)]
  {
    var a := AfterSetState(c, Opening);
    var p := Pulse(a.ctl, cfg);
    Out(p.ctl, a.effects + p.effects + [TriggerSequence(Buzzer, BUZZER_ACCEPTED_SEQ)])
  }

  /** The reader bit set and at once cleared. */
  function Pulse(c: Ctl, cfg: Config): (o: Out)
    ensures TimeoutsRemoved !in o.effects
  {
    var b := AfterSetOpen(c, DOOR_OPEN_FROM_READER, 1, cfg.openTime);
    var d := AfterSetOpen(b.ctl, DOOR_OPEN_FROM_READER, 0, cfg.openTime);
    SetOpenEdges(c, DOOR_OPEN_FROM_READER, 1, cfg.openTime);
    SetOpenEdges(b.ctl, DOOR_OPEN_FROM_READER, 0, cfg.openTime);
    Out(d.ctl, b.effects + d.effects)
  }

  /** Setting and at once clearing the reader bit leaves it cleared and the
      other reasons alone; relay and LED are engaged when no reason held the
      door open, and released when none is left. */
  lemma PulseNet(c: Ctl, cfg: Config)
    ensures var o := Pulse(c, cfg);
            && o.ctl == c.(openStatus := WithoutBit(c.openStatus, DOOR_OPEN_FROM_READER))
            && o.effects
                 == (if c.openStatus == 0 then [TriggerSet(OpenRelay, 1), TriggerSet(Led, 1)] else [])
                    + (if WithoutBit(c.openStatus, DOOR_OPEN_FROM_READER) == 0 then
                         [TriggerStarted(OpenRelay, cfg.openTime as int), TriggerStarted(Led, cfg.openTime as int)]
                       else [])
  {
    var b := AfterSetOpen(c, DOOR_OPEN_FROM_READER, 1, cfg.openTime);
    SetOpenBits(c, DOOR_OPEN_FROM_READER, 1, cfg.openTime);
    SetOpenBits(b.ctl, DOOR_OPEN_FROM_READER, 0, cfg.openTime);
    SetOpenEdges(c, DOOR_OPEN_FROM_READER, 1, cfg.openTime);
    SetOpenEdges(b.ctl, DOOR_OPEN_FROM_READER, 0, cfg.openTime);
    var d := AfterSetOpen(b.ctl, DOOR_OPEN_FROM_READER, 0, cfg.openTime);
    MaskedEqual(d.ctl.openStatus, b.ctl.openStatus, c.openStatus, Bit(DOOR_OPEN_FROM_READER));
    ClearedZero(c.openStatus, Bit(DOOR_OPEN_FROM_READER));
  }

  /** A byte whose masked bit is clear and which agrees with `y` elsewhere
      is `y` with that bit cleared. */
  lemma MaskedEqual(x: bv8, mid: bv8, y: bv8, b: bv8)
    requires x & !b == mid & !b && mid & !b == y & !b && x & b == 0
    ensures x == y & !b && (mid & b != 0 ==> mid != 0)
  {
  }

  /** Clearing a bit of zero leaves zero. */
  lemma ClearedZero(x: bv8, b: bv8)
    ensures x == 0 ==> x & !b == 0
  {
  }

  /** door_ctrl_reject */
  function AfterReject(c: Ctl): Out
  {
    var a := AfterSetState(c, Rejected);
    Out(a.ctl, a.effects + [TriggerSequence(Buzzer, BUZZER_REJECTED_SEQ)])
  }

  /** door_ctrl_timeout */
  function AfterTimeout(c: Ctl): Out
  {
    var a := AfterSetState(c, Timeout);
    Out(a.ctl, a.effects + [TriggerSequence(Buzzer, BUZZER_TIMEOUT_SEQ)])
  }

  /** door_ctrl_error */
  function AfterError(c: Ctl): Out
  {
    var a := AfterSetState(c, Error);
    Out(a.ctl, a.effects + [TriggerStarted(Buzzer, BUZZER_ERROR_DURATION)])
  }

  /** `o` follows from `c` by checking credential (kind, key): the door
      opens iff the validator returns 0, and the validator call (if any)
      comes first. */
  predicate Validated(c: Ctl, o: Out, cfg: Config, kind: bv8, key: bv32)
  {
    var ok := CheckResult(cfg, kind, key) == 0;
    && o.ctl.state == (if ok then Opening else Rejected)
    && o.ctl.openStatus == (if ok then WithoutBit(c.openStatus, DOOR_OPEN_FROM_READER) else c.openStatus)
    && |CheckEffects(cfg, kind, key)| <= |o.effects|
    && o.effects[..|CheckEffects(cfg, kind, key)|] == CheckEffects(cfg, kind, key)
  }

  /** Check a credential and open or reject accordingly. */
  function AfterValidation(c: Ctl, cfg: Config, kind: bv8, key: bv32): (o: Out)
    ensures Validated(c, o, cfg, kind, key)
    ensures o.ctl.pin == c.pin
  {
    var o := if CheckResult(cfg, kind, key) == 0 then AfterOpen(c, cfg) else AfterReject(c);
    Out(o.ctl, CheckEffects(cfg, kind, key) + o.effects)
  }

  /** on_event in IDLE, for a key or a card. */
  function AfterIdleInput(c: Ctl, cfg: Config, event: bv8, val: bv32): Out
  {
    if event == WIEGAND_READER_EVENT_KEY then
      if val == WIEGAND_KEY_ENTER as bv32 then AfterError(c)
      else if val == WIEGAND_KEY_ESC as bv32 then Out(c, [])
      else
        var a := AfterSetState(c.(pin := 0xFFFF_FFF0 | (val & 0xF)), ReadingPin);
        Out(a.ctl, a.effects + [TimerScheduled(IDLE_TIMEOUT)])
    else
      AfterValidation(c, cfg, DOOR_CTRL_CARD, val)
  }

  /** The credential a submission in READING_PIN checks: the PIN, with the
      card XORed in when there is one. */
  function SubmittedKind(card: bool): bv8
  {
    if card then DOOR_CTRL_CARD_AND_PIN else DOOR_CTRL_PIN
  }

  function SubmittedKey(c: Ctl, card: bool, val: bv32): bv32
  {
    if card then c.pin ^ val else c.pin
  }

  /** A card or ENTER in READING_PIN: the credential is checked, and the PIN
      is cleared afterwards whatever the outcome. */
  function AfterSubmit(c: Ctl, cfg: Config, card: bool, val: bv32): (o: Out)
    ensures Validated(c, o, cfg, SubmittedKind(card), SubmittedKey(c, card, val))
    ensures o.ctl.pin == 0
  {
    var pin := SubmittedKey(c, card, val);
    var o := AfterValidation(c.(pin := pin), cfg, SubmittedKind(card), pin);
    Out(o.ctl.(pin := 0), o.effects)
  }

  /** on_event in READING_PIN, for a key or a card. The key is the low byte
      of the event value. */
  function AfterPinInput(c: Ctl, cfg: Config, event: bv8, val: bv32): Out
  {
    var card := event == WIEGAND_READER_EVENT_CARD;
    var key: bv8 := if card then WIEGAND_KEY_ENTER else (val & 0xFF) as bv8;
    if key == WIEGAND_KEY_ENTER then
      AfterSubmit(c, cfg, card, val)
    else if key == WIEGAND_KEY_ESC then
      AfterSetState(c, Idle)
    else
      Out(c.(pin := ((c.pin << 4) & !0xF) | (key & 0xF) as bv32), [TimerScheduled(IDLE_TIMEOUT)])
  }

  /** The event ids on_event knows. */
  predicate KnownEvent(event: bv8)
  {
    event == DOOR_CTRL_EVENT_STATE_CHANGED || event == DOOR_CTRL_EVENT_BUZZER_FINISHED
    || event == DOOR_CTRL_EVENT_IDLE_TIMEOUT || event == WIEGAND_READER_ERROR
    || event == WIEGAND_READER_EVENT_KEY || event == WIEGAND_READER_EVENT_CARD
  }

  /** The states in which keys and cards are ignored. */
  predicate Settling(s: DoorState)
  {
    s == Opening || s == Rejected || s == Timeout || s == Error
  }

  /** on_event */
  function AfterEvent(c: Ctl, cfg: Config, event: bv8, val: bv32): Out
  {
    if event == DOOR_CTRL_EVENT_STATE_CHANGED then Out(c, [])
    else if event == DOOR_CTRL_EVENT_BUZZER_FINISHED then AfterSetState(c, Idle)
    else if event == DOOR_CTRL_EVENT_IDLE_TIMEOUT then AfterTimeout(c)
    else if event == WIEGAND_READER_ERROR then AfterError(c)
    else if event != WIEGAND_READER_EVENT_KEY && event != WIEGAND_READER_EVENT_CARD then AfterError(c)
    else match c.state
      case Idle => AfterIdleInput(c, cfg, event, val)
      case ReadingPin => AfterPinInput(c, cfg, event, val)
      case _ => Out(c, [])
  }

  /** The controller's own events and the reader's errors act in every
      state; keys and cards are ignored while a result is being signalled. */
  lemma EventsInAnyState(c: Ctl, cfg: Config, event: bv8, val: bv32)
    ensures var o := AfterEvent(c, cfg, event, val);
            && (event == DOOR_CTRL_EVENT_STATE_CHANGED ==> o == Out(c, []))
            && (event == DOOR_CTRL_EVENT_BUZZER_FINISHED ==> o.ctl == c.(state := Idle))
            && (event == DOOR_CTRL_EVENT_IDLE_TIMEOUT ==> o.ctl == c.(state := Timeout))
            && (event == WIEGAND_READER_ERROR || !KnownEvent(event) ==> o.ctl == c.(state := Error))
            && ((event == WIEGAND_READER_EVENT_KEY || event == WIEGAND_READER_EVENT_CARD) && Settling(c.state) ==>
                  o == Out(c, []))
  {
  }

  /** In IDLE, ENTER is an error, ESC is ignored, and any other key starts a
      PIN whose unused nibbles are all ones, arming the idle timer. */
  lemma IdleKey(c: Ctl, cfg: Config, val: bv32)
    requires c.state == Idle
    ensures var o := AfterEvent(c, cfg, WIEGAND_READER_EVENT_KEY, val);
            && (val == WIEGAND_KEY_ENTER as bv32 ==> o.ctl == c.(state := Error))
            && (val == WIEGAND_KEY_ESC as bv32 ==> o == Out(c, []))
            && (val != WIEGAND_KEY_ENTER as bv32 && val != WIEGAND_KEY_ESC as bv32 ==>
                  o == Out(Ctl(ReadingPin, 0xFFFF_FFF0 | (val & 0xF), c.openStatus), [TimerScheduled(IDLE_TIMEOUT)]))
  {
  }

  /** In IDLE, a card is checked alone. */
  lemma IdleCard(c: Ctl, cfg: Config, val: bv32)
    requires c.state == Idle
    ensures var o := AfterEvent(c, cfg, WIEGAND_READER_EVENT_CARD, val);
            Validated(c, o, cfg, DOOR_CTRL_CARD, val) && o.ctl.pin == c.pin
  {
  }

  /** In READING_PIN, a card is combined with the PIN typed so far and
      checked as CARD_AND_PIN; the PIN is cleared afterwards. */
  lemma PinCard(c: Ctl, cfg: Config, val: bv32)
    requires c.state == ReadingPin
    ensures var o := AfterEvent(c, cfg, WIEGAND_READER_EVENT_CARD, val);
            Validated(c, o, cfg, DOOR_CTRL_CARD_AND_PIN, c.pin ^ val) && o.ctl.pin == 0
  {
  }

  /** In READING_PIN, a key is the low byte of the value: ENTER checks the
      PIN and clears it, ESC goes back to IDLE (the PIN is kept), any other
      key shifts its low nibble in and re-arms the idle timer. */
  lemma PinKey(c: Ctl, cfg: Config, val: bv32)
    requires c.state == ReadingPin
    ensures var o := AfterEvent(c, cfg, WIEGAND_READER_EVENT_KEY, val);
            var key := (val & 0xFF) as bv8;
            && (key == WIEGAND_KEY_ENTER ==> Validated(c, o, cfg, DOOR_CTRL_PIN, c.pin) && o.ctl.pin == 0)
            && (key == WIEGAND_KEY_ESC ==> o == Out(c.(state := Idle), [TimerDescheduled, TimeoutsRemoved]))
            && (key != WIEGAND_KEY_ENTER && key != WIEGAND_KEY_ESC ==>
                  o == Out(c.(pin := (c.pin << 4) | (val & 0xF)), [TimerScheduled(IDLE_TIMEOUT)]))
  {
  }

  /** No event sets the reader's reason bit for good: on_event either leaves
      open_status alone or clears the reader bit. */
  lemma ReaderBitReleased(c: Ctl, cfg: Config, event: bv8, val: bv32)
    ensures var o := AfterEvent(c, cfg, event, val);
            o.ctl.openStatus == c.openStatus || o.ctl.openStatus == WithoutBit(c.openStatus, DOOR_OPEN_FROM_READER)
  {
    var o := AfterEvent(c, cfg, event, val);
    if !(event == WIEGAND_READER_EVENT_KEY || event == WIEGAND_READER_EVENT_CARD) || Settling(c.state) {
      EventsInAnyState(c, cfg, event, val);
    } else if c.state == Idle {
      if event == WIEGAND_READER_EVENT_KEY {
        IdleKey(c, cfg, val);
      } else {
        IdleCard(c, cfg, val);
      }
    } else if event == WIEGAND_READER_EVENT_CARD {
      PinCard(c, cfg, val);
    } else {
      PinKey(c, cfg, val);
    }
  }

  /** The result steps remove idle timeouts exactly when set_state does. */
  lemma ResultStepsCancel(c: Ctl, cfg: Config)
    ensures TimeoutsRemoved in AfterOpen(c, cfg).effects <==> c.state != Opening
    ensures TimeoutsRemoved in AfterReject(c).effects <==> c.state != Rejected
    ensures TimeoutsRemoved !in AfterTimeout(c).effects
    ensures TimeoutsRemoved in AfterError(c).effects <==> c.state != Error
  {
    OpenStepCancel(c, cfg);
  }

  /** Opening removes idle timeouts only through set_state: the pulse of
      the reader bit never does. */
  lemma OpenStepCancel(c: Ctl, cfg: Config)
    ensures TimeoutsRemoved in AfterOpen(c, cfg).effects <==> TimeoutsRemoved in AfterSetState(c, Opening).effects
  {
    var a := AfterSetState(c, Opening);
    var p := Pulse(a.ctl, cfg);
    assert AfterOpen(c, cfg).effects == a.effects + p.effects + [TriggerSequence(Buzzer, BUZZER_ACCEPTED_SEQ)];
  }

  /** Checking a credential from IDLE or READING_PIN always ends in a
      result state, so it always removes the idle timeouts. */
  lemma ValidationCancels(c: Ctl, cfg: Config, kind: bv8, key: bv32)
    requires c.state == Idle || c.state == ReadingPin
    ensures TimeoutsRemoved in AfterValidation(c, cfg, kind, key).effects
  {
    ResultStepsCancel(c, cfg);
    var o := if CheckResult(cfg, kind, key) == 0 then AfterOpen(c, cfg) else AfterReject(c);
    assert AfterValidation(c, cfg, kind, key).effects == CheckEffects(cfg, kind, key) + o.effects;
  }

  /** on_event hands its own events and the reader's errors to the step
      functions of the target state. */
  lemma ControlEventDispatch(c: Ctl, cfg: Config, event: bv8, val: bv32)
    ensures event == DOOR_CTRL_EVENT_BUZZER_FINISHED ==> AfterEvent(c, cfg, event, val) == AfterSetState(c, Idle)
    ensures event == DOOR_CTRL_EVENT_IDLE_TIMEOUT ==> AfterEvent(c, cfg, event, val) == AfterTimeout(c)
    ensures event == WIEGAND_READER_ERROR || !KnownEvent(event) ==> AfterEvent(c, cfg, event, val) == AfterError(c)
  {
  }

  /** on_event hands keys and cards to the handler of the current state. */
  lemma InputDispatch(c: Ctl, cfg: Config, event: bv8, val: bv32)
    requires event == WIEGAND_READER_EVENT_KEY || event == WIEGAND_READER_EVENT_CARD
    ensures c.state == Idle ==> AfterEvent(c, cfg, event, val) == AfterIdleInput(c, cfg, event, val)
    ensures c.state == ReadingPin ==> AfterEvent(c, cfg, event, val) == AfterPinInput(c, cfg, event, val)
  {
  }

  /** The idle-timeout clause for keys and cards in READING_PIN. */
  lemma PinInputCancels(c: Ctl, cfg: Config, event: bv8, val: bv32)
    requires c.state == ReadingPin
    requires event == WIEGAND_READER_EVENT_KEY || event == WIEGAND_READER_EVENT_CARD
    ensures var o := AfterPinInput(c, cfg, event, val);
            TimeoutsRemoved in o.effects <==> o.ctl.state != c.state && EndsProcessing(o.ctl.state)
  {
    var card := event == WIEGAND_READER_EVENT_CARD;
    var key: bv8 := if card then WIEGAND_KEY_ENTER else (val & 0xFF) as bv8;
    if key == WIEGAND_KEY_ENTER {
      var pin := SubmittedKey(c, card, val);
      ValidationCancels(c.(pin := pin), cfg, SubmittedKind(card), pin);
      assert AfterPinInput(c, cfg, event, val) == AfterSubmit(c, cfg, card, val);
    }
  }

  /** The idle-timeout clause for keys and cards in IDLE. */
  lemma IdleInputCancels(c: Ctl, cfg: Config, event: bv8, val: bv32)
    requires c.state == Idle
    requires event == WIEGAND_READER_EVENT_KEY || event == WIEGAND_READER_EVENT_CARD
    ensures var o := AfterIdleInput(c, cfg, event, val);
            TimeoutsRemoved in o.effects <==> o.ctl.state != c.state && EndsProcessing(o.ctl.state)
  {
    ResultStepsCancel(c, cfg);
    if event == WIEGAND_READER_EVENT_CARD {
      ValidationCancels(c, cfg, DOOR_CTRL_CARD, val);
    }
  }

  /** on_event removes the pending idle timeouts of its door exactly when it
      moves to IDLE, OPENING, REJECTED or ERROR from another state; entering
      TIMEOUT or READING_PIN leaves them queued. */
  lemma TimeoutsCancelledOnSettle(c: Ctl, cfg: Config, event: bv8, val: bv32)
    ensures var o := AfterEvent(c, cfg, event, val);
            TimeoutsRemoved in o.effects <==> o.ctl.state != c.state && EndsProcessing(o.ctl.state)
  {
    if !(event == WIEGAND_READER_EVENT_KEY || event == WIEGAND_READER_EVENT_CARD) || Settling(c.state) {
      ResultStepsCancel(c, cfg);
      ControlEventDispatch(c, cfg, event, val);
      EventsInAnyState(c, cfg, event, val);
    } else {
      InputDispatch(c, cfg, event, val);
      if c.state == Idle {
        IdleInputCancels(c, cfg, event, val);
      } else {
        PinInputCancels(c, cfg, event, val);
      }
    }
  }

  /** on_open_button_changed: the button is the second reason bit. */
  function AfterButton(c: Ctl, cfg: Config, state: bv8): (o: Out)
    ensures o.ctl.state == c.state && o.ctl.pin == c.pin
    ensures o.ctl.openStatus & Bit(DOOR_OPEN_FROM_READER) == c.openStatus & Bit(DOOR_OPEN_FROM_READER)
    ensures (o.ctl.openStatus & Bit(DOOR_OPEN_FROM_BUTTON) != 0) == (state != 0)
  {
    AfterSetOpen(c, DOOR_OPEN_FROM_BUTTON, state, cfg.openTime)
  }

  /** The queue after the effects of a step of the controller whose reader
      is `wr`: each TimeoutsRemoved removes its pending idle timeouts. */
  function AfterEffects(q: seq<Pending>, wr: Addr, effects: seq<Effect>): (r: seq<Pending>)
    ensures |r| <= |q|
    decreases |effects|
  {
    if effects == [] then q
    else
      var q' := if effects[0].TimeoutsRemoved? then RemoveMatching(q, wr, DOOR_CTRL_EVENT_IDLE_TIMEOUT) else q;
      AfterEffects(q', wr, effects[1..])
  }

  /** The effects of two steps act on the queue one after the other. */
  lemma {:induction false} AfterEffectsConcat(q: seq<Pending>, wr: Addr, a: seq<Effect>, b: seq<Effect>)
    ensures AfterEffects(q, wr, a + b) == AfterEffects(AfterEffects(q, wr, a), wr, b)
    decreases |a|
  {
    if a != [] {
      assert (a + b)[0] == a[0] && (a + b)[1..] == a[1..] + b;
      var q' := if a[0].TimeoutsRemoved? then RemoveMatching(q, wr, DOOR_CTRL_EVENT_IDLE_TIMEOUT) else q;
      AfterEffectsConcat(q', wr, a[1..], b);
    } else {
      assert a + b == b;
    }
  }

  /** A step never adds to the queue, and once it has removed the idle
      timeouts of this door none of them is left: a stale timeout cannot
      reach the state machine. */
  lemma {:induction false} StaleTimeoutsGone(q: seq<Pending>, wr: Addr, effects: seq<Effect>)
    ensures forall p :: p in AfterEffects(q, wr, effects) ==> p in q
    ensures TimeoutsRemoved in effects ==>
              forall p :: p in AfterEffects(q, wr, effects) ==> !Cancelled(p, wr, DOOR_CTRL_EVENT_IDLE_TIMEOUT)
    decreases |effects|
  {
    if effects != [] {
      var q' := if effects[0].TimeoutsRemoved? then RemoveMatching(q, wr, DOOR_CTRL_EVENT_IDLE_TIMEOUT) else q;
      RemoveMatchingMembers(q, wr, DOOR_CTRL_EVENT_IDLE_TIMEOUT);
      StaleTimeoutsGone(q', wr, effects[1..]);
      if TimeoutsRemoved in effects && !effects[0].TimeoutsRemoved? {
        assert TimeoutsRemoved in effects[1..];
      }
    }
  }

  /** An event delivered to on_event. */
  datatype Input = Input(event: bv8, val: bv32)

  /** on_event as a step function over controllers. */
  function Step(cfg: Config): (Ctl, Input) -> Out
  {
    (c: Ctl, i: Input) => AfterEvent(c, cfg, i.event, i.val)
  }

  /** The controller after `step` has handled `ins` in order, and all the
      effects on the way. */
  function Run(step: (Ctl, Input) -> Out, c: Ctl, ins: seq<Input>): (o: Out)
    ensures ins == [] ==> o == Out(c, [])
    decreases |ins|
  {
    if ins == [] then Out(c, [])
    else
      var a := step(c, ins[0]);
      var b := Run(step, a.ctl, ins[1..]);
      Out(b.ctl, a.effects + b.effects)
  }

  /** Running two sequences of events is running their concatenation. */
  lemma {:induction false} RunConcat(step: (Ctl, Input) -> Out, c: Ctl, a: seq<Input>, b: seq<Input>)
    ensures var ra := Run(step, c, a);
            var rb := Run(step, ra.ctl, b);
            Run(step, c, a + b) == Out(rb.ctl, ra.effects + rb.effects)
    decreases |a|
  {
    if a == [] {
      assert a + b == b;
    } else {
      assert (a + b)[0] == a[0] && (a + b)[1..] == a[1..] + b;
      var s := step(c, a[0]);
      RunConcat(step, s.ctl, a[1..], b);
    }
  }

  /** The key presses of the digits `ds`, in order. */
  function Keys(ds: seq<bv32>): (ins: seq<Input>)
    ensures |ins| == |ds|
    ensures forall i :: 0 <= i < |ds| ==> ins[i] == Input(WIEGAND_READER_EVENT_KEY, ds[i])
  {
    if ds == [] then [] else [Input(WIEGAND_READER_EVENT_KEY, ds[0])] + Keys(ds[1..])
  }

  /** `acc` with the digits `ds` shifted in, one nibble each. */
  function Accumulate(acc: bv32, ds: seq<bv32>): bv32
    decreases |ds|
  {
    if ds == [] then acc else Accumulate((acc << 4) | ds[0], ds[1..])
  }

  predicate Digits(ds: seq<bv32>)
  {
    forall i :: 0 <= i < |ds| ==> ds[i] <= 9
  }

  /** In READING_PIN, a digit is shifted into the PIN. */
  lemma DigitStep(c: Ctl, cfg: Config, d: bv32)
    requires c.state == ReadingPin && d <= 9
    ensures Step(cfg)(c, Input(WIEGAND_READER_EVENT_KEY, d)).ctl == c.(pin := (c.pin << 4) | d)
  {
    DigitKey(d);
    PinKey(c, cfg, d);
  }

  /** A digit is neither ESC nor ENTER, and fills one nibble. */
  lemma DigitKey(d: bv32)
    requires d <= 9
    ensures (d & 0xFF) as bv8 != WIEGAND_KEY_ENTER && (d & 0xFF) as bv8 != WIEGAND_KEY_ESC
    ensures d != WIEGAND_KEY_ENTER as bv32 && d != WIEGAND_KEY_ESC as bv32
    ensures d & 0xF == d
  {
  }

  /** In READING_PIN, typing digits shifts each into the PIN. */
  lemma {:induction false} TypingDigits(c: Ctl, cfg: Config, ds: seq<bv32>)
    requires c.state == ReadingPin && Digits(ds)
    ensures Run(Step(cfg), c, Keys(ds)).ctl == c.(pin := Accumulate(c.pin, ds))
    decreases |ds|
  {
    if ds != [] {
      var d := ds[0];
      DigitStep(c, cfg, d);
      assert Keys(ds)[0] == Input(WIEGAND_READER_EVENT_KEY, d) && Keys(ds)[1..] == Keys(ds[1..]);
      TypingDigits(c.(pin := (c.pin << 4) | d), cfg, ds[1..]);
    }
  }

  /** A single event runs as one step. */
  lemma RunOne(step: (Ctl, Input) -> Out, c: Ctl, i: Input)
    ensures Run(step, c, [i]) == step(c, i)
  {
    var a := step(c, i);
    assert [i][1..] == [];
    assert a.effects + [] == a.effects;
  }

  /** In IDLE, a digit starts a PIN of ones with that digit shifted in. */
  lemma FirstDigit(c: Ctl, cfg: Config, d: bv32)
    requires c.state == Idle && d <= 9
    ensures Step(cfg)(c, Input(WIEGAND_READER_EVENT_KEY, d)).ctl == Ctl(ReadingPin, Accumulate(0xFFFF_FFFF, [d]), c.openStatus)
  {
    DigitKey(d);
    IdleKey(c, cfg, d);
    assert 0xFFFF_FFF0 | d == (0xFFFF_FFFF << 4) | d;
  }

  /** In READING_PIN, ENTER checks the PIN typed so far and clears it. */
  lemma EnterStep(c: Ctl, cfg: Config)
    requires c.state == ReadingPin
    ensures var o := Step(cfg)(c, Input(WIEGAND_READER_EVENT_KEY, WIEGAND_KEY_ENTER as bv32));
            var ok := CheckResult(cfg, DOOR_CTRL_PIN, c.pin) == 0;
            && o.ctl == Ctl(if ok then Opening else Rejected, 0,
                            if ok then WithoutBit(c.openStatus, DOOR_OPEN_FROM_READER) else c.openStatus)
            && (cfg.checkKey.Some? ==> KeyChecked(DOOR_CTRL_PIN, c.pin) in o.effects)
  {
    PinKey(c, cfg, WIEGAND_KEY_ENTER as bv32);
    var o := AfterEvent(c, cfg, WIEGAND_READER_EVENT_KEY, WIEGAND_KEY_ENTER as bv32);
    if cfg.checkKey.Some? {
      assert o.effects[0] == KeyChecked(DOOR_CTRL_PIN, c.pin);
    }
  }

  /** Digits typed from IDLE make up a PIN of ones with the digits shifted
      in, one per nibble. */
  lemma PinTyped(c: Ctl, cfg: Config, ds: seq<bv32>)
    requires c.state == Idle && |ds| >= 1 && Digits(ds)
    ensures Run(Step(cfg), c, Keys(ds)).ctl == Ctl(ReadingPin, Accumulate(0xFFFF_FFFF, ds), c.openStatus)
  {
    var step := Step(cfg);
    FirstKey(c, cfg, ds[0]);
    var c1 := Run(step, c, Keys([ds[0]])).ctl;
    TypingDigits(c1, cfg, ds[1..]);
    KeysSplit(ds);
    RunConcat(step, c, Keys([ds[0]]), Keys(ds[1..]));
  }

  /** The first digit typed in IDLE, as a run of one key. */
  lemma FirstKey(c: Ctl, cfg: Config, d: bv32)
    requires c.state == Idle && d <= 9
    ensures Run(Step(cfg), c, Keys([d])).ctl == Ctl(ReadingPin, Accumulate(0xFFFF_FFFF, [d]), c.openStatus)
  {
    FirstDigit(c, cfg, d);
    RunOne(Step(cfg), c, Keys([d])[0]);
  }

  /** The keys of a digit sequence: the first key, then the others. */
  lemma KeysSplit(ds: seq<bv32>)
    requires |ds| >= 1
    ensures Keys(ds) == Keys([ds[0]]) + Keys(ds[1..])
  {
    assert [ds[0]][1..] == [];
    assert Keys([ds[0]]) == [Input(WIEGAND_READER_EVENT_KEY, ds[0])] + Keys([]);
  }

  /** A PIN typed from IDLE and confirmed by ENTER: the key checked is the
      digits packed one per nibble over a field of ones, the outcome is the
      validator's, and the PIN is cleared. */
  lemma PinEntry(c: Ctl, cfg: Config, ds: seq<bv32>)
    requires c.state == Idle && |ds| >= 1 && Digits(ds)
    ensures var o := Run(Step(cfg), c, Keys(ds) + [Input(WIEGAND_READER_EVENT_KEY, WIEGAND_KEY_ENTER as bv32)]);
            var key := Accumulate(0xFFFF_FFFF, ds);
            var ok := CheckResult(cfg, DOOR_CTRL_PIN, key) == 0;
            && o.ctl == Ctl(if ok then Opening else Rejected, 0,
                            if ok then WithoutBit(c.openStatus, DOOR_OPEN_FROM_READER) else c.openStatus)
            && (cfg.checkKey.Some? ==> KeyChecked(DOOR_CTRL_PIN, key) in o.effects)
  {
    var step := Step(cfg);
    var enter := Input(WIEGAND_READER_EVENT_KEY, WIEGAND_KEY_ENTER as bv32);
    PinTyped(c, cfg, ds);
    var c2 := Run(step, c, Keys(ds)).ctl;
    RunConcat(step, c, Keys(ds), [enter]);
    RunOne(step, c2, enter);
    EnterStep(c2, cfg);
    var e := step(c2, enter);
    assert Run(step, c, Keys(ds) + [enter]) == Out(e.ctl, Run(step, c, Keys(ds)).effects + e.effects);
  }

  /** 1, 2, 3, 4 and ENTER check the key 0xFFFF1234. */
  lemma PinEntryExample(c: Ctl, cfg: Config)
    requires c.state == Idle
    ensures var o := Run(Step(cfg), c, Keys([1, 2, 3, 4]) + [Input(WIEGAND_READER_EVENT_KEY, WIEGAND_KEY_ENTER as bv32)]);
            o.ctl.state == (if CheckResult(cfg, DOOR_CTRL_PIN, 0xFFFF_1234) == 0 then Opening else Rejected)
  {
    PinEntry(c, cfg, [1, 2, 3, 4]);
    assert Accumulate(0xFFFF_FFFF, [1, 2, 3, 4]) == 0xFFFF_1234;
  }

  /** Effects without a TimeoutsRemoved leave the queue alone. */
  lemma {:induction false} AfterEffectsUntouched(q: seq<Pending>, wr: Addr, effects: seq<Effect>)
    requires TimeoutsRemoved !in effects
    ensures AfterEffects(q, wr, effects) == q
    decreases |effects|
  {
    if effects != [] {
      assert effects[0] in effects;
      assert forall e :: e in effects[1..] ==> e in effects;
      AfterEffectsUntouched(q, wr, effects[1..]);
    }
  }

  /** The effects of set_state entering an end state remove the door's idle
      timeouts once. */
  lemma EndsEffects(q: seq<Pending>, wr: Addr)
    ensures AfterEffects(q, wr, [TimerDescheduled, TimeoutsRemoved])
            == RemoveMatching(q, wr, DOOR_CTRL_EVENT_IDLE_TIMEOUT)
  {
    var r := RemoveMatching(q, wr, DOOR_CTRL_EVENT_IDLE_TIMEOUT);
    assert [TimerDescheduled, TimeoutsRemoved][1..] == [TimeoutsRemoved];
    assert AfterEffects(q, wr, [TimeoutsRemoved]) == AfterEffects(r, wr, []);
  }

  /** Driver calls after the last TimeoutsRemoved do not change the queue. */
  lemma EffectsAppended(q: seq<Pending>, wr: Addr, a: seq<Effect>, b: seq<Effect>)
    requires TimeoutsRemoved !in b
    ensures AfterEffects(q, wr, a + b) == AfterEffects(q, wr, a)
  {
    AfterEffectsConcat(q, wr, a, b);
    AfterEffectsUntouched(AfterEffects(q, wr, a), wr, b);
  }

  /** The same, for calls made in two parts. */
  lemma EffectsAppended2(q: seq<Pending>, wr: Addr, a: seq<Effect>, b: seq<Effect>, c: seq<Effect>)
    requires TimeoutsRemoved !in b && TimeoutsRemoved !in c
    ensures AfterEffects(q, wr, a + b + c) == AfterEffects(q, wr, a)
  {
    EffectsAppended(q, wr, a + b, c);
    EffectsAppended(q, wr, a, b);
  }

  /** Driver calls before the first TimeoutsRemoved do not change the queue. */
  lemma EffectsPrepended(q: seq<Pending>, wr: Addr, a: seq<Effect>, b: seq<Effect>)
    requires TimeoutsRemoved !in a
    ensures AfterEffects(q, wr, a + b) == AfterEffects(q, wr, b)
  {
    AfterEffectsConcat(q, wr, a, b);
    AfterEffectsUntouched(q, wr, a);
  }

  /** Appending to a log piece by piece appends the pieces together. */
  lemma Regrouped(l: seq<Effect>, a: seq<Effect>, b: seq<Effect>, c: seq<Effect>)
    ensures l + a + b + c == l + (a + b + c)
    ensures l + a + b == l + (a + b)
  {
  }

  /** The address of on_event, as registered with the event queue. */
  const ON_EVENT: Addr := 1

  /**
   * struct door_ctrl. The addresses of the reader `wr` (the source of the
   * controller's events), of the handler record `hdlr` and of the
   * controller itself are fixed; `queue` is the firmware's event queue.
   * `log` records the driver calls made so far.
   */
  class DoorCtrl {
    const wr: Addr
    const hdlr: Addr
    const self: Addr
    const queue: EventQueue
    /** door_id, open_time, check_key and check_context */
    var cfg: Config
    var state: DoorState
    var pin: bv32
    var openStatus: bv8
    ghost var log: seq<Effect>

    function Snapshot(): Ctl
      reads this
    {
      Ctl(state, pin, openStatus)
    }

    ghost predicate Valid()
      reads queue, queue.slots
    {
      queue.Valid() && wr != NULL && hdlr != NULL && self != NULL
    }

    /** The handler door_ctrl_init registers: every event of the reader goes
        to on_event with the controller as context. */
    function Registration(): (h: Handler)
      ensures h.addr == hdlr && h.source == wr && h.mask == 0 && h.callback == ON_EVENT && h.context == self
    {
      Handler(hdlr, wr, 0, 0, ON_EVENT, self)
    }

    /** The step `o` was taken: the controller is o.ctl, the driver calls of
        `o` were made, and its TimeoutsRemoved acted on the queue. */
    twostate predicate Stepped(o: Out)
      reads this, queue
    {
      && Snapshot() == o.ctl
      && log == old(log) + o.effects
      && queue.Contents == AfterEffects(old(queue.Contents), wr, o.effects)
    }

    /** The configuration and the rest of the queue are left alone. */
    twostate predicate Kept()
      reads this, queue
    {
      && cfg == old(cfg)
      && queue.slots == old(queue.slots)
      && queue.handlers == old(queue.handlers)
      && queue.inFlight == old(queue.inFlight)
    }

    constructor (queue: EventQueue, wr: Addr, hdlr: Addr, self: Addr, cfg: Config)
      requires queue.Valid() && wr != NULL && hdlr != NULL && self != NULL
      ensures Valid() && Snapshot() == Ctl(Idle, 0, 0) && log == []
      ensures this.queue == queue && this.wr == wr && this.hdlr == hdlr && this.self == self && this.cfg == cfg
    {
      this.queue, this.wr, this.hdlr, this.self := queue, wr, hdlr, self;
      this.cfg := cfg;
      state, pin, openStatus := Idle, 0, 0;
      log := [];
    }

    /** door_ctrl_set_state */
    method SetState(s: DoorState)
      requires Valid()
      modifies this, queue, queue.slots
      ensures Valid() && Kept() && Stepped(AfterSetState(old(Snapshot()), s))
    {
      if state == s {
        return;
      }
      state := s;
      if s == Idle || s == Rejected || s == Opening || s == Error {
        EndsEffects(queue.Contents, wr);
        CancelIdle();
      }
    }

    /** The calls set_state makes when a state ends the processing: the idle
        timer is descheduled and the pending idle timeouts removed. */
    method CancelIdle()
      requires Valid()
      modifies this, queue, queue.slots
      ensures Valid() && Kept() && Snapshot() == old(Snapshot())
      ensures log == old(log) + [TimerDescheduled, TimeoutsRemoved]
      ensures queue.Contents == RemoveMatching(old(queue.Contents), wr, DOOR_CTRL_EVENT_IDLE_TIMEOUT)
    {
      log := log + [TimerDescheduled];
      var _ := queue.Remove(wr, DOOR_CTRL_EVENT_IDLE_TIMEOUT);
      log := log + [TimeoutsRemoved];
    }

    /** door_ctrl_check_key */
    method CheckKey(kind: bv8, key: bv32) returns (r: int8)
      modifies this
      ensures r == CheckResult(cfg, kind, key)
      ensures log == old(log) + CheckEffects(cfg, kind, key)
      ensures Snapshot() == old(Snapshot()) && cfg == old(cfg)
    {
      match cfg.checkKey
      case None =>
        r := -ENOENT as int8;
      case Some(f) =>
        r := f(cfg.doorId, kind, key);
        log := log + [KeyChecked(kind, key)];
    }

    /** door_ctrl_set_open */
    method SetOpen(source: bv8, status: bv8)
      requires source < 8
      modifies this
      ensures Kept() && Stepped(AfterSetOpen(old(Snapshot()), source, status, cfg.openTime))
    {
      ghost var o := AfterSetOpen(Snapshot(), source, status, cfg.openTime);
      SetOpenEdges(Snapshot(), source, status, cfg.openTime);
      AfterEffectsUntouched(queue.Contents, wr, o.effects);
      var oldStatus := openStatus;
      if status != 0 {
        openStatus := WithBit(openStatus, source);
      } else {
        openStatus := WithoutBit(openStatus, source);
      }
      assert openStatus == o.ctl.openStatus;
      if AnyReason(oldStatus) == AnyReason(openStatus) {
        return;
      }
      if AnyReason(openStatus) {
        log := log + [TriggerSet(OpenRelay, 1)];
        log := log + [TriggerSet(Led, 1)];
      } else {
        log := log + [TriggerStarted(OpenRelay, cfg.openTime as int)];
        log := log + [TriggerStarted(Led, cfg.openTime as int)];
      }
    }

    /** door_ctrl_open */
    method OpenDoor()
      requires Valid()
      modifies this, queue, queue.slots
      ensures Valid() && Kept() && Stepped(AfterOpen(old(Snapshot()), cfg))
    {
      ghost var a := AfterSetState(Snapshot(), Opening);
      ghost var p := Pulse(a.ctl, cfg);
      EffectsAppended2(queue.Contents, wr, a.effects, p.effects, [TriggerSequence(Buzzer, BUZZER_ACCEPTED_SEQ)]);
      Regrouped(log, a.effects, p.effects, [TriggerSequence(Buzzer, BUZZER_ACCEPTED_SEQ)]);
      SetState(Opening);
      PulseReader();
      log := log + [TriggerSequence(Buzzer, BUZZER_ACCEPTED_SEQ)];
    }

    /** The two set_open calls of door_ctrl_open: the reader bit is set, then
        cleared. */
    method PulseReader()
      modifies this
      ensures Kept() && Stepped(Pulse(old(Snapshot()), cfg))
    {
      ghost var c0 := Snapshot();
      ghost var b := AfterSetOpen(c0, DOOR_OPEN_FROM_READER, 1, cfg.openTime);
      ghost var d := AfterSetOpen(b.ctl, DOOR_OPEN_FROM_READER, 0, cfg.openTime);
      assert Pulse(c0, cfg) == Out(d.ctl, b.effects + d.effects);
      SetOpen(DOOR_OPEN_FROM_READER, 1);
      SetOpen(DOOR_OPEN_FROM_READER, 0);
      AfterEffectsConcat(old(queue.Contents), wr, b.effects, d.effects);
      Regrouped(old(log), b.effects, d.effects, []);
    }

    /** door_ctrl_reject */
    method RejectKey()
      requires Valid()
      modifies this, queue, queue.slots
      ensures Valid() && Kept() && Stepped(AfterReject(old(Snapshot())))
    {
      ghost var a := AfterSetState(Snapshot(), Rejected);
      EffectsAppended(queue.Contents, wr, a.effects, [TriggerSequence(Buzzer, BUZZER_REJECTED_SEQ)]);
      SetState(Rejected);
      log := log + [TriggerSequence(Buzzer, BUZZER_REJECTED_SEQ)];
    }

    /** door_ctrl_timeout */
    method ReportTimeout()
      requires Valid()
      modifies this, queue, queue.slots
      ensures Valid() && Kept() && Stepped(AfterTimeout(old(Snapshot())))
    {
      ghost var a := AfterSetState(Snapshot(), Timeout);
      EffectsAppended(queue.Contents, wr, a.effects, [TriggerSequence(Buzzer, BUZZER_TIMEOUT_SEQ)]);
      SetState(Timeout);
      log := log + [TriggerSequence(Buzzer, BUZZER_TIMEOUT_SEQ)];
    }

    /** door_ctrl_error */
    method ReportError()
      requires Valid()
      modifies this, queue, queue.slots
      ensures Valid() && Kept() && Stepped(AfterError(old(Snapshot())))
    {
      ghost var a := AfterSetState(Snapshot(), Error);
      EffectsAppended(queue.Contents, wr, a.effects, [TriggerStarted(Buzzer, BUZZER_ERROR_DURATION)]);
      SetState(Error);
      log := log + [TriggerStarted(Buzzer, BUZZER_ERROR_DURATION)];
    }

    /** The check both IDLE and READING_PIN make: open the door when the
        validator accepts the credential, reject it otherwise. */
    method Validate(kind: bv8, key: bv32)
      requires Valid()
      modifies this, queue, queue.slots
      ensures Valid() && Kept() && Stepped(AfterValidation(old(Snapshot()), cfg, kind, key))
    {
      ghost var c0 := Snapshot();
      ghost var o := if CheckResult(cfg, kind, key) == 0 then AfterOpen(c0, cfg) else AfterReject(c0);
      EffectsPrepended(queue.Contents, wr, CheckEffects(cfg, kind, key), o.effects);
      Regrouped(log, CheckEffects(cfg, kind, key), o.effects, []);
      assert AfterValidation(c0, cfg, kind, key) == Out(o.ctl, CheckEffects(cfg, kind, key) + o.effects);
      var r := CheckKey(kind, key);
      if r == 0 {
        OpenDoor();
      } else {
        RejectKey();
      }
    }

    /** on_event in IDLE, for a key or a card. */
    method OnIdleInput(event: bv8, val: bv32)
      requires Valid()
      modifies this, queue, queue.slots
      ensures Valid() && Kept() && Stepped(AfterIdleInput(old(Snapshot()), cfg, event, val))
    {
      if event == WIEGAND_READER_EVENT_KEY {
        if val == WIEGAND_KEY_ENTER as bv32 {
          ReportError();
        } else if val == WIEGAND_KEY_ESC as bv32 {
        } else {
          pin := 0xFFFF_FFF0 | (val & 0xF);
          ghost var a := AfterSetState(Snapshot(), ReadingPin);
          EffectsAppended(queue.Contents, wr, a.effects, [TimerScheduled(IDLE_TIMEOUT)]);
          SetState(ReadingPin);
          log := log + [TimerScheduled(IDLE_TIMEOUT)];
        }
      } else {
        Validate(DOOR_CTRL_CARD, val);
      }
    }

    /** A card or ENTER in READING_PIN. */
    method Submit(card: bool, val: bv32)
      requires Valid()
      modifies this, queue, queue.slots
      ensures Valid() && Kept() && Stepped(AfterSubmit(old(Snapshot()), cfg, card, val))
    {
      if card {
        pin := pin ^ val;
      }
      var kind := if card then DOOR_CTRL_CARD_AND_PIN else DOOR_CTRL_PIN;
      Validate(kind, pin);
      pin := 0;
    }

    /** on_event in READING_PIN, for a key or a card. */
    method OnPinInput(event: bv8, val: bv32)
      requires Valid()
      modifies this, queue, queue.slots
      ensures Valid() && Kept() && Stepped(AfterPinInput(old(Snapshot()), cfg, event, val))
    {
      var card := event == WIEGAND_READER_EVENT_CARD;
      var key: bv8 := if card then WIEGAND_KEY_ENTER else (val & 0xFF) as bv8;
      if key == WIEGAND_KEY_ENTER {
        Submit(card, val);
      } else if key == WIEGAND_KEY_ESC {
        SetState(Idle);
      } else {
        AfterEffectsUntouched(queue.Contents, wr, [TimerScheduled(IDLE_TIMEOUT)]);
        pin := pin << 4;
        pin := (pin & !0xF) | (key & 0xF) as bv32;
        log := log + [TimerScheduled(IDLE_TIMEOUT)];
      }
    }

    /** on_event, the handler of every event of the reader. */
    method OnEvent(event: bv8, val: bv32)
      requires Valid()
      modifies this, queue, queue.slots
      ensures Valid() && Kept() && Stepped(AfterEvent(old(Snapshot()), cfg, event, val))
    {
      ghost var c0 := Snapshot();
      EventsInAnyState(c0, cfg, event, val);
      ControlEventDispatch(c0, cfg, event, val);
      if event == DOOR_CTRL_EVENT_STATE_CHANGED {
        return;
      } else if event == DOOR_CTRL_EVENT_BUZZER_FINISHED {
        SetState(Idle);
      } else if event == DOOR_CTRL_EVENT_IDLE_TIMEOUT {
        ReportTimeout();
      } else if event == WIEGAND_READER_ERROR {
        ReportError();
      } else if event != WIEGAND_READER_EVENT_KEY && event != WIEGAND_READER_EVENT_CARD {
        ReportError();
      } else {
        InputDispatch(c0, cfg, event, val);
        if state == Idle {
          OnIdleInput(event, val);
        } else if state == ReadingPin {
          OnPinInput(event, val);
        }
      }
    }

    /** on_open_button_changed */
    method OnOpenButtonChanged(status: bv8)
      modifies this
      ensures Kept() && Stepped(AfterButton(old(Snapshot()), cfg, status))
    {
      SetOpen(DOOR_OPEN_FROM_BUTTON, status);
    }

    /** on_idle_timeout, the idle timer's callback: post IDLE_TIMEOUT to the
        door's own handler (dropped when the pool is full). */
    method OnIdleTimeout()
      requires Valid()
      modifies queue, queue.slots
      ensures Valid() && queue.handlers == old(queue.handlers) && queue.inFlight == old(queue.inFlight)
      ensures queue.Contents == if old(queue.Full()) then old(queue.Contents)
                                else old(queue.Contents) + [Pending(wr, DOOR_CTRL_EVENT_IDLE_TIMEOUT, 0)]
    {
      var _ := queue.Add(wr, DOOR_CTRL_EVENT_IDLE_TIMEOUT, 0);
    }

    /** on_buzzer_finished, the buzzer trigger's callback: post
        BUZZER_FINISHED (dropped when the pool is full). */
    method OnBuzzerFinished()
      requires Valid()
      modifies queue, queue.slots
      ensures Valid() && queue.handlers == old(queue.handlers) && queue.inFlight == old(queue.inFlight)
      ensures queue.Contents == if old(queue.Full()) then old(queue.Contents)
                                else old(queue.Contents) + [Pending(wr, DOOR_CTRL_EVENT_BUZZER_FINISHED, 0)]
    {
      var _ := queue.Add(wr, DOOR_CTRL_EVENT_BUZZER_FINISHED, 0);
    }
  }

  /**
   * door_ctrl_init up to the registration of on_event: NULL arguments are
   * refused, the controller is reset and takes the configuration, and its
   * handler goes to the front of the registry. The driver initialisations
   * that follow are summed up by `drivers`, the first error they return or 0.
   */
  method Init(dc: DoorCtrl?, cfg: Option<Config>, drivers: int8) returns (err: int8)
    requires dc != null ==> dc.Valid() && !Registered(dc.queue.handlers, dc.hdlr)
    modifies if dc != null then {dc, dc.queue} else {}
    ensures dc == null || cfg.None? ==> err as int == -EINVAL
    ensures dc != null && cfg.None? ==> unchanged(dc) && unchanged(dc.queue)
    ensures dc != null && cfg.Some? ==>
              && dc.Valid() && err == drivers
              && dc.Snapshot() == Ctl(Idle, 0, 0) && dc.cfg == cfg.value && dc.log == old(dc.log)
              && dc.queue.handlers == [dc.Registration()] + old(dc.queue.handlers)
              && dc.queue.Contents == old(dc.queue.Contents)
  {
    if dc == null || cfg.None? {
      return -EINVAL as int8;
    }
    dc.state, dc.pin, dc.openStatus := Idle, 0, 0;
    dc.cfg := cfg.value;
    // event_handler_add cannot fail here: none of the handler's addresses is NULL
    var _ := dc.queue.HandlerAdd(dc.Registration());
    err := drivers;
  }

  /** Once registered, the controller's handler is called for every event of
      its reader, whatever the id. */
  lemma ControllerHearsReader(hs: seq<Handler>, dc: DoorCtrl, id: bv8, val: bv32)
    requires dc.Registration() in hs
    ensures Call(ON_EVENT, id, val, dc.self) in Dispatch(hs, Pending(dc.wr, id, val))
  {
    var h := dc.Registration();
    var k :| 0 <= k < |hs| && hs[k] == h;
    DispatchCallsExactlyMatching(hs, Pending(dc.wr, id, val));
    assert Matches(hs[k], Pending(dc.wr, id, val));
  }
}
