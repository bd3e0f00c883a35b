# avr-door-controller, modelled in Dafny

The avr-door-controller system drives door locks from an AVR board. The board
reads Wiegand keypads and card readers. A host daemon manages the board's
access records over ubus. This project models three parts of it and proves
properties of the model.

- **The firmware event queue** (`event_queue.dfy`, module `Events`).
  - Class `EventQueue` holds the fixed pool of eight event slots. They are
    chained into a FIFO by `next` indices and filled at the lowest free slot.
  - It also holds the handler registry, a list that new handlers are
    prepended to.
  - Ghost state ties the slot array to the sequence of pending events it
    represents. Adding, cancelling (`event_remove`), detaching and dispatching
    are proved against that sequence and against pure specification functions
    (`RemoveMatching`, `Dispatch`).
- **The firmware door controller** (`door_controller.dfy`, module
  `DoorController`).
  - Pure step functions (`AfterSetState`, `AfterOpen`, `AfterEvent`, …) say
    what each C function does to the controller state. This state is the door
    state, the PIN accumulator and `open_status`.
  - The steps also record which driver calls (`Effect`s) they make, in order.
  - Class `DoorCtrl` performs the same steps on its fields and is proved to
    follow them. Its idle-timeout cancellation runs the real `event_remove` of
    the queue.
  - Lemmas cover the controller's behaviour:
    - state by state, and over whole keypad sessions (`PinEntry`);
    - stale idle timeouts leaving the queue (`StaleTimeoutsGone`).
- **The daemon's access-record codec** (`daemon_methods.dfy`, module
  `DaemonMethods`, with the C text conversions in `c_text.dfy`, module
  `CText`).
  - The PIN is packed as one decimal digit per nibble under a 0xF filler, and
    unpacked again.
  - Card numbers are parsed with `sscanf("%u")` and printed with
    `snprintf("%u")`.
  - The record's key is the card number XOR the PIN. Its permission byte
    holds the doors and the record type.
  - The descriptor reply decodes little-endian fields.
  - `get_method` is a linear search of the method table.
  - Round-trip lemmas show that what `set_access` / `set_access_record` store
    is reported back by `get_access_record` once the report prints the card
    key into a buffer wide enough for any 32-bit number. The code as written
    prints it into the 9-byte `skey` and cuts it (see "## Findings").
- **PinCompat** (`pin_compat.dfy`) connects the two sides. The key the daemon
  stores for a PIN string is the key the firmware hands to its validator when
  the same digits and ENTER are typed on the keypad.

Two behaviours of the code are worth stating plainly, since a reader might
expect otherwise:
- an idle timeout moves the controller to TIMEOUT from any state, not only
  while a PIN is being read;
- entering TIMEOUT neither cancels pending idle timeouts nor clears the PIN
  accumulator (`door_ctrl_timeout` and `door_ctrl_set_state`,
  firmware/door-controller.c:75-85 and 153-158).

## Model

| member | source | states |
|---|---|---|
| Events.DispatchInRegistryOrder | firmware/event-queue.c:133-144 | handlers are called in registry order: dispatching over two concatenated registries is the first one's calls followed by the second one's |
| Events.DispatchCallsExactlyMatching | firmware/event-queue.c:137-143 | a handler is called exactly when its source is the event's source and its mask is zero or covers the event id; every call made comes from such a handler |
| Events.RemoveMatchingMembers | firmware/event-queue.c:113-127 | after cancellation the queue holds exactly the pending events that do not have the given source and id |
| Events.RemoveMatchingConcat | firmware/event-queue.c:113-127 | cancellation keeps the order of the surviving events: it distributes over concatenation of the queue |
| Events.RemoveMatchingNothing | firmware/event-queue.c:113-127 | cancelling an event that is not queued leaves the queue unchanged |
| Events.EventQueue.constructor | firmware/event-queue.c:21-25 | the statically zeroed pool: every slot free, the queue and the registry empty, nothing being dispatched |
| Events.EventQueue.InFlightBound | firmware/event-queue.c:19-23 | the queued events plus the one being dispatched never exceed MAX_PENDING_EVENTS (8) |
| Events.EventQueue.FindFree | firmware/event-queue.c:78-84 | returns NIL exactly when every slot is taken; otherwise the lowest free slot |
| Events.EventQueue.Append | firmware/event-queue.c:86-97 | the event is written into the free slot and linked behind the old tail; the pending sequence grows by exactly that event and no other slot changes |
| Events.EventQueue.Add | firmware/event-queue.c:69-102 | -EINVAL exactly for a NULL source, -ENOMEM exactly when the pool is full, with nothing changed; otherwise the event is appended to the FIFO in the lowest free slot and becomes the tail |
| Events.EventQueue.Unlink | firmware/event-queue.c:119-124 | unlinking the m-th queued slot removes exactly that event from the pending sequence, fixing head and tail |
| Events.EventQueue.Remove | firmware/event-queue.c:104-131 | -EINVAL for a NULL source with nothing changed; otherwise 0, and the pending sequence becomes the old one with every event of that source and id removed, the others in order; the event being dispatched is untouched |
| Events.EventQueue.Detach | firmware/event-queue.c:151-159 | an empty queue yields NIL; otherwise the head is taken off the FIFO, becomes the event in dispatch, and its payload is the first pending event |
| Events.EventQueue.Release | firmware/event-queue.c:164 | the dispatched slot is freed and nothing else changes |
| Events.EventQueue.RunHandlers | firmware/event-queue.c:133-144 | the handler calls made are exactly the registry-ordered dispatch of the event |
| Events.EventQueue.RunOnce | firmware/event-queue.c:146-166 | with no pending event nothing happens; otherwise the first event leaves the queue, is dispatched to the matching handlers, and its slot is freed |
| Events.EventQueue.HandlerAdd | firmware/event-queue.c:29-40 | -EINVAL with the registry unchanged when the handler, its source or its callback is NULL; otherwise the handler is put at the front of the registry |
| Events.EventQueue.HandlerRemove | firmware/event-queue.c:42-67 | -EINVAL for NULL, -ENOENT when not registered, otherwise 0 with exactly that entry removed; afterwards the handler is not registered |
| DoorController.AfterSetState | firmware/door-controller.c:67-85 | the state becomes the target; the idle timer is descheduled and pending idle timeouts are removed exactly when the state changes into IDLE, REJECTED, OPENING or ERROR, and nothing else is done |
| DoorController.DoorCtrl.SetState | firmware/door-controller.c:67-85 | the controller and its queue follow AfterSetState |
| DoorController.DoorCtrl.CancelIdle | firmware/door-controller.c:80-81 | the idle timer is descheduled and the queue loses exactly the controller's pending idle timeouts |
| DoorController.CheckResult | firmware/door-controller.c:106-113 | without a validator the answer is -ENOENT |
| DoorController.DoorCtrl.CheckKey | firmware/door-controller.c:106-113 | returns the validator's answer (or -ENOENT) and records the validator call; the controller is unchanged |
| DoorController.SetOpenBits | firmware/door-controller.c:115-123 | only the bit of the given source changes in open_status, and it is set exactly when the new status is nonzero |
| DoorController.SetOpenEdges | firmware/door-controller.c:125-134 | relay and LED are switched on when open_status goes from zero to nonzero, started for open_time when it goes back to zero, and untouched otherwise |
| DoorController.DoorCtrl.SetOpen | firmware/door-controller.c:115-135 | the controller follows AfterSetOpen: state and PIN unchanged |
| DoorController.AfterOpen | firmware/door-controller.c:137-144 | the controller enters OPENING and the reader reason is cleared from open_status; when that reason was not already set, the relay/LED edges and the accepted buzzer sequence follow the state change |
| DoorController.DoorCtrl.OpenDoor | firmware/door-controller.c:137-144 | the controller follows AfterOpen |
| DoorController.Pulse | firmware/door-controller.c:140-141 | pulsing the reader reason open never cancels idle timeouts |
| DoorController.PulseNet | firmware/door-controller.c:140-141 | after the pulse the reader bit is clear and the other open reasons are as before; relay and LED are set only when no reason held the door open, and their release is started only when no reason is left |
| DoorController.DoorCtrl.PulseReader | firmware/door-controller.c:140-141 | the controller follows Pulse |
| DoorController.DoorCtrl.RejectKey | firmware/door-controller.c:146-151 | the controller enters REJECTED and plays the rejected sequence |
| DoorController.DoorCtrl.ReportTimeout | firmware/door-controller.c:153-158 | the controller enters TIMEOUT and plays the timeout sequence |
| DoorController.DoorCtrl.ReportError | firmware/door-controller.c:160-164 | the controller enters ERROR and sounds the buzzer |
| DoorController.ResultStepsCancel | firmware/door-controller.c:137-164 | open, reject and error cancel idle timeouts exactly when they change the state; the timeout step never does |
| DoorController.AfterValidation | firmware/door-controller.c:223-227 | the validator is asked first; the door opens exactly when it answers 0 and the key is rejected otherwise; the PIN is untouched |
| DoorController.DoorCtrl.Validate | firmware/door-controller.c:223-227 | the controller follows AfterValidation |
| DoorController.ValidationCancels | firmware/door-controller.c:223-227 | a validation from IDLE or READING_PIN always cancels pending idle timeouts |
| DoorController.AfterSubmit | firmware/door-controller.c:232-245 | a card in READING_PIN is validated as CARD_AND_PIN with key PIN XOR card, ENTER as PIN with the accumulated PIN, and the accumulator is cleared |
| DoorController.DoorCtrl.Submit | firmware/door-controller.c:232-245 | the controller follows AfterSubmit |
| DoorController.DoorCtrl.OnIdleInput | firmware/door-controller.c:204-230 | the controller follows the IDLE branch of on_event |
| DoorController.DoorCtrl.OnPinInput | firmware/door-controller.c:231-253 | the controller follows the READING_PIN branch of on_event |
| DoorController.DoorCtrl.OnEvent | firmware/door-controller.c:166-261 | the controller and its queue follow AfterEvent |
| DoorController.EventsInAnyState | firmware/door-controller.c:181-200 | in any state: STATE_CHANGED does nothing, BUZZER_FINISHED goes to IDLE, IDLE_TIMEOUT to TIMEOUT, a reader error or an unknown event to ERROR; keys and cards are ignored while OPENING, REJECTED, TIMEOUT or ERROR |
| DoorController.IdleKey | firmware/door-controller.c:206-221 | in IDLE, ENTER is an error, ESC is ignored, and any other key starts PIN entry with accumulator 0xFFFFFFF0 or the digit, rescheduling the idle timer |
| DoorController.IdleCard | firmware/door-controller.c:222-228 | in IDLE a card is validated as CARD with the card number |
| DoorController.PinCard | firmware/door-controller.c:232-245 | in READING_PIN a card is validated as CARD_AND_PIN with key PIN XOR card, and the accumulator is cleared |
| DoorController.PinKey | firmware/door-controller.c:235-252 | in READING_PIN, ENTER validates the accumulated PIN, ESC returns to IDLE cancelling the timeouts, any other key is shifted into the accumulator and reschedules the idle timer |
| DoorController.ReaderBitReleased | firmware/door-controller.c:137-144 | an event either leaves open_status alone or only clears its reader reason |
| DoorController.TimeoutsCancelledOnSettle | firmware/door-controller.c:67-85 | for every event and state, an event cancels pending idle timeouts exactly when it moves the controller into IDLE, REJECTED, OPENING or ERROR from another state |
| DoorController.StaleTimeoutsGone | firmware/door-controller.c:80-81 | after a step that cancels timeouts, no idle timeout of this controller is left in the queue, and no event is added to it |
| DoorController.AfterButton | firmware/door-controller.c:268-273 | the button sets or clears only its own reason in open_status, leaving state, PIN and the reader reason alone |
| DoorController.DoorCtrl.OnOpenButtonChanged | firmware/door-controller.c:268-273 | the controller follows AfterButton |
| DoorController.DoorCtrl.OnIdleTimeout | firmware/door-controller.c:92-97 | an IDLE_TIMEOUT event of this controller is queued unless the pool is full |
| DoorController.DoorCtrl.OnBuzzerFinished | firmware/door-controller.c:99-104 | a BUZZER_FINISHED event of this controller is queued unless the pool is full |
| DoorController.TypingDigits | firmware/door-controller.c:248-251 | typing digits in READING_PIN shifts each one into the accumulator, one nibble per key |
| DoorController.PinTyped | firmware/door-controller.c:215-221 | from IDLE, typing a PIN leaves READING_PIN with the digits accumulated over the 0xFFFFFFFF seed |
| DoorController.PinEntry | firmware/door-controller.c:204-252 | from IDLE, typing digits and ENTER asks the validator about the accumulated PIN and opens exactly when it accepts, clearing the accumulator |
| DoorController.PinEntryExample | firmware/door-controller.c:215-251 | typing 1 2 3 4 ENTER checks the key 0xFFFF1234 |
| DoorController.Init | firmware/door-controller.c:276-299 | -EINVAL for a missing controller or configuration, and then nothing about the controller or its queue changes; otherwise the controller starts IDLE with PIN 0 and no open reason, and its handler for the reader's events is put at the front of the registry |
| DoorController.DoorCtrl.Registration | firmware/door-controller.c:290-292 | the controller's handler listens to its own reader with mask 0 and calls on_event with the controller as context |
| DoorController.ControllerHearsReader | firmware/door-controller.c:291-297 | once registered, the controller's on_event is called for every event of its reader |
| CText.Decimal | daemon/avr-door-controller-methods.c:115 | %u prints at least one digit, only digits, with no leading zero |
| CText.DecimalValue | daemon/avr-door-controller-methods.c:115 | reading the printed digits back gives the number |
| CText.DecimalLength | daemon/avr-door-controller-methods.c:115 | the rendering has at most k digits exactly when the number is below 10^k |
| CText.FormatUnsigned | daemon/avr-door-controller-methods.c:115 | snprintf keeps exactly the first min(length, size - 1) characters of the full decimal rendering |
| CText.ScanUnsigned | daemon/avr-door-controller-methods.c:182 | a conversion succeeds only when the text holds a digit |
| CText.ScanParts | daemon/avr-door-controller-methods.c:182 | leading white space, an optional sign and a maximal run of digits convert to the digits' value modulo 2^32, negated modulo 2^32 after a minus; what follows the digits is ignored |
| CText.ScanFails | daemon/avr-door-controller-methods.c:182 | after leading white space, the conversion fails exactly when the text does not start with a digit or with a sign followed by a digit |
| CText.ScanAfterSpaces | daemon/avr-door-controller-methods.c:182 | leading white space is skipped: the conversion of the text after it decides the result |
| CText.ConvertedUnsigned | daemon/avr-door-controller-methods.c:182 | an unsigned value below 2^32 converts to itself |
| CText.ScanDecimal | daemon/avr-door-controller-methods.c:256 | sscanf reads back any 32-bit number printed with %u, ignoring a trailing non-digit |
| DaemonMethods.Status | daemon/avr-door-controller-methods.c:176-205 | the status is OK exactly when the query was written |
| DaemonMethods.Le16RoundTrip | daemon/avr-door-controller-methods.c:29-30 | little-endian 16-bit encoding and decoding are inverse |
| DaemonMethods.Le32RoundTrip | daemon/avr-door-controller-methods.c:92 | little-endian 32-bit encoding and decoding are inverse |
| DaemonMethods.DigitOfChar | daemon/avr-door-controller-methods.c:190-193 | a character is refused exactly when it is not a decimal digit, and a digit gives its value |
| DaemonMethods.PinKeyAccepts | daemon/avr-door-controller-methods.c:188-196 | a PIN string is accepted exactly when all its characters are digits |
| DaemonMethods.PinKeyRefusedPrefix | daemon/avr-door-controller-methods.c:189-195 | once a prefix is refused, the whole string is |
| DaemonMethods.EncodePin | daemon/avr-door-controller-methods.c:188-196 | the loop accepts exactly all-digit strings and then yields their packed key |
| DaemonMethods.PinText | daemon/avr-door-controller-methods.c:86-111 | the unpacked PIN fits skey with its NUL |
| DaemonMethods.DecodePin | daemon/avr-door-controller-methods.c:104-112 | the loop yields the key's nibbles from most to least significant as digits, skipping 0xF fillers |
| DaemonMethods.DecodeNibble | daemon/avr-door-controller-methods.c:105-110 | one turn of the loop appends the text of nibble i, nothing for the 0xF filler, so the nibbles still to come complete the PIN text |
| DaemonMethods.NibbleIsShift | daemon/avr-door-controller-methods.c:106 | nibble i of the key is (key >> 4i) & 0xF |
| DaemonMethods.PinRoundTrip | daemon/avr-door-controller-methods.c:104-112 | unpacking the key of a PIN of up to 8 digits gives the PIN back |
| DaemonMethods.RecordTypeBits | daemon/avr-door-controller-methods.c:167-174 | the record type has the PIN bit exactly when a PIN is given and the card bit exactly when a card is given |
| DaemonMethods.PermsRoundTrip | daemon/avr-door-controller-methods.c:202-203 | the stored permission byte is never marked invalid and gives back the record type and the door bits |
| DaemonMethods.SetAccessRecordQuery | daemon/avr-door-controller-methods.c:149-206 | a written query carries the index as 16 bits little-endian and a 5-byte record |
| DaemonMethods.SetAccessQuery | daemon/avr-door-controller-methods.c:228-277 | a written query is a 5-byte record |
| DaemonMethods.InvalidArguments | daemon/avr-door-controller-methods.c:176-200 | both writers return INVALID_ARGUMENT exactly for an unparsable card or a non-digit PIN, and set_access also when neither is given |
| DaemonMethods.WritersAgree | daemon/avr-door-controller-methods.c:228-277 | with a PIN or a card given, set_access and set_access_record refuse the same arguments and store the same record |
| DaemonMethods.CardText | daemon/avr-door-controller-methods.c:113-116 | (corrected buffer) a card key is reported as its full decimal rendering |
| DaemonMethods.CardDigits | daemon/avr-door-controller-methods.c:115 | every 32-bit key fits an 11-byte buffer |
| DaemonMethods.CardTextAsWritten | daemon/avr-door-controller-methods.c:86 | the 9-byte buffer yields exactly the first min(length, 8) digits of the decimal rendering |
| DaemonMethods.RecordReport | daemon/avr-door-controller-methods.c:81-122 | the type is one of the table names; key and doors are present exactly when the type is not "none"; the doors fit four bits |
| DaemonMethods.AccessRecordReport | daemon/avr-door-controller-methods.c:81-122 | a card key is reported in full decimal (corrected buffer size) |
| DaemonMethods.AccessRecordReportAsWritten | daemon/avr-door-controller-methods.c:81-122 | a card key is reported cut to the 9-byte buffer |
| DaemonMethods.ReadAccessRecordResponse | daemon/avr-door-controller-methods.c:81-122 | as written: the reply method decodes the PIN with its loop and prints a card key into the 9-byte buffer, producing the as-written report |
| DaemonMethods.InvalidRecordIgnored | daemon/avr-door-controller-methods.c:95-96 | a record marked invalid is reported as type "none" without key or doors |
| DaemonMethods.RecordKey | daemon/avr-door-controller-methods.c:92 | the stored key reads back from the record's first four bytes, the permission byte from the fifth |
| DaemonMethods.ReportOfRecord | daemon/avr-door-controller-methods.c:98-120 | a stored record reports its type name, the unpacked PIN or the printed card key, and its doors |
| DaemonMethods.EncodedRecord | daemon/avr-door-controller-methods.c:202-203 | the record is the card XOR PIN key followed by the permission byte |
| DaemonMethods.StoredRecord | daemon/avr-door-controller-methods.c:273-274 | set_access stores the card XOR PIN key and the permission byte of the given type and doors |
| DaemonMethods.PinRecordRoundTrip | daemon/avr-door-controller-methods.c:104-112 | a PIN of up to 8 digits stored with set_access reads back as the same PIN, type "pin", with its doors |
| DaemonMethods.CardRecordRoundTrip | daemon/avr-door-controller-methods.c:113-116 | (corrected buffer) a card stored with set_access is the parsed number, and reads back as its decimal rendering, type "card" |
| DaemonMethods.CardTextRoundTrip | daemon/avr-door-controller-methods.c:113-116 | (corrected buffer) a card number given in decimal reads back as the same text |
| DaemonMethods.CardAndPinRecord | daemon/avr-door-controller-methods.c:202 | (corrected buffer) a card with a PIN is stored as card XOR PIN and read back as that combined number, type "pin+card" |
| DaemonMethods.CardAndPinRecordAsWritten | daemon/avr-door-controller-methods.c:86-116 | as written: a card with a PIN reads back as card XOR PIN cut to the 9-byte buffer, type "pin+card" |
| DaemonMethods.PinKeyFiller | daemon/avr-door-controller-methods.c:188-196 | every nibble of a packed PIN above its digits holds the 0xF filler |
| DaemonMethods.TopFillerKey | daemon/avr-door-controller-methods.c:202 | a card below 2^28 XOR a key whose top nibble is filler is at least 10^8, nine digits or more |
| DaemonMethods.ShortPinCardCut | daemon/avr-door-controller-methods.c:86-116 | as written: a PIN of at most 7 digits with a card below 2^28 never reads back as the stored key |
| DaemonMethods.EmptyRecord | daemon/avr-door-controller-methods.c:101-103 | a record with neither PIN nor card is stored with key 0 and type NONE, and reads back as "none" |
| DaemonMethods.CardTextAsWrittenExact | daemon/avr-door-controller-methods.c:86 | the 9-byte buffer prints a card key in full exactly when it is below 10^8 |
| DaemonMethods.CardTextTruncated | daemon/avr-door-controller-methods.c:115 | the key 100000000 is printed as "10000000" |
| DaemonMethods.CardRecordAsWritten | daemon/avr-door-controller-methods.c:113-116 | as written, a stored card reads back as its rendering cut to 8 characters |
| DaemonMethods.StoreRecord | daemon/avr-door-controller-methods.c:176-203 | the loop-and-switch record writer produces EncodeRecord |
| DaemonMethods.WriteSetAccessRecordQuery | daemon/avr-door-controller-methods.c:149-206 | the method writes SetAccessRecordQuery |
| DaemonMethods.WriteSetAccessQuery | daemon/avr-door-controller-methods.c:228-277 | the method writes SetAccessQuery |
| DaemonMethods.DeviceDescriptorReport | daemon/avr-door-controller-methods.c:21-32 | the reported version numbers and door count fit a byte and the record count fits 16 bits |
| DaemonMethods.DescriptorRoundTrip | daemon/avr-door-controller-methods.c:29-30 | the descriptor reply gives back the board's fields, the record count decoded from little-endian |
| DaemonMethods.GetMethod | daemon/avr-door-controller-methods.c:343-352 | finds the first table entry with the given name, and NULL exactly when no entry has it |
| PinCompat.KeypadMatchesDaemon | daemon/avr-door-controller-methods.c:188-196 | the daemon's PIN key for a digit string is the firmware accumulator over the same digits from the 0xFFFFFFFF seed |
| PinCompat.TypedPinChecksStoredKey | firmware/door-controller.c:204-252 | typing a PIN stored with set_access and then ENTER asks the validator about exactly the stored key |

## Left out

- Driver calls (timers, relay/LED/buzzer triggers, buttons, the Wiegand reader) are recorded as `Effect`s in call order; the drivers themselves are not part of this model.
- ATOMIC_BLOCK sections, the life-LED GPIO and the sleep loop of `event_loop_run` (firmware/event-queue.c:180-190) are left out: interrupts and concurrency are not modelled, and one iteration is `RunOnce`.
- The DEBUG-only STATE_CHANGED event in `door_ctrl_set_state` and the debug printing of the state are left out.
- The ubus/blobmsg plumbing (argument parsing, reply building) is left out; arguments are `Option` values and replies are `Report` records. The board command structs are assumed packed in field order.
- Event ids and key codes come from door-controller.h and wiegand-reader.h, which are not part of this model; placeholder values are used that keep them distinct and keep the key codes above 9. ctrl-cmd-types.h is not part of this model either; the access-type and permission-bit values follow the daemon's own use of them.
- DoorController.Init: the driver set-up of `door_ctrl_init` (firmware/door-controller.c:301-334) is summed up by its result code `drivers`; it requires the controller's handler not to be registered yet.
- Events.EventQueue.HandlerAdd: requires a handler not already in the registry; the C code would link it in a second time and make the registry cyclic.
- Events.EventQueue.HandlerRemove: requires a non-empty registry when the handler is not NULL, because the C loop dereferences the NULL head; the clearing of `hdlr->next` is not modelled since the registry is a sequence.
- `read_get_door_config_response`, `write_get_access_record` and the other index-only query writers are not modelled: they copy one field each.
- The `check_key` callback is a pure total function of door id, type and key.
- CText.ScanUnsigned: models `%u` overflow as reduction modulo 2^32 and does not model the saturation some C libraries apply.
- Events.EventQueue.RunHandlers: dispatch walks the registry as it stood when dispatch began. The C code re-reads `hdlr->next` after each callback (firmware/event-queue.c:137), and `event_handler_remove` clears `hdlr->next` (firmware/event-queue.c:63). A handler that removes itself or a later handler during dispatch therefore cuts or changes the walk in C; this is not modelled.
- Events.DispatchCallsExactlyMatching: holds for the registry snapshot taken when dispatch begins, for the reason given for RunHandlers.
- DaemonMethods.PinRoundTrip: covers PINs of up to 8 digits; a longer PIN keeps only its last 8 digits and does not round-trip.

## Findings

| source | as written | input that shows it | evidently intended | confidence | as-written member | corrected member |
|---|---|---|---|---|---|---|
| daemon/avr-door-controller-methods.c:86 | `char skey[9]` is also the buffer `snprintf(skey, sizeof(skey), "%u", key)` prints a card key into, so at most 8 digits are reported | a card stored as "100000000" reads back as "10000000"; every pin+card record whose PIN has at most 7 digits and whose card is below 2^28 reads back cut | the full decimal key, up to 10 digits | high, not executed | DaemonMethods.AccessRecordReportAsWritten, DaemonMethods.ReadAccessRecordResponse, DaemonMethods.CardTextTruncated, DaemonMethods.ShortPinCardCut | DaemonMethods.AccessRecordReport |
