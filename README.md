# Adafruit R503 fingerprint sensor driver — Dafny model

This project models the core of the `AdafruitR503` sensor component
(`src/models/adafruit_r503.py`). The component drives an R503 fingerprint
sensor over a serial link. The model covers:

- the enrollment session and the helpers that move it;
- the `do_command` dispatcher;
- the two match pipelines, `get_readings` and `_match_fingerprint`;
- the pixel unpacking of `_save_fingerprint_image`;
- the serial-port choice in `reconfigure`.

The sensor is an oracle value, `Sensor.Link`. It holds the queue of replies
its status commands will get and the trace of every command sent. It also
holds the attributes the library fills in: `finger_id`, `confidence`,
`templates` and `template_count`. A reply is either a status byte with a
payload, or a transport exception. The payload of a `finger_search`,
`read_templates` or `count_templates` reply refreshes the attributes that
command fills in, so the driver reads the values of the reply it just
received. An empty queue answers with an exception, as a read
timeout does. LED commands are recorded but never answered.

Each Python helper is a pure function from the driver state before the call
to its result and the state after it. This state is `Enrollment.State`:
the session, the link, whether the link is open, and whether the startup
breathing has been shown. A Python exception is `Raised` in `Wrappers.Try`
and is propagated as Python propagates it.

The class `Driver.AdafruitR503` keeps the same fields the source keeps on
`self`. Its methods update them step by step, as the source does.
`DoCommand` loops over the batch and merges each command's fields into one
result dict. Each method is proved to move the object exactly as its
function moves `State`. So every lemma about the functions holds of the
object too.

Modules, file by file:

- `wrappers.dfy`: `Option`, `Try`.
- `values.dfy`: values in result dicts.
- `text.dfy`: decimal formatting of f-string integers, and `in`/`startswith` on strings.
- `sensor.dfy`: the oracle.
- `enrollment.dfy`: the session helpers.
- `matching.dfy`: the two pipelines.
- `dispatch.dfy`: `do_command` as functions.
- `dispatch_properties.dfy`: what the dispatcher promises.
- `pixels.dfy`: pixel unpacking.
- `ports.dfy`: port selection.
- `driver.dfy`: the class.

### Where the code does something a caller might not expect

The model follows the code in each case below.

- **`start_enrollment` while a session is active.** A caller might expect
  a running session to be protected. The code resets it and starts a new one
  (`Dispatch.DoStartEnrollment`, `DispatchProperties.StartEnrollmentOverwrites`).
- **`capture` after a failed scan.** The helper leaves the session unchanged
  after a failed scan, so a caller might expect to retry scan 1. The
  dispatcher then applies its "Ensure step stays at 2 (max)" rule
  (`adafruit_r503.py:332-334`) and moves the session to scan 2 anyway. A
  failed first scan therefore means the next good scan is templated into
  buffer 2, and no later capture of this enrollment templates into buffer 1
  (`DispatchProperties.FailedFirstScanSkipsBufferOne`).
- **`create_model` that fails.** The dispatcher's comment "Stay at step 2 so
  the student can re-capture" (`adafruit_r503.py:345-346`) suggests the
  session is already at scan 2. The code sets scan 2 in every case, so a
  failure right after `start_enrollment` jumps from scan 1 to scan 2
  (`DispatchProperties.CreateModelBeforeScansMovesToStepTwo`).
- **`store_model` that fails.** The code leaves the session exactly as it
  was, at whichever scan that is. The slot stored to is the command's own
  argument, not the slot the session was started with.
- **Transport faults of status commands.** A caller might expect a sensor
  fault to come back as an `error` field. In `do_command` and
  `_match_fingerprint` nothing catches a fault of a status command: it ends
  the batch, raising (`DispatchProperties.RaiseEndsBatch`). Only
  `get_readings` catches such faults and turns them into an `error` field.
  Faults of LED commands are a separate matter; see "Left out".

## Model

| member | source | states |
|---|---|---|
| Enrollment.EnsureInitialized | src/models/adafruit_r503.py:145-152 | opens the link once, turning the LED off; on an open link it changes nothing; session, breathing flag and reply queue are kept |
| Enrollment.Reset | src/models/adafruit_r503.py:206-210 | the session becomes idle (no slot, no step, inactive) from any state, and nothing else changes |
| Enrollment.Begin | src/models/adafruit_r503.py:212-217 | the session becomes active at scan 1 for the given slot, whatever it was before; link and flags are kept |
| Enrollment.CaptureStep | src/models/adafruit_r503.py:219-245 | inactive: the not-active message and no change at all; a failed or faulting capture or template leaves the session unchanged; only when both succeed does the session move, to scan 2; the commands sent stop at the first status command that does not succeed; replies used are 1 or 2 |
| Enrollment.CreateModelStep | src/models/adafruit_r503.py:247-255 | never changes the session; inactive: not-active and no sensor call; otherwise it sends one `CreateModel`, and the reply decides fault, error or success |
| Enrollment.StoreModelStep | src/models/adafruit_r503.py:257-267 | inactive: not-active and no sensor call; otherwise it sends `StoreModel(slot)` for the slot given; success makes the session idle; failure or fault leaves it unchanged |
| Enrollment.CreateModelTextDecides | src/models/adafruit_r503.py:247-255 | the dispatcher's text test ("Error" or "did not match" in the message) is true exactly for the helper's failure branch |
| Enrollment.ModelCreatedTextIsNoFailure | src/models/adafruit_r503.py:255 | the `create_model` success text contains neither "Error" nor "did not match" |
| Enrollment.StoreModelTextDecides | src/models/adafruit_r503.py:257-267 | the dispatcher's `startswith("Error")` test is true exactly for the helper's failure branch |
| Text.NatTextRoundTrip | src/models/adafruit_r503.py:264 | the decimal digits `str()` gives a non-negative integer read back as that integer |
| Text.IntText | src/models/adafruit_r503.py:264 | the f-string rendering of an int (also at :217, :228, :233, :267, :321, :375, :377): never empty, and it starts with '-' exactly for a negative integer |
| Text.IntTextRoundTrip | src/models/adafruit_r503.py:264 | the text of any integer, negative slots included, is an optional '-' and digits, and `int()` of it gives the integer back: no two slots or codes print the same |
| Text.StartsWith | src/models/adafruit_r503.py:357 | Python's `str.startswith`: true exactly when `p` is no longer than `s` and every character of `p` is the one of `s` at the same position |
| Text.Contains | src/models/adafruit_r503.py:342 | Python's `p in s` on strings: true exactly when `p` occurs in `s` starting at some position |
| Sensor.Ask | src/models/adafruit_r503.py:173-186 | a status command gets the first pending reply, uses it up, and is appended to the trace; the attributes become those the reply refreshes for that command (`Refreshed`) |
| Sensor.PendingAfter | src/models/adafruit_r503.py:173-186 | after `n` replies are used, the `k`-th pending reply is the original `k+n`-th |
| Sensor.DropDrop | src/models/adafruit_r503.py:173-186 | using `m` replies and then `n` more uses `m + n` |
| Sensor.Refreshed | src/models/adafruit_r503.py:195-196 | a `finger_search` reply with a hit sets `finger_id` and `confidence`, a `read_templates` reply with a list sets `templates`, a `count_templates` reply with a count sets `template_count`; no other command touches that attribute |
| Sensor.Led | src/models/adafruit_r503.py:394 | `set_led(color, mode, speed)`: the command is appended to the trace; it takes no reply and refreshes no attribute |
| Matching.MatchFingerprint | src/models/adafruit_r503.py:269-295 | opens the link, breathes purple, then image → template → search; the first step that does not succeed decides `no_finger`, `template_failed` with its code, or `no_match`, and no later status command is sent; all three succeeding gives `match` with the id and confidence the search reply refreshed; for each outcome the exact command trace (red flash on failure, blue on match, nothing after a fault) and the number of replies used (1, 2 or 3); faults propagate |
| Matching.MatchFieldsRoundTrip | src/models/adafruit_r503.py:278-295 | the status dict `_match_fingerprint` returns determines the match result it came from |
| Matching.MatchFields | src/models/adafruit_r503.py:278-295 | every dict has a `status` string; `code` appears exactly for a failed template, `matched_id` and `confidence` exactly for a match |
| Matching.Flash | src/models/adafruit_r503.py:297-303 | `_flash_led` sends the flash in the given color, then LED off, and uses no reply |
| Matching.ScanFinger | src/models/adafruit_r503.py:171-186 | image → template into buffer 1 → search, stopping at the first step that does not succeed; for each stop, the outcome, the commands sent and the replies used; a successful search reports the id and confidence its reply refreshed |
| Matching.Readings | src/models/adafruit_r503.py:154-204 | the first poll of the driver's life breathes purple and sets the flag; a failed image gives `{finger_detected: false}` and turns the LED off; a failed template or search gives `{finger_detected: true, matched: false}` and a red flash; all three succeeding gives the match dict with the id and confidence the search reply refreshed, and a blue flash; a fault at any step gives `{finger_detected: false, error}` and nothing more is sent; for each outcome the exact command trace and the number of replies used (1, 2 or 3) |
| Matching.StartPoll | src/models/adafruit_r503.py:161-169 | before its capture a poll opens the link and shows the breathing only when it has not been shown; it uses no reply and refreshes nothing |
| Matching.ReadingsShapes | src/models/adafruit_r503.py:171-204 | every poll returns one of the four dicts, and it has `matched_id` exactly when image, template and search all succeed |
| Matching.BreatheOnlyOnFirstPoll | src/models/adafruit_r503.py:164-169 | after any poll, the next poll sends nothing before its image capture: the link is open and the breathing is not shown again |
| Dispatch.ToInt | src/models/adafruit_r503.py:318 | `int(value)`: an integer passes through; a float is truncated toward zero (within 1 of it, same sign); a bool gives 0 or 1; anything else raises |
| Dispatch.DoStartEnrollment | src/models/adafruit_r503.py:316-321 | the session stays valid (outcomes: `DispatchProperties.StartEnrollmentOverwrites`) |
| Dispatch.DoCapture | src/models/adafruit_r503.py:323-334 | the session stays valid; link and breathing flags are kept (outcomes: `DispatchProperties.CaptureCommand`) |
| Dispatch.DoCreateModel | src/models/adafruit_r503.py:336-348 | the session stays valid; link and breathing flags are kept (outcomes: `DispatchProperties.CreateModelCommand`) |
| Dispatch.DoStoreModel | src/models/adafruit_r503.py:350-360 | the session stays valid; link and breathing flags are kept (outcomes: `DispatchProperties.StoreModelCommand`) |
| Dispatch.DoMatchFingerprint | src/models/adafruit_r503.py:366-369 | the session and breathing flag are kept and the link is open afterwards (outcomes: `DispatchProperties.MatchCommand`) |
| Dispatch.DoDeleteModel | src/models/adafruit_r503.py:371-377 | session, link and breathing flags are kept (outcomes: `DispatchProperties.DeleteModelCommand`) |
| Dispatch.DoListTemplates | src/models/adafruit_r503.py:379-383 | session, link and breathing flags are kept (outcomes: `DispatchProperties.TemplateCommands`) |
| Dispatch.DoCountTemplates | src/models/adafruit_r503.py:385-389 | session, link and breathing flags are kept (outcomes: `DispatchProperties.TemplateCommands`) |
| Dispatch.DoTestLed | src/models/adafruit_r503.py:391-400 | session, link and breathing flags are kept (outcomes: `DispatchProperties.TestLedCommand`) |
| Dispatch.Exec | src/models/adafruit_r503.py:316-403 | one command of the loop: the session stays valid, an open link stays open, the breathing flag is kept (per-command outcomes: the `DispatchProperties` lemmas) |
| Dispatch.Run | src/models/adafruit_r503.py:312-405 | the loop: each command's fields are merged in order, a later write to a field replacing an earlier one; a raise ends the batch; the session stays valid and the breathing flag is kept |
| Dispatch.Batch | src/models/adafruit_r503.py:305-315 | `do_command` opens the link, then runs the batch; the link is open afterwards |
| DispatchProperties.StartEnrollmentOverwrites | src/models/adafruit_r503.py:316-321 | `start_enrollment` with an integer argument gives the session `_begin_enrollment` would, over any previous session; an argument `int()` rejects raises with the session already cleared |
| DispatchProperties.CaptureCommand | src/models/adafruit_r503.py:323-334 | refused with an `error` and no change when no session is active; otherwise, unless a fault propagates, a `message` and the session at scan 2 even after a failed scan; a fault leaves the session unchanged |
| DispatchProperties.CreateModelCommand | src/models/adafruit_r503.py:336-348 | inactive: `error` and no change; a sensor failure gives a `message` with `rescan_required: true` and the session at scan 2 with the same slot; success gives a `message` and an untouched session; one reply is used |
| DispatchProperties.StoreModelCommand | src/models/adafruit_r503.py:350-360 | inactive: `error`, no sensor call, for any argument; otherwise it stores at the argument's slot; success gives a `message` and an idle session; failure gives an `error` and an unchanged session |
| DispatchProperties.ResetCommand | src/models/adafruit_r503.py:362-364 | `reset_enrollment` gives its `message` and the idle session from any state |
| DispatchProperties.ResetTwiceIsResetOnce | src/models/adafruit_r503.py:206-210 | a second call that resets changes nothing more than the first did |
| DispatchProperties.MatchCommand | src/models/adafruit_r503.py:366-369 | `match_fingerprint` merges the match dict, from which the match result reads back; a fault propagates |
| DispatchProperties.DeleteModelCommand | src/models/adafruit_r503.py:371-377 | deletes at the argument's slot; success gives a `message`, any other status an `error`; a bad argument raises before any sensor call |
| DispatchProperties.TemplateCommands | src/models/adafruit_r503.py:379-389 | `list_templates` and `count_templates` send their one command and use one reply; on success they report the list or count that reply refreshed, on failure their fixed `error`, and a fault propagates |
| DispatchProperties.TestLedCommand | src/models/adafruit_r503.py:391-400 | the LED goes to purple breathing exactly when the value is `True` itself, and is turned off for any other value |
| DispatchProperties.UnknownCommand | src/models/adafruit_r503.py:402-403 | an unknown name writes only `error: "Unknown command: <name>"` and changes nothing |
| DispatchProperties.RunSkipsUnknown | src/models/adafruit_r503.py:315-405 | an unknown command anywhere in a batch does not stop it: the same end state, the same exception, or the same fields apart from `error`, which is then present |
| DispatchProperties.RaiseEndsBatch | src/models/adafruit_r503.py:315-405 | once a prefix of the batch raises, the rest of the batch is not run |
| DispatchProperties.BatchOfOne | src/models/adafruit_r503.py:305-315 | on an open link, a one-command call is that command alone |
| DispatchProperties.StartAndScanTwice | src/models/adafruit_r503.py:316-334 | start at slot 5 and two successful scans, one call each, leave the session active at scan 2 with four replies used |
| DispatchProperties.EnrollmentWalkthrough | src/models/adafruit_r503.py:316-360 | start 5, capture, capture, create, store 5, one call each, all answered with success: every call reports a `message`, the last sends `StoreModel(5)` and the session ends idle |
| DispatchProperties.FailedFirstScanSkipsBufferOne | src/models/adafruit_r503.py:323-334 | a failed first scan followed by a good one templates only into buffer 2 |
| DispatchProperties.CreateModelBeforeScansMovesToStepTwo | src/models/adafruit_r503.py:336-348 | a failing `create_model` right after `start_enrollment` asks for a rescan and puts the session at scan 2 |
| Pixels.Shade | src/models/adafruit_r503.py:122-136 | every pixel is one of the sixteen shades 0, 17, …, 255, and a pixel no byte reaches stays white |
| Pixels.HighShade | src/models/adafruit_r503.py:129 | a byte's high nibble as one of the sixteen shades: a multiple of 17 in 0..255 whose seventeenth is `byte / 16`, so the mask changes nothing on a byte |
| Pixels.LowShade | src/models/adafruit_r503.py:131 | a byte's low nibble as one of the sixteen shades: a multiple of 17 in 0..255 whose seventeenth is `byte % 16` |
| Pixels.ShadesRoundTrip | src/models/adafruit_r503.py:127-136 | byte `j` is recovered from the pixels at row-major positions `2j` (high nibble) and `2j+1` (low nibble) |
| Pixels.UnpackImage | src/models/adafruit_r503.py:122-136 | the loop writes the white 256 × 288 image as `Shade` describes, and raises the out-of-range pixel error exactly when more than 36864 bytes arrive |
| Ports.Smallest | src/models/adafruit_r503.py:67-69 | `sorted(ports)[0]`: an element of the list at or below every other in Python's string order |
| Ports.LexLe | src/models/adafruit_r503.py:67 | the string order `sorted` uses: `a <= b` exactly when `a` is a prefix of `b`, or at the first position where they differ `a` has the smaller code point |
| Ports.LexLeTotal | src/models/adafruit_r503.py:67 | Python's string order is total |
| Ports.LexLeTransitive | src/models/adafruit_r503.py:67 | Python's string order is transitive |
| Ports.LexLeAntisymmetric | src/models/adafruit_r503.py:67 | two strings at or below each other are equal |
| Ports.SmallestUnique | src/models/adafruit_r503.py:67-69 | only one element sorts first |
| Ports.SelectPort | src/models/adafruit_r503.py:62-71 | a string `serial_port` attribute wins; otherwise the first device in sorted order; with neither, the "No available serial ports" error |
| Ports.SelectPortIgnoresOrder | src/models/adafruit_r503.py:67-69 | the order the glob lists the devices in does not change the port chosen |
| Driver.AdafruitR503.constructor | src/models/adafruit_r503.py:26-31 | a new component has an idle session, a closed link and no breathing shown |
| Driver.AdafruitR503.Reconfigure | src/models/adafruit_r503.py:62-71 | stores `SelectPort`'s choice in `serialPort`, or raises its error leaving the port as it was |
| Driver.AdafruitR503.Query | src/models/adafruit_r503.py:173 | every `self.finger.*` status call: the reply and the new link are those of `Ask`; nothing else on the object changes |
| Driver.AdafruitR503.SetLed | src/models/adafruit_r503.py:394 | `self.finger.set_led(...)`: the link becomes `Led` of the old one; nothing else on the object changes |
| Driver.AdafruitR503.FlashLed | src/models/adafruit_r503.py:297-303 | flashes the color, then turns the LED off |
| Driver.AdafruitR503.EnsureFingerInitialized | src/models/adafruit_r503.py:145-152 | moves the object as `EnsureInitialized` |
| Driver.AdafruitR503.ResetEnrollmentState | src/models/adafruit_r503.py:206-210 | moves the object as `Reset` |
| Driver.AdafruitR503.BeginEnrollment | src/models/adafruit_r503.py:212-217 | returns the message and moves the object as `Begin` |
| Driver.AdafruitR503.EnrollmentCaptureStep | src/models/adafruit_r503.py:219-245 | result and new fields are those of `CaptureStep` |
| Driver.AdafruitR503.EnrollmentCreateModel | src/models/adafruit_r503.py:247-255 | result and new fields are those of `CreateModelStep` |
| Driver.AdafruitR503.EnrollmentStoreModel | src/models/adafruit_r503.py:257-267 | result and new fields are those of `StoreModelStep` |
| Driver.AdafruitR503.MatchFingerprint | src/models/adafruit_r503.py:269-295 | result and new fields are those of `Matching.MatchFingerprint` |
| Driver.AdafruitR503.GetReadings | src/models/adafruit_r503.py:154-204 | result and new fields are those of `Readings` |
| Driver.AdafruitR503.DoStartEnrollment | src/models/adafruit_r503.py:316-321 | the `start_enrollment` branch, as `Dispatch.DoStartEnrollment` |
| Driver.AdafruitR503.DoCapture | src/models/adafruit_r503.py:323-334 | the `capture` branch, as `Dispatch.DoCapture` |
| Driver.AdafruitR503.DoCreateModel | src/models/adafruit_r503.py:336-348 | the `create_model` branch, as `Dispatch.DoCreateModel` |
| Driver.AdafruitR503.DoStoreModel | src/models/adafruit_r503.py:350-360 | the `store_model` branch, as `Dispatch.DoStoreModel` |
| Driver.AdafruitR503.DoMatchFingerprint | src/models/adafruit_r503.py:366-369 | the `match_fingerprint` branch, as `Dispatch.DoMatchFingerprint` |
| Driver.AdafruitR503.DoDeleteModel | src/models/adafruit_r503.py:371-377 | the `delete_model` branch, as `Dispatch.DoDeleteModel` |
| Driver.AdafruitR503.DoListTemplates | src/models/adafruit_r503.py:379-383 | the `list_templates` branch, as `Dispatch.DoListTemplates` |
| Driver.AdafruitR503.DoCountTemplates | src/models/adafruit_r503.py:385-389 | the `count_templates` branch, as `Dispatch.DoCountTemplates` |
| Driver.AdafruitR503.DoTestLed | src/models/adafruit_r503.py:391-400 | the `test_led` branch, as `Dispatch.DoTestLed` |
| Driver.AdafruitR503.Execute | src/models/adafruit_r503.py:316-403 | one pass of the loop body: the fields written and the new state are those of `Exec` |
| Driver.AdafruitR503.DoCommand | src/models/adafruit_r503.py:305-405 | the result dict (or exception) and the new fields are those of `Batch`, proved by the loop invariant that the fields merged so far and the state are `Run` of the commands done |

## Left out

- Serial I/O and the `adafruit_fingerprint` library are not part of this model. The library is the `Link` oracle, and its packet protocol is not modelled. Opening the serial port never fails in the model.
- LED commands never fail in the model. So the `except` around `set_led` in `_ensure_finger_initialized`, `_flash_led` and `test_led` is never taken, and the `"LED test failed"` error is not produced. In `get_readings` the first poll's breathing `set_led` calls (`adafruit_r503.py:166-168`) sit outside the `try`, so in the source a failure there escapes `get_readings`; `Matching.ReadingsShapes`' "every poll returns one of the four dicts" holds because LED commands never fail in the model.
- `time.sleep` waits and logging are not modelled.
- `_enroll_finger` is not modelled. Its polling loops end only when the hardware changes state.
- In `_save_fingerprint_image`, the wait loop for an image, the image upload, `Image.new` and `img.save` are left out. The upload becomes the method's argument, and the image is a fresh array.
- `validate_config`, the framework's `reconfigure` call, `glob`, `get_geometries` and `src/main.py` are framework glue and are not modelled.
- Dispatch.ToInt: `int()` on a string raises in the model. Python would parse a decimal string; strings are not expected as slot arguments.
- Dispatch.Run: the batch is a sequence of (name, argument) pairs with distinct names, in the dict's insertion order. So a command cannot repeat within one call, as it cannot in a dict. Repeated steps are modelled as separate calls.
- Matching.Readings: the `int()` applied to `finger_id` and `confidence` is the identity, because the library holds them as integers.
- Sensor.Ask: which payload a reply carries is part of the oracle; the model does not check that a `finger_search` reply with success really carries a hit, so without one the attributes keep their earlier values.
- Sensor status codes other than `OK` (`NOFINGER`, `IMAGEFAIL` and the rest) are all "not OK". The source never tells them apart outside `_enroll_finger`.
- `OK` is the library's success status, 0.
