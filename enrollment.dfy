/** The enrollment session of `AdafruitR503` (src/models/adafruit_r503.py)
    and the helpers that move it: `_reset_enrollment_state`,
    `_begin_enrollment`, `_enrollment_capture_step`,
    `_enrollment_create_model` and `_enrollment_store_model`. Each helper is
    a function from the driver's state before the call to its result and the
    state after it; the sensor answers through the `Link` oracle. */
module Enrollment {
  import opened Wrappers
  import opened Text
  import opened Sensor

  /** The three fields `_enrollment_active`, `_enrollment_id`, `_enrollment_step`. */
  datatype Session = Session(active: bool, id: Option<int>, step: Option<int>) {
    /** An active session has a slot and is at scan 1 or 2; an idle one has neither. */
    predicate Valid() {
      if active then id.Some? && (step == Some(1) || step == Some(2))
      else id.None? && step.None?
    }
  }

  const Idle: Session := Session(false, None, None)

  /** What a helper reports. The source returns bare strings and the
      dispatcher tells them apart by their text; the tag records which branch
      produced the text. */
  datatype Msg = Ok(text: string) | Err(text: string) | NotActive(text: string)

  /** Everything the driver keeps between calls: the session, the sensor
      link, whether the link has been opened (`hasattr(self, "finger")`) and
      whether the startup breathing has been shown (`_did_purple_breathe`). */
  datatype State = State(session: Session, finger: Link, linked: bool, breathed: bool)

  /** The status byte is the success code. */
  predicate Succeeded(r: Reply) {
    r.Status? && r.code == OK
  }

  /** The sensor answered, with a status byte other than success. */
  predicate Failed(r: Reply) {
    r.Status? && r.code != OK
  }

  /** `_ensure_finger_initialized`: opens the link once, turning the LED off;
      later calls change nothing. */
  function EnsureInitialized(st: State): (r: State)
    ensures r.linked
    ensures st.linked ==> r == st
    ensures r.session == st.session && r.breathed == st.breathed
    ensures r.finger.replies == st.finger.replies
    ensures r.finger.fingerId == st.finger.fingerId && r.finger.confidence == st.finger.confidence
    ensures r.finger.templates == st.finger.templates && r.finger.templateCount == st.finger.templateCount
    ensures !st.linked ==> r.finger.sent == st.finger.sent + [SetLed(1, 4, None)]
  {
    if st.linked then st
    else
      st.(linked := true, finger := Led(st.finger, 1, 4, None))
  }

  /** `_reset_enrollment_state`. */
  function Reset(st: State): (r: State)
    ensures r.session == Idle && r.session.Valid()
    ensures r.finger == st.finger && r.linked == st.linked && r.breathed == st.breathed
  {
    st.(session := Idle)
  }

  /** `_begin_enrollment(slot)`: starts a session at scan 1 for `slot`, over
      whatever session there was. */
  function Begin(st: State, slot: int): (out: (string, State))
    ensures out.1.session == Session(true, Some(slot), Some(1)) && out.1.session.Valid()
    ensures out.1.finger == st.finger && out.1.linked == st.linked && out.1.breathed == st.breathed
  {
    ("Enrollment started for slot " + IntText(slot) + ". Place your finger on the sensor.",
     st.(session := Session(true, Some(slot), Some(1))))
  }

  const CaptureNotActiveText := "Enrollment not active. Run 'start_enrollment' first."
  const NotActiveText := "Enrollment not active."
  /** Written in three pieces so that the verifier can see, piece by piece,
      which characters it holds. */
  const ModelCreatedText := "Model created. " + "You can now run " + "'store_model' to save it."

  /** `_enrollment_capture_step`: scans the finger and templates it into the
      buffer of the current step. Only complete success moves the session,
      and only from scan 1 to scan 2. The status commands it sends stop at
      the first one that does not succeed. */
  function CaptureStep(st: State): (out: (Try<Msg>, State))
    requires st.session.Valid()
    ensures out.1.session.Valid()
    ensures out.1.linked == st.linked && out.1.breathed == st.breathed
    ensures !st.session.active ==> out.0.Returned? && out.0.value.NotActive? && out.1 == st
    ensures st.session.active && Pending(st.finger, 0).Fault? ==>
              out.0 == Raised(Pending(st.finger, 0).reason) && out.1.session == st.session
    ensures st.session.active && Failed(Pending(st.finger, 0)) ==>
              out.0.Returned? && out.0.value.Err? && out.1.session == st.session
    ensures st.session.active && Succeeded(Pending(st.finger, 0)) && Pending(st.finger, 1).Fault? ==>
              out.0 == Raised(Pending(st.finger, 1).reason) && out.1.session == st.session
    ensures st.session.active && Succeeded(Pending(st.finger, 0)) && Failed(Pending(st.finger, 1)) ==>
              out.0.Returned? && out.0.value.Err? && out.1.session == st.session
    ensures st.session.active && Succeeded(Pending(st.finger, 0)) && Succeeded(Pending(st.finger, 1)) ==>
              out.0.Returned? && out.0.value.Ok? && out.1.session == st.session.(step := Some(2))
    ensures st.session.active && Pending(st.finger, 0).Fault? ==>
              out.1.finger.sent == st.finger.sent + [SetLed(2, 1, None), GetImage]
    ensures st.session.active && Failed(Pending(st.finger, 0)) ==>
              out.1.finger.sent == st.finger.sent + [SetLed(2, 1, None), GetImage, SetLed(1, 1, None)]
    ensures st.session.active && Succeeded(Pending(st.finger, 0)) ==>
              var tried := st.finger.sent + [SetLed(2, 1, None), GetImage, Image2Tz(st.session.step.value)];
              && (Pending(st.finger, 1).Fault? ==> out.1.finger.sent == tried)
              && (Failed(Pending(st.finger, 1)) ==> out.1.finger.sent == tried + [SetLed(1, 1, None)])
              && (Succeeded(Pending(st.finger, 1)) ==> out.1.finger.sent == tried + [SetLed(1, 4, None)])
    ensures st.session.active && !Succeeded(Pending(st.finger, 0)) ==> out.1.finger.replies == Drop(st.finger.replies, 1)
    ensures st.session.active && Succeeded(Pending(st.finger, 0)) ==> out.1.finger.replies == Drop(st.finger.replies, 2)
  {
    var s := st.session;
    if !s.active || s.id.None? then (Returned(NotActive(CaptureNotActiveText)), st)
    else
      var step := s.step.value;
      var f0 := Led(st.finger, 2, 1, None);
      var (image, f1) := Ask(f0, GetImage);
      if image.Fault? then (Raised(image.reason), st.(finger := f1))
      else if image.code != OK then
        (Returned(Err("Error capturing image: " + IntText(image.code))),
         st.(finger := Led(f1, 1, 1, None)))
      else
        var (tz, f2) := Ask(f1, Image2Tz(step));
        assert f2.sent == st.finger.sent + [SetLed(2, 1, None), GetImage, Image2Tz(step)];
        assert f2.replies == Drop(st.finger.replies, 2) by {
          if 2 <= |st.finger.replies| {
            assert st.finger.replies[1..][1..] == st.finger.replies[2..];
          }
        }
        if tz.Fault? then (Raised(tz.reason), st.(finger := f2))
        else if tz.code != OK then
          (Returned(Err("Error templating image at step " + IntText(step) + ": " + IntText(tz.code))),
           st.(finger := Led(f2, 1, 1, None)))
        else
          var f3 := Led(f2, 1, 4, None);
          var done := "Step " + IntText(step) + " completed.";
          if step == 1 then
            (Returned(Ok(done + " Remove finger and place again for step 2.")),
             st.(finger := f3, session := s.(step := Some(2))))
          else
            (Returned(Ok(done + " Both scans captured. Call 'create_model'.")), st.(finger := f3))
  }

  /** `_enrollment_create_model`: fuses the two templates. It never touches
      the session, whatever the sensor says. */
  function CreateModelStep(st: State): (out: (Try<Msg>, State))
    requires st.session.Valid()
    ensures out.1.session == st.session
    ensures out.1.linked == st.linked && out.1.breathed == st.breathed
    ensures !st.session.active ==> out.0.Returned? && out.0.value.NotActive? && out.1 == st
    ensures st.session.active ==> out.1.finger.sent == st.finger.sent + [CreateModel]
    ensures st.session.active ==> out.1.finger.replies == Drop(st.finger.replies, 1)
    ensures st.session.active && Pending(st.finger, 0).Fault? ==> out.0 == Raised(Pending(st.finger, 0).reason)
    ensures st.session.active && Failed(Pending(st.finger, 0)) ==> out.0.Returned? && out.0.value.Err?
    ensures st.session.active && Succeeded(Pending(st.finger, 0)) ==> out.0.Returned? && out.0.value.Ok?
  {
    if !st.session.active then (Returned(NotActive(NotActiveText)), st)
    else
      var (i, f) := Ask(st.finger, CreateModel);
      if i.Fault? then (Raised(i.reason), st.(finger := f))
      else if i.code != OK then (Returned(Err("Error creating model: " + IntText(i.code))), st.(finger := f))
      else (Returned(Ok(ModelCreatedText)), st.(finger := f))
  }

  /** `_enrollment_store_model(slot)`: stores the model at `slot` (which may
      differ from the slot the session was started with). Success ends the
      session; failure leaves it as it was. */
  function StoreModelStep(st: State, slot: int): (out: (Try<Msg>, State))
    requires st.session.Valid()
    ensures out.1.session.Valid()
    ensures out.1.linked == st.linked && out.1.breathed == st.breathed
    ensures !st.session.active ==> out.0.Returned? && out.0.value.NotActive? && out.1 == st
    ensures st.session.active ==> out.1.finger.sent == st.finger.sent + [StoreModel(slot)]
    ensures st.session.active ==> out.1.finger.replies == Drop(st.finger.replies, 1)
    ensures st.session.active && Pending(st.finger, 0).Fault? ==>
              out.0 == Raised(Pending(st.finger, 0).reason) && out.1.session == st.session
    ensures st.session.active && Failed(Pending(st.finger, 0)) ==>
              out.0.Returned? && out.0.value.Err? && out.1.session == st.session
    ensures st.session.active && Succeeded(Pending(st.finger, 0)) ==>
              out.0.Returned? && out.0.value.Ok? && out.1.session == Idle
  {
    if !st.session.active then (Returned(NotActive(NotActiveText)), st)
    else
      var (i, f) := Ask(st.finger, StoreModel(slot));
      if i.Fault? then (Raised(i.reason), st.(finger := f))
      else if i.code != OK then
        (Returned(Err("Error storing model at slot " + IntText(slot) + ": " + IntText(i.code))), st.(finger := f))
      else
        (Returned(Ok("Model stored successfully at slot " + IntText(slot) + ".")), Reset(st.(finger := f)))
  }

  /** The success text of `create_model` contains neither failure marker. */
  lemma ModelCreatedTextIsNoFailure()
    ensures !Contains(ModelCreatedText, "Error") && !Contains(ModelCreatedText, "did not match")
  {
    assert 'E' !in ModelCreatedText && 'h' !in ModelCreatedText;
    MissingCharNotContained(ModelCreatedText, "Error", 'E');
    MissingCharNotContained(ModelCreatedText, "did not match", 'h');
  }

  /** The dispatcher treats a `create_model` reply as a failure when its text
      contains "Error" or "did not match"; on an active session that test
      picks out exactly the failure branch. */
  lemma CreateModelTextDecides(st: State)
    requires st.session.Valid() && st.session.active
    ensures var r := CreateModelStep(st).0;
            r.Returned? ==> (Contains(r.value.text, "Error") || Contains(r.value.text, "did not match") <==> r.value.Err?)
  {
    var i := Pending(st.finger, 0);
    if Failed(i) {
      var t := "Error creating model: " + IntText(i.code);
      assert t[..5] == "Error";
      assert CreateModelStep(st).0 == Returned(Err(t));
    } else if Succeeded(i) {
      ModelCreatedTextIsNoFailure();
      assert CreateModelStep(st).0 == Returned(Ok(ModelCreatedText));
    }
  }

  /** The dispatcher treats a `store_model` reply as a failure when its text
      starts with "Error"; on an active session that test picks out exactly
      the failure branch. */
  lemma StoreModelTextDecides(st: State, slot: int)
    requires st.session.Valid() && st.session.active
    ensures var r := StoreModelStep(st, slot).0;
            r.Returned? ==> (StartsWith(r.value.text, "Error") <==> r.value.Err?)
  {
    var i := Pending(st.finger, 0);
    if Failed(i) {
      var t := "Error storing model at slot " + IntText(slot) + ": " + IntText(i.code);
      assert t[..5] == "Error";
      assert StoreModelStep(st, slot).0 == Returned(Err(t));
    } else if Succeeded(i) {
      var t := "Model stored successfully at slot " + IntText(slot) + ".";
      assert t[0] == 'M';
      assert StoreModelStep(st, slot).0 == Returned(Ok(t));
    }
  }
}
