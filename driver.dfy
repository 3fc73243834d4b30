/** The `AdafruitR503` sensor component (src/models/adafruit_r503.py) as an
    object: its fields are the ones the source keeps on `self`, and each
    method changes them as the source does. Every method is proved to move
    the object exactly as the matching function of the Enrollment, Matching
    and Dispatch modules moves the abstract `State`, so what is proved about
    those functions holds of the object. */
module Driver {
  import opened Wrappers
  import opened Values
  import opened Text
  import opened Sensor
  import opened Enrollment
  import opened Matching
  import opened Dispatch
  import opened DispatchProperties
  import opened Ports

  class AdafruitR503 {
    var enrollmentActive: bool
    var enrollmentId: Option<int>
    var enrollmentStep: Option<int>
    /** The driver-library object; meaningful once `fingerLinked` holds. */
    var finger: Link
    /** `hasattr(self, "finger")`. */
    var fingerLinked: bool
    /** `hasattr(self, "_did_purple_breathe")`. */
    var didPurpleBreathe: bool
    var serialPort: Option<string>

    /** The object seen as the abstract driver state. */
    ghost function Abs(): State
      reads this
    {
      State(Session(enrollmentActive, enrollmentId, enrollmentStep), finger, fingerLinked, didPurpleBreathe)
    }

    ghost predicate Valid()
      reads this
    {
      Abs().session.Valid()
    }

    /** `new`: a fresh component with no session; `device` is the sensor the
        link will reach once it is opened. */
    constructor (device: Link)
      ensures Valid() && Abs() == State(Idle, device, false, false) && serialPort == None
    {
      enrollmentActive, enrollmentId, enrollmentStep := false, None, None;
      finger := device;
      fingerLinked, didPurpleBreathe := false, false;
      serialPort := None;
    }

    /** `reconfigure`: picks the serial port, or raises when there is none. */
    method Reconfigure(field: Option<ConfigField>, found: seq<string>) returns (r: Try<()>)
      modifies this
      ensures SelectPort(field, found).Returned? ==>
                r == Returned(()) && serialPort == Some(SelectPort(field, found).value)
      ensures SelectPort(field, found).Raised? ==>
                r == Raised(SelectPort(field, found).error) && serialPort == old(serialPort)
      ensures Abs() == old(Abs())
    {
      var port := SelectPort(field, found);
      if port.Raised? {
        return Raised(port.error);
      }
      serialPort := Some(port.value);
      return Returned(());
    }

    /** One status command to the sensor. */
    method Query(c: Command) returns (r: Reply)
      requires !c.SetLed?
      modifies this
      ensures serialPort == old(serialPort)
      ensures (r, finger) == Ask(old(finger), c)
      ensures Abs() == old(Abs()).(finger := finger)
    {
      var (reply, link) := Ask(finger, c);
      r, finger := reply, link;
    }

    /** `set_led`. */
    method SetLed(color: int, mode: int, speed: Option<int>)
      modifies this
      ensures serialPort == old(serialPort)
      ensures Abs() == old(Abs()).(finger := Led(old(finger), color, mode, speed))
    {
      finger := Led(finger, color, mode, speed);
    }

    /** `_flash_led(color)`. */
    method FlashLed(color: int)
      modifies this
      ensures serialPort == old(serialPort)
      ensures Abs() == old(Abs()).(finger := Flash(old(finger), color))
    {
      SetLed(color, 2, Some(100));
      SetLed(1, 4, None);
    }

    /** `_ensure_finger_initialized`. */
    method EnsureFingerInitialized()
      modifies this
      ensures serialPort == old(serialPort)
      ensures Abs() == EnsureInitialized(old(Abs()))
    {
      if !fingerLinked {
        fingerLinked := true;
        SetLed(1, 4, None);
      }
    }

    /** `_reset_enrollment_state`. */
    method ResetEnrollmentState()
      modifies this
      ensures serialPort == old(serialPort)
      ensures Abs() == Reset(old(Abs())) && Valid()
    {
      enrollmentStep := None;
      enrollmentId := None;
      enrollmentActive := false;
    }

    /** `_begin_enrollment(slot)`. */
    method BeginEnrollment(slot: int) returns (msg: string)
      modifies this
      ensures serialPort == old(serialPort)
      ensures (msg, Abs()) == Begin(old(Abs()), slot) && Valid()
    {
      enrollmentId := Some(slot);
      enrollmentStep := Some(1);
      enrollmentActive := true;
      msg := "Enrollment started for slot " + IntText(slot) + ". Place your finger on the sensor.";
    }

    /** `_enrollment_capture_step`. */
    method EnrollmentCaptureStep() returns (r: Try<Msg>)
      requires Valid()
      modifies this
      ensures serialPort == old(serialPort)
      ensures (r, Abs()) == CaptureStep(old(Abs())) && Valid()
    {
      if !enrollmentActive || enrollmentId.None? {
        return Returned(NotActive(CaptureNotActiveText));
      }
      var step := enrollmentStep.value;
      SetLed(2, 1, None);
      var i := Query(GetImage);
      if i.Fault? {
        return Raised(i.reason);
      }
      if i.code != OK {
        SetLed(1, 1, None);
        return Returned(Err("Error capturing image: " + IntText(i.code)));
      }
      i := Query(Image2Tz(step));
      if i.Fault? {
        return Raised(i.reason);
      }
      if i.code != OK {
        SetLed(1, 1, None);
        return Returned(Err("Error templating image at step " + IntText(step) + ": " + IntText(i.code)));
      }
      SetLed(1, 4, None);
      var msg := "Step " + IntText(step) + " completed.";
      if step == 1 {
        enrollmentStep := Some(2);
        msg := msg + " Remove finger and place again for step 2.";
      } else {
        msg := msg + " Both scans captured. Call 'create_model'.";
      }
      return Returned(Ok(msg));
    }

    /** `_enrollment_create_model`. */
    method EnrollmentCreateModel() returns (r: Try<Msg>)
      requires Valid()
      modifies this
      ensures serialPort == old(serialPort)
      ensures (r, Abs()) == CreateModelStep(old(Abs())) && Valid()
    {
      if !enrollmentActive {
        return Returned(NotActive(NotActiveText));
      }
      var i := Query(CreateModel);
      if i.Fault? {
        return Raised(i.reason);
      }
      if i.code != OK {
        return Returned(Err("Error creating model: " + IntText(i.code)));
      }
      return Returned(Ok(ModelCreatedText));
    }

    /** `_enrollment_store_model(slot)`. */
    method EnrollmentStoreModel(slot: int) returns (r: Try<Msg>)
      requires Valid()
      modifies this
      ensures serialPort == old(serialPort)
      ensures (r, Abs()) == StoreModelStep(old(Abs()), slot) && Valid()
    {
      if !enrollmentActive {
        return Returned(NotActive(NotActiveText));
      }
      var i := Query(StoreModel(slot));
      if i.Fault? {
        return Raised(i.reason);
      }
      if i.code != OK {
        return Returned(Err("Error storing model at slot " + IntText(slot) + ": " + IntText(i.code)));
      }
      ResetEnrollmentState();
      return Returned(Ok("Model stored successfully at slot " + IntText(slot) + "."));
    }

    /** `_match_fingerprint`. */
    method MatchFingerprint() returns (r: Try<MatchResult>)
      modifies this
      ensures serialPort == old(serialPort)
      ensures (r, Abs()) == Matching.MatchFingerprint(old(Abs()))
    {
      EnsureFingerInitialized();
      SetLed(3, 1, None);
      var i := Query(GetImage);
      if i.Fault? {
        return Raised(i.reason);
      }
      if i.code != OK {
        FlashLed(1);
        return Returned(NoFinger);
      }
      i := Query(Image2Tz(1));
      if i.Fault? {
        return Raised(i.reason);
      }
      if i.code != OK {
        FlashLed(1);
        return Returned(TemplateFailed(i.code));
      }
      i := Query(FingerSearch);
      if i.Fault? {
        return Raised(i.reason);
      }
      if i.code != OK {
        FlashLed(1);
        return Returned(NoMatch);
      }
      FlashLed(2);
      return Returned(Matched(finger.fingerId, finger.confidence));
    }

    /** `get_readings`. */
    method GetReadings() returns (r: Fields)
      modifies this
      ensures serialPort == old(serialPort)
      ensures (r, Abs()) == Readings(old(Abs()))
    {
      EnsureFingerInitialized();
      if !didPurpleBreathe {
        SetLed(3, 1, None);
        SetLed(1, 4, None);
        didPurpleBreathe := true;
      }
      ghost var start := Abs();
      assert start == StartPoll(old(Abs()));
      ghost var scan := ScanFinger(start.finger);
      var i := Query(GetImage);
      if i.Fault? {
        assert scan == (Broke(i.reason), finger);
        return ErrorFields(i.reason);
      }
      if i.code != OK {
        assert scan == (NoImage, finger);
        SetLed(0, 4, None);
        return NoFingerFields;
      }
      i := Query(Image2Tz(1));
      if i.Fault? {
        assert scan == (Broke(i.reason), finger);
        return ErrorFields(i.reason);
      }
      if i.code != OK {
        assert scan == (NoTemplate(i.code), finger);
        SetLed(1, 2, Some(100));
        return NotMatchedFields;
      }
      i := Query(FingerSearch);
      if i.Fault? {
        assert scan == (Broke(i.reason), finger);
        return ErrorFields(i.reason);
      }
      if i.code != OK {
        assert scan == (NoHit, finger);
        SetLed(1, 2, Some(100));
        return NotMatchedFields;
      }
      assert scan == (Found(finger.fingerId, finger.confidence), finger);
      SetLed(2, 2, Some(100));
      return MatchedFields(finger.fingerId, finger.confidence);
    }

    /** The `start_enrollment` branch of `do_command`. */
    method DoStartEnrollment(arg: Arg) returns (r: Try<Fields>)
      modifies this
      ensures serialPort == old(serialPort)
      ensures (r, Abs()) == Dispatch.DoStartEnrollment(old(Abs()), arg) && Valid()
    {
      ResetEnrollmentState();
      var v := ToInt(arg);
      if v.Raised? {
        return Raised(v.error);
      }
      enrollmentId := Some(v.value);
      enrollmentStep := Some(1);
      enrollmentActive := true;
      return Returned(map["message" := Str("Enrollment started at slot " + IntText(v.value) + ". Place finger for scan 1.")]);
    }

    /** The `capture` branch of `do_command`. */
    method DoCapture() returns (r: Try<Fields>)
      requires Valid()
      modifies this
      ensures serialPort == old(serialPort)
      ensures (r, Abs()) == Dispatch.DoCapture(old(Abs())) && Valid()
    {
      if !enrollmentActive || (enrollmentStep != Some(1) && enrollmentStep != Some(2)) {
        return Returned(map["error" := Str(CaptureRefusedText)]);
      }
      var m := EnrollmentCaptureStep();
      if m.Raised? {
        return Raised(m.error);
      }
      if enrollmentStep == Some(1) {
        enrollmentStep := Some(2);
      }
      return Returned(map["message" := Str(m.value.text)]);
    }

    /** The `create_model` branch of `do_command`. */
    method DoCreateModel() returns (r: Try<Fields>)
      requires Valid()
      modifies this
      ensures serialPort == old(serialPort)
      ensures (r, Abs()) == Dispatch.DoCreateModel(old(Abs())) && Valid()
    {
      if !enrollmentActive {
        return Returned(map["error" := Str(InactiveText)]);
      }
      var m := EnrollmentCreateModel();
      if m.Raised? {
        return Raised(m.error);
      }
      if Contains(m.value.text, "Error") || Contains(m.value.text, "did not match") {
        enrollmentStep := Some(2);
        return Returned(map["message" := Str(m.value.text), "rescan_required" := Bool(true)]);
      }
      return Returned(map["message" := Str(m.value.text)]);
    }

    /** The `store_model` branch of `do_command`. */
    method DoStoreModel(arg: Arg) returns (r: Try<Fields>)
      requires Valid()
      modifies this
      ensures serialPort == old(serialPort)
      ensures (r, Abs()) == Dispatch.DoStoreModel(old(Abs()), arg) && Valid()
    {
      if !enrollmentActive {
        return Returned(map["error" := Str(InactiveText)]);
      }
      var slot := ToInt(arg);
      if slot.Raised? {
        return Raised(slot.error);
      }
      var m := EnrollmentStoreModel(slot.value);
      if m.Raised? {
        return Raised(m.error);
      }
      if StartsWith(m.value.text, "Error") {
        return Returned(map["error" := Str(m.value.text)]);
      }
      return Returned(map["message" := Str(m.value.text)]);
    }

    /** The `match_fingerprint` branch of `do_command`. */
    method DoMatchFingerprint() returns (r: Try<Fields>)
      modifies this
      ensures serialPort == old(serialPort)
      ensures (r, Abs()) == Dispatch.DoMatchFingerprint(old(Abs()))
    {
      var m := MatchFingerprint();
      if m.Raised? {
        return Raised(m.error);
      }
      return Returned(MatchFields(m.value));
    }

    /** The `delete_model` branch of `do_command`. */
    method DoDeleteModel(arg: Arg) returns (r: Try<Fields>)
      modifies this
      ensures serialPort == old(serialPort)
      ensures (r, Abs()) == Dispatch.DoDeleteModel(old(Abs()), arg)
    {
      var slot := ToInt(arg);
      if slot.Raised? {
        return Raised(slot.error);
      }
      var i := Query(DeleteModel(slot.value));
      if i.Fault? {
        return Raised(i.reason);
      }
      if i.code == OK {
        return Returned(map["message" := Str("Deleted fingerprint at slot " + IntText(slot.value))]);
      }
      return Returned(map["error" := Str("Failed to delete slot " + IntText(slot.value) + ": code " + IntText(i.code))]);
    }

    /** The `list_templates` branch of `do_command`. */
    method DoListTemplates() returns (r: Try<Fields>)
      modifies this
      ensures serialPort == old(serialPort)
      ensures (r, Abs()) == Dispatch.DoListTemplates(old(Abs()))
    {
      var i := Query(ReadTemplates);
      if i.Fault? {
        return Raised(i.reason);
      }
      if i.code != OK {
        return Returned(map["error" := Str("Failed to read templates")]);
      }
      return Returned(map["templates" := Ints(finger.templates)]);
    }

    /** The `count_templates` branch of `do_command`. */
    method DoCountTemplates() returns (r: Try<Fields>)
      modifies this
      ensures serialPort == old(serialPort)
      ensures (r, Abs()) == Dispatch.DoCountTemplates(old(Abs()))
    {
      var i := Query(CountTemplates);
      if i.Fault? {
        return Raised(i.reason);
      }
      if i.code != OK {
        return Returned(map["error" := Str("Failed to count templates")]);
      }
      return Returned(map["count" := Int(finger.templateCount)]);
    }

    /** The `test_led` branch of `do_command`. */
    method DoTestLed(arg: Arg) returns (r: Try<Fields>)
      modifies this
      ensures serialPort == old(serialPort)
      ensures (r, Abs()) == Dispatch.DoTestLed(old(Abs()), arg)
    {
      if arg == BoolArg(true) {
        SetLed(3, 1, None);
        return Returned(map["message" := Str("LED turned on (purple breathing)")]);
      }
      SetLed(0, 4, None);
      return Returned(map["message" := Str("LED turned off")]);
    }

    /** One pass of the loop in `do_command`: runs command `name` and
        returns the fields it writes into the result dict. */
    method Execute(name: string, arg: Arg) returns (r: Try<Fields>)
      requires Valid()
      modifies this
      ensures serialPort == old(serialPort)
      ensures (r, Abs()) == Exec(old(Abs()), name, arg) && Valid()
    {
      if name == "start_enrollment" {
        r := DoStartEnrollment(arg);
      } else if name == "capture" {
        r := DoCapture();
      } else if name == "create_model" {
        r := DoCreateModel();
      } else if name == "store_model" {
        r := DoStoreModel(arg);
      } else if name == "reset_enrollment" {
        ResetEnrollmentState();
        r := Returned(map["message" := Str(ResetText)]);
      } else if name == "match_fingerprint" {
        r := DoMatchFingerprint();
      } else if name == "delete_model" {
        r := DoDeleteModel(arg);
      } else if name == "list_templates" {
        r := DoListTemplates();
      } else if name == "count_templates" {
        r := DoCountTemplates();
      } else if name == "test_led" {
        r := DoTestLed(arg);
      } else {
        r := Returned(map["error" := Str("Unknown command: " + name)]);
      }
    }

    /** `do_command`: opens the link if need be, then runs the commands in
        order, merging the fields each writes into one result dict; an
        exception ends the batch. */
    method DoCommand(cmds: seq<(string, Arg)>) returns (r: Try<Fields>)
      requires Valid() && DistinctNames(cmds)
      modifies this
      ensures serialPort == old(serialPort)
      ensures (r, Abs()) == Batch(old(Abs()), cmds) && Valid()
    {
      EnsureFingerInitialized();
      ghost var init := Abs();
      var result: Fields := map[];
      var i := 0;
      while i < |cmds|
        invariant 0 <= i <= |cmds| && Valid()
        invariant Run(init, cmds[..i]) == (Returned(result), Abs())
        invariant serialPort == old(serialPort)
      {
        assert cmds[..i + 1][..i] == cmds[..i];
        var d := Execute(cmds[i].0, cmds[i].1);
        if d.Raised? {
          RaiseEndsBatch(init, cmds, i + 1);
          return Raised(d.error);
        }
        result := result + d.value;
        i := i + 1;
      }
      assert cmds[..i] == cmds;
      return Returned(result);
    }
  }
}
