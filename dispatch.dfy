/** The `do_command` dispatcher of `AdafruitR503`: a batch of named commands
    run in order against one driver, each adding its fields to a single
    result dict. `Exec` is one pass of the loop body; `Run` is the loop. */
module Dispatch {
  import opened Wrappers
  import opened Text
  import opened Values
  import opened Sensor
  import opened Enrollment
  import opened Matching

  /** A command's argument, as the host hands it over. */
  datatype Arg = IntArg(i: int) | FloatArg(r: real) | BoolArg(b: bool) | StrArg(s: string) | NoArg

  /** Python's `int(value)`: integers pass through, floats are truncated
      toward zero, booleans give 0 or 1; anything else raises. */
  function ToInt(a: Arg): (r: Try<int>)
    ensures a.IntArg? ==> r == Returned(a.i)
    ensures a.FloatArg? && a.r >= 0.0 ==> r.Returned? && r.value >= 0 && r.value as real <= a.r < r.value as real + 1.0
    ensures a.FloatArg? && a.r < 0.0 ==> r.Returned? && r.value <= 0 && r.value as real - 1.0 < a.r <= r.value as real
    ensures a.BoolArg? ==> r == Returned(if a.b then 1 else 0)
    ensures a.StrArg? || a.NoArg? ==> r.Raised?
  {
    match a
    case IntArg(i) => Returned(i)
    case FloatArg(x) => Returned(if x >= 0.0 then x.Floor else -((-x).Floor))
    case BoolArg(b) => Returned(if b then 1 else 0)
    case StrArg(_) => Raised("ValueError: invalid literal for int() with base 10")
    case NoArg => Raised("TypeError: int() argument must be a string, a bytes-like object or a real number")
  }

  /** The command names the dispatcher recognises. */
  const Known: set<string> := {
    "start_enrollment", "capture", "create_model", "store_model", "reset_enrollment",
    "match_fingerprint", "delete_model", "list_templates", "count_templates", "test_led"}

  const CaptureRefusedText := "Enrollment not started or invalid step"
  const InactiveText := "Enrollment not active"
  const ResetText := "Enrollment state reset."

  /** The `start_enrollment` branch: the session is cleared before the
      argument is converted, then a new one starts at scan 1. */
  function DoStartEnrollment(st: State, arg: Arg): (out: (Try<Fields>, State))
    ensures out.1.session.Valid()
  {
    var st1 := Reset(st);
    var v := ToInt(arg);
    if v.Raised? then (Raised(v.error), st1)
    else
      (Returned(map["message" := Str("Enrollment started at slot " + IntText(v.value) + ". Place finger for scan 1.")]),
       st1.(session := Session(true, Some(v.value), Some(1))))
  }

  /** The `capture` branch: refused unless a session is active at scan 1 or
      2; after the capture helper the session is at scan 2 whatever the
      helper reported. */
  function DoCapture(st: State): (out: (Try<Fields>, State))
    requires st.session.Valid()
    ensures out.1.session.Valid()
    ensures out.1.linked == st.linked && out.1.breathed == st.breathed
  {
    if !st.session.active || (st.session.step != Some(1) && st.session.step != Some(2)) then
      (Returned(map["error" := Str(CaptureRefusedText)]), st)
    else
      var (m, st1) := CaptureStep(st);
      if m.Raised? then (Raised(m.error), st1)
      else
        (Returned(map["message" := Str(m.value.text)]),
         if st1.session.step == Some(1) then st1.(session := st1.session.(step := Some(2))) else st1)
  }

  /** The `create_model` branch: a reply whose text reads as a failure asks
      for a rescan and puts the session at scan 2. */
  function DoCreateModel(st: State): (out: (Try<Fields>, State))
    requires st.session.Valid()
    ensures out.1.session.Valid()
    ensures out.1.linked == st.linked && out.1.breathed == st.breathed
  {
    if !st.session.active then (Returned(map["error" := Str(InactiveText)]), st)
    else
      var (m, st1) := CreateModelStep(st);
      if m.Raised? then (Raised(m.error), st1)
      else if Contains(m.value.text, "Error") || Contains(m.value.text, "did not match") then
        (Returned(map["message" := Str(m.value.text), "rescan_required" := Bool(true)]),
         st1.(session := st1.session.(step := Some(2))))
      else (Returned(map["message" := Str(m.value.text)]), st1)
  }

  /** The `store_model` branch: the slot is the command's own argument; a
      reply whose text starts with "Error" is reported as an `error`. */
  function DoStoreModel(st: State, arg: Arg): (out: (Try<Fields>, State))
    requires st.session.Valid()
    ensures out.1.session.Valid()
    ensures out.1.linked == st.linked && out.1.breathed == st.breathed
  {
    if !st.session.active then (Returned(map["error" := Str(InactiveText)]), st)
    else
      var slot := ToInt(arg);
      if slot.Raised? then (Raised(slot.error), st)
      else
        var (m, st1) := StoreModelStep(st, slot.value);
        if m.Raised? then (Raised(m.error), st1)
        else if StartsWith(m.value.text, "Error") then (Returned(map["error" := Str(m.value.text)]), st1)
        else (Returned(map["message" := Str(m.value.text)]), st1)
  }

  /** The `match_fingerprint` branch: the match dict, merged as it is. */
  function DoMatchFingerprint(st: State): (out: (Try<Fields>, State))
    ensures out.1.session == st.session && out.1.linked && out.1.breathed == st.breathed
  {
    var (m, st1) := MatchFingerprint(st);
    if m.Raised? then (Raised(m.error), st1) else (Returned(MatchFields(m.value)), st1)
  }

  /** The `delete_model` branch. */
  function DoDeleteModel(st: State, arg: Arg): (out: (Try<Fields>, State))
    ensures out.1.session == st.session && out.1.linked == st.linked && out.1.breathed == st.breathed
  {
    var slot := ToInt(arg);
    if slot.Raised? then (Raised(slot.error), st)
    else
      var (i, f) := Ask(st.finger, DeleteModel(slot.value));
      if i.Fault? then (Raised(i.reason), st.(finger := f))
      else if i.code == OK then
        (Returned(map["message" := Str("Deleted fingerprint at slot " + IntText(slot.value))]), st.(finger := f))
      else
        (Returned(map["error" := Str("Failed to delete slot " + IntText(slot.value) + ": code " + IntText(i.code))]),
         st.(finger := f))
  }

  /** The `list_templates` branch. */
  function DoListTemplates(st: State): (out: (Try<Fields>, State))
    ensures out.1.session == st.session && out.1.linked == st.linked && out.1.breathed == st.breathed
  {
    var (i, f) := Ask(st.finger, ReadTemplates);
    if i.Fault? then (Raised(i.reason), st.(finger := f))
    else if i.code != OK then (Returned(map["error" := Str("Failed to read templates")]), st.(finger := f))
    else (Returned(map["templates" := Ints(f.templates)]), st.(finger := f))
  }

  /** The `count_templates` branch. */
  function DoCountTemplates(st: State): (out: (Try<Fields>, State))
    ensures out.1.session == st.session && out.1.linked == st.linked && out.1.breathed == st.breathed
  {
    var (i, f) := Ask(st.finger, CountTemplates);
    if i.Fault? then (Raised(i.reason), st.(finger := f))
    else if i.code != OK then (Returned(map["error" := Str("Failed to count templates")]), st.(finger := f))
    else (Returned(map["count" := Int(f.templateCount)]), st.(finger := f))
  }

  /** The `test_led` branch: only the value `True` itself turns the LED on. */
  function DoTestLed(st: State, arg: Arg): (out: (Try<Fields>, State))
    ensures out.1.session == st.session && out.1.linked == st.linked && out.1.breathed == st.breathed
  {
    if arg == BoolArg(true) then
      (Returned(map["message" := Str("LED turned on (purple breathing)")]), st.(finger := Led(st.finger, 3, 1, None)))
    else
      (Returned(map["message" := Str("LED turned off")]), st.(finger := Led(st.finger, 0, 4, None)))
  }

  /** One pass of the loop in `do_command`: the fields command `name` writes
      into the result dict (the same whatever the dict held before), or the
      exception it raises, and the driver's state afterwards. */
  function Exec(st: State, name: string, arg: Arg): (out: (Try<Fields>, State))
    requires st.session.Valid()
    ensures out.1.session.Valid()
    ensures (st.linked ==> out.1.linked) && out.1.breathed == st.breathed
  {
    if name == "start_enrollment" then DoStartEnrollment(st, arg)
    else if name == "capture" then DoCapture(st)
    else if name == "create_model" then DoCreateModel(st)
    else if name == "store_model" then DoStoreModel(st, arg)
    else if name == "reset_enrollment" then (Returned(map["message" := Str(ResetText)]), Reset(st))
    else if name == "match_fingerprint" then DoMatchFingerprint(st)
    else if name == "delete_model" then DoDeleteModel(st, arg)
    else if name == "list_templates" then DoListTemplates(st)
    else if name == "count_templates" then DoCountTemplates(st)
    else if name == "test_led" then DoTestLed(st, arg)
    else (Returned(map["error" := Str("Unknown command: " + name)]), st)
  }

  /** The loop of `do_command` over the first `|cmds|` entries of the
      batch: each command's fields are merged into the result, a later write
      to a field replacing an earlier one; an exception ends the batch. */
  function Run(st: State, cmds: seq<(string, Arg)>): (out: (Try<Fields>, State))
    requires st.session.Valid()
    ensures out.1.session.Valid()
    ensures (st.linked ==> out.1.linked) && out.1.breathed == st.breathed
    decreases |cmds|
  {
    if cmds == [] then (Returned(map[]), st)
    else
      var (r, st1) := Run(st, cmds[..|cmds| - 1]);
      if r.Raised? then (r, st1)
      else
        var (d, st2) := Exec(st1, cmds[|cmds| - 1].0, cmds[|cmds| - 1].1);
        if d.Raised? then (Raised(d.error), st2) else (Returned(r.value + d.value), st2)
  }

  /** A batch comes as a dict, so no command name appears twice; the dict
      keeps the order the names were inserted in. */
  predicate DistinctNames(cmds: seq<(string, Arg)>) {
    forall i, j :: 0 <= i < j < |cmds| ==> cmds[i].0 != cmds[j].0
  }

  /** `do_command`: open the sensor link if need be, then run the batch. */
  function Batch(st: State, cmds: seq<(string, Arg)>): (out: (Try<Fields>, State))
    requires st.session.Valid() && DistinctNames(cmds)
    ensures out.1.session.Valid() && out.1.linked
  {
    Run(EnsureInitialized(st), cmds)
  }
}
