/** What the dispatcher promises, command by command and across a batch. */
module DispatchProperties {
  import opened Wrappers
  import opened Values
  import opened Sensor
  import opened Enrollment
  import opened Matching
  import opened Dispatch

  /** `start_enrollment` replaces whatever session there was, active or not,
      by the one `_begin_enrollment` would start, and talks to no sensor. An
      argument `int()` rejects still clears the session before raising. */
  lemma StartEnrollmentOverwrites(st: State, arg: Arg)
    requires st.session.Valid()
    ensures var out := Exec(st, "start_enrollment", arg);
            ToInt(arg).Returned? ==>
              && out.0.Returned? && out.0.value.Keys == {"message"}
              && out.1 == Begin(st, ToInt(arg).value).1
              && out.1.session == Session(true, Some(ToInt(arg).value), Some(1))
    ensures var out := Exec(st, "start_enrollment", arg);
            ToInt(arg).Raised? ==> out.0.Raised? && out.1 == Reset(st)
  {
  }

  /** `capture` is refused, with nothing sent to the sensor, when no session
      is active; otherwise, unless the sensor link raised, the session ends
      at scan 2 whether the scan worked or not. */
  lemma CaptureCommand(st: State, arg: Arg)
    requires st.session.Valid()
    ensures var out := Exec(st, "capture", arg);
            !st.session.active ==> out == (Returned(map["error" := Str(CaptureRefusedText)]), st)
    ensures var out := Exec(st, "capture", arg);
            st.session.active && out.0.Returned? ==>
              out.0.value.Keys == {"message"} && out.1.session == st.session.(step := Some(2))
    ensures var out := Exec(st, "capture", arg);
            st.session.active && Succeeded(Pending(st.finger, 0)) ==> out.1.finger.replies == Drop(st.finger.replies, 2)
    ensures var out := Exec(st, "capture", arg);
            st.session.active && !Succeeded(Pending(st.finger, 0)) ==> out.1.finger.replies == Drop(st.finger.replies, 1)
    ensures var out := Exec(st, "capture", arg);
            st.session.active && (Pending(st.finger, 0).Fault? || (Succeeded(Pending(st.finger, 0)) && Pending(st.finger, 1).Fault?)) ==>
              out.0.Raised? && out.1.session == st.session
  {
  }

  /** `create_model` is refused when no session is active. A sensor failure
      is reported as a message with `rescan_required` and puts the session at
      scan 2; success leaves the session as it was. */
  lemma CreateModelCommand(st: State, arg: Arg)
    requires st.session.Valid()
    ensures var out := Exec(st, "create_model", arg);
            !st.session.active ==> out == (Returned(map["error" := Str(InactiveText)]), st)
    ensures var out := Exec(st, "create_model", arg);
            st.session.active && Failed(Pending(st.finger, 0)) ==>
              && out.0.Returned? && out.0.value.Keys == {"message", "rescan_required"}
              && out.0.value["rescan_required"] == Bool(true)
              && out.1.session == st.session.(step := Some(2))
    ensures var out := Exec(st, "create_model", arg);
            st.session.active && Succeeded(Pending(st.finger, 0)) ==>
              out.0 == Returned(map["message" := Str(ModelCreatedText)]) && out.1.session == st.session
    ensures var out := Exec(st, "create_model", arg);
            st.session.active ==> out.1.finger.replies == Drop(st.finger.replies, 1)
    ensures var out := Exec(st, "create_model", arg);
            st.session.active && Pending(st.finger, 0).Fault? ==> out.0.Raised? && out.1.session == st.session
  {
    if st.session.active {
      CreateModelTextDecides(st);
    }
  }

  /** `store_model` is refused, with nothing sent to the sensor, when no
      session is active. Otherwise it stores at the slot given: success ends
      the session with a `message`, a sensor failure is an `error` and keeps
      the session. */
  lemma StoreModelCommand(st: State, arg: Arg)
    requires st.session.Valid()
    ensures var out := Exec(st, "store_model", arg);
            !st.session.active ==> out == (Returned(map["error" := Str(InactiveText)]), st)
    ensures var out := Exec(st, "store_model", arg);
            st.session.active && ToInt(arg).Raised? ==> out.0.Raised? && out.1 == st
    ensures var out := Exec(st, "store_model", arg);
            st.session.active && ToInt(arg).Returned? ==>
              && out.1.finger.sent == st.finger.sent + [StoreModel(ToInt(arg).value)]
              && (Succeeded(Pending(st.finger, 0)) ==>
                    out.0.Returned? && out.0.value.Keys == {"message"} && out.1.session == Idle)
              && (Failed(Pending(st.finger, 0)) ==>
                    out.0.Returned? && out.0.value.Keys == {"error"} && out.1.session == st.session)
  {
    if st.session.active && ToInt(arg).Returned? {
      StoreModelTextDecides(st, ToInt(arg).value);
    }
  }

  /** `reset_enrollment` clears the session from any state. */
  lemma ResetCommand(st: State, arg: Arg)
    requires st.session.Valid()
    ensures Exec(st, "reset_enrollment", arg) == (Returned(map["message" := Str(ResetText)]), Reset(st))
    ensures Exec(st, "reset_enrollment", arg).1.session == Idle
  {
  }

  /** A name the dispatcher does not know writes only an `error` field and
      changes nothing. */
  lemma UnknownCommand(st: State, name: string, arg: Arg)
    requires st.session.Valid() && name !in Known
    ensures Exec(st, name, arg) == (Returned(map["error" := Str("Unknown command: " + name)]), st)
  {
  }

  /** `match_fingerprint` merges the match dict, from which the match
      result can be read back. */
  lemma MatchCommand(st: State, arg: Arg)
    requires st.session.Valid()
    ensures var out := Exec(st, "match_fingerprint", arg);
            var m := MatchFingerprint(st);
            && out.1 == m.1
            && (m.0.Raised? ==> out.0 == Raised(m.0.error))
            && (m.0.Returned? ==> out.0.Returned? && FieldsToMatch(out.0.value) == Some(m.0.value))
  {
    var m := MatchFingerprint(st);
    if m.0.Returned? {
      MatchFieldsRoundTrip(m.0.value);
    }
  }

  /** `delete_model` deletes at the slot given: success is a `message`,
      any other status an `error`; an argument `int()` rejects raises before
      the sensor is asked. */
  lemma DeleteModelCommand(st: State, arg: Arg)
    requires st.session.Valid()
    ensures var out := Exec(st, "delete_model", arg);
            ToInt(arg).Raised? ==> out == (Raised(ToInt(arg).error), st)
    ensures var out := Exec(st, "delete_model", arg);
            ToInt(arg).Returned? ==>
              && out.1 == st.(finger := Ask(st.finger, DeleteModel(ToInt(arg).value)).1)
              && (Pending(st.finger, 0).Fault? ==> out.0 == Raised(Pending(st.finger, 0).reason))
              && (Succeeded(Pending(st.finger, 0)) ==> out.0.Returned? && out.0.value.Keys == {"message"})
              && (Failed(Pending(st.finger, 0)) ==> out.0.Returned? && out.0.value.Keys == {"error"})
  {
  }

  /** `list_templates` and `count_templates` report what the reply to their
      own command refreshed when the sensor answers with success, and an
      `error` otherwise. */
  lemma TemplateCommands(st: State, arg: Arg)
    requires st.session.Valid()
    ensures var out := Exec(st, "list_templates", arg);
            var r := Pending(st.finger, 0);
            && out.1.finger.sent == st.finger.sent + [ReadTemplates]
            && out.1.finger.replies == Drop(st.finger.replies, 1)
            && (Succeeded(r) ==> out.0 == Returned(map["templates" := Ints(Refreshed(st.finger, ReadTemplates, r).templates)]))
            && (Failed(r) ==> out.0 == Returned(map["error" := Str("Failed to read templates")]))
            && (r.Fault? ==> out.0 == Raised(r.reason))
    ensures var out := Exec(st, "count_templates", arg);
            var r := Pending(st.finger, 0);
            && out.1.finger.sent == st.finger.sent + [CountTemplates]
            && out.1.finger.replies == Drop(st.finger.replies, 1)
            && (Succeeded(r) ==> out.0 == Returned(map["count" := Int(Refreshed(st.finger, CountTemplates, r).templateCount)]))
            && (Failed(r) ==> out.0 == Returned(map["error" := Str("Failed to count templates")]))
            && (r.Fault? ==> out.0 == Raised(r.reason))
  {
  }

  /** `test_led` turns the LED on only for the value `True` itself; any
      other value, even the integer 1, turns it off. */
  lemma TestLedCommand(st: State, arg: Arg)
    requires st.session.Valid()
    ensures var out := Exec(st, "test_led", arg);
            && out.0.Returned? && out.0.value.Keys == {"message"} && out.1.session == st.session
            && (out.1.finger.sent == st.finger.sent + [SetLed(3, 1, None)] <==> arg == BoolArg(true))
            && (arg != BoolArg(true) ==> out.1.finger.sent == st.finger.sent + [SetLed(0, 4, None)])
  {
    if arg != BoolArg(true) {
      var off := st.finger.sent + [SetLed(0, 4, None)];
      assert off[|st.finger.sent|] != (st.finger.sent + [SetLed(3, 1, None)])[|st.finger.sent|];
    }
  }

  /** Two dicts that agree on every field except possibly `error`. */
  ghost predicate AgreeOutsideError(a: Fields, b: Fields) {
    forall k :: k != "error" ==> (k in a <==> k in b) && (k in a ==> a[k] == b[k])
  }

  /** Merging the same fields into two dicts that agree outside `error`
      keeps them agreeing, and keeps an `error` field present. */
  lemma MergeKeepsAgreement(a: Fields, b: Fields, d: Fields)
    requires AgreeOutsideError(a, b) && "error" in a
    ensures AgreeOutsideError(a + d, b + d) && "error" in a + d
  {
  }

  /** `Run` over a batch with one more command at the end. */
  lemma RunSnoc(st: State, cmds: seq<(string, Arg)>, c: (string, Arg))
    requires st.session.Valid()
    ensures var (r, s) := Run(st, cmds);
            Run(st, cmds + [c]) ==
              if r.Raised? then (r, s)
              else
                var (d, s2) := Exec(s, c.0, c.1);
                if d.Raised? then (Raised(d.error), s2) else (Returned(r.value + d.value), s2)
  {
    assert (cmds + [c])[..|cmds|] == cmds;
  }

  /** An unknown command inside a batch does not stop it: the batch ends in
      the same state, raises the same exception or returns the same fields
      as the batch without that command, apart from the `error` field, which
      is then present. */
  lemma {:induction false} RunSkipsUnknown(st: State, pre: seq<(string, Arg)>, name: string, arg: Arg,
                                          post: seq<(string, Arg)>)
    requires st.session.Valid() && name !in Known
    ensures var (a, sa) := Run(st, pre + [(name, arg)] + post);
            var (b, sb) := Run(st, pre + post);
            && sa == sb
            && (a.Raised? <==> b.Raised?)
            && (a.Raised? ==> a == b)
            && (a.Returned? ==> AgreeOutsideError(a.value, b.value) && "error" in a.value)
    decreases |post|
  {
    if post == [] {
      assert pre + [(name, arg)] + post == pre + [(name, arg)];
      assert pre + post == pre;
      RunSnoc(st, pre, (name, arg));
      UnknownCommand(Run(st, pre).1, name, arg);
    } else {
      var post' := post[..|post| - 1];
      var c := post[|post| - 1];
      RunSkipsUnknown(st, pre, name, arg, post');
      assert pre + [(name, arg)] + post == (pre + [(name, arg)] + post') + [c];
      assert pre + post == (pre + post') + [c];
      RunSnoc(st, pre + [(name, arg)] + post', c);
      RunSnoc(st, pre + post', c);
      var (a, sa) := Run(st, pre + [(name, arg)] + post');
      var (b, sb) := Run(st, pre + post');
      if a.Returned? {
        var (d, _) := Exec(sa, c.0, c.1);
        if d.Returned? {
          MergeKeepsAgreement(a.value, b.value, d.value);
        }
      }
    }
  }

  /** An exception ends the batch: once a prefix of it has raised, the
      commands after it are not run. */
  lemma {:induction false} RaiseEndsBatch(st: State, cmds: seq<(string, Arg)>, n: nat)
    requires st.session.Valid() && n <= |cmds| && Run(st, cmds[..n]).0.Raised?
    ensures Run(st, cmds) == Run(st, cmds[..n])
    decreases |cmds|
  {
    if n < |cmds| {
      var front := cmds[..|cmds| - 1];
      assert front[..n] == cmds[..n];
      RaiseEndsBatch(st, front, n);
    } else {
      assert cmds[..n] == cmds;
    }
  }

  /** A batch of one command on an opened link is that command alone. */
  lemma BatchOfOne(st: State, name: string, arg: Arg)
    requires st.session.Valid() && st.linked
    ensures Batch(st, [(name, arg)]) == Exec(st, name, arg)
  {
    assert [] + [(name, arg)] == [(name, arg)];
    RunSnoc(st, [], (name, arg));
    var d := Exec(st, name, arg).0;
    if d.Returned? {
      assert map[] + d.value == d.value;
    }
  }

  /** Resetting in a second call changes nothing more than the first did. */
  lemma ResetTwiceIsResetOnce(st: State, a: Arg, b: Arg)
    requires st.session.Valid()
    ensures var first := Batch(st, [("reset_enrollment", a)]);
            Batch(first.1, [("reset_enrollment", b)]) == first
  {
    var s0 := EnsureInitialized(st);
    var m := map["message" := Str(ResetText)];
    assert [] + [("reset_enrollment", a)] == [("reset_enrollment", a)];
    RunSnoc(s0, [], ("reset_enrollment", a));
    ResetCommand(s0, a);
    assert map[] + m == m;
    BatchOfOne(Reset(s0), "reset_enrollment", b);
    ResetCommand(Reset(s0), b);
  }

  /** The first three calls of an enrollment on an opened link: start at
      slot 5 and two successful scans leave the session at scan 2 with four
      replies used. */
  lemma StartAndScanTwice(st: State)
    requires st.session.Valid() && st.linked
    requires forall k :: 0 <= k < 4 ==> Succeeded(Pending(st.finger, k))
    ensures var b1 := Batch(st, [("start_enrollment", IntArg(5))]);
            var b2 := Batch(b1.1, [("capture", NoArg)]);
            var b3 := Batch(b2.1, [("capture", NoArg)]);
            && b1.0.Returned? && b1.0.value.Keys == {"message"}
            && b2.0.Returned? && b2.0.value.Keys == {"message"}
            && b3.0.Returned? && b3.0.value.Keys == {"message"}
            && b3.1.session == Session(true, Some(5), Some(2)) && b3.1.linked
            && b3.1.finger.replies == Drop(st.finger.replies, 4)
  {
    BatchOfOne(st, "start_enrollment", IntArg(5));
    StartEnrollmentOverwrites(st, IntArg(5));
    var s1 := Exec(st, "start_enrollment", IntArg(5)).1;
    assert s1.finger == st.finger;

    BatchOfOne(s1, "capture", NoArg);
    CaptureCommand(s1, NoArg);
    var s2 := Exec(s1, "capture", NoArg).1;
    PendingAfter(st.finger, s2.finger, 2, 0);
    PendingAfter(st.finger, s2.finger, 2, 1);

    BatchOfOne(s2, "capture", NoArg);
    CaptureCommand(s2, NoArg);
    if 4 <= |st.finger.replies| {
      assert st.finger.replies[2..][2..] == st.finger.replies[4..];
    }
  }

  /** A whole enrollment, one call per step on an opened link: start at
      slot 5, two scans, model, store at slot 5. When the sensor answers
      every status command with success, each call reports a `message` and
      the last one stores the model at slot 5 and leaves the session idle. */
  lemma EnrollmentWalkthrough(st: State)
    requires st.session.Valid() && st.linked
    requires forall k :: 0 <= k < 6 ==> Succeeded(Pending(st.finger, k))
    ensures var b1 := Batch(st, [("start_enrollment", IntArg(5))]);
            var b2 := Batch(b1.1, [("capture", NoArg)]);
            var b3 := Batch(b2.1, [("capture", NoArg)]);
            var b4 := Batch(b3.1, [("create_model", NoArg)]);
            var b5 := Batch(b4.1, [("store_model", IntArg(5))]);
            && b1.0.Returned? && b1.0.value.Keys == {"message"}
            && b2.0.Returned? && b2.0.value.Keys == {"message"}
            && b3.0.Returned? && b3.0.value.Keys == {"message"}
            && b4.0.Returned? && b4.0.value.Keys == {"message"}
            && b5.0.Returned? && b5.0.value.Keys == {"message"}
            && b3.1.session == Session(true, Some(5), Some(2))
            && b5.1.session == Idle
            && b5.1.finger.sent == b4.1.finger.sent + [StoreModel(5)]
  {
    StartAndScanTwice(st);
    var s3 := Batch(Batch(Batch(st, [("start_enrollment", IntArg(5))]).1, [("capture", NoArg)]).1, [("capture", NoArg)]).1;
    PendingAfter(st.finger, s3.finger, 4, 0);
    PendingAfter(st.finger, s3.finger, 4, 1);

    BatchOfOne(s3, "create_model", NoArg);
    CreateModelCommand(s3, NoArg);
    var s4 := Exec(s3, "create_model", NoArg).1;
    PendingAfter(s3.finger, s4.finger, 1, 0);

    BatchOfOne(s4, "store_model", IntArg(5));
    StoreModelCommand(s4, IntArg(5));
  }

  /** As written, `capture` moves the session to scan 2 even when the first
      scan fails, so the next successful scan is templated into buffer 2 and
      buffer 1 is never filled. */
  lemma FailedFirstScanSkipsBufferOne(st: State)
    requires st.session.Valid() && st.linked && st.session.active && st.session.step == Some(1)
    requires Failed(Pending(st.finger, 0)) && Succeeded(Pending(st.finger, 1)) && Succeeded(Pending(st.finger, 2))
    ensures var b1 := Batch(st, [("capture", NoArg)]);
            var b2 := Batch(b1.1, [("capture", NoArg)]);
            && b1.0.Returned? && b2.0.Returned?
            && b2.1.session == st.session.(step := Some(2))
            && b2.1.finger.sent == st.finger.sent
                 + [SetLed(2, 1, None), GetImage, SetLed(1, 1, None)]
                 + [SetLed(2, 1, None), GetImage, Image2Tz(2), SetLed(1, 4, None)]
  {
    BatchOfOne(st, "capture", NoArg);
    CaptureCommand(st, NoArg);
    var s1 := Exec(st, "capture", NoArg).1;
    assert s1.finger.sent == st.finger.sent + [SetLed(2, 1, None), GetImage, SetLed(1, 1, None)];
    PendingAfter(st.finger, s1.finger, 1, 0);
    PendingAfter(st.finger, s1.finger, 1, 1);
    BatchOfOne(s1, "capture", NoArg);
    CaptureCommand(s1, NoArg);
  }

  /** As written, a `create_model` whose sensor call fails right after
      `start_enrollment` moves the session from scan 1 to scan 2 and asks
      for a rescan. */
  lemma CreateModelBeforeScansMovesToStepTwo(st: State)
    requires st.session.Valid() && Failed(Pending(st.finger, 0))
    ensures var out := Batch(st, [("start_enrollment", IntArg(3)), ("create_model", NoArg)]);
            && out.0.Returned? && "rescan_required" in out.0.value && out.0.value["rescan_required"] == Bool(true)
            && out.1.session == Session(true, Some(3), Some(2))
  {
    var s0 := EnsureInitialized(st);
    var c1, c2 := ("start_enrollment", IntArg(3)), ("create_model", NoArg);
    assert [] + [c1] == [c1] && [c1] + [c2] == [c1, c2];
    RunSnoc(s0, [], c1);
    RunSnoc(s0, [c1], c2);
    StartEnrollmentOverwrites(s0, IntArg(3));
    var s1 := Exec(s0, "start_enrollment", IntArg(3)).1;
    assert s1.finger.replies == st.finger.replies;
    CreateModelCommand(s1, NoArg);
  }
}
