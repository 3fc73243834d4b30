/** The two match pipelines of `AdafruitR503`: the passive poll
    `get_readings` and the explicit `_match_fingerprint` command. Both run
    capture, template into buffer 1 and search, and stop at the first step
    that does not succeed. */
module Matching {
  import opened Wrappers
  import opened Values
  import opened Sensor
  import opened Enrollment

  /** What `_match_fingerprint` reports, one variant per `status` it returns. */
  datatype MatchResult = NoFinger | TemplateFailed(code: int) | NoMatch | Matched(matchedId: int, confidence: int)

  /** The dict `_match_fingerprint` returns for each outcome: always a
      `status` string, a `code` only for a failed template, and the hit
      only for a match. */
  function MatchFields(m: MatchResult): (f: Fields)
    ensures "status" in f && f["status"].Str?
    ensures "code" in f <==> m.TemplateFailed?
    ensures "matched_id" in f <==> m.Matched?
    ensures "confidence" in f <==> m.Matched?
  {
    match m
    case NoFinger => map["status" := Str("no_finger")]
    case TemplateFailed(code) => map["status" := Str("template_failed"), "code" := Int(code)]
    case NoMatch => map["status" := Str("no_match")]
    case Matched(id, confidence) =>
      map["status" := Str("match"), "matched_id" := Int(id), "confidence" := Int(confidence)]
  }

  /** Reads a match dict back: the caller's view of the reply. */
  function FieldsToMatch(f: Fields): Option<MatchResult> {
    if "status" !in f || !f["status"].Str? then None
    else
      var status := f["status"].s;
      if status == "no_finger" then Some(NoFinger)
      else if status == "template_failed" && "code" in f && f["code"].Int? then Some(TemplateFailed(f["code"].i))
      else if status == "no_match" then Some(NoMatch)
      else if status == "match" && "matched_id" in f && f["matched_id"].Int? && "confidence" in f && f["confidence"].Int? then
        Some(Matched(f["matched_id"].i, f["confidence"].i))
      else None
  }

  /** Every outcome is told apart by its dict: reading it back gives the outcome. */
  lemma MatchFieldsRoundTrip(m: MatchResult)
    ensures FieldsToMatch(MatchFields(m)) == Some(m)
  {
    match m
    case NoFinger =>
    case TemplateFailed(_) =>
      assert "template_failed" != "no_finger";
    case NoMatch =>
      assert "no_match" != "no_finger" && "no_match" != "template_failed";
    case Matched(_, _) =>
      assert "match" != "no_finger" && "match" != "template_failed" && "match" != "no_match";
  }

  /** The two LED commands of `_flash_led(color)`: a visible flash, then off. */
  function FlashCommands(color: int): seq<Command> {
    [SetLed(color, 2, Some(100)), SetLed(1, 4, None)]
  }

  /** `_flash_led(color)`. */
  function Flash(l: Link, color: int): (r: Link)
    ensures r.replies == l.replies
    ensures r.sent == l.sent + FlashCommands(color)
  {
    Led(Led(l, color, 2, Some(100)), 1, 4, None)
  }

  /** How far the capture, template and search commands that both
      pipelines send got: a transport exception, the first status command
      that failed, or the search hit the library read. */
  datatype Scan = Broke(reason: string) | NoImage | NoTemplate(code: int) | NoHit | Found(id: int, confidence: int)

  /** `get_image`, `image_2_tz(1)`, `finger_search`, stopping at the first
      one that does not succeed. A successful search reports the `finger_id`
      and `confidence` its reply refreshed. */
  function ScanFinger(l: Link): (out: (Scan, Link))
    ensures out.1.templates == l.templates && out.1.templateCount == l.templateCount
    ensures var i := Pending(l, 0);
            !Succeeded(i) ==>
              && out.1.sent == l.sent + [GetImage] && out.1.replies == Drop(l.replies, 1)
              && (i.Fault? ==> out.0 == Broke(i.reason))
              && (Failed(i) ==> out.0 == NoImage)
    ensures var (i, t) := (Pending(l, 0), Pending(l, 1));
            Succeeded(i) && !Succeeded(t) ==>
              && out.1.sent == l.sent + [GetImage, Image2Tz(1)] && out.1.replies == Drop(l.replies, 2)
              && (t.Fault? ==> out.0 == Broke(t.reason))
              && (Failed(t) ==> out.0 == NoTemplate(t.code))
    ensures var (i, t, h) := (Pending(l, 0), Pending(l, 1), Pending(l, 2));
            Succeeded(i) && Succeeded(t) ==>
              && out.1.sent == l.sent + [GetImage, Image2Tz(1), FingerSearch] && out.1.replies == Drop(l.replies, 3)
              && (h.Fault? ==> out.0 == Broke(h.reason))
              && (Failed(h) ==> out.0 == NoHit)
              && (Succeeded(h) ==> var a := Refreshed(l, FingerSearch, h); out.0 == Found(a.fingerId, a.confidence))
  {
    var (image, f1) := Ask(l, GetImage);
    if image.Fault? then (Broke(image.reason), f1)
    else if image.code != OK then (NoImage, f1)
    else
      var (tz, f2) := Ask(f1, Image2Tz(1));
      PendingAfter(l, f1, 1, 0);
      PendingAfter(l, f1, 1, 1);
      DropDrop(l.replies, 1, 1);
      if tz.Fault? then (Broke(tz.reason), f2)
      else if tz.code != OK then (NoTemplate(tz.code), f2)
      else
        var (hit, f3) := Ask(f2, FingerSearch);
        PendingAfter(l, f2, 2, 0);
        DropDrop(l.replies, 2, 1);
        if hit.Fault? then (Broke(hit.reason), f3)
        else if hit.code != OK then (NoHit, f3)
        else (Found(f3.fingerId, f3.confidence), f3)
  }

  /** `_match_fingerprint`: the result is decided by the first of the three
      status commands that does not succeed, and no later one is sent; a
      match reports the hit the search reply carried. */
  function MatchFingerprint(st: State): (out: (Try<MatchResult>, State))
    ensures out.1.session == st.session && out.1.breathed == st.breathed && out.1.linked
    ensures var i := Pending(st.finger, 0);
            var sent := EnsureInitialized(st).finger.sent + [SetLed(3, 1, None), GetImage];
            !Succeeded(i) ==>
              && out.1.finger.replies == Drop(st.finger.replies, 1)
              && (i.Fault? ==> out.0 == Raised(i.reason) && out.1.finger.sent == sent)
              && (Failed(i) ==> out.0 == Returned(NoFinger) && out.1.finger.sent == sent + FlashCommands(1))
    ensures var (i, t) := (Pending(st.finger, 0), Pending(st.finger, 1));
            var sent := EnsureInitialized(st).finger.sent + [SetLed(3, 1, None), GetImage, Image2Tz(1)];
            Succeeded(i) && !Succeeded(t) ==>
              && out.1.finger.replies == Drop(st.finger.replies, 2)
              && (t.Fault? ==> out.0 == Raised(t.reason) && out.1.finger.sent == sent)
              && (Failed(t) ==> out.0 == Returned(TemplateFailed(t.code)) && out.1.finger.sent == sent + FlashCommands(1))
    ensures var (i, t, h) := (Pending(st.finger, 0), Pending(st.finger, 1), Pending(st.finger, 2));
            var sent := EnsureInitialized(st).finger.sent + [SetLed(3, 1, None), GetImage, Image2Tz(1), FingerSearch];
            Succeeded(i) && Succeeded(t) ==>
              && out.1.finger.replies == Drop(st.finger.replies, 3)
              && (h.Fault? ==> out.0 == Raised(h.reason) && out.1.finger.sent == sent)
              && (Failed(h) ==> out.0 == Returned(NoMatch) && out.1.finger.sent == sent + FlashCommands(1))
              && (Succeeded(h) ==> var a := Refreshed(st.finger, FingerSearch, h);
                                   && out.0 == Returned(Matched(a.fingerId, a.confidence))
                                   && out.1.finger.sent == sent + FlashCommands(2))
  {
    var st1 := EnsureInitialized(st);
    var (scan, f) := ScanFinger(Led(st1.finger, 3, 1, None));
    match scan
    case Broke(reason) => (Raised(reason), st1.(finger := f))
    case NoImage => (Returned(NoFinger), st1.(finger := Flash(f, 1)))
    case NoTemplate(code) => (Returned(TemplateFailed(code)), st1.(finger := Flash(f, 1)))
    case NoHit => (Returned(NoMatch), st1.(finger := Flash(f, 1)))
    case Found(id, confidence) => (Returned(Matched(id, confidence)), st1.(finger := Flash(f, 2)))
  }

  const NoFingerFields: Fields := map["finger_detected" := Bool(false)]
  const NotMatchedFields: Fields := map["finger_detected" := Bool(true), "matched" := Bool(false)]

  function MatchedFields(id: int, confidence: int): Fields {
    map["finger_detected" := Bool(true), "matched" := Bool(true), "matched_id" := Int(id), "confidence" := Int(confidence)]
  }

  function ErrorFields(reason: string): Fields {
    map["finger_detected" := Bool(false), "error" := Str(reason)]
  }

  /** The four dicts a poll may return. */
  predicate IsReadingsShape(r: Fields) {
    || r == NoFingerFields
    || r == NotMatchedFields
    || (r.Keys == {"finger_detected", "matched", "matched_id", "confidence"}
        && r["finger_detected"] == Bool(true) && r["matched"] == Bool(true)
        && r["matched_id"].Int? && r["confidence"].Int?)
    || (r.Keys == {"finger_detected", "error"} && r["finger_detected"] == Bool(false) && r["error"].Str?)
  }

  /** `get_readings`: one poll. The first poll of the driver's life shows the
      startup breathing first; every poll then runs the pipeline, whose
      transport exceptions are caught and reported as an `error` field. */
  function Readings(st: State): (out: (Fields, State))
    ensures out.1.session == st.session && out.1.breathed && out.1.linked
    ensures var i := Pending(st.finger, 0);
            var sent := PollStart(st) + [GetImage];
            !Succeeded(i) ==>
              && out.1.finger.replies == Drop(st.finger.replies, 1)
              && (i.Fault? ==> out.0 == ErrorFields(i.reason) && out.1.finger.sent == sent)
              && (Failed(i) ==> out.0 == NoFingerFields && out.1.finger.sent == sent + [SetLed(0, 4, None)])
    ensures var (i, t) := (Pending(st.finger, 0), Pending(st.finger, 1));
            var sent := PollStart(st) + [GetImage, Image2Tz(1)];
            Succeeded(i) && !Succeeded(t) ==>
              && out.1.finger.replies == Drop(st.finger.replies, 2)
              && (t.Fault? ==> out.0 == ErrorFields(t.reason) && out.1.finger.sent == sent)
              && (Failed(t) ==> out.0 == NotMatchedFields && out.1.finger.sent == sent + [SetLed(1, 2, Some(100))])
    ensures var (i, t, h) := (Pending(st.finger, 0), Pending(st.finger, 1), Pending(st.finger, 2));
            var sent := PollStart(st) + [GetImage, Image2Tz(1), FingerSearch];
            Succeeded(i) && Succeeded(t) ==>
              && out.1.finger.replies == Drop(st.finger.replies, 3)
              && (h.Fault? ==> out.0 == ErrorFields(h.reason) && out.1.finger.sent == sent)
              && (Failed(h) ==> out.0 == NotMatchedFields && out.1.finger.sent == sent + [SetLed(1, 2, Some(100))])
              && (Succeeded(h) ==> var a := Refreshed(st.finger, FingerSearch, h);
                                   && out.0 == MatchedFields(a.fingerId, a.confidence)
                                   && out.1.finger.sent == sent + [SetLed(2, 2, Some(100))])
  {
    var st2 := StartPoll(st);
    var (scan, f) := ScanFinger(st2.finger);
    assert Refreshed(st2.finger, FingerSearch, Pending(st.finger, 2)).fingerId
        == Refreshed(st.finger, FingerSearch, Pending(st.finger, 2)).fingerId;
    assert Refreshed(st2.finger, FingerSearch, Pending(st.finger, 2)).confidence
        == Refreshed(st.finger, FingerSearch, Pending(st.finger, 2)).confidence;
    match scan
    case Broke(reason) => (ErrorFields(reason), st2.(finger := f))
    case NoImage => (NoFingerFields, st2.(finger := Led(f, 0, 4, None)))
    case NoTemplate(_) => (NotMatchedFields, st2.(finger := Led(f, 1, 2, Some(100))))
    case NoHit => (NotMatchedFields, st2.(finger := Led(f, 1, 2, Some(100))))
    case Found(id, confidence) => (MatchedFields(id, confidence), st2.(finger := Led(f, 2, 2, Some(100))))
  }

  /** What a poll sends before its image capture: the link opening, then
      the startup breathing when it has not been shown yet. */
  function PollStart(st: State): seq<Command> {
    EnsureInitialized(st).finger.sent + (if st.breathed then [] else [SetLed(3, 1, None), SetLed(1, 4, None)])
  }

  /** The part of a poll before its image capture: opens the link and shows
      the startup breathing once. It takes no reply and refreshes nothing. */
  function StartPoll(st: State): (r: State)
    ensures r.session == st.session && r.breathed && r.linked
    ensures r.finger.sent == PollStart(st) && r.finger.replies == st.finger.replies
    ensures r.finger.fingerId == st.finger.fingerId && r.finger.confidence == st.finger.confidence
    ensures r.finger.templates == st.finger.templates && r.finger.templateCount == st.finger.templateCount
  {
    var st1 := EnsureInitialized(st);
    if st1.breathed then st1
    else st1.(finger := Led(Led(st1.finger, 3, 1, None), 1, 4, None), breathed := true)
  }

  /** A poll returns exactly one of the four dicts, and it carries a
      `matched_id` exactly when capture, templating and search all succeed. */
  lemma ReadingsShapes(st: State)
    ensures IsReadingsShape(Readings(st).0)
    ensures "matched_id" in Readings(st).0 <==>
              Succeeded(Pending(st.finger, 0)) && Succeeded(Pending(st.finger, 1)) && Succeeded(Pending(st.finger, 2))
  {
    var r := Readings(st).0;
    var (i, t, h) := (Pending(st.finger, 0), Pending(st.finger, 1), Pending(st.finger, 2));
    if i.Fault? || (Succeeded(i) && t.Fault?) || (Succeeded(i) && Succeeded(t) && h.Fault?) {
      var reason := if i.Fault? then i.reason else if t.Fault? then t.reason else h.reason;
      assert r == ErrorFields(reason);
      assert r.Keys == {"finger_detected", "error"};
    } else if Succeeded(i) && Succeeded(t) && Succeeded(h) {
      var a := Refreshed(st.finger, FingerSearch, h);
      assert r == MatchedFields(a.fingerId, a.confidence);
      assert r.Keys == {"finger_detected", "matched", "matched_id", "confidence"};
    } else if Failed(i) {
      assert r == NoFingerFields;
      assert "matched_id" !in r;
    } else {
      assert r == NotMatchedFields;
      assert "matched_id" !in r;
    }
  }

  /** The startup breathing is shown once: every poll after the first goes
      straight to the image capture. */
  lemma BreatheOnlyOnFirstPoll(st: State)
    ensures var later := Readings(st).1;
            PollStart(later) == later.finger.sent
  {
    var later := Readings(st).1;
    assert EnsureInitialized(later) == later;
  }
}
