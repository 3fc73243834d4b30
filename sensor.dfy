/** The fingerprint sensor as the driver sees it: an oracle that answers each
    status command with the next reply it has queued, and records every
    command it is sent. The vendor packet protocol underneath is not modelled. */
module Sensor {
  import opened Wrappers

  /** The driver library's success status; every other status byte is a failure. */
  const OK: int := 0

  /** What a reply packet carries besides its status byte, which the
      library stores on its object: the hit of a search (`finger_id`,
      `confidence`), the occupied slots (`templates`), the number of stored
      templates (`template_count`), or nothing. */
  datatype Payload = Nothing | Hit(fingerId: int, confidence: int) | Listed(templates: seq<int>) | Counted(count: int)

  /** What one status command gets back: a status byte with its payload, or
      a transport exception raised by the driver library. */
  datatype Reply = Status(code: int, payload: Payload) | Fault(reason: string)

  /** A read that times out because the device sent nothing raises. */
  const NoReply: Reply := Fault("no reply from sensor")

  /** The driver-library calls the core makes. `speed == None` is the
      library's default speed. */
  datatype Command =
    | GetImage
    | Image2Tz(buffer: int)
    | CreateModel
    | StoreModel(slot: int)
    | FingerSearch
    | DeleteModel(slot: int)
    | ReadTemplates
    | CountTemplates
    | SetLed(color: int, mode: int, speed: Option<int>)

  /** The sensor link: replies still to come, commands sent so far, and the
      attributes the library fills in (`finger_id`, `confidence`,
      `templates`, `template_count`), which the driver only reads. */
  datatype Link = Link(
    replies: seq<Reply>,
    sent: seq<Command>,
    fingerId: int,
    confidence: int,
    templates: seq<int>,
    templateCount: int)

  /** The reply the `k`-th status command from now will get. */
  function Pending(l: Link, k: nat): Reply {
    if k < |l.replies| then l.replies[k] else NoReply
  }

  /** The queue left once `n` status commands have taken their replies. */
  function Drop(rs: seq<Reply>, n: nat): seq<Reply> {
    if n <= |rs| then rs[n..] else []
  }

  /** A link left with `Drop(l.replies, n)` answers as `l` does from its
      `n`-th reply on. */
  lemma PendingAfter(l: Link, l': Link, n: nat, k: nat)
    requires l'.replies == Drop(l.replies, n)
    ensures Pending(l', k) == Pending(l, k + n)
  {
  }

  /** Taking `m` replies and then `n` more takes `m + n`. */
  lemma DropDrop(rs: seq<Reply>, m: nat, n: nat)
    ensures Drop(Drop(rs, m), n) == Drop(rs, m + n)
  {
    if m + n <= |rs| {
      assert rs[m..][n..] == rs[m + n..];
    }
  }

  /** The link's attributes once reply `r` to command `c` has been read:
      `finger_search` refreshes the hit, `read_templates` the slot list,
      `count_templates` the count; other commands refresh nothing. */
  function Refreshed(l: Link, c: Command, r: Reply): (a: Link)
    ensures a.replies == l.replies && a.sent == l.sent
    ensures !c.FingerSearch? ==> a.fingerId == l.fingerId && a.confidence == l.confidence
    ensures !c.ReadTemplates? ==> a.templates == l.templates
    ensures !c.CountTemplates? ==> a.templateCount == l.templateCount
    ensures c.FingerSearch? && r.Status? && r.payload.Hit? ==>
              a.fingerId == r.payload.fingerId && a.confidence == r.payload.confidence
    ensures c.ReadTemplates? && r.Status? && r.payload.Listed? ==> a.templates == r.payload.templates
    ensures c.CountTemplates? && r.Status? && r.payload.Counted? ==> a.templateCount == r.payload.count
  {
    if r.Fault? then l
    else
      match r.payload
      case Hit(id, confidence) => if c.FingerSearch? then l.(fingerId := id, confidence := confidence) else l
      case Listed(t) => if c.ReadTemplates? then l.(templates := t) else l
      case Counted(n) => if c.CountTemplates? then l.(templateCount := n) else l
      case Nothing => l
  }

  /** Sends a status command and takes its reply, which refreshes the
      attributes that command reads. */
  function Ask(l: Link, c: Command): (out: (Reply, Link))
    requires !c.SetLed?
    ensures out.0 == Pending(l, 0)
    ensures out.1.replies == Drop(l.replies, 1)
    ensures out.1.sent == l.sent + [c]
    ensures var a := Refreshed(l, c, out.0);
            && out.1.fingerId == a.fingerId && out.1.confidence == a.confidence
            && out.1.templates == a.templates && out.1.templateCount == a.templateCount
  {
    var r := Pending(l, 0);
    (r, Refreshed(l, c, r).(replies := Drop(l.replies, 1), sent := l.sent + [c]))
  }

  /** `set_led`: recorded, never answered with a status. */
  function Led(l: Link, color: int, mode: int, speed: Option<int>): (r: Link)
    ensures r.sent == l.sent + [SetLed(color, mode, speed)]
    ensures r.replies == l.replies
    ensures r.fingerId == l.fingerId && r.confidence == l.confidence
    ensures r.templates == l.templates && r.templateCount == l.templateCount
  {
    l.(sent := l.sent + [SetLed(color, mode, speed)])
  }
}
