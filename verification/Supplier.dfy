/** The supplier call (internal/supplier/http.go, conn.go, supplier.go): what the transport did,
    what Book makes of it, and the key a booking carries to the supplier. */
module Supplier {
  import opened Bookings
  import opened Dates

  /** The last three never reach a supplier: they are the attempt activity's own answers. */
  datatype Outcome =
    | Confirm | Decline | Ambiguous | NotSent | PreSendFailure
    | AlreadySettled | BudgetSpent | Outstanding

  datatype Result = Result(outcome: Outcome, reference: string, reason: string)

  datatype BookRequest = BookRequest(booking: string, key: string, stay: Stay)

  /** The body of the request. */
  datatype Payload = Payload(
    clientReference: string, property: string, room: string,
    checkIn: string, checkOut: string, firstName: string, lastName: string)

  /** What is posted: the body, and the key once more in its own header. */
  datatype Post = Post(body: Payload, header: string)

  function PostOf(r: BookRequest): Post {
    Post(Payload(r.key, r.stay.property, r.stay.room, FormatDate(r.stay.checkIn), FormatDate(r.stay.checkOut),
                 r.stay.firstName, r.stay.lastName),
         r.key)
  }

  /** The supplier can tell what it was asked for: a post is the same exactly when key and stay are. */
  lemma PostIsExact(a: BookRequest, b: BookRequest)
    ensures PostOf(a) == PostOf(b) <==> a.key == b.key && a.stay == b.stay
  {
    DateIsExact(a.stay.checkIn, b.stay.checkIn);
    DateIsExact(a.stay.checkOut, b.stay.checkOut);
  }

  /** What the transport does during one call. Connected is the GotConn hook; TLS and other
      setup bytes go through the same counting socket as the request's. */
  datatype Wire = Setup(n: nat) | Connected | Request(n: nat)

  datatype Body = Body(status: string, reference: string, declineCode: string, message: string)

  datatype NetReply =
    | BuildFailed(why: string)        // the request could not be encoded or built
    | Broken(why: string)             // Do returned an error
    | Unreadable(why: string)         // the response body could not be read
    | Responded(code: nat, body: Body) // a response, its body decoded (zero value when not JSON)

  /** Request bytes are written on an established connection and nowhere else. */
  predicate Possible(wire: seq<Wire>) {
    forall i | 0 <= i < |wire| && wire[i].Request? :: Connected in wire[..i]
  }

  function RequestBytes(wire: seq<Wire>): nat {
    if wire == [] then 0 else
      RequestBytes(wire[..|wire| - 1]) + match wire[|wire| - 1] case Request(n) => n case _ => 0
  }

  function Written(wire: seq<Wire>): nat {
    if wire == [] then 0 else
      Written(wire[..|wire| - 1])
      + match wire[|wire| - 1] case Request(n) => n case Setup(n) => n case Connected => 0
  }

  /** Bytes on the socket when the latest connection was established, if any was. */
  function Baseline(wire: seq<Wire>): Option<nat> {
    if wire == [] then None
    else if wire[|wire| - 1].Connected? then Some(Written(wire[..|wire| - 1]))
    else Baseline(wire[..|wire| - 1])
  }

  predicate LooksUnsent(wire: seq<Wire>) {
    Baseline(wire).None? || Baseline(wire) == Some(Written(wire))
  }

  const DECLINE_CODES: set<string> :=
    {"NO_AVAILABILITY", "RATE_NOT_AVAILABLE", "PROPERTY_CLOSED", "GUEST_REJECTED"}

  function Decimal(n: nat): string {
    if n < 10 then ["0123456789"[n]] else Decimal(n / 10) + ["0123456789"[n % 10]]
  }

  function Unclassified(body: Body, code: nat): string {
    "unclassified answer (http " + Decimal(code) + ")" + if body.message != "" then ": " + body.message else ""
  }

  /** A recognized decline wins over the HTTP status; a confirmation needs a reference. */
  function Classify(code: nat, body: Body): Result {
    if body.declineCode in DECLINE_CODES then Result(Decline, "", body.declineCode)
    else if (code == 200 || code == 201) && body.status == "CONFIRMED" && body.reference != ""
    then Result(Confirm, body.reference, "")
    else Result(Ambiguous, "", Unclassified(body, code))
  }

  /** The verdict on one call, as a function of what the transport did and how it ended. */
  function Verdict(wire: seq<Wire>, reply: NetReply): Result {
    match reply
    case BuildFailed(why) => Result(PreSendFailure, "", why)
    case Broken(why) => Result(if LooksUnsent(wire) then NotSent else Ambiguous, "", why)
    case Unreadable(why) => Result(Ambiguous, "", why)
    case Responded(code, body) => Classify(code, body)
  }

  /** What a reply says, read off the reply itself. */
  predicate Declines(reply: NetReply) {
    && reply.Responded?
    && (|| reply.body.declineCode == "NO_AVAILABILITY" || reply.body.declineCode == "RATE_NOT_AVAILABLE"
        || reply.body.declineCode == "PROPERTY_CLOSED" || reply.body.declineCode == "GUEST_REJECTED")
  }

  predicate Confirms(reply: NetReply) {
    && reply.Responded? && !Declines(reply)
    && (reply.code == 200 || reply.code == 201)
    && reply.body.status == "CONFIRMED" && reply.body.reference != ""
  }

  function Size(e: Wire): nat {
    match e case Request(n) => n case Setup(n) => n case Connected => 0
  }

  /** The last connection came up at k, and not a byte has been written since. */
  predicate SilentSince(wire: seq<Wire>, k: nat) {
    && k < |wire| && wire[k].Connected?
    && forall j | k < j < |wire| :: !wire[j].Connected? && Size(wire[j]) == 0
  }

  /** No connection was ever established, or nothing was written on the last one. */
  ghost predicate Silent(wire: seq<Wire>) {
    Connected !in wire || exists k: nat :: SilentSince(wire, k)
  }

  predicate ProvesUnsent(o: Outcome) {
    o.NotSent? || o.PreSendFailure?
  }

  /** No connection was opened after request bytes had left, as following a redirect would. */
  predicate NeverReconnects(wire: seq<Wire>) {
    forall i | 0 <= i < |wire| && wire[i].Connected? :: RequestBytes(wire[..i]) == 0
  }

  lemma {:induction false} WrittenSince(wire: seq<Wire>)
    ensures Baseline(wire).Some? <==> Connected in wire
    ensures Baseline(wire).Some? ==> Baseline(wire).value <= Written(wire)
  {
    if wire != [] {
      WrittenSince(wire[..|wire| - 1]);
      assert wire == wire[..|wire| - 1] + [wire[|wire| - 1]];
    }
  }

  /** The counters say unsent exactly when the last connection stayed silent. */
  lemma {:induction false} SilentIff(wire: seq<Wire>)
    ensures LooksUnsent(wire) <==> Silent(wire)
  {
    if wire != [] {
      var (init, e) := (wire[..|wire| - 1], wire[|wire| - 1]);
      assert wire == init + [e];
      SilentIff(init);
      WrittenSince(init);
      if e.Connected? {
        assert SilentSince(wire, |wire| - 1);
      } else if LooksUnsent(wire) && Connected in wire {
        var k: nat :| SilentSince(init, k);
        assert SilentSince(wire, k);
      } else if Silent(wire) && Connected in wire {
        var k: nat :| SilentSince(wire, k);
        assert SilentSince(init, k);
      }
    }
  }

  lemma {:induction false} DecimalSpells(n: nat)
    ensures Number(Decimal(n)) == n
  {
    if n < 10 {
      OneMoreDigit("", n);
      assert "" + [Digit(n)] == Decimal(n);
    } else {
      DecimalSpells(n / 10);
      OneMoreDigit(Decimal(n / 10), n);
    }
  }

  /** The verdict, read off the reply and the wire. */
  lemma VerdictMeans(wire: seq<Wire>, reply: NetReply)
    ensures var v := Verdict(wire, reply);
            && (v.outcome.Decline? <==> Declines(reply))
            && (v.outcome.Confirm? <==> Confirms(reply))
            && (v.outcome.PreSendFailure? <==> reply.BuildFailed?)
            && (v.outcome.NotSent? <==> reply.Broken? && Silent(wire))
            && (v.outcome.Ambiguous? <==>
                  !Declines(reply) && !Confirms(reply) && !reply.BuildFailed? && !(reply.Broken? && Silent(wire)))
            && (Declines(reply) ==> v.reason == reply.body.declineCode)
            && (v.reference == if Confirms(reply) then reply.body.reference else "")
            && (!reply.Responded? ==> v.reason == reply.why)
            && (reply.Responded? && v.outcome.Ambiguous? ==>
                  var message := reply.body.message;
                  && v.reason == "unclassified answer (http " + Decimal(reply.code) + ")"
                                 + (if message == "" then "" else ": " + message)
                  && Number(Decimal(reply.code)) == reply.code)
  {
    SilentIff(wire);
    if reply.Responded? {
      DecimalSpells(reply.code);
    }
  }

  class Counter {
    var n: nat

    constructor ()
      ensures n == 0
    {
      n := 0;
    }
  }

  /** The socket wrapper: every byte that reaches the wire is added to the call's counter. */
  class CountingConn {
    const written: Counter

    constructor (written: Counter)
      ensures this.written == written
    {
      this.written := written;
    }

    method Write(n: nat)
      modifies written
      ensures written.n == old(written.n) + n
    {
      written.n := written.n + n;
    }
  }

  /** Book against the three atomics it keeps: bytes written, bytes at the connection's baseline,
      and whether a connection was ever established. */
  method Book(request: BookRequest, wire: seq<Wire>, reply: NetReply) returns (r: Result, posted: Option<Post>)
    ensures r == Verdict(wire, reply)
    ensures posted == if reply.BuildFailed? then None else Some(PostOf(request))
    // a recognized decline code, whatever the HTTP status, is a decline and its own reason
    ensures r.outcome.Decline? <==>
              && reply.Responded?
              && reply.body.declineCode in
                   {"NO_AVAILABILITY", "RATE_NOT_AVAILABLE", "PROPERTY_CLOSED", "GUEST_REJECTED"}
    ensures r.outcome.Decline? ==> r.reason == reply.body.declineCode && r.reference == ""
    // anything short of a confirmed 200 or 201 with a reference confirms nothing
    ensures r.outcome.Confirm? <==>
              && reply.Responded? && !r.outcome.Decline?
              && (reply.code == 200 || reply.code == 201)
              && reply.body.status == "CONFIRMED" && reply.body.reference != ""
    ensures r.outcome.Confirm? ==> r.reference == reply.body.reference
    ensures r.outcome.PreSendFailure? <==> reply.BuildFailed?
    ensures r.outcome.NotSent? <==> reply.Broken? && Silent(wire)
    ensures !r.outcome.Confirm? && !r.outcome.Decline? && !r.outcome.PreSendFailure? && !r.outcome.NotSent? ==>
              r.outcome.Ambiguous?
    // the request goes out under its key, with every field where the supplier looks for it
    ensures posted.Some? ==>
              && posted.value.header == request.key == posted.value.body.clientReference
              && posted.value.body.property == request.stay.property && posted.value.body.room == request.stay.room
              && posted.value.body.checkIn == FormatDate(request.stay.checkIn)
              && posted.value.body.checkOut == FormatDate(request.stay.checkOut)
              && posted.value.body.firstName == request.stay.firstName
              && posted.value.body.lastName == request.stay.lastName
  {
    VerdictMeans(wire, reply);
    posted := None;
    if reply.BuildFailed? {
      return Result(PreSendFailure, "", reply.why), None;
    }
    var body := Payload(request.key, request.stay.property, request.stay.room,
                        FormatDate(request.stay.checkIn), FormatDate(request.stay.checkOut),
                        request.stay.firstName, request.stay.lastName);
    posted := Some(Post(body, request.key));
    var written := new Counter();
    var conn := new CountingConn(written);
    var baseline := 0;
    var connected := false;
    for i := 0 to |wire|
      invariant conn.written == written && fresh(written)
      invariant written.n == Written(wire[..i])
      invariant connected == Baseline(wire[..i]).Some?
      invariant connected ==> Baseline(wire[..i]) == Some(baseline)
    {
      assert wire[..i + 1][..i] == wire[..i];
      match wire[i] {
        case Setup(n) => conn.Write(n);
        case Request(n) => conn.Write(n);
        case Connected =>
          baseline := written.n;
          connected := true;
      }
    }
    assert wire[..|wire|] == wire;
    match reply {
      case Broken(why) =>
        r := Result(if !connected || written.n == baseline then NotSent else Ambiguous, "", why);
      case Unreadable(why) =>
        r := Result(Ambiguous, "", why);
      case Responded(code, body) =>
        r := Classify(code, body);
    }
  }

  /** Without a reconnection, request bytes all lie above the baseline. */
  lemma {:induction false} RequestAboveBaseline(wire: seq<Wire>)
    requires Possible(wire) && NeverReconnects(wire)
    ensures Baseline(wire).None? ==> RequestBytes(wire) == 0
    ensures Baseline(wire).Some? ==> RequestBytes(wire) <= Written(wire) - Baseline(wire).value
  {
    if wire != [] {
      var init := wire[..|wire| - 1];
      assert forall i | 0 <= i <= |init| :: wire[..i] == init[..i];
      assert forall i | 0 <= i < |init| :: wire[i] == init[i];
      RequestAboveBaseline(init);
      WrittenSince(init);
      assert wire[..|init|] == init;
    }
  }

  /** Not-sent is honest: a call that looks unsent put no request byte on any socket. */
  lemma UnsentIsHonest(wire: seq<Wire>)
    requires Possible(wire) && NeverReconnects(wire) && LooksUnsent(wire)
    ensures RequestBytes(wire) == 0
  {
    RequestAboveBaseline(wire);
  }

  lemma {:induction false} RequestBytesGrow(wire: seq<Wire>, j: nat)
    requires j <= |wire|
    ensures RequestBytes(wire[..j]) <= RequestBytes(wire)
  {
    if j == |wire| {
      assert wire[..j] == wire;
    } else {
      RequestBytesGrow(wire[..|wire| - 1], j);
      assert wire[..|wire| - 1][..j] == wire[..j];
    }
  }

  /** What a call that looks unsent did: request bytes left exactly when it connected again. */
  lemma UnsentMeans(wire: seq<Wire>)
    requires Possible(wire) && LooksUnsent(wire)
    ensures RequestBytes(wire) == 0 <==> NeverReconnects(wire)
  {
    if NeverReconnects(wire) {
      UnsentIsHonest(wire);
    } else {
      var i :| 0 <= i < |wire| && wire[i].Connected? && RequestBytes(wire[..i]) != 0;
      RequestBytesGrow(wire, i);
    }
  }

  lemma PrefixPossible(wire: seq<Wire>, j: nat)
    requires j <= |wire|
    ensures Possible(wire) ==> Possible(wire[..j])
    ensures NeverReconnects(wire) ==> NeverReconnects(wire[..j])
  {
    assert forall i | 0 <= i <= j :: wire[..j][..i] == wire[..i];
  }

  /** Exactly when send detection can be trusted: a transport that may break at any moment is
      never reported unsent after request bytes left iff it opens no connection after them. The
      baseline is retaken by every connection, so a followed redirect breaks the proof. */
  lemma HonestWhereverItBreaks(wire: seq<Wire>)
    requires Possible(wire)
    ensures (forall j | 0 <= j <= |wire| :: LooksUnsent(wire[..j]) ==> RequestBytes(wire[..j]) == 0)
            <==> NeverReconnects(wire)
  {
    if NeverReconnects(wire) {
      forall j | 0 <= j <= |wire| && LooksUnsent(wire[..j])
        ensures RequestBytes(wire[..j]) == 0
      {
        PrefixPossible(wire, j);
        UnsentIsHonest(wire[..j]);
      }
    } else {
      var i :| 0 <= i < |wire| && wire[i].Connected? && RequestBytes(wire[..i]) != 0;
      assert wire[..i + 1][..i] == wire[..i];
      assert LooksUnsent(wire[..i + 1]);
      assert RequestBytes(wire[..i + 1]) == RequestBytes(wire[..i]);
    }
  }
}
