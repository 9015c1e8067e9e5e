/** The HTTP routes that read the service: the `/send-message` validation
    ladder and the `/qr` choice. The socket's two transport calls are abstract:
    what `onWhatsApp` and `sendMessage` would do is given as a `Lookup` and a
    `Delivery`, and the calls the handler makes are returned as a trace. */
module Routes {
  import opened Wrappers
  import opened Text
  import opened WhatsAppService

  /** The request body's `number` and `message`, each possibly absent. */
  datatype Request = Request(number: Option<string>, message: Option<string>)

  /** What `sock.onWhatsApp(number)` does: throw, or resolve to a list whose
      first entry is absent or carries an `exists` flag. */
  datatype Lookup = LookupThrew(error: string) | LookupReturned(first: Option<bool>)

  /** What `sock.sendMessage(…)` does: resolve or throw. */
  datatype Delivery = Delivered | SendThrew(error: string)

  /** The message content `{ text: message }`. */
  datatype Content = TextContent(text: string)

  /** A transport call the handler makes on the socket. */
  datatype Call = OnWhatsApp(jid: string) | SendMessage(jid: string, content: Content)

  /** A response body: `{success: true, message}`, `{success: false, error[, details]}`,
      or a plain string. */
  datatype Body = Success(message: string) | Failure(error: string, details: Option<string>) | PlainText(text: string)

  datatype Reply = Reply(code: int, body: Body)

  /** A reply, with the transport calls made before it, in order. */
  datatype Exchange = Exchange(reply: Reply, calls: seq<Call>)

  const JidSuffix := "@s.whatsapp.net"

  const MissingFields := "Missing \"number\" or \"message\" in request body."
  const InvalidFormat := "Invalid number format. Must be like 1234567890@s.whatsapp.net"
  const SendFailure := "Failed to send message"

  /** Whether the status text lets a send through. */
  predicate Reachable(sock: Option<SockId>, status: Status) {
    sock.Some? && StartsWith(status.ToString(), "connected")
  }

  /** `POST /send-message`, given what `getSocket()` and `getConnectionStatus()`
      return and what the two transport calls would do. */
  function SendMessageRoute(req: Request, sock: Option<SockId>, status: Status, lookup: Lookup, delivery: Delivery): (x: Exchange)
    // missing or empty fields: 400 before the service is consulted
    ensures !Truthy(req.number) || !Truthy(req.message) ==>
      x == Exchange(Reply(400, Failure(MissingFields, None)), [])
    // no socket, or a status not starting with `connected`: 503, even for a malformed number
    ensures Truthy(req.number) && Truthy(req.message) && !Reachable(sock, status) ==>
      x == Exchange(Reply(503, Failure("WhatsApp service not connected. Current status: " + status.ToString(), None)), [])
    // the transport is only contacted for a connected service and a number containing the suffix
    ensures x.calls != [] ==> Truthy(req.number) && Truthy(req.message) && Reachable(sock, status) && Contains(req.number.value, JidSuffix)
    ensures Truthy(req.number) && Truthy(req.message) && Reachable(sock, status) && !Contains(req.number.value, JidSuffix) ==>
      x == Exchange(Reply(400, Failure(InvalidFormat, None)), [])
    // a well-formed request to a connected service always reaches the lookup
    ensures Truthy(req.number) && Truthy(req.message) && Reachable(sock, status) && Contains(req.number.value, JidSuffix) ==>
      x.calls != []
    // the calls are the lookup, then at most one send, with the request's number and text
    ensures Truthy(req.number) && Truthy(req.message) ==>
      x.calls <= [OnWhatsApp(req.number.value), SendMessage(req.number.value, TextContent(req.message.value))]
    ensures x.calls != [] ==> x.calls[0] == OnWhatsApp(req.number.value)
    // an absent or unregistered recipient: 400 and no send
    ensures x.calls != [] && lookup.LookupReturned? && (lookup.first.None? || !lookup.first.value) ==>
      x == Exchange(Reply(400, Failure("Number " + req.number.value + " is not registered on WhatsApp.", None)), x.calls)
      && |x.calls| == 1
    // a send happens exactly when the lookup found the recipient registered
    ensures |x.calls| == 2 <==> x.calls != [] && lookup == LookupReturned(Some(true))
    // 200 exactly when the one send resolved
    ensures x.reply.code == 200 <==> |x.calls| == 2 && delivery == Delivered
    ensures x.reply.code == 200 ==> x.reply.body == Success("Message sent to " + req.number.value)
    // an exception from either transport call: 500 with its message as details
    ensures x.reply.code == 500 <==> x.calls != [] && (lookup.LookupThrew? || (|x.calls| == 2 && delivery.SendThrew?))
    ensures x.reply.code == 500 && lookup.LookupThrew? ==> x.reply.body == Failure(SendFailure, Some(lookup.error))
    ensures x.reply.code == 500 && lookup.LookupReturned? ==> x.reply.body == Failure(SendFailure, Some(delivery.error))
    ensures x.reply.code in {200, 400, 500, 503}
  {
    if !Truthy(req.number) || !Truthy(req.message) then
      Exchange(Reply(400, Failure(MissingFields, None)), [])
    else if sock.None? || !StartsWith(status.ToString(), "connected") then
      Exchange(Reply(503, Failure("WhatsApp service not connected. Current status: " + status.ToString(), None)), [])
    else
      var number, message := req.number.value, req.message.value;
      if !Contains(number, JidSuffix) then
        Exchange(Reply(400, Failure(InvalidFormat, None)), [])
      else
        match lookup
        case LookupThrew(e) =>
          Exchange(Reply(500, Failure(SendFailure, Some(e))), [OnWhatsApp(number)])
        case LookupReturned(first) =>
          if first.None? || !first.value then
            Exchange(Reply(400, Failure("Number " + number + " is not registered on WhatsApp.", None)), [OnWhatsApp(number)])
          else
            var calls := [OnWhatsApp(number), SendMessage(number, TextContent(message))];
            match delivery
            case SendThrew(e) => Exchange(Reply(500, Failure(SendFailure, Some(e))), calls)
            case Delivered => Exchange(Reply(200, Success("Message sent to " + number)), calls)
  }

  /** `GET /qr`, given what `getQR()` returns and, for the refusal, what
      `getConnectionStatus()` returns. */
  function QrRoute(qr: Option<string>, status: Status): (r: Reply)
    ensures r.code == 200 <==> Truthy(qr)
    ensures r.code == 200 ==> r.body == PlainText(qr.value)
    ensures r.code != 200 ==> r == Reply(404, PlainText("QR code not available. Current status: " + status.ToString()))
  {
    if Truthy(qr) then Reply(200, PlainText(qr.value))
    else Reply(404, PlainText("QR code not available. Current status: " + status.ToString()))
  }

  /** The address check is containment, not a suffix check: a number with the
      suffix in its middle, followed by text that does not end it, passes the
      check without ending in the suffix. */
  lemma ContainmentNotSuffix(a: string, b: string)
    requires b != [] && b[|b| - 1] != 't'
    ensures Contains(a + JidSuffix + b, JidSuffix)
    ensures !EndsWith(a + JidSuffix + b, JidSuffix)
  {
    ContainsInfix(a, JidSuffix, b);
    var s := a + JidSuffix + b;
    assert s[|s| - 1] == b[|b| - 1];
    assert JidSuffix[|JidSuffix| - 1] == 't';
  }

  /** With the service's own state: a send reaches the transport exactly when
      there is a socket and either its link is open or the cached status is
      `connected`. Any other status, `connecting…` and `qr_pending` included,
      answers 503 without a transport call, whatever the number. */
  lemma ServiceGate(svc: Service, linkOpen: bool, req: Request, lookup: Lookup, delivery: Delivery)
    requires svc.Valid() && Truthy(req.number) && Truthy(req.message)
    ensures
      var x := SendMessageRoute(req, svc.GetSocket(), svc.GetConnectionStatus(linkOpen), lookup, delivery);
      (x.reply.code == 503 && x.calls == []) <==> !(svc.sock.Some? && (linkOpen || svc.connectionStatus == Connected))
  {
    ConnectedPrefix(svc.GetConnectionStatus(linkOpen));
  }

  /** With the service's own state: `/qr` serves the pairing string exactly
      while the service is pairing, and otherwise answers 404 with the
      reported status. */
  lemma QrServedWhilePairing(svc: Service, linkOpen: bool)
    requires svc.Valid()
    ensures QrRoute(svc.GetQR(), svc.GetConnectionStatus(linkOpen)).code == 200 <==> svc.connectionStatus == QrPending
  {
  }
}
