/** The connection lifecycle of the WhatsApp service: one socket, the pending
    pairing (QR) string and a cached status, driven by a start call and by the
    socket's `connection.update` events.

    The library (Baileys) is abstract: what a start's library calls produce is
    a `Setup` value, the socket's link-open flag is a `bool` given to the
    status query, and the three `DisconnectReason` codes are a `DisconnectCodes`
    record without concrete numbers. */
module WhatsAppService {
  import opened Wrappers
  import opened Text

  /** Identity of a socket object built by the library. */
  type SockId = nat

  /** What a close event's status text reports: `error_reason` when it is
      truthy, otherwise the status code, which may be missing. */
  datatype Reason = Described(text: string) | Coded(code: Option<int>)
  {
    /** The text a JavaScript template literal gives the value: a described
        reason reads as its text, an absent code reads `undefined`, a present
        one reads as the decimal rendering of the code itself. */
    function ToString(): (r: string)
      ensures Described? ==> r == text
      ensures Coded? && code.None? ==> r == "undefined"
      ensures Coded? && code.Some? ==> r == NumberToString(code.value)
      ensures Coded? && code.Some? ==> SignedValue(r) == code.value
    {
      match this
      case Described(t) => t
      case Coded(None) => "undefined"
      case Coded(Some(c)) => NumberToString(c)
    }
  }

  /** Every status string the service produces. The six that the cached status
      can hold are `IsCached()`; `ConnectingInitializing` and
      `ConnectedSocketOpen` are only ever reported by the status query. */
  datatype Status =
    | Disconnected
    | Connecting
    | ConnectingInitializing
    | QrPending
    | Connected
    | ConnectedSocketOpen
    | DisconnectedLoggedOut
    | DisconnectedError(reason: Reason)
  {
    /** The status text; the disconnected family, and only it, reads `disconnected…`. */
    function ToString(): (r: string)
      ensures StartsWith(r, "disconnected") <==> Disconnected? || DisconnectedLoggedOut? || DisconnectedError?
    {
      match this
      case Disconnected => "disconnected"
      case Connecting =>
        assert "connecting"[0] != 'd';
        "connecting"
      case ConnectingInitializing =>
        assert "connecting (socket initializing)"[0] != 'd';
        "connecting (socket initializing)"
      case QrPending =>
        assert "qr_pending"[0] != 'd';
        "qr_pending"
      case Connected =>
        assert "connected"[0] != 'd';
        "connected"
      case ConnectedSocketOpen =>
        assert "connected (socket open)"[0] != 'd';
        "connected (socket open)"
      case DisconnectedLoggedOut => "disconnected (logged out)"
      case DisconnectedError(r) => "disconnected (error: " + r.ToString() + ")"
    }

    predicate IsCached() {
      !ConnectingInitializing? && !ConnectedSocketOpen?
    }
  }

  /** Exactly the two connected variants pass the routes' `startsWith('connected')`;
      `connecting…` and `disconnected…` do not. */
  lemma ConnectedPrefix(s: Status)
    ensures StartsWith(s.ToString(), "connected") <==> s.Connected? || s.ConnectedSocketOpen?
  {
    match s
    case Connecting =>
      assert s.ToString()[7] != "connected"[7];
    case ConnectingInitializing =>
      assert s.ToString()[7] != "connected"[7];
    case Disconnected =>
      assert s.ToString()[0] != 'c';
    case QrPending =>
      assert s.ToString()[0] != 'c';
    case DisconnectedLoggedOut =>
      assert s.ToString()[0] != 'c';
    case DisconnectedError(r) =>
      assert s.ToString()[0] != 'c';
    case Connected =>
    case ConnectedSocketOpen =>
      assert s.ToString()[..9] == "connected";
  }

  /** The library's `DisconnectReason.loggedOut`, `.restartRequired` and
      `.connectionReplaced`. */
  datatype DisconnectCodes = DisconnectCodes(loggedOut: int, restartRequired: int, connectionReplaced: int)
  {
    predicate Distinct() {
      loggedOut != restartRequired && loggedOut != connectionReplaced && restartRequired != connectionReplaced
    }
  }

  /** `update.lastDisconnect` of a close event: its `error_reason` and the
      status code found under `error.output.statusCode`, either possibly absent. */
  datatype LastDisconnect = LastDisconnect(errorReason: Option<string>, statusCode: Option<int>)

  /** `update.connection`: 'connecting', 'open' or 'close'. */
  datatype Connection = LinkConnecting | LinkOpen | LinkClose(last: LastDisconnect)

  /** The payload of one `connection.update` event. */
  datatype Update = Update(connection: Option<Connection>, qr: Option<string>)

  /** The events the service listens to on its socket. */
  datatype Event = ConnectionUpdate(update: Update) | CredsUpdate | MessagesUpsert

  datatype EventName = CredsUpdateName | ConnectionUpdateName | MessagesUpsertName

  /** One `sock.ev.on(name, …)` registration. */
  datatype Registration = Registration(sock: SockId, name: EventName)

  /** What the library calls of a start produce, in order: loading the stored
      auth state, fetching the protocol version, building the socket. The first
      that throws ends the start with its error. */
  datatype Setup =
    | AuthStateFailed(error: string)
    | VersionFetchFailed(error: string)
    | SocketFailed(error: string)
    | SocketBuilt(id: SockId)

  /** A start returns a socket or rejects with an error. */
  datatype StartResult = Returned(sock: SockId) | Threw(error: string)

  /** The module-level variables `sock`, `currentQR`, `connectionStatus`, and
      the listeners registered on the sockets built so far. */
  datatype State = State(sock: Option<SockId>, qr: Option<string>, status: Status, listeners: seq<Registration>)

  /** `sock = null`, `currentQR = null`, `connectionStatus = 'disconnected'`. */
  const Initial := State(None, None, Disconnected, [])

  /** `sock.ev.listenerCount(name)` for the socket `id`. */
  function ListenerCount(regs: seq<Registration>, id: SockId, name: EventName): nat {
    if regs == [] then 0
    else (if regs[0] == Registration(id, name) then 1 else 0) + ListenerCount(regs[1..], id, name)
  }

  lemma {:induction false} ListenerCountAppend(a: seq<Registration>, b: seq<Registration>, id: SockId, name: EventName)
    ensures ListenerCount(a + b, id, name) == ListenerCount(a, id, name) + ListenerCount(b, id, name)
    decreases |a|
  {
    if a == [] {
      assert a + b == b;
    } else {
      assert (a + b)[0] == a[0] && (a + b)[1..] == a[1..] + b;
      ListenerCountAppend(a[1..], b, id, name);
    }
  }

  /** The three registrations a start makes on a fresh socket. */
  function Registrations(id: SockId): seq<Registration> {
    [Registration(id, CredsUpdateName), Registration(id, ConnectionUpdateName), Registration(id, MessagesUpsertName)]
  }

  /** The consistency the lifecycle keeps between its variables:
      the cached status is one of the six cached variants; a pairing string is
      held exactly while the status is `qr_pending`, and it is non-empty; no
      socket means no pairing string; `connected` means a socket;
      `disconnected` and `disconnected (logged out)` mean no socket; and a
      socket has its `connection.update` listener. */
  predicate Inv(st: State) {
    && st.status.IsCached()
    && (st.qr.Some? <==> st.status == QrPending)
    && (st.qr.Some? ==> st.qr.value != "")
    && (st.sock.None? ==> st.qr.None?)
    && (st.status == Connected ==> st.sock.Some?)
    && (st.status == Disconnected || st.status == DisconnectedLoggedOut ==> st.sock.None?)
    && (st.sock.Some? ==> ListenerCount(st.listeners, st.sock.value, ConnectionUpdateName) > 0)
  }

  lemma InitialInv()
    ensures Inv(Initial)
  {
  }

  /** `connectToWhatsApp`: the state after a start, and what the start returns. */
  function AfterStart(st: State, setup: Setup): (r: (State, StartResult))
    // a socket already present: returned as it is, nothing changes, no new listeners
    ensures st.sock.Some? ==> r == (st, Returned(st.sock.value))
    // no socket: the status becomes `connecting` whatever happens next
    ensures st.sock.None? ==> r.0.status == Connecting && r.0.qr == st.qr
    ensures st.sock.None? && setup.SocketBuilt? ==>
      r.0.sock == Some(setup.id) && r.1 == Returned(setup.id) && r.0.listeners == st.listeners + Registrations(setup.id)
    // a library call that throws leaves no socket and the status at `connecting`
    ensures st.sock.None? && !setup.SocketBuilt? ==>
      r.0.sock.None? && r.1 == Threw(setup.error) && r.0.listeners == st.listeners
    ensures Inv(st) ==> Inv(r.0)
  {
    if st.sock.Some? then (st, Returned(st.sock.value))
    else
      var connecting := st.(status := Connecting);
      match setup
      case SocketBuilt(id) =>
        ListenerCountAppend(st.listeners, Registrations(id), id, ConnectionUpdateName);
        (connecting.(sock := Some(id), listeners := st.listeners + Registrations(id)), Returned(id))
      case _ => (connecting, Threw(setup.error))
  }

  /** The status text of a close event: `error_reason || statusCode`. */
  function ReasonOf(last: LastDisconnect): (r: Reason)
    ensures r.Described? <==> Truthy(last.errorReason)
    ensures r.Described? ==> r.text == last.errorReason.value
    ensures r.Coded? ==> r.code == last.statusCode
  {
    if Truthy(last.errorReason) then Described(last.errorReason.value) else Coded(last.statusCode)
  }

  /** Whether a close with a code other than `loggedOut` releases the socket. */
  predicate Releases(code: Option<int>, codes: DisconnectCodes) {
    code == Some(codes.restartRequired) || code == Some(codes.connectionReplaced)
  }

  /** The `connection.update` handler, as the state after the update, by what
      the update finally decides. */
  function AfterUpdate(st: State, u: Update, codes: DisconnectCodes): (r: State)
    requires st.sock.Some?
    ensures r.listeners == st.listeners
    // a truthy `qr` in an update that neither opens nor closes: pairing pending
    ensures Truthy(u.qr) && (u.connection.None? || u.connection == Some(LinkConnecting)) ==>
      r == st.(qr := u.qr, status := QrPending)
    // a close clears the pairing string, whatever else the update carries
    ensures u.connection.Some? && u.connection.value.LinkClose? ==> r.qr.None?
    ensures u.connection.Some? && u.connection.value.LinkClose? && u.connection.value.last.statusCode == Some(codes.loggedOut) ==>
      r.status == DisconnectedLoggedOut && r.sock.None?
    ensures u.connection.Some? && u.connection.value.LinkClose? && u.connection.value.last.statusCode != Some(codes.loggedOut) ==>
      && r.status == DisconnectedError(ReasonOf(u.connection.value.last))
      && (r.sock.None? <==> Releases(u.connection.value.last.statusCode, codes))
      && (r.sock.Some? ==> r.sock == st.sock)
    // an open clears the pairing string and keeps the socket
    ensures u.connection == Some(LinkOpen) ==> r == st.(qr := None, status := Connected)
    // an update with neither a truthy `qr` nor a decisive connection changes nothing
    ensures !Truthy(u.qr) && (u.connection.None? || u.connection == Some(LinkConnecting)) ==> r == st
    ensures Inv(st) ==> Inv(r)
  {
    match u.connection
    case Some(LinkClose(last)) =>
      if last.statusCode == Some(codes.loggedOut) then
        st.(sock := None, qr := None, status := DisconnectedLoggedOut)
      else
        st.(sock := if Releases(last.statusCode, codes) then None else st.sock,
            qr := None,
            status := DisconnectedError(ReasonOf(last)))
    case Some(LinkOpen) =>
      st.(qr := None, status := Connected)
    case _ =>
      if Truthy(u.qr) then st.(qr := u.qr, status := QrPending) else st
  }

  /** An event delivered by the live socket. `creds.update` only persists
      credentials and `messages.upsert` only logs: neither changes the state. */
  function AfterEvent(st: State, e: Event, codes: DisconnectCodes): (r: State)
    requires st.sock.Some?
    ensures !e.ConnectionUpdate? ==> r == st
    ensures Inv(st) ==> Inv(r)
  {
    match e
    case ConnectionUpdate(u) => AfterUpdate(st, u, codes)
    case _ => st
  }

  /** A start call, or an event from the socket. */
  datatype Action = Start(setup: Setup) | Deliver(event: Event)

  /** One action. Only a live socket delivers events: with no socket, there is
      nothing to deliver them. */
  function Apply(st: State, a: Action, codes: DisconnectCodes): State {
    match a
    case Start(setup) => AfterStart(st, setup).0
    case Deliver(e) => if st.sock.Some? then AfterEvent(st, e, codes) else st
  }

  /** The state after a serialized stream of actions. */
  function Run(st: State, actions: seq<Action>, codes: DisconnectCodes): State
    decreases |actions|
  {
    if actions == [] then st else Run(Apply(st, actions[0], codes), actions[1..], codes)
  }

  /** Every start and every event keeps the invariant, over any stream. */
  lemma {:induction false} RunPreservesInv(st: State, actions: seq<Action>, codes: DisconnectCodes)
    requires Inv(st)
    ensures Inv(Run(st, actions, codes))
    decreases |actions|
  {
    if actions != [] {
      RunPreservesInv(Apply(st, actions[0], codes), actions[1..], codes);
    }
  }

  /** From the initial state, whatever happens: the status is always a cached
      variant, and a pairing string is present exactly while it is `qr_pending`. */
  lemma ReachableStatus(actions: seq<Action>, codes: DisconnectCodes)
    ensures Run(Initial, actions, codes).status.IsCached()
    ensures Run(Initial, actions, codes).qr.Some? <==> Run(Initial, actions, codes).status == QrPending
  {
    RunPreservesInv(Initial, actions, codes);
  }

  /** A second start without a close in between returns the same socket and
      changes nothing, listeners included. */
  lemma StartTwice(st: State, first: Setup, second: Setup)
    requires Inv(st) && st.sock.None? && first.SocketBuilt?
    ensures AfterStart(AfterStart(st, first).0, second) == (AfterStart(st, first).0, Returned(first.id))
  {
  }

  /** After a logged-out close, the socket is released, so a start builds a
      fresh one and registers its listeners. */
  lemma LogoutThenStart(st: State, last: LastDisconnect, codes: DisconnectCodes, setup: Setup)
    requires Inv(st) && st.sock.Some? && last.statusCode == Some(codes.loggedOut) && setup.SocketBuilt?
    ensures AfterUpdate(st, Update(Some(LinkClose(last)), None), codes).sock.None?
    ensures AfterStart(AfterUpdate(st, Update(Some(LinkClose(last)), None), codes), setup).1 == Returned(setup.id)
    ensures AfterStart(AfterUpdate(st, Update(Some(LinkClose(last)), None), codes), setup).0.status == Connecting
  {
  }

  /** With the library's distinct codes, a `restartRequired` or
      `connectionReplaced` close is reported as an error, not as a logout, and
      releases the socket. */
  lemma RestartReleases(st: State, last: LastDisconnect, codes: DisconnectCodes)
    requires st.sock.Some? && codes.Distinct()
    requires last.statusCode == Some(codes.restartRequired) || last.statusCode == Some(codes.connectionReplaced)
    ensures AfterUpdate(st, Update(Some(LinkClose(last)), None), codes).status == DisconnectedError(ReasonOf(last))
    ensures AfterUpdate(st, Update(Some(LinkClose(last)), None), codes).sock.None?
  {
  }

  /** The start guard looks only at the socket: a close with a code that
      neither logs out nor releases keeps the dead socket, so every later start
      returns it and changes nothing, leaving the error status in place. */
  lemma RetainedSocketBlocksRestart(st: State, last: LastDisconnect, codes: DisconnectCodes, setup: Setup)
    requires Inv(st) && st.sock.Some?
    requires last.statusCode != Some(codes.loggedOut) && !Releases(last.statusCode, codes)
    ensures
      var s1 := AfterUpdate(st, Update(Some(LinkClose(last)), None), codes);
      AfterStart(s1, setup) == (s1, Returned(st.sock.value)) && s1.status == DisconnectedError(ReasonOf(last))
  {
  }

  /** The module's variables as an object: its methods are `connectToWhatsApp`
      and the socket's event handlers, its functions the three queries. */
  class Service {
    const codes: DisconnectCodes
    var sock: Option<SockId>
    var currentQR: Option<string>
    var connectionStatus: Status
    var listeners: seq<Registration>

    function Snapshot(): State
      reads this
    {
      State(sock, currentQR, connectionStatus, listeners)
    }

    predicate Valid()
      reads this
    {
      Inv(Snapshot())
    }

    constructor (codes: DisconnectCodes)
      ensures Valid() && Snapshot() == Initial && this.codes == codes
    {
      this.codes := codes;
      sock := None;
      currentQR := None;
      connectionStatus := Disconnected;
      listeners := [];
    }

    /** `connectToWhatsApp()`. */
    method ConnectToWhatsApp(setup: Setup) returns (r: StartResult)
      requires Valid()
      modifies this
      ensures Valid()
      ensures (Snapshot(), r) == AfterStart(old(Snapshot()), setup)
    {
      if sock.Some? {
        return Returned(sock.value);
      }
      connectionStatus := Connecting;
      if setup.AuthStateFailed? || setup.VersionFetchFailed? || setup.SocketFailed? {
        return Threw(setup.error);
      }
      var id := setup.id;
      sock := Some(id);
      listeners := listeners + [Registration(id, CredsUpdateName)];
      listeners := listeners + [Registration(id, ConnectionUpdateName)];
      listeners := listeners + [Registration(id, MessagesUpsertName)];
      assert listeners == old(listeners) + Registrations(id);
      ListenerCountAppend(old(listeners), Registrations(id), id, ConnectionUpdateName);
      r := Returned(id);
    }

    /** The `connection.update` listener, run on an event of the live socket. */
    method OnConnectionUpdate(u: Update)
      requires Valid() && sock.Some?
      modifies this
      ensures Valid()
      ensures Snapshot() == AfterUpdate(old(Snapshot()), u, codes)
    {
      if Truthy(u.qr) {
        currentQR := u.qr;
        connectionStatus := QrPending;
      }
      if u.connection.Some? && u.connection.value.LinkClose? {
        currentQR := None;
        var last := u.connection.value.last;
        var statusCode := last.statusCode;
        if statusCode == Some(codes.loggedOut) {
          connectionStatus := DisconnectedLoggedOut;
          sock := None;
        } else {
          connectionStatus := DisconnectedError(ReasonOf(last));
          if statusCode != Some(codes.restartRequired) && statusCode != Some(codes.connectionReplaced) {
          } else {
            sock := None;
          }
        }
      } else if u.connection == Some(LinkOpen) {
        currentQR := None;
        connectionStatus := Connected;
      }
    }

    /** Hands an event of the live socket to the listener registered for it. */
    method Dispatch(e: Event)
      requires Valid() && sock.Some?
      modifies this
      ensures Valid()
      ensures Snapshot() == AfterEvent(old(Snapshot()), e, codes)
    {
      match e
      case ConnectionUpdate(u) =>
        OnConnectionUpdate(u);
      case CredsUpdate =>
      case MessagesUpsert =>
    }

    /** `getQR()`: a pairing string is returned exactly while pairing is pending. */
    function GetQR(): (r: Option<string>)
      reads this
      ensures r == currentQR
      ensures Valid() ==> (Truthy(r) <==> connectionStatus == QrPending)
    {
      currentQR
    }

    /** `getSocket()`: an absent socket comes with no pairing string and a
        status other than `connected`. */
    function GetSocket(): (r: Option<SockId>)
      reads this
      ensures r == sock
      ensures Valid() && r.None? ==> currentQR.None? && connectionStatus != Connected
    {
      sock
    }

    /** `getConnectionStatus()`, given whether the socket's link reports open. */
    function GetConnectionStatus(linkOpen: bool): (r: Status)
      reads this
      // a socket with an open link is reported connected, whatever is cached
      ensures sock.Some? && linkOpen ==> r == ConnectedSocketOpen
      // a live socket whose status is still cached as `connecting`
      ensures Valid() && sock.Some? && !linkOpen && connectionStatus == Connecting ==> r == ConnectingInitializing
      ensures !(sock.Some? && linkOpen) && connectionStatus != Connecting ==> r == connectionStatus
      // a reported connected variant always comes with a socket
      ensures Valid() && (r.Connected? || r.ConnectedSocketOpen?) ==> sock.Some?
      ensures Valid() && sock.None? ==> r == connectionStatus
    {
      if sock.Some? && linkOpen then ConnectedSocketOpen
      else if sock.Some? && ListenerCount(listeners, sock.value, ConnectionUpdateName) > 0 && connectionStatus == Connecting then
        ConnectingInitializing
      else connectionStatus
    }
  }

  /** Start, pair, open and log out, as a caller of the class sees it. */
  method Lifecycle(codes: DisconnectCodes, id: SockId)
  {
    var svc := new Service(codes);
    var r := svc.ConnectToWhatsApp(SocketBuilt(id));
    assert r == Returned(id) && svc.GetConnectionStatus(false) == ConnectingInitializing;
    svc.OnConnectionUpdate(Update(None, Some("ABC123")));
    assert svc.GetQR() == Some("ABC123") && svc.GetConnectionStatus(false) == QrPending;
    svc.OnConnectionUpdate(Update(Some(LinkOpen), None));
    assert svc.GetQR() == None && svc.GetConnectionStatus(false) == Connected;
    svc.OnConnectionUpdate(Update(Some(LinkClose(LastDisconnect(None, Some(codes.loggedOut)))), None));
    assert svc.GetConnectionStatus(true) == DisconnectedLoggedOut && svc.GetSocket() == None;
  }
}
