/**
 * The WhatsApp connection panel (`WhatsAppPanel`): a connection status, the QR code shown
 * for pairing, a "generating" flag and the time of the last connection. The random draws of
 * the simulated API and the clock are inputs; the two `setTimeout` callbacks of QR
 * generation are steps of their own, counted by pending-timer fields.
 */
module WhatsAppPanel {
  import opened Wrappers

  datatype Status = Disconnected | Connecting | Connected

  /** The panel's state: its four fields and the timers started and not yet fired. */
  datatype Panel = Panel(
    connectionStatus: Status,
    qrCode: string,
    isGeneratingQR: bool,
    lastConnection: Option<int>,
    pendingQrTimers: nat,
    pendingConnectTimers: nat)

  const Initial: Panel := Panel(Disconnected, "", false, None, 0, 0)

  /** The start of the QR code's data URL; the base64 of the placeholder picture follows it. */
  const QrPrefix: string := "data:image/svg+xml;base64,"

  /**
   * `checkConnectionStatus` with the probe's answer (`Math.random() > 0.7`) and the clock
   * as inputs: a positive answer connects a disconnected panel and records the time, a
   * negative one disconnects a connected panel.
   */
  function CheckedStatus(p: Panel, isConnected: bool, now: int): Panel {
    if isConnected && p.connectionStatus == Disconnected then
      p.(connectionStatus := Connected, lastConnection := Some(now))
    else if !isConnected && p.connectionStatus == Connected then
      p.(connectionStatus := Disconnected)
    else p
  }

  /**
   * A probe moves only between disconnected and connected: a positive answer connects a
   * disconnected panel and records the time, a negative one disconnects a connected panel
   * and keeps the last connection's time, and every other case, connecting included,
   * changes nothing.
   */
  lemma ProbeOutcome(p: Panel, isConnected: bool, now: int)
    ensures var q := CheckedStatus(p, isConnected, now);
      && (isConnected && p.connectionStatus == Disconnected ==>
            q.connectionStatus == Connected && q.lastConnection == Some(now))
      && (!isConnected && p.connectionStatus == Connected ==>
            q.connectionStatus == Disconnected && q.lastConnection == p.lastConnection)
      && (q.connectionStatus == p.connectionStatus ==> q == p)
      && (p.connectionStatus == Connecting ==> q == p)
      && q.qrCode == p.qrCode && q.isGeneratingQR == p.isGeneratingQR
  {
  }

  /** `generateQRCode` when clicked: generating, connecting, and the first timer started. */
  function StartGeneration(p: Panel): Panel {
    p.(isGeneratingQR := true, connectionStatus := Connecting, pendingQrTimers := p.pendingQrTimers + 1)
  }

  /**
   * The first timer fires: the QR code is shown (its base64 payload is an input), generation
   * ends, and the second timer starts.
   */
  function ShowQr(p: Panel, encoded: string): Panel
    requires p.pendingQrTimers > 0
  {
    p.(qrCode := QrPrefix + encoded, isGeneratingQR := false,
       pendingQrTimers := p.pendingQrTimers - 1, pendingConnectTimers := p.pendingConnectTimers + 1)
  }

  /**
   * The second timer fires with the draw `Math.random() > 0.3`: success connects and records
   * the time, failure disconnects and leaves the QR code and the last connection alone.
   */
  function SettleConnection(p: Panel, success: bool, now: int): Panel
    requires p.pendingConnectTimers > 0
  {
    var q := p.(pendingConnectTimers := p.pendingConnectTimers - 1);
    if success then q.(connectionStatus := Connected, lastConnection := Some(now))
    else q.(connectionStatus := Disconnected)
  }

  /** `disconnect`. */
  function Disconnection(p: Panel): Panel {
    p.(connectionStatus := Disconnected, qrCode := "", lastConnection := None)
  }

  /**
   * Generating a code and letting both timers fire: after the first the panel shows a
   * non-empty code and is no longer generating while still connecting; after the second it is
   * connected with the time recorded, or disconnected with the code still shown.
   */
  lemma QrFlow(p: Panel, encoded: string, success: bool, now: int)
    ensures var g := StartGeneration(p);
      g.isGeneratingQR && g.connectionStatus == Connecting
      && var shown := ShowQr(g, encoded);
      && shown.qrCode != "" && !shown.isGeneratingQR && shown.connectionStatus == Connecting
      && var done := SettleConnection(shown, success, now);
      && (success ==> done.connectionStatus == Connected && done.lastConnection == Some(now))
      && (!success ==>
            done.connectionStatus == Disconnected && done.qrCode == shown.qrCode
            && done.lastConnection == p.lastConnection)
  {
    var shown := ShowQr(StartGeneration(p), encoded);
    assert shown.qrCode[0] == QrPrefix[0];
  }

  /** Disconnecting clears the code and the last connection, whatever the state was. */
  lemma DisconnectOutcome(p: Panel)
    ensures var q := Disconnection(p);
      q.connectionStatus == Disconnected && q.qrCode == "" && q.lastConnection.None?
      && q.isGeneratingQR == p.isGeneratingQR
  {
  }

  /** The Connect button is shown only while disconnected, and is disabled while generating. */
  predicate ConnectShown(p: Panel) {
    p.connectionStatus == Disconnected
  }

  predicate ConnectEnabled(p: Panel) {
    ConnectShown(p) && !p.isGeneratingQR
  }

  /** The Disconnect button is shown only while connected. */
  predicate DisconnectShown(p: Panel) {
    p.connectionStatus == Connected
  }

  /** What can happen to the panel: the two buttons, a probe, and the two timers. */
  datatype Event =
    | ClickConnect
    | ClickDisconnect
    | Probe(isConnected: bool, now: int)
    | QrTimer(encoded: string)
    | ConnectTimer(success: bool, now: int)

  /** An event can happen: a button only while it is shown and enabled, a timer only while pending. */
  predicate CanHappen(p: Panel, e: Event) {
    match e
    case ClickConnect => ConnectEnabled(p)
    case ClickDisconnect => DisconnectShown(p)
    case Probe(_, _) => true
    case QrTimer(_) => p.pendingQrTimers > 0
    case ConnectTimer(_, _) => p.pendingConnectTimers > 0
  }

  function Step(p: Panel, e: Event): Panel
    requires CanHappen(p, e)
  {
    match e
    case ClickConnect => StartGeneration(p)
    case ClickDisconnect => Disconnection(p)
    case Probe(isConnected, now) => CheckedStatus(p, isConnected, now)
    case QrTimer(encoded) => ShowQr(p, encoded)
    case ConnectTimer(success, now) => SettleConnection(p, success, now)
  }

  /**
   * What holds in every state the panel reaches: at most one timer is pending, the panel is
   * generating exactly while the first one is, it is connecting exactly while either is, and
   * a connected panel has a last-connection time.
   */
  predicate Inv(p: Panel) {
    && p.pendingQrTimers + p.pendingConnectTimers <= 1
    && (p.isGeneratingQR <==> p.pendingQrTimers == 1)
    && (p.connectionStatus == Connecting <==> p.pendingQrTimers + p.pendingConnectTimers == 1)
    && (p.connectionStatus == Connected ==> p.lastConnection.Some?)
  }

  lemma InitialInv()
    ensures Inv(Initial)
  {
  }

  /** Every event that can happen keeps the invariant. */
  lemma StepInv(p: Panel, e: Event)
    requires Inv(p) && CanHappen(p, e)
    ensures Inv(Step(p, e))
  {
  }

  /** A sequence of events, each applied when it can happen and ignored otherwise. */
  function Run(p: Panel, events: seq<Event>): Panel
    decreases |events|
  {
    if events == [] then p
    else
      var next := if CanHappen(p, events[0]) then Step(p, events[0]) else p;
      Run(next, events[1..])
  }

  /** Every state reached from the initial one satisfies the invariant. */
  lemma {:induction false} RunInv(p: Panel, events: seq<Event>)
    requires Inv(p)
    ensures Inv(Run(p, events))
    decreases |events|
  {
    if events != [] {
      if CanHappen(p, events[0]) {
        StepInv(p, events[0]);
        RunInv(Step(p, events[0]), events[1..]);
      } else {
        RunInv(p, events[1..]);
      }
    }
  }

  /** In a reachable state the panel is never stuck connecting: a timer is pending that will end it. */
  lemma ConnectingEnds(p: Panel)
    requires Inv(p) && p.connectionStatus == Connecting
    ensures CanHappen(p, QrTimer("")) || CanHappen(p, ConnectTimer(true, 0))
    ensures !ConnectShown(p) && !DisconnectShown(p)
  {
  }

  /** The panel's state. */
  class Component {
    var connectionStatus: Status
    var qrCode: string
    var isGeneratingQR: bool
    var lastConnection: Option<int>
    var pendingQrTimers: nat
    var pendingConnectTimers: nat

    function State(): Panel
      reads this
    {
      Panel(connectionStatus, qrCode, isGeneratingQR, lastConnection, pendingQrTimers, pendingConnectTimers)
    }

    constructor ()
      ensures State() == Initial
    {
      connectionStatus := Disconnected;
      qrCode := "";
      isGeneratingQR := false;
      lastConnection := None;
      pendingQrTimers := 0;
      pendingConnectTimers := 0;
    }

    method CheckConnectionStatus(isConnected: bool, now: int)
      modifies this
      ensures State() == CheckedStatus(old(State()), isConnected, now)
    {
      if isConnected && connectionStatus == Disconnected {
        connectionStatus := Connected;
        lastConnection := Some(now);
      } else if !isConnected && connectionStatus == Connected {
        connectionStatus := Disconnected;
      }
    }

    method GenerateQRCode()
      modifies this
      ensures State() == StartGeneration(old(State()))
    {
      isGeneratingQR := true;
      connectionStatus := Connecting;
      pendingQrTimers := pendingQrTimers + 1;
    }

    /** The 2-second callback. */
    method QrTimerFires(encoded: string)
      requires pendingQrTimers > 0
      modifies this
      ensures State() == ShowQr(old(State()), encoded)
    {
      qrCode := QrPrefix + encoded;
      isGeneratingQR := false;
      pendingQrTimers := pendingQrTimers - 1;
      pendingConnectTimers := pendingConnectTimers + 1;
    }

    /** The 10-second callback. */
    method ConnectTimerFires(success: bool, now: int)
      requires pendingConnectTimers > 0
      modifies this
      ensures State() == SettleConnection(old(State()), success, now)
    {
      pendingConnectTimers := pendingConnectTimers - 1;
      if success {
        connectionStatus := Connected;
        lastConnection := Some(now);
      } else {
        connectionStatus := Disconnected;
      }
    }

    method Disconnect()
      modifies this
      ensures State() == Disconnection(old(State()))
    {
      connectionStatus := Disconnected;
      qrCode := "";
      lastConnection := None;
    }
  }
}
