/** The transport session (src/services/tcpGpsClient.ts): a WebSocket
    connection to the TCP bridge, the routing of its JSON envelopes to the
    registered callbacks, and a reconnect timer.

    The runtime is modelled by handles: sockets, timers and intervals are
    numbered from `nextHandle`, `timers` and `intervals` are the ones the
    runtime still has pending, and every callback invocation is recorded in
    `notified` with the handle of the callback that received it. The socket
    events (`onopen`, `onmessage`, `onerror`, `onclose`) and a timer firing
    are methods the runtime calls. */
module TcpGpsClient {
  import opened Wrappers
  import opened JsString
  import opened NmeaParser

  /** A message received on the socket, after `JSON.parse`. */
  datatype Message =
    | Malformed
      /** `type`, `data` when it is a string, `connected`, and `error`. */
    | Envelope(kind: Option<string>, data: Option<string>, connected: bool, error: Option<string>)

  /** One invocation of a registered callback. */
  datatype Notification =
    | DataNotice(callback: nat, data: string)
    | StatusNotice(callback: nat, connected: bool, error: Option<string>)

  /** The delay before a reconnect, in milliseconds. */
  const ReconnectDelay: nat := 5000

  /** The bridge the client connects to. */
  const BridgeUrl: string := "ws://localhost:8080"

  /** What a message delivers, if anything, to a data callback `onData`
      and a status callback `onStatus`. */
  function Route(message: Message, onData: Option<nat>, onStatus: Option<nat>): (out: seq<Notification>)
    ensures |out| <= 1
  {
    match message
    case Malformed => []
    case Envelope(kind, data, connected, error) =>
      if kind == Some("nmea") && data.Some? then
        (if onData.Some? then [DataNotice(onData.value, data.value)] else [])
      else if kind == Some("status") then
        (if onStatus.Some? then [StatusNotice(onStatus.value, connected, error)] else [])
      else []
  }

  /** Routing: an `nmea` envelope with string data reaches the data callback
      with that data, a `status` envelope the status callback with its
      flag and error; anything else, and unparsable text, reaches nobody. */
  lemma RouteCases(message: Message, onData: Option<nat>, onStatus: Option<nat>)
    ensures var out := Route(message, onData, onStatus);
      && (message.Envelope? && message.kind == Some("nmea") && message.data.Some? ==>
            out == if onData.Some? then [DataNotice(onData.value, message.data.value)] else [])
      && (message.Envelope? && message.kind == Some("status") ==>
            out == if onStatus.Some? then [StatusNotice(onStatus.value, message.connected, message.error)] else [])
      && (message.Envelope? && message.kind == Some("nmea") && message.data.None? ==> out == [])
      && (message.Malformed? || (message.kind != Some("nmea") && message.kind != Some("status")) ==> out == [])
  {
  }

  /** A data notice only ever carries the data of an `nmea` envelope, and a
      status notice only ever comes from a `status` envelope. */
  lemma RouteSources(message: Message, onData: Option<nat>, onStatus: Option<nat>)
    ensures var out := Route(message, onData, onStatus);
      && (out != [] && out[0].DataNotice? ==>
            message.Envelope? && message.kind == Some("nmea") && message.data == Some(out[0].data) && onData == Some(out[0].callback))
      && (out != [] && out[0].StatusNotice? ==>
            message.Envelope? && message.kind == Some("status") && onStatus == Some(out[0].callback))
  {
  }

  class TcpGpsClient {
    /** `ws`: the current socket. */
    var ws: Option<nat>
    /** `reconnectTimeout`: the last reconnect timer set. */
    var reconnectTimeout: Option<nat>
    /** `dataInterval`: the simulation's data interval. */
    var dataInterval: Option<nat>
    var onDataCallback: Option<nat>
    var onStatusCallback: Option<nat>

    /** The runtime's pending timeouts and intervals, and the next handle. */
    var timers: set<nat>
    var intervals: set<nat>
    var nextHandle: nat
    /** Every callback invocation so far, in order. */
    var notified: seq<Notification>

    /** At most one reconnect is ever pending: the only pending timer is
        the one `reconnectTimeout` holds. */
    predicate Valid()
      reads this
    {
      forall t :: t in timers ==> reconnectTimeout == Some(t)
    }

    /** `new TCPGPSClient()`: no callbacks yet, and a first socket. */
    constructor()
      ensures Valid()
      ensures ws == Some(0) && reconnectTimeout == None && dataInterval == None
      ensures onDataCallback == None && onStatusCallback == None
      ensures timers == {} && intervals == {} && nextHandle == 1 && notified == []
    {
      ws := None;
      reconnectTimeout := None;
      dataInterval := None;
      onDataCallback := None;
      onStatusCallback := None;
      timers := {};
      intervals := {};
      nextHandle := 0;
      notified := [];
      new;
      Connect();
    }

    /** `connect`: open a fresh socket (to `BridgeUrl`) and make it current. */
    method Connect()
      modifies this
      ensures ws == Some(old(nextHandle)) && nextHandle == old(nextHandle) + 1
      ensures reconnectTimeout == old(reconnectTimeout) && dataInterval == old(dataInterval)
      ensures timers == old(timers) && intervals == old(intervals) && notified == old(notified)
      ensures onDataCallback == old(onDataCallback) && onStatusCallback == old(onStatusCallback)
    {
      ws := Some(nextHandle);
      nextHandle := nextHandle + 1;
    }

    /** `this.onStatusCallback?.(connected, error)`. */
    method NotifyStatus(connected: bool, error: Option<string>)
      modifies this`notified
      ensures notified == old(notified) +
        (if onStatusCallback.Some? then [StatusNotice(onStatusCallback.value, connected, error)] else [])
    {
      if onStatusCallback.Some? {
        notified := notified + [StatusNotice(onStatusCallback.value, connected, error)];
      }
    }

    /** `onopen`: the status callback hears that the link is up. */
    method OnOpen()
      modifies this`notified
      ensures notified == old(notified) +
        (if onStatusCallback.Some? then [StatusNotice(onStatusCallback.value, true, None)] else [])
    {
      NotifyStatus(true, None);
    }

    /** `onmessage`: the message is routed to the registered callbacks. */
    method OnMessage(message: Message)
      modifies this`notified
      ensures notified == old(notified) + Route(message, onDataCallback, onStatusCallback)
    {
      match message {
        case Malformed =>
        case Envelope(kind, data, connected, error) =>
          if kind == Some("nmea") && data.Some? {
            if onDataCallback.Some? {
              notified := notified + [DataNotice(onDataCallback.value, data.value)];
            }
          } else if kind == Some("status") {
            NotifyStatus(connected, error);
          }
      }
    }

    /** `onerror`: the link is reported down; no reconnect is scheduled. */
    method OnError()
      modifies this`notified
      ensures notified == old(notified) +
        (if onStatusCallback.Some? then [StatusNotice(onStatusCallback.value, false, Some("WebSocket error"))] else [])
    {
      NotifyStatus(false, Some("WebSocket error"));
    }

    /** `onclose`: the link is reported down and a reconnect is scheduled.
        The handler belongs to whichever socket closes, including one that
        `Disconnect` has already dropped. */
    method OnClose()
      requires Valid()
      modifies this
      ensures Valid()
      ensures notified == old(notified) +
        (if onStatusCallback.Some? then [StatusNotice(onStatusCallback.value, false, Some("WebSocket connection closed"))] else [])
      ensures reconnectTimeout == Some(old(nextHandle)) && timers == {old(nextHandle)}
      ensures nextHandle == old(nextHandle) + 1
      ensures ws == old(ws) && dataInterval == old(dataInterval) && intervals == old(intervals)
      ensures onDataCallback == old(onDataCallback) && onStatusCallback == old(onStatusCallback)
    {
      NotifyStatus(false, Some("WebSocket connection closed"));
      ScheduleReconnect();
    }

    /** `scheduleReconnect`: cancel the pending reconnect, if any, and set a
        new one for `ReconnectDelay` milliseconds later. */
    method ScheduleReconnect()
      requires Valid()
      modifies this
      ensures Valid()
      ensures reconnectTimeout == Some(old(nextHandle)) && timers == {old(nextHandle)}
      ensures nextHandle == old(nextHandle) + 1
      ensures ws == old(ws) && dataInterval == old(dataInterval) && intervals == old(intervals)
      ensures notified == old(notified)
      ensures onDataCallback == old(onDataCallback) && onStatusCallback == old(onStatusCallback)
    {
      if reconnectTimeout.Some? {
        timers := timers - {reconnectTimeout.value};
      }
      assert timers == {};
      var t := nextHandle;
      nextHandle := nextHandle + 1;
      timers := timers + {t};
      reconnectTimeout := Some(t);
    }

    /** The runtime fires a pending timer: the reconnect opens a new socket.
        `reconnectTimeout` keeps the spent handle. */
    method TimerFired(t: nat)
      requires Valid() && t in timers
      modifies this
      ensures Valid()
      ensures timers == {} && reconnectTimeout == old(reconnectTimeout)
      ensures ws == Some(old(nextHandle)) && nextHandle == old(nextHandle) + 1
      ensures notified == old(notified) && dataInterval == old(dataInterval) && intervals == old(intervals)
      ensures onDataCallback == old(onDataCallback) && onStatusCallback == old(onStatusCallback)
    {
      timers := timers - {t};
      Connect();
    }

    /** `onData(callback)`: replaces the previous data callback. */
    method OnData(callback: nat)
      modifies this`onDataCallback
      ensures onDataCallback == Some(callback)
    {
      onDataCallback := Some(callback);
    }

    /** `onStatus(callback)`: replaces the previous status callback. */
    method OnStatus(callback: nat)
      modifies this`onStatusCallback
      ensures onStatusCallback == Some(callback)
    {
      onStatusCallback := Some(callback);
    }

    /** `disconnect`: drop the socket (its close event still comes), cancel
        the reconnect and the data interval, and report the link down with
        no error. */
    method Disconnect()
      requires Valid()
      modifies this
      ensures Valid()
      ensures ws == None && reconnectTimeout == None && dataInterval == None
      ensures timers == {}
      ensures intervals == old(intervals) - (if old(dataInterval).Some? then {old(dataInterval).value} else {})
      ensures notified == old(notified) +
        (if onStatusCallback.Some? then [StatusNotice(onStatusCallback.value, false, None)] else [])
      ensures nextHandle == old(nextHandle)
      ensures onDataCallback == old(onDataCallback) && onStatusCallback == old(onStatusCallback)
    {
      if ws.Some? {
        ws := None;
      }
      if reconnectTimeout.Some? {
        timers := timers - {reconnectTimeout.value};
        reconnectTimeout := None;
      }
      assert timers == {};
      if dataInterval.Some? {
        intervals := intervals - {dataInterval.value};
        dataInterval := None;
      }
      NotifyStatus(false, None);
    }
  }

  /** Whatever the history, at most one reconnect is pending. */
  lemma AtMostOneReconnect(timers: set<nat>, reconnectTimeout: Option<nat>)
    requires forall t :: t in timers ==> reconnectTimeout == Some(t)
    ensures |timers| <= 1
  {
    if reconnectTimeout.Some? {
      assert timers <= {reconnectTimeout.value};
      SubsetSize(timers, {reconnectTimeout.value});
    } else {
      assert timers == {};
    }
  }

  lemma SubsetSize(a: set<nat>, b: set<nat>)
    requires a <= b
    ensures |a| <= |b|
  {
    assert b == a + (b - a);
  }

  /** Disconnecting does not stop retries: the dropped socket's close event
      still schedules a reconnect, so a new socket is opened 5 s later. */
  method DisconnectThenClose(client: TcpGpsClient)
    requires client.Valid()
    modifies client
    ensures client.ws == None && client.reconnectTimeout.Some?
    ensures client.timers == {client.reconnectTimeout.value}
  {
    client.Disconnect();
    client.OnClose();
  }

  // ---------------------------------------------------------------------
  // Checksum of outgoing sentences

  /** The value of the client's `calculateChecksum(sentence)`: the XOR of
      every character after the first. */
  function ClientChecksum(sentence: string): string {
    ChecksumText(XorCodes(Substring(sentence, 1, |sentence|)))
  }

  /** The client's `calculateChecksum`: an XOR accumulator over
      `sentence.substring(1)`. */
  method CalculateClientChecksum(sentence: string) returns (hex: string)
    ensures hex == ClientChecksum(sentence)
  {
    var checksum: bv32 := 0;
    var data := Substring(sentence, 1, |sentence|);
    for i := 0 to |data|
      invariant checksum == XorCodes(data[..i])
    {
      XorCodesStep(data, i);
      checksum := checksum ^ CharCode(data[i]);
    }
    assert data[..|data|] == data;
    hex := ChecksumText(checksum);
  }

  /** A sentence starting with '$', with no '*' and only 8-bit characters,
      completed with '*' and the client's checksum passes the decoder's
      checksum validation. */
  lemma ChecksumRoundTrip(s: string)
    requires |s| >= 1 && s[0] == '$' && '*' !in s
    requires forall i :: 0 <= i < |s| ==> (s[i] as int) < 256
    ensures ValidateChecksum(s + "*" + ClientChecksum(s))
  {
    var hex := ClientChecksum(s);
    var t := s + "*" + hex;
    ClientChecksumTwoDigits(s);
    TaggedIndex(s, hex);
    TaggedFields(s, hex);
    ValidateAt(t, |s|);
  }

  /** Over 8-bit characters the client's checksum has two digits. */
  lemma ClientChecksumTwoDigits(s: string)
    requires forall i :: 0 <= i < |s| ==> (s[i] as int) < 256
    ensures |ClientChecksum(s)| == 2
  {
    var data := Substring(s, 1, |s|);
    assert forall i :: 0 <= i < |data| ==> data[i] in s;
    XorCodesByte(data);
  }

  /** The covered characters of `s + "*" + hex` are those of `s` after the
      first, and the two characters after the '*' are `hex`. */
  lemma TaggedFields(s: string, hex: string)
    requires |s| >= 1 && '*' !in s && |hex| == 2
    ensures var t := s + "*" + hex;
      && Substring(t, |s| + 1, |s| + 3) == hex
      && XorCodes(ChecksumData(t)) == XorCodes(Substring(s, 1, |s|))
  {
    var t := s + "*" + hex;
    TaggedIndex(s, hex);
    assert t[|s| + 1..|s| + 3] == hex;
    assert ChecksumData(t) == t[1..|s|];
    assert Substring(s, 1, |s|) == s[1..];
    assert t[1..|s|] == s[1..];
  }

  /** A sentence whose two characters after the first '*' at `k` are its
      checksum validates. */
  lemma ValidateAt(t: string, k: nat)
    requires IndexOf(t, '*') == k
    requires Substring(t, k + 1, k + 3) == Checksum(t)
    ensures ValidateChecksum(t)
  {
  }

  /** In `s + "*" + hex` with no '*' in `s`, the first '*' is at `|s|`. */
  lemma TaggedIndex(s: string, hex: string)
    requires '*' !in s
    ensures IndexOf(s + "*" + hex, '*') == |s|
  {
    var t := s + "*" + hex;
    assert t[|s|] == '*';
    assert t[..|s|] == s;
  }
}
