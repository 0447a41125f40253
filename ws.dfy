/**
 * The browser's streaming transport: one WebSocket per exercise, frames
 * sent with a drop-on-overflow backpressure gate, inbound text parsed as
 * JSON and handed unvalidated to the tick subscriber.
 *
 * The socket is a fake that records what is written to it; `JSON.stringify`
 * is the `encode` parameter of `Send`, and the outcome of `JSON.parse` on an
 * inbound message is a parameter of `HandleMessage`.
 */
module Transport {
  import opened Wrappers
  import opened Schemas

  /** 512 KiB. */
  const DefaultMaxBufferedBytes: real := 524288.0

  /** `WebSocket.readyState` values. */
  const Connecting: int := 0
  const Open: int := 1
  const Closing: int := 2
  const Closed: int := 3

  const SessionPath: string := "/ws/session"
  const DevServerPort: string := "5173"
  const BackendPort: string := "8000"

  // ---------------------------------------------------------------------
  // URLs.
  // ---------------------------------------------------------------------

  /** The fields of `window.location` that the URL is inferred from. */
  datatype PageLocation = PageLocation(protocol: string, hostname: string, port: string)

  predicate EndsWith(s: string, suffix: string) {
    |suffix| <= |s| && s[|s| - |suffix|..] == suffix
  }

  /** The backend's port for the page's port: the dev server's 5173 becomes 8000, any other is kept. */
  function BackendPortFor(pagePort: string): (p: string)
    ensures pagePort == DevServerPort ==> p == BackendPort
    ensures pagePort != DevServerPort ==> p == pagePort
  {
    if pagePort == DevServerPort then BackendPort else pagePort
  }

  /**
   * The session endpoint on the page's host: secure WebSocket exactly when
   * the page is served over https, the backend port, the session path.
   */
  function InferWSURL(loc: PageLocation): (url: string)
    ensures |url| >= 6 && (url[..6] == "wss://" <==> loc.protocol == "https:")
    ensures loc.protocol != "https:" ==> url[..5] == "ws://"
    ensures EndsWith(url, ":" + BackendPortFor(loc.port) + SessionPath)
    ensures var start := if loc.protocol == "https:" then 6 else 5;
      start + |loc.hostname| <= |url| && url[start..start + |loc.hostname|] == loc.hostname
    ensures |url| == (if loc.protocol == "https:" then 6 else 5) + |loc.hostname| + 1 + |BackendPortFor(loc.port)| + |SessionPath|
  {
    var prefix := (if loc.protocol == "https:" then "wss" else "ws") + "://";
    var suffix := ":" + BackendPortFor(loc.port) + SessionPath;
    var url := prefix + loc.hostname + suffix;
    assert url == prefix + (loc.hostname + suffix);
    assert url[|prefix|..|prefix| + |loc.hostname|] == loc.hostname;
    assert url[|url| - |suffix|..] == suffix;
    assert url[..5] == prefix[..5];
    assert loc.protocol != "https:" ==> url[2] == ':';
    url
  }

  /** Characters `encodeURIComponent` leaves as they are. */
  predicate UriUnreserved(c: char) {
    || 'A' <= c <= 'Z' || 'a' <= c <= 'z' || '0' <= c <= '9'
    || c in {'-', '_', '.', '!', '~', '*', '\'', '(', ')'}
  }

  /** Both exercise names are made of unreserved characters, so encoding them changes nothing. */
  lemma ExerciseNamesUnreserved(e: Exercise)
    ensures forall i :: 0 <= i < |ExerciseName(e)| ==> UriUnreserved(ExerciseName(e)[i])
  {
  }

  /** `${base}?exercise=${encodeURIComponent(ex)}` */
  function SessionUrl(base: string, e: Exercise): (url: string)
    ensures |base| <= |url| && url[..|base|] == base
    ensures url[|base|..] == "?exercise=" + ExerciseName(e)
  {
    base + "?exercise=" + ExerciseName(e)
  }

  // ---------------------------------------------------------------------
  // The send gate.
  // ---------------------------------------------------------------------

  /**
   * `bufferedAmount && bufferedAmount > maxBufferedBytes`: a frame is dropped
   * when the buffer holds something and more than the ceiling.  For any
   * ceiling that is not negative this is exactly "occupancy exceeds ceiling".
   */
  function OverCeiling(buffered: nat, ceiling: real): (drop: bool)
    ensures drop ==> buffered > 0 && buffered as real > ceiling
    ensures ceiling >= 0.0 ==> (drop <==> buffered as real > ceiling)
    ensures buffered == 0 ==> !drop
  {
    buffered != 0 && buffered as real > ceiling
  }

  /** The number of bytes UTF-8 needs for one code point. */
  function Utf8Width(c: char): (w: nat)
    ensures 1 <= w <= 4
    ensures w == 1 <==> c as int < 0x80
  {
    if c as int < 0x80 then 1
    else if c as int < 0x800 then 2
    else if c as int < 0x10000 then 3
    else 4
  }

  /** The UTF-8 length of a text frame: what it adds to `bufferedAmount` when queued. */
  function Utf8Length(s: string): (n: nat)
    ensures |s| <= n <= 4 * |s|
    ensures (forall i :: 0 <= i < |s| ==> s[i] as int < 0x80) ==> n == |s|
    ensures (exists i :: 0 <= i < |s| && s[i] as int >= 0x80) ==> n > |s|
    decreases |s|
  {
    if s == [] then 0
    else
      var rest := Utf8Length(s[1..]);
      assert forall i :: 1 <= i < |s| ==> s[1..][i - 1] == s[i];
      Utf8Width(s[0]) + rest
  }

  /** What the fake socket exposes: its state, its outgoing-buffer occupancy and everything written. */
  datatype SocketView = SocketView(readyState: int, buffered: nat, sent: seq<string>)

  /** The socket after `send(data)` is attempted through the gate. */
  function SendThrough(v: SocketView, ceiling: real, data: string): (r: SocketView)
    ensures r.readyState == v.readyState
    ensures v.readyState != Open || OverCeiling(v.buffered, ceiling) ==> r == v
    ensures v.readyState == Open && !OverCeiling(v.buffered, ceiling) ==>
              r.sent == v.sent + [data] && r.buffered == v.buffered + Utf8Length(data)
  {
    if v.readyState != Open || OverCeiling(v.buffered, ceiling) then v
    else SocketView(v.readyState, v.buffered + Utf8Length(data), v.sent + [data])
  }

  /** A burst of sends with nothing drained in between. */
  function SendAll(v: SocketView, ceiling: real, msgs: seq<string>): SocketView
    decreases |msgs|
  {
    if msgs == [] then v else SendAll(SendThrough(v, ceiling, msgs[0]), ceiling, msgs[1..])
  }

  /**
   * Dropping bounds the buffer: however many frames are sent, occupancy stays
   * within the ceiling plus one frame's UTF-8 length.
   */
  lemma {:induction false} BufferStaysBounded(v: SocketView, ceiling: real, msgs: seq<string>, longest: nat)
    requires ceiling >= 0.0
    requires v.buffered as real <= ceiling + longest as real
    requires forall i :: 0 <= i < |msgs| ==> Utf8Length(msgs[i]) <= longest
    ensures SendAll(v, ceiling, msgs).buffered as real <= ceiling + longest as real
    decreases |msgs|
  {
    if msgs != [] {
      BufferStaysBounded(SendThrough(v, ceiling, msgs[0]), ceiling, msgs[1..], longest);
    }
  }

  /** Sends only ever append: what was written stays written, in order. */
  lemma {:induction false} SendAllAppends(v: SocketView, ceiling: real, msgs: seq<string>)
    ensures var r := SendAll(v, ceiling, msgs);
      |v.sent| <= |r.sent| <= |v.sent| + |msgs| && r.sent[..|v.sent|] == v.sent
    decreases |msgs|
  {
    if msgs != [] {
      var next := SendThrough(v, ceiling, msgs[0]);
      SendAllAppends(next, ceiling, msgs[1..]);
      assert next.sent[..|v.sent|] == v.sent;
    }
  }

  /** Once the buffer is over the ceiling and nothing drains, every later frame is dropped. */
  lemma {:induction false} OverCeilingDropsAll(v: SocketView, ceiling: real, msgs: seq<string>)
    requires OverCeiling(v.buffered, ceiling)
    ensures SendAll(v, ceiling, msgs) == v
    decreases |msgs|
  {
    if msgs != [] {
      OverCeilingDropsAll(v, ceiling, msgs[1..]);
    }
  }

  // ---------------------------------------------------------------------
  // Objects.
  // ---------------------------------------------------------------------

  /** A stand-in for the browser's WebSocket. */
  class FakeSocket {
    const url: string
    var readyState: int
    var bufferedAmount: nat
    var sent: seq<string>
    var closeCalls: nat

    function View(): SocketView
      reads this
    {
      SocketView(readyState, bufferedAmount, sent)
    }

    constructor (url: string)
      ensures this.url == url && readyState == Connecting && bufferedAmount == 0 && sent == [] && closeCalls == 0
    {
      this.url := url;
      readyState := Connecting;
      bufferedAmount := 0;
      sent := [];
      closeCalls := 0;
    }

    /** Queues `data`; its UTF-8 bytes count towards `bufferedAmount`. */
    method Send(data: string)
      modifies this
      ensures sent == old(sent) + [data] && bufferedAmount == old(bufferedAmount) + Utf8Length(data)
      ensures readyState == old(readyState) && closeCalls == old(closeCalls)
    {
      sent := sent + [data];
      bufferedAmount := bufferedAmount + Utf8Length(data);
    }

    /** Starts the closing handshake; closing a closing or closed socket changes nothing. */
    method Close()
      modifies this
      ensures closeCalls == old(closeCalls) + 1
      ensures old(readyState) == Connecting || old(readyState) == Open ==> readyState == Closing
      ensures !(old(readyState) == Connecting || old(readyState) == Open) ==> readyState == old(readyState)
      ensures sent == old(sent) && bufferedAmount == old(bufferedAmount)
    {
      closeCalls := closeCalls + 1;
      if readyState == Connecting || readyState == Open {
        readyState := Closing;
      }
    }
  }

  /** The parsed value of an inbound message; nothing checks that it is a tick. */
  datatype Json =
    | JNull
    | JBool(b: bool)
    | JNumber(n: real)
    | JString(s: string)
    | JArray(items: seq<Json>)
    | JObject(fields: map<string, Json>)

  /** A callback invocation: the subscriber's token and, for ticks, what it received. */
  datatype Notification = TickTo(subscriber: nat, value: Json) | OpenTo(subscriber: nat) | CloseTo(subscriber: nat)

  datatype WSClientOptions = WSClientOptions(url: Option<string>, exercise: Option<Exercise>, maxBufferedBytes: Option<real>)

  class WSClient {
    var ws: FakeSocket?
    const url: string
    const exercise: Exercise
    const maxBufferedBytes: real
    var onTick: Option<nat>
    var onOpen: Option<nat>
    var onClose: Option<nat>
    /** Every callback invocation so far, in order. */
    var notified: seq<Notification>

    /**
     * The base URL is the given one unless it is missing or empty, then the
     * inferred one; the exercise defaults to push-ups; the ceiling defaults to
     * 512 KiB only when absent, so an explicit 0 is kept.
     */
    constructor (opts: Option<WSClientOptions>, loc: PageLocation)
      ensures var base := if opts.Some? && opts.value.url.Some? && opts.value.url.value != []
                          then opts.value.url.value else InferWSURL(loc);
              var e := if opts.Some? && opts.value.exercise.Some? then opts.value.exercise.value else PushUp;
              url == SessionUrl(base, e) && exercise == e
      ensures opts.None? || opts.value.maxBufferedBytes.None? ==> maxBufferedBytes == DefaultMaxBufferedBytes
      ensures opts.Some? && opts.value.maxBufferedBytes.Some? ==> maxBufferedBytes == opts.value.maxBufferedBytes.value
      ensures ws == null && onTick == None && onOpen == None && onClose == None && notified == []
    {
      var base := if opts.Some? && opts.value.url.Some? && opts.value.url.value != []
                  then opts.value.url.value else InferWSURL(loc);
      var e := if opts.Some? && opts.value.exercise.Some? then opts.value.exercise.value else PushUp;
      url := SessionUrl(base, e);
      exercise := e;
      maxBufferedBytes := if opts.Some? && opts.value.maxBufferedBytes.Some?
                          then opts.value.maxBufferedBytes.value else DefaultMaxBufferedBytes;
      ws := null;
      onTick, onOpen, onClose := None, None, None;
      notified := [];
    }

    /** Opens a new socket to the session URL; an earlier socket is replaced, not closed. */
    method Connect()
      modifies this
      ensures fresh(ws) && ws.url == url && ws.View() == SocketView(Connecting, 0, [])
      ensures onTick == old(onTick) && onOpen == old(onOpen) && onClose == old(onClose) && notified == old(notified)
    {
      ws := new FakeSocket(url);
    }

    /**
     * Sends one frame: nothing is written without an open socket or when the
     * buffer is over the ceiling; otherwise exactly the frame's encoding is.
     */
    method Send(frame: PoseFrame, encode: PoseFrame -> string)
      modifies ws
      ensures ws == old(ws) && notified == old(notified)
      ensures ws != null ==> ws.View() == SendThrough(old(ws.View()), maxBufferedBytes, encode(frame))
      ensures ws != null ==> ws.closeCalls == old(ws.closeCalls)
    {
      if ws == null || ws.readyState != Open {
        return;
      }
      if ws.bufferedAmount != 0 && ws.bufferedAmount as real > maxBufferedBytes {
        return;
      }
      ws.Send(encode(frame));
    }

    /** An inbound message: a parse failure is ignored; any parsed value goes to the tick subscriber. */
    method HandleMessage(parsed: Option<Json>)
      modifies this`notified
      ensures ws == old(ws) && onTick == old(onTick)
      ensures notified == old(notified) + (if parsed.Some? && onTick.Some? then [TickTo(onTick.value, parsed.value)] else [])
    {
      if parsed.None? {
        return;
      }
      if onTick.Some? {
        notified := notified + [TickTo(onTick.value, parsed.value)];
      }
    }

    method HandleOpen()
      modifies this`notified
      ensures ws == old(ws) && onOpen == old(onOpen)
      ensures notified == old(notified) + (if onOpen.Some? then [OpenTo(onOpen.value)] else [])
    {
      if onOpen.Some? {
        notified := notified + [OpenTo(onOpen.value)];
      }
    }

    method HandleClose()
      modifies this`notified
      ensures ws == old(ws) && onClose == old(onClose)
      ensures notified == old(notified) + (if onClose.Some? then [CloseTo(onClose.value)] else [])
    {
      if onClose.Some? {
        notified := notified + [CloseTo(onClose.value)];
      }
    }

    /** Closes the socket if there is one; without one it does nothing. */
    method Close()
      modifies ws
      ensures ws == old(ws) && notified == old(notified)
      ensures ws != null ==> ws.closeCalls == old(ws.closeCalls) + 1 && ws.sent == old(ws.sent)
      ensures ws != null ==> ws.bufferedAmount == old(ws.bufferedAmount)
      ensures ws != null && (old(ws.readyState) == Connecting || old(ws.readyState) == Open) ==> ws.readyState == Closing
      ensures ws != null && !(old(ws.readyState) == Connecting || old(ws.readyState) == Open) ==> ws.readyState == old(ws.readyState)
    {
      if ws != null {
        ws.Close();
      }
    }
  }
}
