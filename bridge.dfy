/**
 * The per-call stream bridge (`MediaStreamHandler` in app.py): it receives the
 * telephony source's events, forwards inbound audio to the transcription
 * service over a link it owns, and tears the link down on `stop`, on `closed`
 * and when the inbound connection closes.
 */
module Bridge {
  import opened Wrappers
  import opened Audio
  import DotEnv

  const InboundTrack := "inbound"
  const DefaultTrack := "unknown"

  /** The `start` object of the telephony source, kept as the stream configuration. */
  datatype Config = Config(fields: map<string, string>)

  /** One inbound message, already parsed and decoded. */
  datatype Message =
    | NoMessage                                           // the connection delivered `None`
    | Malformed                                           // not JSON: `JSONDecodeError`
    | Invalid                                             // JSON, but a member it reads is missing, or a payload `b64decode` rejects (wrong padding, non-ASCII text)
    | Connected
    | Start(config: Config)
    | Media(payload: seq<byte>, track: Option<string>)   // whatever bytes the lenient base64 decoder returns
    | Stop
    | Closed
    | Other(event: string)                              // an event name the bridge does not handle

  /** `data['media'].get('track', 'unknown')`. */
  function TrackOf(track: Option<string>): (t: string)
    ensures t == InboundTrack <==> track == Some(InboundTrack)
  {
    track.GetOr(DefaultTrack)
  }

  /**
   * A connection to the transcription service. `connected` stands for the
   * underlying socket being present and connected; `closed` records that
   * `close()` was requested.
   */
  class Link {
    var connected: bool
    var closed: bool

    /** A link as `WebSocketApp(...)` creates it: no socket yet. */
    constructor ()
      ensures !connected && !closed
    {
      connected, closed := false, false;
    }

    /**
     * The background receiver completing its handshake with the service
     * (the environment, not the bridge, does this); a link whose close was
     * requested does not connect.
     */
    method Establish()
      modifies this
      ensures connected == !old(closed) && closed == old(closed)
    {
      connected := !closed;
    }

    /** `close()`: the socket is closed and dropped; errors are swallowed. */
    method Close()
      modifies this
      ensures closed && !connected
    {
      connected, closed := false, true;
    }
  }

  class MediaStreamHandler {
    var hasSeenMedia: bool
    var messageCount: nat
    var streamConfig: Option<Config>
    var deepgramWs: Option<Link>
    /** The frames forwarded to the transcription service, in order. */
    ghost var sent: seq<seq<byte>>

    /** The link the handler holds, as a set. */
    ghost function Links(): set<object>
      reads this
    {
      if deepgramWs.Some? then {deepgramWs.value} else {}
    }

    /**
     * The handler never holds a link it has asked to close, so every close it
     * requests is the first one for that link.
     */
    ghost predicate Valid()
      reads this, Links()
    {
      deepgramWs.Some? ==> !deepgramWs.value.closed
    }

    /** The guard on forwarding: a link is held and its socket is connected. */
    predicate LinkReady()
      reads this, Links()
    {
      deepgramWs.Some? && deepgramWs.value.connected
    }

    /** `on_open`: a fresh session, with nothing seen, counted or linked. */
    method OnOpen()
      modifies this
      ensures Valid()
      ensures !hasSeenMedia && messageCount == 0
      ensures deepgramWs.None? && streamConfig.None? && sent == []
    {
      hasSeenMedia := false;
      messageCount := 0;
      deepgramWs := None;
      streamConfig := None;
      sent := [];
    }

    /**
     * `connect_to_deepgram`: with the placeholder credential nothing happens;
     * otherwise the held link is replaced by a fresh, not yet connected one,
     * and the previous link, if any, is left as it was (not closed).
     */
    method ConnectToDeepgram(apiKey: string)
      requires Valid()
      modifies this
      ensures Valid()
      ensures apiKey == DotEnv.Placeholder ==> deepgramWs == old(deepgramWs)
      ensures apiKey != DotEnv.Placeholder ==>
                deepgramWs.Some? && fresh(deepgramWs.value) &&
                !deepgramWs.value.connected && !deepgramWs.value.closed
      ensures hasSeenMedia == old(hasSeenMedia) && messageCount == old(messageCount)
      ensures streamConfig == old(streamConfig) && sent == old(sent)
    {
      if apiKey == DotEnv.Placeholder {
        return;
      }
      var ws := new Link();
      deepgramWs := Some(ws);
    }

    /** `close_deepgram`: close the held link, if any, and drop it. */
    method CloseDeepgram()
      requires Valid()
      modifies this, Links()
      ensures Valid()
      ensures deepgramWs.None?
      ensures old(deepgramWs).Some? ==> !old(deepgramWs.value.closed)
      ensures old(deepgramWs).Some? ==> old(deepgramWs).value.closed && !old(deepgramWs).value.connected
      ensures old(deepgramWs).None? ==> unchanged(this)
      ensures hasSeenMedia == old(hasSeenMedia) && messageCount == old(messageCount)
      ensures streamConfig == old(streamConfig) && sent == old(sent)
    {
      if deepgramWs.Some? {
        deepgramWs.value.Close();
        deepgramWs := None;
      }
    }

    /** `on_close`: whatever the reason, close the held link. */
    method OnClose(reason: string)
      requires Valid()
      modifies this, Links()
      ensures Valid()
      ensures deepgramWs.None?
      ensures old(deepgramWs).Some? ==> !old(deepgramWs.value.closed)
      ensures old(deepgramWs).Some? ==> old(deepgramWs).value.closed && !old(deepgramWs).value.connected
      ensures old(deepgramWs).None? ==> unchanged(this)
      ensures hasSeenMedia == old(hasSeenMedia) && messageCount == old(messageCount)
      ensures streamConfig == old(streamConfig) && sent == old(sent)
    {
      CloseDeepgram();
    }

    /**
     * `on_message`. `apiKey` is the configured credential and `sendFails`
     * whether the service socket raises on this send. `raised` reports an
     * exception escaping the handler, which happens before any state changes.
     */
    method OnMessage(msg: Message, apiKey: string, sendFails: bool) returns (raised: bool)
      requires Valid()
      modifies this, Links()
      ensures Valid()
      ensures raised <==> msg.Invalid?
      // dropped messages change nothing
      ensures msg.NoMessage? || msg.Malformed? || msg.Invalid? ==> unchanged(this) && unchanged(old(Links()))
      // the media flag is set by any media event and never cleared
      ensures hasSeenMedia == (old(hasSeenMedia) || msg.Media?)
      ensures streamConfig == if msg.Start? then Some(msg.config) else old(streamConfig)
      // an inbound frame with audio is forwarded once over a connected link, unless the send raises
      ensures sent == if msg.Media? && TrackOf(msg.track) == InboundTrack && old(LinkReady()) &&
                         HasAudio(msg.payload) && !sendFails
                      then old(sent) + [msg.payload] else old(sent)
      // silent inbound frames over a connected link and `closed` return before counting
      ensures messageCount ==
                if || msg.NoMessage? || msg.Malformed? || msg.Invalid? || msg.Closed?
                   || (msg.Media? && TrackOf(msg.track) == InboundTrack && old(LinkReady()) &&
                       !HasAudio(msg.payload))
                then old(messageCount) else old(messageCount) + 1
      // teardown
      ensures msg.Stop? || msg.Closed? ==>
                deepgramWs.None? &&
                (old(deepgramWs).Some? ==> !old(deepgramWs.value.closed)) &&
                (old(deepgramWs).Some? ==> old(deepgramWs).value.closed && !old(deepgramWs).value.connected)
      // a start with a real credential replaces the link without closing the old one
      ensures msg.Start? && apiKey == DotEnv.Placeholder ==> deepgramWs == old(deepgramWs)
      ensures msg.Start? && apiKey != DotEnv.Placeholder ==>
                deepgramWs.Some? && fresh(deepgramWs.value) &&
                !deepgramWs.value.connected && !deepgramWs.value.closed
      ensures !msg.Start? && !msg.Stop? && !msg.Closed? ==> deepgramWs == old(deepgramWs)
      ensures !msg.Stop? && !msg.Closed? ==> unchanged(old(Links()))
    {
      raised := false;
      match msg {
        case NoMessage => return;
        case Malformed => return;
        case Invalid => raised := true; return;
        case Connected =>
        case Start(config) =>
          streamConfig := Some(config);
          ConnectToDeepgram(apiKey);
        case Media(chunk, track) =>
          var t := TrackOf(track);
          if !hasSeenMedia {
            hasSeenMedia := true;
          }
          if t == InboundTrack && deepgramWs.Some? && deepgramWs.value.connected {
            var hasAudio := HasAudio(chunk);
            if !hasAudio {
              return;
            }
            if !sendFails {
              sent := sent + [chunk];
            }
          }
        case Stop =>
          CloseDeepgram();
        case Closed =>
          CloseDeepgram();
          return;
        case Other(_) =>
      }
      messageCount := messageCount + 1;
    }
  }

  /** `start`, then one inbound frame of 160 non-silent bytes: exactly that frame is forwarded. */
  method ForwardsAudioOnce(apiKey: string, config: Config)
    requires apiKey != DotEnv.Placeholder
  {
    var h := new MediaStreamHandler;
    h.OnOpen();
    var raised := h.OnMessage(Start(config), apiKey, false);
    h.deepgramWs.value.Establish();
    var frame := seq(160, i => if i == 0 then 1 else 0);
    assert frame[0] != 0;
    raised := h.OnMessage(Media(frame, Some(InboundTrack)), apiKey, false);
    assert h.sent == [frame] && h.messageCount == 2;
    h.OnClose("hangup");
    assert h.deepgramWs.None? && h.sent == [frame];
  }

  /** `start`, then one inbound frame of 160 zero bytes: nothing is forwarded or counted. */
  method DropsSilence(apiKey: string, config: Config)
    requires apiKey != DotEnv.Placeholder
  {
    var h := new MediaStreamHandler;
    h.OnOpen();
    var raised := h.OnMessage(Start(config), apiKey, false);
    h.deepgramWs.value.Establish();
    raised := h.OnMessage(Media(Silence(160), Some(InboundTrack)), apiKey, false);
    assert h.sent == [] && h.messageCount == 1;
  }

  /** A second `start` leaves the first link open and unreferenced. */
  method SecondStartAbandonsLink(apiKey: string, config: Config)
    requires apiKey != DotEnv.Placeholder
  {
    var h := new MediaStreamHandler;
    h.OnOpen();
    var raised := h.OnMessage(Start(config), apiKey, false);
    var first := h.deepgramWs.value;
    first.Establish();
    raised := h.OnMessage(Start(config), apiKey, false);
    assert first.connected && !first.closed && h.deepgramWs != Some(first);
  }
}
