/** The daemon's status reply as the client reads it (client/internal/netbird/normalize.go).
    Every pointer of the reply may be nil. */
module DaemonStatus {
  import opened Outcomes
  import opened Text

  datatype PeerState = Idle | Connecting | Connected | Unknown

  datatype Path = NoPath | P2P | Relay

  // `about` stands for the fields copied as they are: key, names, addresses, counters.
  datatype Peer = Peer(about: nat, state: PeerState, path: Path)

  datatype RawPeer = RawPeer(about: nat, connStatus: string, relayed: bool)

  datatype Link = Link(url: string, connected: bool)

  datatype LocalPeer = LocalPeer(ip: string, ipv6: string)

  datatype FullStatus = FullStatus(
    management: Option<Link>, signal: Option<Link>, local: Option<LocalPeer>, peers: seq<Option<RawPeer>>)

  datatype StatusResponse = StatusResponse(version: string, status: string, full: Option<FullStatus>)

  datatype DaemonState =
    | DaemonIdle | DaemonConnecting | DaemonConnected | NeedsLogin | LoginFailed | SessionExpired | DaemonUnknown

  datatype Snapshot = Snapshot(
    version: string := "", daemonState: Option<DaemonState> := None,
    managementURL: string := "", managementConnected: bool := false,
    signalURL: string := "", signalConnected: bool := false,
    localIP: string := "", localIPv6: string := "", peers: seq<Peer> := [])
  {
    predicate ControlPlaneReady() { managementConnected && signalConnected }
  }

  /** normalizeDaemonState, normalize.go:94-111. */
  function NormalDaemonState(value: string): DaemonState {
    match Lower(value)
    case "idle" => DaemonIdle
    case "connecting" => DaemonConnecting
    case "connected" => DaemonConnected
    case "needslogin" => NeedsLogin
    case "loginfailed" => LoginFailed
    case "sessionexpired" => SessionExpired
    case _ => DaemonUnknown
  }

  function NormalPeerState(value: string): PeerState {
    match Lower(value)
    case "idle" => Idle
    case "connecting" => Connecting
    case "connected" => Connected
    case _ => Unknown
  }

  /** The text is this name, in whatever case. */
  predicate Names(value: string, name: string) {
    |value| == |name| && forall i :: 0 <= i < |name| ==> LowerChar(value[i]) == name[i]
  }

  lemma NamesIff(value: string, name: string)
    ensures Lower(value) == name <==> Names(value, name)
  {
    LowerIs(value);
  }

  /** Whose state it is said to be, in whatever case; any other text is Unknown. */
  lemma PeerStateIff(value: string)
    ensures NormalPeerState(value) == Idle <==> Names(value, "idle")
    ensures NormalPeerState(value) == Connecting <==> Names(value, "connecting")
    ensures NormalPeerState(value) == Connected <==> Names(value, "connected")
  {
    NamesIff(value, "idle");
    NamesIff(value, "connecting");
    NamesIff(value, "connected");
  }

  lemma DaemonStateIff(value: string)
    ensures NormalDaemonState(value) == DaemonIdle <==> Names(value, "idle")
    ensures NormalDaemonState(value) == DaemonConnecting <==> Names(value, "connecting")
    ensures NormalDaemonState(value) == DaemonConnected <==> Names(value, "connected")
    ensures NormalDaemonState(value) == NeedsLogin <==> Names(value, "needslogin")
    ensures NormalDaemonState(value) == LoginFailed <==> Names(value, "loginfailed")
    ensures NormalDaemonState(value) == SessionExpired <==> Names(value, "sessionexpired")
  {
    NamesIff(value, "idle");
    NamesIff(value, "connecting");
    NamesIff(value, "connected");
    NamesIff(value, "needslogin");
    NamesIff(value, "loginfailed");
    NamesIff(value, "sessionexpired");
  }

  function NormalPeer(raw: RawPeer): Peer {
    var state := NormalPeerState(raw.connStatus);
    Peer(raw.about, state, if !state.Connected? then NoPath else if raw.relayed then Relay else P2P)
  }

  function NormalPeers(raw: seq<Option<RawPeer>>): seq<Peer> {
    if raw == [] then []
    else NormalPeers(raw[..|raw| - 1]) +
         match raw[|raw| - 1] { case Some(source) => [NormalPeer(source)] case None => [] }
  }

  function RawPeers(response: Option<StatusResponse>): seq<Option<RawPeer>> {
    if response.Some? && response.value.full.Some? then response.value.full.value.peers else []
  }

  // What a link that may be missing says of itself.
  function LinkOf(link: Option<Link>): Link { if link.Some? then link.value else Link("", false) }

  function LocalOf(local: Option<LocalPeer>): LocalPeer { if local.Some? then local.value else LocalPeer("", "") }

  function FullOf(response: Option<StatusResponse>): FullStatus {
    if response.Some? && response.value.full.Some? then response.value.full.value else FullStatus(None, None, None, [])
  }

  /** What is missing reads as empty, not connected or no peers; nil peers are skipped, the
      others keep their order. */
  predicate Reads(result: Snapshot, response: Option<StatusResponse>) {
    && result.peers == NormalPeers(RawPeers(response))
    && result.version == (if response.Some? then response.value.version else "")
    && result.daemonState == (if response.Some? then Some(NormalDaemonState(response.value.status)) else None)
    && Link(result.managementURL, result.managementConnected) == LinkOf(FullOf(response).management)
    && Link(result.signalURL, result.signalConnected) == LinkOf(FullOf(response).signal)
    && LocalPeer(result.localIP, result.localIPv6) == LocalOf(FullOf(response).local)
  }

  /** The daemon is connected to its management server and to its signal server. */
  predicate ReadyPlane(response: Option<StatusResponse>) {
    LinkOf(FullOf(response).management).connected && LinkOf(FullOf(response).signal).connected
  }

  /** NormalizeStatus, normalize.go:9-62. */
  method NormalizeStatus(response: Option<StatusResponse>) returns (result: Snapshot)
    ensures Reads(result, response)
  {
    result := Snapshot();
    if response.None? { return; }
    result := result.(version := response.value.version, daemonState := Some(NormalDaemonState(response.value.status)));
    if response.value.full.None? { return; }
    var full := response.value.full.value;
    if full.management.Some? {
      var link := full.management.value;
      result := result.(managementURL := link.url, managementConnected := link.connected);
    }
    if full.signal.Some? {
      result := result.(signalURL := full.signal.value.url, signalConnected := full.signal.value.connected);
    }
    if full.local.Some? { result := result.(localIP := full.local.value.ip, localIPv6 := full.local.value.ipv6); }
    var peers := NormalizePeers(full.peers);
    result := result.(peers := peers);
  }

  /** The loop over the peers, normalize.go:32-60. */
  method NormalizePeers(raw: seq<Option<RawPeer>>) returns (peers: seq<Peer>)
    ensures peers == NormalPeers(raw)
  {
    peers := [];
    for i := 0 to |raw|
      invariant peers == NormalPeers(raw[..i])
    {
      assert raw[..i + 1][..i] == raw[..i];
      if raw[i].None? { continue; }
      var source := raw[i].value;
      var state := NormalPeerState(source.connStatus);
      var path := NoPath;
      if state == Connected {
        path := P2P;
        if source.relayed { path := Relay; }
      }
      peers := peers + [Peer(source.about, state, path)];
    }
    assert raw[..|raw|] == raw;
  }

  /** A normalized peer is the image of some raw one, and every raw one has its image. */
  lemma {:induction false} NormalPeersAre(raw: seq<Option<RawPeer>>, p: Peer)
    ensures p in NormalPeers(raw) <==> exists source :: Some(source) in raw && p == NormalPeer(source)
  {
    if raw != [] {
      var init, last := raw[..|raw| - 1], raw[|raw| - 1];
      NormalPeersAre(init, p);
      assert raw == init + [last];
    }
  }
}
