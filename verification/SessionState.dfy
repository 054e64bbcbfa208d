/** What the user is shown (client/internal/session/state.go): a precedence among facts,
    and a revision number that moves exactly when what is shown does. */
module SessionState {
  import opened Outcomes
  import opened DaemonStatus

  datatype State =
    | NoRoom | Enrolling | ControlPlaneConnected | WaitingForPeer | ConnectingPeer
    | ConnectedP2P | ConnectedRelay | Reconnecting | RecoverableError

  datatype Facts = Facts(
    roomSaved: bool := false, enrollmentInProgress: bool := false, reconnectInProgress: bool := false,
    userDisconnected: bool := false, recoverableError: bool := false, controlPlaneReady: bool := false,
    membershipKnown: bool := false, otherRoomPeerCount: int := 0, daemonPeers: seq<Peer> := [])
  {
    // No fact that Derive looks at before the peers.
    predicate PeersDecide() {
      !recoverableError && !enrollmentInProgress && roomSaved && !reconnectInProgress && !userDisconnected
    }
  }

  datatype Shown = Shown(state: State, path: Path)

  // ---------------------------------------------------------------- Derive

  predicate Via(peers: seq<Peer>, path: Path) {
    exists i :: 0 <= i < |peers| && peers[i].state == Connected && peers[i].path == path
  }

  function Preferred(peers: seq<Peer>): Path {
    if Via(peers, P2P) then P2P else if Via(peers, Relay) then Relay else NoPath
  }

  /** preferredConnectedPath, state.go:116-130. */
  method PreferredConnectedPath(peers: seq<Peer>) returns (path: Path)
    ensures path == Preferred(peers)
  {
    path := NoPath;
    for i := 0 to |peers|
      invariant !Via(peers[..i], P2P)
      invariant path == if Via(peers[..i], Relay) then Relay else NoPath
    {
      assert peers[..i + 1] == peers[..i] + [peers[i]];
      if peers[i].state != Connected { continue; }
      match peers[i].path {
        case P2P => return P2P;
        case Relay => path := Relay; assert peers[..i + 1][i].path == Relay;
        case NoPath =>
      }
    }
    assert peers[..|peers|] == peers;
  }

  /** Derive, state.go:80-114. */
  function Derive(facts: Facts): Shown {
    if facts.recoverableError then Shown(RecoverableError, NoPath)
    else if facts.enrollmentInProgress then Shown(Enrolling, NoPath)
    else if !facts.roomSaved then Shown(NoRoom, NoPath)
    else if facts.reconnectInProgress then Shown(Reconnecting, NoPath)
    else if facts.userDisconnected then Shown(ControlPlaneConnected, NoPath)
    else match Preferred(facts.daemonPeers)
      case P2P => Shown(ConnectedP2P, P2P)
      case Relay => Shown(ConnectedRelay, Relay)
      case NoPath =>
        if !facts.controlPlaneReady then Shown(Reconnecting, NoPath)
        else if !facts.membershipKnown then Shown(ControlPlaneConnected, NoPath)
        else if facts.otherRoomPeerCount <= 0 then Shown(WaitingForPeer, NoPath)
        else Shown(ConnectingPeer, NoPath)
  }

  predicate IsVia(peer: Option<RawPeer>, relayed: bool) {
    peer.Some? && NormalPeerState(peer.value.connStatus) == Connected && peer.value.relayed == relayed
  }

  predicate RawVia(raw: seq<Option<RawPeer>>, relayed: bool) {
    exists i :: 0 <= i < |raw| && IsVia(raw[i], relayed)
  }

  lemma ViaRaw(raw: seq<Option<RawPeer>>)
    ensures Via(NormalPeers(raw), P2P) <==> RawVia(raw, false)
    ensures Via(NormalPeers(raw), Relay) <==> RawVia(raw, true)
  {
    var peers := NormalPeers(raw);
    forall relayed, path | path == if relayed then Relay else P2P
      ensures Via(peers, path) <==> RawVia(raw, relayed)
    {
      if Via(peers, path) {
        var i :| 0 <= i < |peers| && peers[i].state == Connected && peers[i].path == path;
        NormalPeersAre(raw, peers[i]);
        var source :| Some(source) in raw && peers[i] == NormalPeer(source);
        var j :| 0 <= j < |raw| && raw[j] == Some(source);
        assert raw[j].value.relayed == relayed;
      }
      if RawVia(raw, relayed) {
        var i :| 0 <= i < |raw| && IsVia(raw[i], relayed);
        NormalPeersAre(raw, NormalPeer(raw[i].value));
        assert NormalPeer(raw[i].value) in peers;
      }
    }
  }

  /** From the daemon's reply to the screen: P2P exactly if some raw peer is connected and
      not relayed, Relay exactly if none is and some raw peer is connected and relayed. */
  lemma ConnectedIff(facts: Facts, raw: seq<Option<RawPeer>>)
    requires facts.daemonPeers == NormalPeers(raw)
    ensures Derive(facts).state == ConnectedP2P <==> facts.PeersDecide() && RawVia(raw, false)
    ensures Derive(facts).state == ConnectedRelay <==> facts.PeersDecide() && !RawVia(raw, false) && RawVia(raw, true)
    ensures Derive(facts).path == P2P <==> Derive(facts).state == ConnectedP2P
    ensures Derive(facts).path == Relay <==> Derive(facts).state == ConnectedRelay
  {
    ViaRaw(raw);
  }

  /** Every state exactly when: what the user reads says which facts hold, and the other
      way round. */
  lemma ShownExactlyWhen(facts: Facts, raw: seq<Option<RawPeer>>)
    requires facts.daemonPeers == NormalPeers(raw)
    ensures var state := Derive(facts).state;
      var quiet := facts.PeersDecide() && !RawVia(raw, false) && !RawVia(raw, true);
      && (state == RecoverableError <==> facts.recoverableError)
      && (state == Enrolling <==> facts.enrollmentInProgress && !facts.recoverableError)
      && (state == NoRoom <==> !facts.roomSaved && !facts.enrollmentInProgress && !facts.recoverableError)
      && (state == Reconnecting <==>
            || (facts.reconnectInProgress && facts.roomSaved && !facts.enrollmentInProgress && !facts.recoverableError)
            || (quiet && !facts.controlPlaneReady))
      && (state == ControlPlaneConnected <==>
            || (facts.userDisconnected && !facts.reconnectInProgress && facts.roomSaved
                && !facts.enrollmentInProgress && !facts.recoverableError)
            || (quiet && facts.controlPlaneReady && !facts.membershipKnown))
      && (state == WaitingForPeer <==>
            quiet && facts.controlPlaneReady && facts.membershipKnown && facts.otherRoomPeerCount <= 0)
      && (state == ConnectingPeer <==>
            quiet && facts.controlPlaneReady && facts.membershipKnown && facts.otherRoomPeerCount > 0)
  {
    ViaRaw(raw);
  }

  /** What a saved room shows for a status reply of the daemon. */
  function ShownFor(response: Option<StatusResponse>): State {
    if RawVia(RawPeers(response), false) then ConnectedP2P
    else if RawVia(RawPeers(response), true) then ConnectedRelay
    else if ReadyPlane(response) then ControlPlaneConnected
    else Reconnecting
  }

  // The facts of a room just joined or reconnected.
  function FactsOf(snapshot: Snapshot): Facts {
    Facts(roomSaved := true, controlPlaneReady := snapshot.ControlPlaneReady(), daemonPeers := snapshot.peers)
  }

  lemma StatusShows(snapshot: Snapshot, response: Option<StatusResponse>)
    requires Reads(snapshot, response)
    ensures Derive(FactsOf(snapshot)).state == ShownFor(response)
  {
    ConnectedIff(FactsOf(snapshot), RawPeers(response));
    ShownExactlyWhen(FactsOf(snapshot), RawPeers(response));
    hide RawVia;
  }

  lemma SameVia(a: seq<Peer>, b: seq<Peer>, path: Path)
    requires Via(a, path) && forall p :: p in a ==> p in b
    ensures Via(b, path)
  {
    var i :| 0 <= i < |a| && a[i].state == Connected && a[i].path == path;
    assert a[i] in b;
  }

  /** The order in which the daemon lists peers never shows. */
  lemma OrderNeverShows(a: seq<Option<RawPeer>>, b: seq<Option<RawPeer>>, facts: Facts)
    requires multiset(a) == multiset(b)
    ensures Derive(facts.(daemonPeers := NormalPeers(a))) == Derive(facts.(daemonPeers := NormalPeers(b)))
  {
    forall source: Option<RawPeer> ensures source in a <==> source in b {
      assert source in a <==> source in multiset(a);
      assert source in b <==> source in multiset(b);
    }
    forall p: Peer ensures p in NormalPeers(a) <==> p in NormalPeers(b) {
      NormalPeersAre(a, p);
      NormalPeersAre(b, p);
    }
    forall path | path == P2P || path == Relay ensures Via(NormalPeers(a), path) <==> Via(NormalPeers(b), path) {
      if Via(NormalPeers(a), path) { SameVia(NormalPeers(a), NormalPeers(b), path); }
      if Via(NormalPeers(b), path) { SameVia(NormalPeers(b), NormalPeers(a), path); }
    }
  }

  // ---------------------------------------------------------------- Machine

  const WRAP: nat := 0x1_0000_0000_0000_0000

  datatype View = View(revision: nat, shown: Shown)

  function Applied(v: View, facts: Facts): View {
    if Derive(facts) == v.shown then v else View((v.revision + 1) % WRAP, Derive(facts))
  }

  class Machine {
    var revision: nat     // a uint64
    var shown: Shown

    ghost predicate Valid()
      reads this
    {
      revision < WRAP
    }

    function Now(): View
      reads this
    {
      View(revision, shown)
    }

    constructor ()
      ensures Valid() && Now() == View(0, Shown(NoRoom, NoPath))
    {
      revision, shown := 0, Shown(NoRoom, NoPath);
    }

    /** Apply, state.go:62-72. */
    method Apply(facts: Facts) returns (view: View)
      requires Valid()
      modifies this
      ensures Valid() && Now() == view == Applied(old(Now()), facts)
    {
      var derived := Derived(facts);
      if derived != shown {
        revision := if revision + 1 == WRAP then 0 else revision + 1;
        shown := derived;
      }
      view := View(revision, shown);
    }
  }

  /** Derive, the loop over the peers included. */
  method Derived(facts: Facts) returns (shown: Shown)
    ensures shown == Derive(facts)
  {
    if facts.recoverableError { return Shown(RecoverableError, NoPath); }
    if facts.enrollmentInProgress { return Shown(Enrolling, NoPath); }
    if !facts.roomSaved { return Shown(NoRoom, NoPath); }
    if facts.reconnectInProgress { return Shown(Reconnecting, NoPath); }
    if facts.userDisconnected { return Shown(ControlPlaneConnected, NoPath); }
    var path := PreferredConnectedPath(facts.daemonPeers);
    match path {
      case P2P => return Shown(ConnectedP2P, path);
      case Relay => return Shown(ConnectedRelay, path);
      case NoPath =>
    }
    if !facts.controlPlaneReady { return Shown(Reconnecting, NoPath); }
    if !facts.membershipKnown { return Shown(ControlPlaneConnected, NoPath); }
    if facts.otherRoomPeerCount <= 0 { return Shown(WaitingForPeer, NoPath); }
    return Shown(ConnectingPeer, NoPath);
  }

  // ---------------------------------------------------------------- runs of Apply

  function After(v: View, facts: seq<Facts>): View {
    if facts == [] then v else Applied(After(v, facts[..|facts| - 1]), facts[|facts| - 1])
  }

  /** How often what is shown changes. */
  function Changes(v: View, facts: seq<Facts>): nat {
    if facts == [] then 0
    else Changes(v, facts[..|facts| - 1]) +
         if After(v, facts[..|facts| - 1]).shown != Derive(facts[|facts| - 1]) then 1 else 0
  }

  /** The revision counts the changes, modulo 2^64. */
  lemma {:induction false} RevisionCounts(v: View, facts: seq<Facts>)
    requires v.revision < WRAP
    ensures After(v, facts).revision == (v.revision + Changes(v, facts)) % WRAP
    ensures Changes(v, facts) == 0 ==> After(v, facts).shown == v.shown
  {
    if facts != [] {
      RevisionCounts(v, facts[..|facts| - 1]);
      Successor(v.revision + Changes(v, facts[..|facts| - 1]));
    }
  }

  lemma Successor(n: nat)
    ensures (n % WRAP + 1) % WRAP == (n + 1) % WRAP
  {
    assert n == WRAP * (n / WRAP) + n % WRAP;
    if n % WRAP + 1 == WRAP {
      assert n + 1 == WRAP * (n / WRAP + 1);
    } else {
      assert n + 1 == WRAP * (n / WRAP) + (n % WRAP + 1);
    }
  }

  lemma {:induction false} AfterAfter(v: View, first: seq<Facts>, second: seq<Facts>)
    ensures After(v, first + second) == After(After(v, first), second)
    ensures Changes(v, first + second) == Changes(v, first) + Changes(After(v, first), second)
  {
    if second == [] {
      assert first + second == first;
    } else {
      var init := second[..|second| - 1];
      AfterAfter(v, first, init);
      assert (first + second)[..|first + second| - 1] == first + init;
    }
  }

  /** Two observations with one revision show the same, unless 2^64 changes, or a multiple
      of that, came between them: a reader may compare revisions instead of views. */
  lemma SameRevisionSameView(v: View, facts: seq<Facts>, i: nat, j: nat)
    requires v.revision < WRAP && i <= j <= |facts|
    ensures var between := Changes(After(v, facts[..i]), facts[i..j]);
      && (After(v, facts[..i]).revision == After(v, facts[..j]).revision <==> between % WRAP == 0)
      && (After(v, facts[..i]).revision == After(v, facts[..j]).revision && between < WRAP ==>
            After(v, facts[..i]) == After(v, facts[..j]))
  {
    var u := After(v, facts[..i]);
    RevisionCounts(v, facts[..i]);
    assert facts[..i] + facts[i..j] == facts[..j];
    AfterAfter(v, facts[..i], facts[i..j]);
    RevisionCounts(u, facts[i..j]);
    var n := Changes(u, facts[i..j]);
    Congruent(u.revision, n);
  }

  lemma Congruent(r: nat, n: nat)
    requires r < WRAP
    ensures (r + n) % WRAP == r <==> n % WRAP == 0
    ensures n % WRAP == 0 && n < WRAP ==> n == 0
  {
    var q, s := n / WRAP, n % WRAP;
    assert n == WRAP * q + s;
    if r + s < WRAP {
      assert r + n == WRAP * q + (r + s);
    } else {
      assert r + n == WRAP * (q + 1) + (r + s - WRAP);
    }
  }
}
