/** The peer list the user sees between refreshes (client/internal/session/peers.go): the
    last one that came through, marked stale as long as a later refresh has failed. */
module PeerRefresher {
  import opened Outcomes
  import opened LocalStores

  datatype Peer = Peer(id: nat, connected: bool)

  // What a refresh came to: a list at some time, or an error.
  datatype Refreshed = Succeeded(peers: seq<Peer>, at: nat) | Failing(error: nat)

  datatype View = View(peers: seq<Peer>, stale: bool, lastRefreshAt: Option<nat>, lastError: Option<nat>)

  function Updated(v: View, r: Refreshed): View {
    match r
    case Succeeded(peers, at) => View(peers, false, Some(at), None)
    case Failing(error) => v.(stale := true, lastError := Some(error))
  }

  function After(log: seq<Refreshed>): View {
    if log == [] then View([], false, None, None) else Updated(After(log[..|log| - 1]), log[|log| - 1])
  }

  /** PeerRefreshSnapshot. Its array belongs to whoever holds the snapshot. */
  datatype Snapshot = Snapshot(peers: array<Peer>, stale: bool, lastRefreshAt: Option<nat>, lastError: Option<nat>) {
    function Seen(): View
      reads peers
    {
      View(peers[..], stale, lastRefreshAt, lastError)
    }
  }

  method Copy(source: seq<Peer>) returns (clone: array<Peer>)
    ensures fresh(clone) && clone[..] == source
  {
    clone := new Peer[|source|](i requires 0 <= i < |source| => source[i]);
    assert clone[..] == source;
  }

  class Refresher {
    const codes: FileStore<nat>
    var state: Snapshot
    ghost var log: seq<Refreshed>

    ghost predicate Valid()
      reads this, state.peers
    {
      state.Seen() == After(log)
    }

    constructor (codes: FileStore<nat>)
      ensures Valid() && log == [] && fresh(state.peers)
    {
      this.codes, log := codes, [];
      var none := new Peer[0];
      state := Snapshot(none, false, None, None);
    }

    /** clonePeerSnapshot, peers.go:126-130. */
    method Clone() returns (clone: Snapshot)
      requires Valid()
      ensures fresh(clone.peers) && clone.Seen() == After(log)
    {
      var peers := Copy(state.peers[..]);
      clone := state.(peers := peers);
    }

    /** markStale, peers.go:118-124. */
    method MarkStale(error: nat) returns (snapshot: Snapshot)
      requires Valid()
      modifies this
      ensures Valid() && log == old(log) + [Failing(error)] && state.peers == old(state.peers)
      ensures fresh(snapshot.peers) && snapshot.Seen() == After(log)
    {
      state := state.(stale := true, lastError := Some(error));
      log := log + [Failing(error)];
      assert log[..|log| - 1] == old(log);
      snapshot := Clone();
    }

    /** Refresh, peers.go:57-76. `answer` is the Room API's: its array is copied, never kept. */
    method Refresh(answer: Option<array<Peer>>, now: nat) returns (snapshot: Snapshot, err: bool, ghost r: Refreshed)
      requires Valid()
      modifies this, codes`faults
      ensures Valid() && log == old(log) + [r] && (err <==> r.Failing?)
      ensures err <==> answer.None? || codes.content.None? || codes.faults > old(codes.faults)
      ensures !err ==> answer.Some? && r == Succeeded(answer.value[..], now)
      ensures fresh(snapshot.peers) && snapshot.Seen() == After(log) && snapshot.peers != state.peers
      ensures if err then state.peers == old(state.peers) else fresh(state.peers)
    {
      var code := codes.Load();
      if !code.Found? {
        snapshot := MarkStale(0);
        return snapshot, true, Failing(0);
      }
      if answer.None? {
        snapshot := MarkStale(1);
        return snapshot, true, Failing(1);
      }
      r := Succeeded(answer.value[..], now);
      snapshot := Accept(answer.value[..], now);
      err := false;
    }

    method Accept(listed: seq<Peer>, now: nat) returns (snapshot: Snapshot)
      requires Valid()
      modifies this
      ensures Valid() && log == old(log) + [Succeeded(listed, now)]
      ensures fresh(snapshot.peers) && snapshot.Seen() == After(log) && snapshot.peers != state.peers
      ensures fresh(state.peers)
    {
      var peers := Copy(listed);
      state := Snapshot(peers, false, Some(now), None);
      log := log + [Succeeded(listed, now)];
      assert log[..|log| - 1] == old(log);
      snapshot := Clone();
    }
  }

  function LastSuccess(log: seq<Refreshed>): Option<Refreshed> {
    if log == [] then None
    else if log[|log| - 1].Succeeded? then Some(log[|log| - 1])
    else LastSuccess(log[..|log| - 1])
  }

  /** At every moment: the peers and the time are those of the last refresh that came
      through, none and no time before the first; stale exactly if a refresh has failed
      since, and then the error is the latest. */
  lemma {:induction false} LastSuccessShown(log: seq<Refreshed>)
    ensures var v := After(log);
      && (match LastSuccess(log)
          case Some(r) => r.Succeeded? && v.peers == r.peers && v.lastRefreshAt == Some(r.at)
          case None => v.peers == [] && v.lastRefreshAt.None?)
      && (v.stale <==> log != [] && log[|log| - 1].Failing?)
      && v.lastError == if v.stale then Some(log[|log| - 1].error) else None
  {
    if log != [] { LastSuccessShown(log[..|log| - 1]); }
  }
}
