/** The one profile this application owns (client/internal/netbird/profile.go), and the
    adapter's operations on it (client/internal/netbird/rpc_adapter.go:113-182). */
module ManagedProfiles {
  import opened Outcomes
  import opened DaemonStatus
  import opened LocalDaemon
  import opened SetupKeys

  datatype Ensured = Ensured(profile: Profile) | Conflict | Inconsistent | RpcFailed

  /** Everybody else's profiles are the same in both. */
  ghost predicate OthersKept(a: Registry, b: Registry) {
    && (forall p :: p in a.named && a.named[p] != MANAGED ==> p in b.named && b.named[p] == a.named[p])
    && (forall p :: p in b.named && b.named[p] != MANAGED ==> p in a.named && b.named[p] == a.named[p])
    && (forall p :: p in a.named && a.named[p] != MANAGED ==> (p in a.enrolled <==> p in b.enrolled))
  }

  // ---------------------------------------------------------------- what answers lead to

  /** The answer to a request that names a profile: `right` if it is the one asked for. */
  datatype Answer = Answer(fate: Fate, right: bool) {
    predicate Good() { fate.Done? && right }
  }

  /** The daemon after some requests, how many, and whether the operation reports success. */
  datatype Asked = Asked(registry: Registry, calls: nat, ok: bool)

  datatype EnsureReplies = EnsureReplies(listed: bool, added: Fate, blank: bool, newId: ProfileId)

  datatype EnsureStep = EnsureStep(registry: Registry, calls: nat, result: Ensured)

  /** Ensure without an expected identifier, given what the daemon answers. */
  function EnsureRun(r: Registry, q: EnsureReplies): EnsureStep {
    if !q.listed then EnsureStep(r, 1, RpcFailed)
    else if r.HasManaged() then EnsureStep(r, 1, Conflict)
    else EnsureStep(if q.added.Applied() then r.Add(q.newId) else r, 2,
                    if !q.added.Done? then RpcFailed
                    else if q.blank then Inconsistent
                    else Ensured(Profile(q.newId, MANAGED)))
  }

  datatype DeregisterReplies = DeregisterReplies(listed: bool, loggedOut: Fate)

  function DeregisterRun(r: Registry, p: ProfileId, q: DeregisterReplies): Asked {
    if p == BLANK then Asked(r, 0, false)
    else if !q.listed || p !in r.named then Asked(r, 1, false)
    else Asked(if q.loggedOut.Applied() then r.Deregistered(p) else r, 2, q.loggedOut.Done?)
  }

  datatype RemoveReplies = RemoveReplies(listed: bool, activeRead: bool, switched: Answer, removed: Answer) {
    // The requests before the removal itself all succeed.
    predicate Reaches(r: Registry, p: ProfileId) {
      p != BLANK && p in r.named && listed && activeRead && (r.active == p ==> switched.Good())
    }
  }

  function RemoveRun(r: Registry, p: ProfileId, q: RemoveReplies): Asked {
    if p == BLANK then Asked(r, 0, false)
    else if !q.listed || p !in r.named then Asked(r, 1, false)
    else if !q.activeRead then Asked(r, 2, false)
    else if r.active != p then LastRemoval(r, p, 3, q.removed)
    else
      var s := if q.switched.fate.Applied() then r.Selecting(DEFAULT) else r;
      if q.switched.Good() then LastRemoval(s, p, 4, q.removed) else Asked(s, 3, false)
  }

  function LastRemoval(r: Registry, p: ProfileId, calls: nat, a: Answer): Asked {
    Asked(if a.fate.Applied() then r.Without(p) else r, calls, a.Good())
  }

  datatype LoginReplies = LoginReplies(listed: bool, login: Fate, selects: bool)

  /** Enroll with a key that is not empty. */
  function LoginRun(r: Registry, p: ProfileId, q: LoginReplies): Asked {
    if p == BLANK then Asked(r, 0, false)
    else if !q.listed || p !in r.named then Asked(r, 1, false)
    else Asked(r.(active := if q.selects then p else r.active,
                  enrolled := if q.login.Applied() then r.enrolled + {p} else r.enrolled), 2, q.login.Done?)
  }

  datatype UpReplies = UpReplies(listed: bool, up: Fate, selects: bool)

  function UpRun(r: Registry, p: ProfileId, q: UpReplies): Asked {
    if p == BLANK then Asked(r, 0, false)
    else if !q.listed || p !in r.named then Asked(r, 1, false)
    else Asked(r.(active := if q.selects then p else r.active,
                  up := if q.up.Applied() then Some(p) else r.up), 2, q.up.Done?)
  }

  // ---------------------------------------------------------------- the code

  class RPCAdapter {
    const client: Daemon

    constructor (client: Daemon)
      ensures this.client == client
    {
      this.client := client;
    }

    /** Ensure with an expected identifier, profile.go:41-48: it only looks. */
    method Find(expected: ProfileId) returns (r: Ensured)
      requires client.State().Valid()
      modifies client`calls, client`faults
      ensures client.calls == old(client.calls) + 1 && client.faults == old(client.faults) + Bit(r.RpcFailed?)
      ensures r.Ensured? ==> expected in client.named && r.profile == Profile(expected, client.named[expected])
      ensures r.Inconsistent? ==> expected !in client.named
      ensures !r.Conflict?
    {
      var profiles, err := client.ListProfiles();
      if err { return RpcFailed; }
      for i := 0 to |profiles|
        invariant forall j :: 0 <= j < i ==> profiles[j].id != expected
      {
        if profiles[i].id == expected { return Ensured(profiles[i]); }
      }
      return Inconsistent;
    }

    /** Ensure without one, profile.go:50-65: refuses when a profile already has the name,
        and otherwise adds one. */
    method Ensure() returns (r: Ensured, ghost q: EnsureReplies)
      requires client.State().Valid()
      modifies client
      ensures q.newId >= old(client.next) && client.calls >= old(client.calls) && client.faults >= old(client.faults)
      ensures EnsureStep(client.State(), client.calls - old(client.calls), r) == EnsureRun(old(client.State()), q)
      ensures client.faults == old(client.faults) ==> (r.Ensured? <==> !old(client.State()).HasManaged())
    {
      q := EnsureReplies(false, Refused, false, client.next);
      var profiles, err := client.ListProfiles();
      if err { return RpcFailed, q; }
      q := q.(listed := true);
      for i := 0 to |profiles|
        invariant forall j :: 0 <= j < i ==> profiles[j].name != MANAGED
        invariant client.State() == old(client.State())
      {
        if profiles[i].name == MANAGED { assert profiles[i].id in client.named; return Conflict, q; }
      }
      assert !client.State().HasManaged();
      var id, err', fate, p := client.AddProfile();
      q := EnsureReplies(true, fate, id == BLANK, p);
      if err' { return RpcFailed, q; }
      if id == BLANK { return Inconsistent, q; }
      return Ensured(Profile(id, MANAGED)), q;
    }

    /** Validate, profile.go:68-73. */
    method Validate(id: ProfileId) returns (r: Ensured)
      requires client.State().Valid()
      modifies client`calls, client`faults
      ensures client.calls == old(client.calls) + (if id == BLANK then 0 else 1)
      ensures client.faults == old(client.faults) + Bit(r.RpcFailed?)
      ensures !r.RpcFailed? ==> (r.Ensured? <==> id in client.named)
      ensures r.Ensured? ==> id in client.named && id != BLANK
    {
      if id == BLANK { return Inconsistent; }
      r := Find(id);
    }

    /** Select, profile.go:75-90. */
    method SelectProfile(id: ProfileId) returns (err: bool)
      requires client.State().Valid()
      modifies client`active, client`calls, client`faults
      ensures client.calls >= old(client.calls) && client.faults >= old(client.faults)
      ensures client.faults == old(client.faults) ==> (!err <==> id in old(client.named))
      ensures client.active in {old(client.active), id} && client.State().Valid()
      ensures !err ==> client.active == id && id in client.named
    {
      var valid := Validate(id);
      if !valid.Ensured? { return true; }
      var got, err', fate := client.SwitchProfile(id);
      return err' || got != id;
    }

    /** Remove, profile.go:92-123. Nothing but this profile goes; whatever else was active
        stays so, and `default` takes the place of the removed one. */
    method RemoveProfile(id: ProfileId) returns (err: bool, ghost q: RemoveReplies)
      requires client.State().Valid()
      modifies client`named, client`active, client`calls, client`faults
      ensures client.calls >= old(client.calls) && client.faults >= old(client.faults) && client.State().Valid()
      ensures Asked(client.State(), client.calls - old(client.calls), !err) == RemoveRun(old(client.State()), id, q)
      ensures client.faults == old(client.faults) ==> (!err <==> id in old(client.named))
      ensures client.named in {old(client.named), old(client.named) - {id}}
      ensures client.active in {old(client.active), if old(client.active) == id then DEFAULT else old(client.active)}
      ensures client.named != old(client.named) || !err ==>
                client.active == if old(client.active) == id then DEFAULT else old(client.active)
    {
      q := RemoveReplies(false, false, Answer(Refused, false), Answer(Refused, false));
      var valid := Validate(id);
      q := q.(listed := !valid.RpcFailed?);
      if !valid.Ensured? { return true, q; }
      var active, err' := client.GetActiveProfile();
      q := q.(activeRead := !err');
      if err' { return true, q; }
      if active == id {
        var got, err', fate := client.SwitchProfile(DEFAULT);
        q := q.(switched := Answer(fate, got == DEFAULT));
        if err' || got != DEFAULT { return true, q; }
      }
      var got, err'', fate := client.RemoveProfile(id);
      q := q.(removed := Answer(fate, got == id));
      return err'' || got != id, q;
    }

    /** Enroll, rpc_adapter.go:128-153. The key is wiped on every way out. */
    method Enroll(id: ProfileId, key: SetupKey?) returns (err: bool, ghost q: LoginReplies)
      requires client.State().Valid() && (key != null ==> key.Valid())
      modifies client`active, client`enrolled, client`calls, client`faults
      modifies if key != null then {key, key.buffer} else {}
      ensures client.State().Valid() && client.calls >= old(client.calls) && client.faults >= old(client.faults)
      ensures client.faults == old(client.faults) ==>
                (!err <==> id in client.named && key != null && old(key.Bytes()) != [])
      ensures if key != null && old(key.Bytes()) != []
              then Asked(client.State(), client.calls - old(client.calls), !err) == LoginRun(old(client.State()), id, q)
              else err && client.State() == old(client.State()) && client.calls == old(client.calls)
      ensures key != null ==> key.Valid() && key.value == null && (old(key.value) != null ==> key.Wiped())
      ensures key != null && old(key.value) == null ==> key.buffer[..] == old(key.buffer[..])
    {
      q := LoginReplies(false, Refused, false);
      if key == null { return true, q; }
      if key.value == null || key.value.Length == 0 {
        key.Clear();
        return true, q;
      }
      var valid := Validate(id);
      q := q.(listed := !valid.RpcFailed?);
      if !valid.Ensured? {
        key.Clear();
        return true, q;
      }
      ghost var fate;
      err, fate := client.Login(id);
      q := LoginReplies(true, fate, client.active == id);
      key.Clear();
    }

    /** Connect, rpc_adapter.go:155-164. */
    method Connect(id: ProfileId) returns (err: bool, ghost q: UpReplies)
      requires client.State().Valid()
      modifies client`active, client`up, client`calls, client`faults
      ensures client.State().Valid() && client.calls >= old(client.calls) && client.faults >= old(client.faults)
      ensures client.faults == old(client.faults) ==> (!err <==> id in old(client.named))
      ensures Asked(client.State(), client.calls - old(client.calls), !err) == UpRun(old(client.State()), id, q)
    {
      var valid := Validate(id);
      q := UpReplies(!valid.RpcFailed?, Refused, false);
      if !valid.Ensured? { return true, q; }
      ghost var fate;
      err, fate := client.Up(id);
      q := UpReplies(true, fate, client.active == id);
    }

    /** Disconnect, rpc_adapter.go:166-172. */
    method Disconnect(id: ProfileId) returns (err: bool)
      requires client.State().Valid()
      modifies client`active, client`up, client`calls, client`faults
      ensures client.calls >= old(client.calls) && client.faults >= old(client.faults)
      ensures client.faults == old(client.faults) ==> (!err <==> id in old(client.named))
      ensures client.active in {old(client.active), id} && client.up in {old(client.up), None}
      ensures client.State().Valid() && (!err ==> client.up.None?)
      ensures !err ==> client.active == id && id in client.named
    {
      err := SelectProfile(id);
      if err { return; }
      ghost var fate;
      err, fate := client.Down();
    }

    /** Deregister, rpc_adapter.go:174-182. */
    method Deregister(id: ProfileId) returns (err: bool, ghost q: DeregisterReplies)
      requires client.State().Valid()
      modifies client`enrolled, client`up, client`calls, client`faults
      ensures client.calls >= old(client.calls) && client.faults >= old(client.faults) && client.State().Valid()
      ensures Asked(client.State(), client.calls - old(client.calls), !err) == DeregisterRun(old(client.State()), id, q)
      ensures client.faults == old(client.faults) ==> (!err <==> id in old(client.named))
    {
      var valid := Validate(id);
      q := DeregisterReplies(!valid.RpcFailed?, Refused);
      if !valid.Ensured? { return true, q; }
      ghost var fate;
      err, fate := client.Logout(id);
      q := q.(loggedOut := fate);
    }

    /** Status, rpc_adapter.go:88-94. */
    method Status() returns (snapshot: Snapshot, err: bool)
      modifies client`calls, client`faults, client`told
      ensures client.calls == old(client.calls) + 1 && client.faults == old(client.faults) + Bit(err)
      ensures !err ==> Reads(snapshot, client.told)
    {
      var response, err' := client.Status();
      snapshot := NormalizeStatus(None);
      err := err';
      if !err { snapshot := NormalizeStatus(response); }
    }
  }
}
