/** The NetBird daemon on the user's machine, as far as its profiles go. Any call may be
    Refused or Lost, and an answer may carry an identifier nobody asked for. */
module LocalDaemon {
  import opened Outcomes
  import opened DaemonStatus

  type ProfileId = nat
  type Name = nat

  const BLANK: ProfileId := 0      // ""
  const DEFAULT: ProfileId := 1    // "default"
  const MANAGED: Name := 0         // "sogame-room"

  datatype Profile = Profile(id: ProfileId, name: Name)

  /** The profiles and which one is selected; the profiles whose device is registered at
      the management server; the profile whose connection is up. No identifier from `next`
      on has been given out: the daemon never gives one out twice, whoever asks. */
  datatype Registry = Registry(
    named: map<ProfileId, Name>, active: ProfileId, enrolled: set<ProfileId>, up: Option<ProfileId>, next: ProfileId)
  {
    ghost predicate Valid() {
      && next > DEFAULT && active < next
      && (forall p :: p in named ==> BLANK < p < next)
      && (forall p :: p in enrolled ==> p < next)
    }

    predicate HasManaged() { exists p :: p in named && named[p] == MANAGED }

    predicate OneManaged() { forall p, q :: p in named && q in named && named[p] == named[q] == MANAGED ==> p == q }

    function Add(p: ProfileId): Registry { this.(named := named[p := MANAGED], next := p + 1) }

    function Without(p: ProfileId): Registry { this.(named := named - {p}) }

    function Selecting(p: ProfileId): Registry { this.(active := p) }

    // Removing a profile does not deregister its device.
    function Deregistered(p: ProfileId): Registry {
      this.(enrolled := enrolled - {p}, up := if up == Some(p) then None else up)
    }
  }

  ghost predicate Lists(named: map<ProfileId, Name>, listing: seq<Profile>) {
    && (forall i :: 0 <= i < |listing| ==> listing[i].id in named && named[listing[i].id] == listing[i].name)
    && (forall p :: p in named ==> exists i :: 0 <= i < |listing| && listing[i].id == p)
  }

  class Daemon {
    var named: map<ProfileId, Name>
    var active: ProfileId
    var enrolled: set<ProfileId>
    var up: Option<ProfileId>
    var next: ProfileId
    ghost var calls: nat
    ghost var faults: nat      // answers that were an error, or named the wrong profile
    ghost var told: Option<StatusResponse>      // the last answer of Status

    function State(): Registry
      reads this
    {
      Registry(named, active, enrolled, up, next)
    }

    method ListProfiles() returns (listing: seq<Profile>, err: bool)
      modifies this`calls, this`faults
      ensures calls == old(calls) + 1 && Lists(named, listing) && faults == old(faults) + Bit(err)
    {
      err := *;
      calls, faults := calls + 1, faults + Bit(err);
      listing := [];
      var left := named.Keys;
      while left != {}
        invariant left <= named.Keys
        invariant forall i :: 0 <= i < |listing| ==> listing[i].id in named && named[listing[i].id] == listing[i].name
        invariant forall p :: p in named && p !in left ==> exists i :: 0 <= i < |listing| && listing[i].id == p
        decreases left
      {
        var p :| p in left;
        left := left - {p};
        ghost var before := listing;
        listing := listing + [Profile(p, named[p])];
        assert listing[|before|].id == p;
        assert forall i :: 0 <= i < |before| ==> listing[i] == before[i];
      }
    }

    method GetActiveProfile() returns (id: ProfileId, err: bool)
      modifies this`calls, this`faults
      ensures calls == old(calls) + 1 && id == active && faults == old(faults) + Bit(err)
    {
      id, err := active, *;
      calls, faults := calls + 1, faults + Bit(err);
    }

    /** The answer names the new profile or, from a confused daemon, nothing. */
    method AddProfile() returns (id: ProfileId, err: bool, ghost fate: Fate, ghost made: ProfileId)
      requires State().Valid()
      modifies this
      ensures calls == old(calls) + 1 && err == !fate.Done? && faults == old(faults) + Bit(err || id != made)
      ensures made >= old(next) && (id == made || id == BLANK)
      ensures State() == if fate.Applied() then old(State()).Add(made) else old(State())
    {
      var outcome: Fate, blank: bool := *, *;
      var p: ProfileId :| p >= next;
      if !outcome.Refused? { named, next := named[p := MANAGED], p + 1; }
      id, err, fate, made := if blank then BLANK else p, !outcome.Done?, outcome, p;
      calls, faults := calls + 1, faults + Bit(err || id != made);
    }

    method SwitchProfile(id: ProfileId) returns (got: ProfileId, err: bool, ghost fate: Fate)
      modifies this`active, this`calls, this`faults
      ensures calls == old(calls) + 1 && err == !fate.Done? && faults == old(faults) + Bit(err || got != id)
      ensures State() == if fate.Applied() then old(State()).Selecting(id) else old(State())
    {
      var outcome: Fate := *;
      if !outcome.Refused? { active := id; }
      got, err, fate := *, !outcome.Done?, outcome;
      calls, faults := calls + 1, faults + Bit(err || got != id);
    }

    method RemoveProfile(id: ProfileId) returns (got: ProfileId, err: bool, ghost fate: Fate)
      modifies this`named, this`calls, this`faults
      ensures calls == old(calls) + 1 && err == !fate.Done? && faults == old(faults) + Bit(err || got != id)
      ensures State() == if fate.Applied() then old(State()).Without(id) else old(State())
    {
      var outcome: Fate := *;
      if !outcome.Refused? { named := named - {id}; }
      got, err, fate := *, !outcome.Done?, outcome;
      calls, faults := calls + 1, faults + Bit(err || got != id);
    }

    /** Login and Up may select the profile they are about. */
    method Login(id: ProfileId) returns (err: bool, ghost fate: Fate)
      modifies this`active, this`enrolled, this`calls, this`faults
      ensures calls == old(calls) + 1 && active in {old(active), id} && faults == old(faults) + Bit(err)
      ensures err == !fate.Done? && enrolled == if fate.Applied() then old(enrolled) + {id} else old(enrolled)
    {
      var outcome: Fate, selects: bool := *, *;
      if selects { active := id; }
      if !outcome.Refused? { enrolled := enrolled + {id}; }
      err, fate := !outcome.Done?, outcome;
      calls, faults := calls + 1, faults + Bit(err);
    }

    method Up(id: ProfileId) returns (err: bool, ghost fate: Fate)
      modifies this`active, this`up, this`calls, this`faults
      ensures calls == old(calls) + 1 && active in {old(active), id} && faults == old(faults) + Bit(err)
      ensures err == !fate.Done? && up == if fate.Applied() then Some(id) else old(up)
    {
      var outcome: Fate, selects: bool := *, *;
      if selects { active := id; }
      if !outcome.Refused? { up := Some(id); }
      err, fate := !outcome.Done?, outcome;
      calls, faults := calls + 1, faults + Bit(err);
    }

    method Logout(id: ProfileId) returns (err: bool, ghost fate: Fate)
      modifies this`enrolled, this`up, this`calls, this`faults
      ensures calls == old(calls) + 1 && err == !fate.Done? && faults == old(faults) + Bit(err)
      ensures State() == if fate.Applied() then old(State()).Deregistered(id) else old(State())
    {
      var outcome: Fate := *;
      if !outcome.Refused? { enrolled, up := enrolled - {id}, if up == Some(id) then None else up; }
      err, fate := !outcome.Done?, outcome;
      calls, faults := calls + 1, faults + Bit(err);
    }

    method Down() returns (err: bool, ghost fate: Fate)
      modifies this`up, this`calls, this`faults
      ensures calls == old(calls) + 1 && err == !fate.Done? && faults == old(faults) + Bit(err)
      ensures up == if fate.Applied() then None else old(up)
    {
      var outcome: Fate := *;
      if !outcome.Refused? { up := None; }
      err, fate := !outcome.Done?, outcome;
      calls, faults := calls + 1, faults + Bit(err);
    }

    method Status() returns (response: Option<StatusResponse>, err: bool)
      modifies this`calls, this`faults, this`told
      ensures calls == old(calls) + 1 && faults == old(faults) + Bit(err) && told == response
    {
      response, err := *, *;
      calls, faults, told := calls + 1, faults + Bit(err), response;
    }
  }
}
