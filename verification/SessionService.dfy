/** session.Service as written (client/internal/session/service.go): every request to the
    daemon, to the Room API and to the two files may fail, and so may every step that
    undoes another. */
module SessionService {
  import opened Outcomes
  import opened Text
  import opened DaemonStatus
  import opened SessionState
  import opened LocalDaemon
  import opened ManagedProfiles
  import opened SetupKeys
  import opened LocalStores
  import opened SessionCommands
  import opened RecoveryMonitor

  const MAX_HOSTNAME := 63

  /** The Room API client: an enrollment with a setup key, or an error. */
  class RoomAPI {
    ghost var calls: nat
    ghost var faults: nat

    method Obtain() returns (got: Enrollment, secret: EnrollmentSecret?)
      modifies this
      ensures calls == old(calls) + 1 && faults == old(faults) + if secret == null then 1 else 0
      ensures secret != null ==>
                fresh(secret) && fresh(secret.made) && fresh(secret.made.buffer) && secret.Valid() && !secret.consumed
      ensures secret != null ==> secret.made.Bytes() != []
    {
      calls := calls + 1;
      got, secret := *, null;
      var answered: bool, bytes: seq<byte> := *, *;
      if !answered || bytes == [] {
        faults := faults + 1;
      } else {
        var key := new SetupKey(bytes);
        secret := new EnrollmentSecret(key);
      }
    }
  }

  /** Everything a session works on. */
  class Service {
    const rooms: RoomAPI
    const netbird: RPCAdapter
    const metadata: FileStore<RoomMetadata>
    const codes: FileStore<Code>
    const machine: Machine
    const monitor: Monitor
    var busy: bool

    constructor (rooms: RoomAPI, netbird: RPCAdapter, metadata: FileStore<RoomMetadata>, codes: FileStore<Code>,
                 retryDelays: seq<nat>)
      requires netbird.client.State().Valid()
      ensures Valid() && !busy && fresh(machine)
      ensures this.rooms == rooms && this.netbird == netbird && this.metadata == metadata && this.codes == codes
    {
      this.rooms, this.netbird, this.metadata, this.codes := rooms, netbird, metadata, codes;
      monitor := new Monitor(netbird, retryDelays);
      machine := new Machine();
      busy := false;
    }

    ghost predicate Valid()
      reads this, netbird.client, machine
    {
      machine.Valid() && netbird.client.State().Valid() && monitor.netbird == netbird
    }

    ghost function State(): Local
      reads this, netbird.client, metadata, codes, rooms
    {
      Local(netbird.client.State(), metadata.content, codes.content, netbird.client.calls + rooms.calls)
    }

    /** Errors reported to this session so far, by anybody. */
    ghost function Faults(): nat
      reads this, netbird.client, metadata, codes, rooms
    {
      netbird.client.faults + metadata.faults + codes.faults + rooms.faults
    }

    /** A refusal without a trace leaves what is shown as it was; every other error shows. */
    ghost predicate Tells(o: Outcome, before: View)
      reads machine
    {
      o.Err? ==>
        if Silent(o.error) then machine.Now() == before else machine.shown == Shown(RecoverableError, NoPath)
    }

    // ---------------------------------------------------------------- saved files

    /** requireEmptyStorage, service.go:384-397. */
    method RequireEmptyStorage() returns (err: Option<CommandError>, ghost metaRead: bool, ghost codeRead: bool)
      modifies metadata`faults, codes`faults
      ensures err == Obstacle(State(), metaRead, codeRead)
      ensures Faults() == old(Faults()) + Bit(!metaRead) + Bit(!codeRead)
    {
      var m := metadata.Load();
      var c := codes.Load();
      metaRead, codeRead := !m.Unreadable?, !c.Unreadable?;
      if m.Found? && c.Found? { return Some(RoomAlreadySaved), metaRead, codeRead; }
      if m.Missing? && c.Missing? { return None, metaRead, codeRead; }
      return Some(StoredStateConflict), metaRead, codeRead;
    }

    /** loadSavedRoom, service.go:399-410. */
    method LoadSavedRoom()
      returns (room: Option<RoomMetadata>, err: CommandError, ghost metaRead: bool, ghost codeRead: bool)
      modifies metadata`faults, codes`faults
      ensures Faults() >= old(Faults())
      ensures Faults() == old(Faults()) ==>
                (room.Some? <==> State().Saved()) && (room.None? && State().Empty() ==> err == NoRoomSaved)
      ensures room == if metaRead && codeRead && State().Saved() then State().meta else None
      ensures room.None? ==> err == if metaRead && codeRead && State().Empty() then NoRoomSaved else StoredStateConflict
    {
      err := StoredStateConflict;
      var m := metadata.Load();
      var c := codes.Load();
      metaRead, codeRead := !m.Unreadable?, !c.Unreadable?;
      if m.Found? && c.Found? { return Some(m.value), err, metaRead, codeRead; }
      if m.Missing? && c.Missing? { return None, NoRoomSaved, metaRead, codeRead; }
      return None, StoredStateConflict, metaRead, codeRead;
    }

    method Fail(error: CommandError) returns (o: Outcome)
      requires Valid()
      modifies machine
      ensures Valid() && o == Err(error) && machine.shown == Shown(RecoverableError, NoPath)
    {
      var _ := machine.Apply(Facts(recoverableError := true));
      o := Err(error);
    }

    // ---------------------------------------------------------------- compensation

    /** compensate, service.go:426-451: nothing the second time; the first time every step is
        tried, whatever the others did. */
    method Compensate(p: ProfileId, t: Transaction) returns (ghost q: UndoReplies)
      requires Valid() && t.Valid()
      modifies netbird.client, metadata, codes, t`compensated, t`runs, t`cleanupFailures
      ensures Valid() && t.Valid() && t.compensated && Faults() >= old(Faults())
      ensures old(t.compensated) ==>
                State() == old(State()) && Faults() == old(Faults()) && t.cleanupFailures == old(t.cleanupFailures)
      ensures !old(t.compensated) ==>
                Ended(State(), Err(TransactionFailed(t.cleanupFailures))) == UndoRun(t.After(old(State()), false), p, q)
      ensures !old(t.compensated) && Faults() == old(Faults()) && p in old(netbird.client.named) ==>
                t.cleanupFailures == 0
    {
      q := NO_UNDO;
      if t.compensated { return; }
      t.compensated, t.runs := true, t.runs + 1;
      ghost var dq, rq := RemoveIt(p, t);
      ghost var clearMeta, clearCode := ClearFiles(t);
      q := UndoReplies(dq, rq, clearMeta, clearCode);
    }

    /** The first half, service.go:433-440. */
    method RemoveIt(p: ProfileId, t: Transaction) returns (ghost dq: DeregisterReplies, ghost rq: RemoveReplies)
      requires Valid() && t.Valid() && t.compensated
      modifies netbird.client, t`cleanupFailures
      ensures Valid() && t.Valid() && netbird.client.faults >= old(netbird.client.faults)
      ensures var a := DeregisterIf(t.enrollmentAttempted, old(netbird.client.State()), p, dq);
              var b := RemoveRun(a.registry, p, rq);
        && netbird.client.State() == b.registry && netbird.client.calls == old(netbird.client.calls) + a.calls + b.calls
        && t.cleanupFailures == old(t.cleanupFailures) + Bit(!a.ok) + Bit(!b.ok)
      ensures netbird.client.faults == old(netbird.client.faults) && p in old(netbird.client.named) ==>
                t.cleanupFailures == old(t.cleanupFailures)
    {
      dq := NO_UNDO.deregister;
      var err;
      if t.enrollmentAttempted {
        err, dq := netbird.Deregister(p);
        t.Note(err);
      }
      err, rq := netbird.RemoveProfile(p);
      t.Note(err);
    }

    /** The second half, service.go:441-450. */
    method ClearFiles(t: Transaction) returns (ghost clearMeta: Fate, ghost clearCode: Fate)
      requires t.Valid() && t.compensated
      modifies metadata, codes, t`cleanupFailures
      ensures t.Valid()
      ensures metadata.content
           == if t.metadataWriteAttempted && clearMeta.Applied() then None else old(metadata.content)
      ensures codes.content == if t.codeWriteAttempted && clearCode.Applied() then None else old(codes.content)
      ensures t.cleanupFailures == old(t.cleanupFailures) + Bit(t.metadataWriteAttempted && !clearMeta.Done?)
                                 + Bit(t.codeWriteAttempted && !clearCode.Done?)
      ensures metadata.faults == old(metadata.faults) + Bit(t.metadataWriteAttempted && !clearMeta.Done?)
      ensures codes.faults == old(codes.faults) + Bit(t.codeWriteAttempted && !clearCode.Done?)
    {
      clearMeta, clearCode := Refused, Refused;
      var err;
      if t.metadataWriteAttempted {
        err, clearMeta := metadata.Clear();
        t.Note(err);
      }
      if t.codeWriteAttempted {
        err, clearCode := codes.Clear();
        t.Note(err);
      }
    }

    // ---------------------------------------------------------------- enrolling

    /** The steps that may be undone, service.go:302-334. They commit, or they are
        compensated once and the error says how many steps of that failed. */
    method Commit(p: ProfileId, got: Enrollment, secret: EnrollmentSecret)
      returns (o: Outcome, ghost aq: AttemptReplies, ghost uq: UndoReplies)
      requires Valid() && secret.Valid() && !secret.consumed && secret.made.Bytes() != [] && p in netbird.client.named
      modifies netbird.client, metadata, codes, machine, secret, secret.made, secret.made.buffer
      ensures Valid() && secret.Valid() && secret.consumed && secret.made.Wiped()
      ensures Ended(State(), o) == CommitRun(old(State()), p, got, aq, uq)
      ensures o.Err? ==> machine.shown == Shown(RecoverableError, NoPath) && !Silent(o.error)
      ensures Faults() >= old(Faults()) && (o.Err? ==> Faults() > old(Faults()))
      ensures o.Err? && Faults() == old(Faults()) + 1 ==> o.CleanupFailures() == 0
    {
      var transaction := new Transaction();
      transaction.enrollmentAttempted := true;
      var err;
      err, aq := Attempt(p, got, secret, transaction);
      o, uq := Ok, NO_UNDO;
      if err { o, uq := RollBack(p, transaction); }
    }

    /** wrap, service.go:453-456, fail, and then the deferred compensate of service.go:296-300,
        which finds everything done. */
    method RollBack(p: ProfileId, t: Transaction) returns (o: Outcome, ghost q: UndoReplies)
      requires Valid() && t.Valid() && !t.compensated
      modifies netbird.client, metadata, codes, machine, t`compensated, t`runs, t`cleanupFailures
      ensures Valid() && t.Valid() && t.runs == 1
      ensures Ended(State(), o) == UndoRun(t.After(old(State()), false), p, q)
      ensures machine.shown == Shown(RecoverableError, NoPath)
      ensures Faults() >= old(Faults())
      ensures Faults() == old(Faults()) && p in old(netbird.client.named) ==> o.CleanupFailures() == 0
    {
      q := Compensate(p, t);
      o := Fail(TransactionFailed(t.cleanupFailures));
      ghost var _ := Compensate(p, t);
    }

    /** service.go:302-333. */
    method Attempt(p: ProfileId, got: Enrollment, secret: EnrollmentSecret, t: Transaction)
      returns (err: bool, ghost q: AttemptReplies)
      requires Valid() && secret.Valid() && !secret.consumed && secret.made.Bytes() != [] && p in netbird.client.named
      requires t.enrollmentAttempted && !t.codeWriteAttempted && !t.metadataWriteAttempted
      modifies netbird.client`active, netbird.client`enrolled, netbird.client`up, netbird.client`calls
      modifies netbird.client`faults
      modifies metadata, codes, t`codeWriteAttempted, t`metadataWriteAttempted, secret, secret.made, secret.made.buffer
      ensures Valid() && secret.Valid() && secret.consumed && secret.made.Wiped()
      ensures t.After(State(), !err) == AttemptRun(old(State()), p, got, q)
      ensures Faults() >= old(Faults()) && (err ==> Faults() > old(Faults()))
    {
      ghost var lq;
      err, lq := ConsumeSetupKey(p, secret);
      q := AttemptReplies(lq, NO_ATTEMPT.up, Refused, Refused);
      if err { return; }
      err, q := ConnectAndSave(p, got, t);
      q := q.(login := lq);
    }

    /** ConsumeSetupKey with the consumer of service.go:303-310, client.go:94-104. */
    method ConsumeSetupKey(p: ProfileId, secret: EnrollmentSecret) returns (err: bool, ghost q: LoginReplies)
      requires Valid() && secret.Valid() && (secret.consumed ==> secret.made.Wiped())
      modifies netbird.client`active, netbird.client`enrolled, netbird.client`calls, netbird.client`faults, secret
      modifies secret.made, secret.made.buffer
      ensures Valid() && secret.Valid() && secret.consumed && secret.made.Wiped()
      ensures netbird.client.calls >= old(netbird.client.calls) && netbird.client.faults >= old(netbird.client.faults)
      ensures if !old(secret.consumed) && old(secret.made.Bytes()) != []
              then Asked(netbird.client.State(), netbird.client.calls - old(netbird.client.calls), !err)
                == LoginRun(old(netbird.client.State()), p, q)
              else err && netbird.client.State() == old(netbird.client.State())
                   && netbird.client.calls == old(netbird.client.calls)
      ensures err && !old(secret.consumed) && p in netbird.client.named && old(secret.made.Bytes()) != [] ==>
                netbird.client.faults > old(netbird.client.faults)
    {
      q := NO_ATTEMPT.login;
      var key := secret.Take();
      if key == null { return true, q; }
      err, q := netbird.Enroll(p, key);
      key.Clear();
    }

    /** service.go:314-333: the code is written before the metadata. */
    method ConnectAndSave(p: ProfileId, got: Enrollment, t: Transaction) returns (err: bool, ghost q: AttemptReplies)
      requires Valid() && t.enrollmentAttempted && !t.codeWriteAttempted && !t.metadataWriteAttempted
      modifies netbird.client`active, netbird.client`up, netbird.client`calls, netbird.client`faults, metadata, codes
      modifies t`codeWriteAttempted, t`metadataWriteAttempted
      ensures Valid() && t.After(State(), !err) == ConnectRun(old(State()), p, got, q)
      ensures old(State()).Empty() && metadata.content.Some? ==> codes.content.Some?
      ensures Faults() >= old(Faults()) && (err && p in netbird.client.named ==> Faults() > old(Faults()))
    {
      ghost var uq, fate;
      err, uq := netbird.Connect(p);
      q := NO_ATTEMPT.(up := uq);
      if err { return; }
      t.codeWriteAttempted := true;
      err, fate := codes.Save(got.code);
      q := q.(codeSaved := fate);
      if err { return; }
      t.metadataWriteAttempted := true;
      err, fate := metadata.Save(RoomMetadata(got.roomId, got.managementURL, p));
      q := q.(metaSaved := fate);
    }

    /** enrollUnlocked, service.go:270-342: given what everybody answers, it does what EnrollRun
        says. However it ends, a setup key that was obtained is wiped and nothing refers to it
        any more. */
    method EnrollUnlocked() returns (o: Outcome, ghost q: EnrollReplies, ghost secret: EnrollmentSecret?)
      requires Valid()
      modifies netbird.client, metadata, codes, rooms, machine
      ensures Valid() && Ended(State(), o) == EnrollRun(old(State()), q) && q.ensure.newId >= old(netbird.client.next)
      ensures secret != null ==> fresh(secret) && secret.Valid() && secret.consumed && secret.made.Wiped()
      ensures secret == null ==> StageOf(old(State()), q).NotAsked?
      ensures Faults() >= old(Faults())
      ensures Faults() == old(Faults()) ==> (o.Ok? <==> old(State()).Empty() && !old(State()).registry.HasManaged())
      ensures o.Err? && StageOf(old(State()), q).Had? && Faults() == old(Faults()) + 1 ==> o.CleanupFailures() == 0
      ensures o.Err? ==> machine.shown == Shown(RecoverableError, NoPath) && !Silent(o.error)
      ensures o.Ok? ==> machine.shown.state in {ShownFor(netbird.client.told), SessionState.Reconnecting}
      ensures o.Ok? && Faults() == old(Faults()) ==> machine.shown.state == ShownFor(netbird.client.told)
    {
      hide EnrollWithRun;
      secret := null;
      var conflict;
      ghost var metaRead, codeRead;
      conflict, metaRead, codeRead := RequireEmptyStorage();
      q := Unanswered(metaRead, codeRead, netbird.client.next);
      if conflict.Some? {
        o := Fail(conflict.value);
        return;
      }
      var _ := machine.Apply(Facts(enrollmentInProgress := true));
      var got, key := rooms.Obtain();
      secret := key;
      if key == null {
        o := Fail(OperationFailed);
        return;
      }
      ghost var eq, aq, uq;
      o, eq, aq, uq := EnrollWith(got, key);
      q := EnrollReplies(metaRead, codeRead, true, got, eq, aq, uq);
    }

    /** From the obtained key on, service.go:280-341. */
    method EnrollWith(got: Enrollment, secret: EnrollmentSecret)
      returns (o: Outcome, ghost eq: EnsureReplies, ghost aq: AttemptReplies, ghost uq: UndoReplies)
      requires Valid() && secret.Valid() && !secret.consumed && secret.made.Bytes() != []
      modifies netbird.client, metadata, codes, machine, secret, secret.made, secret.made.buffer
      ensures Valid() && Ended(State(), o) == EnrollWithRun(old(State()), got, eq, aq, uq)
      ensures eq.newId >= old(netbird.client.next)
      ensures Faults() >= old(Faults())
      ensures Faults() == old(Faults()) ==> (o.Ok? <==> !old(State()).registry.HasManaged())
      ensures o.Err? && EnsureRun(old(netbird.client.State()), eq).result.Ensured? && Faults() == old(Faults()) + 1 ==>
                o.CleanupFailures() == 0
      ensures secret.Valid() && secret.consumed && secret.made.Wiped()
      ensures o.Err? ==> machine.shown == Shown(RecoverableError, NoPath) && !Silent(o.error)
      ensures o.Ok? ==> machine.shown.state in {ShownFor(netbird.client.told), SessionState.Reconnecting}
      ensures o.Ok? && Faults() == old(Faults()) ==> machine.shown.state == ShownFor(netbird.client.told)
    {
      hide SavedRun, ShownFor;
      assert secret.made.Valid();
      aq, uq := NO_ATTEMPT, NO_UNDO;
      var profile;
      profile, eq := netbird.Ensure();
      if !profile.Ensured? {
        o := Fail(TransactionFailed(0));
        secret.Discard();
        return;
      }
      o, aq, uq := CommitAndShow(profile.profile.id, got, secret);
      secret.Discard();
    }

    /** service.go:296-341. */
    method CommitAndShow(p: ProfileId, got: Enrollment, secret: EnrollmentSecret)
      returns (o: Outcome, ghost aq: AttemptReplies, ghost uq: UndoReplies)
      requires Valid() && secret.Valid() && !secret.consumed && secret.made.Bytes() != [] && p in netbird.client.named
      modifies netbird.client, metadata, codes, machine, secret, secret.made, secret.made.buffer
      ensures Valid() && secret.Valid() && secret.consumed && secret.made.Wiped()
      ensures Ended(State(), o) == SavedRun(old(State()), p, got, aq, uq)
      ensures o.Err? ==> machine.shown == Shown(RecoverableError, NoPath) && !Silent(o.error)
      ensures Faults() >= old(Faults()) && (o.Err? ==> Faults() > old(Faults()))
      ensures o.Err? && Faults() == old(Faults()) + 1 ==> o.CleanupFailures() == 0
      ensures o.Ok? ==> machine.shown.state in {ShownFor(netbird.client.told), SessionState.Reconnecting}
      ensures o.Ok? && Faults() == old(Faults()) ==> machine.shown.state == ShownFor(netbird.client.told)
    {
      hide CommitRun, ShownFor;
      o, aq, uq := Commit(p, got, secret);
      if o.Ok? { ShowSaved(); }
    }

    /** service.go:336-341. */
    method ShowSaved()
      requires Valid()
      modifies netbird.client`calls, netbird.client`faults, netbird.client`told, machine
      ensures Valid() && netbird.client.faults >= old(netbird.client.faults)
      ensures netbird.client.calls == old(netbird.client.calls) + 1
      ensures machine.shown.state ==
              if netbird.client.faults == old(netbird.client.faults) then ShownFor(netbird.client.told)
              else SessionState.Reconnecting
    {
      var facts := Facts(roomSaved := true);
      var status, err := netbird.Status();
      if !err {
        facts := facts.(controlPlaneReady := status.ControlPlaneReady(), daemonPeers := status.peers);
        StatusShows(status, netbird.client.told);
      }
      var _ := machine.Apply(facts);
    }

    // ---------------------------------------------------------------- leaving

    /** leaveUnlocked, service.go:344-366: given how its requests and its files answer, it does
        what LeaveRun says. */
    method LeaveUnlocked() returns (o: Outcome, ghost q: LeaveReplies)
      requires Valid()
      modifies netbird.client, metadata, codes, machine
      ensures Valid() && Ended(State(), o) == LeaveRun(old(State()), q)
      ensures Faults() >= old(Faults())
      ensures Faults() == old(Faults()) ==> (o.Ok? <==> old(State()).CanLeave())
      ensures machine.shown == if o.Ok? then Shown(NoRoom, NoPath) else Shown(RecoverableError, NoPath)
      ensures o.Err? ==> !Silent(o.error)
    {
      var room, why, metaRead, codeRead := LoadSavedRoom();
      q := NoReplies(metaRead, codeRead);
      if room.None? {
        o := Fail(why);
        return;
      }
      var err, dq, rq := GiveUp(room.value.profileId);
      q := q.(deregister := dq, remove := rq);
      if err {
        o := Fail(OperationFailed);
        return;
      }
      var clearFailures;
      ghost var fate1, fate2;
      clearFailures, fate1, fate2 := ClearBoth();
      q := q.(clearMeta := fate1, clearCode := fate2);
      if clearFailures > 0 {
        o := Fail(TransactionFailed(clearFailures));
        return;
      }
      var _ := machine.Apply(Facts());
      o := Ok;
    }

    /** service.go:355-361: both files, whatever becomes of the first. */
    method ClearBoth() returns (clearFailures: nat, ghost fate1: Fate, ghost fate2: Fate)
      modifies metadata, codes
      ensures metadata.content == if fate1.Applied() then None else old(metadata.content)
      ensures codes.content == if fate2.Applied() then None else old(codes.content)
      ensures clearFailures == Bit(!fate1.Done?) + Bit(!fate2.Done?)
      ensures clearFailures == (metadata.faults - old(metadata.faults)) + (codes.faults - old(codes.faults))
    {
      clearFailures := 0;
      var err1, err2;
      err1, fate1 := metadata.Clear();
      if err1 { clearFailures := clearFailures + 1; }
      err2, fate2 := codes.Clear();
      if err2 { clearFailures := clearFailures + 1; }
    }

    /** service.go:349-354: the device is deregistered before its profile goes. */
    method GiveUp(p: ProfileId) returns (err: bool, ghost dq: DeregisterReplies, ghost rq: RemoveReplies)
      requires Valid()
      modifies netbird.client
      ensures Valid() && netbird.client.calls >= old(netbird.client.calls)
      ensures Asked(netbird.client.State(), netbird.client.calls - old(netbird.client.calls), !err)
           == GiveUpRun(old(netbird.client.State()), p, dq, rq)
      ensures netbird.client.faults >= old(netbird.client.faults)
      ensures netbird.client.faults == old(netbird.client.faults) ==> (!err <==> p in old(netbird.client.named))
    {
      rq := RemoveReplies(false, false, Answer(Refused, false), Answer(Refused, false));
      err, dq := netbird.Deregister(p);
      if err { return; }
      err, rq := netbird.RemoveProfile(p);
    }

    // ---------------------------------------------------------------- the commands

    /** beginCommand, service.go:368-376. */
    method BeginCommand() returns (err: Option<CommandError>)
      modifies this`busy
      ensures busy && err == if old(busy) then Some(CommandInProgress) else None
    {
      if busy { return Some(CommandInProgress); }
      busy := true;
      return None;
    }

    method EndCommand()
      modifies this`busy
      ensures !busy
    {
      busy := false;
    }

    /** Create and Join, service.go:198-206 and 252-268. A Create first draws the entropy of
        its intent (`drawn`). */
    method Enroll(hostname: string, drawn: bool) returns (o: Outcome, ghost q: EnrollReplies)
      requires Valid()
      modifies this`busy, netbird.client, metadata, codes, rooms, machine
      ensures Valid() && busy == old(busy)
      ensures Faults() == old(Faults()) && drawn && !BadHostname(hostname) && !old(busy) ==>
                (o.Ok? <==> old(State()).Empty() && !old(State()).registry.HasManaged())
      ensures if !drawn || BadHostname(hostname) || old(busy) then NothingHappens(old(State()), State(), o)
              else Ended(State(), o) == EnrollRun(old(State()), q) && q.ensure.newId >= old(netbird.client.next)
      ensures !drawn ==> o == Err(OperationFailed)
      ensures drawn && BadHostname(hostname) ==> o == Err(InvalidHostname)
      ensures drawn && !BadHostname(hostname) && old(busy) ==> o == Err(CommandInProgress)
      ensures Tells(o, old(machine.Now()))
      ensures o.Ok? ==> machine.shown.state in {ShownFor(netbird.client.told), SessionState.Reconnecting}
      ensures o.Ok? && Faults() == old(Faults()) ==> machine.shown.state == ShownFor(netbird.client.told)
    {
      hide EnrollRun, ShownFor;
      q := Unanswered(false, false, netbird.client.next);
      if !drawn {
        o := Fail(OperationFailed);
        return;
      }
      if BadHostname(hostname) {
        o := Fail(InvalidHostname);
        return;
      }
      var refused := BeginCommand();
      if refused.Some? { return Err(refused.value), q; }
      ghost var secret;
      o, q, secret := EnrollUnlocked();
      EndCommand();
    }

    /** Leave, service.go:188-194. */
    method Leave() returns (o: Outcome, ghost q: LeaveReplies)
      requires Valid()
      modifies this`busy, netbird.client, metadata, codes, machine
      ensures Valid() && busy == old(busy)
      ensures Faults() == old(Faults()) && !old(busy) ==> (o.Ok? <==> old(State()).CanLeave())
      ensures if old(busy) then NothingHappens(old(State()), State(), o)
              else Ended(State(), o) == LeaveRun(old(State()), q)
      ensures old(busy) ==> o == Err(CommandInProgress)
      ensures Tells(o, old(machine.Now())) && (o.Ok? ==> machine.shown == Shown(NoRoom, NoPath))
    {
      q := NoReplies(false, false);
      var refused := BeginCommand();
      if refused.Some? { return Err(refused.value), q; }
      o, q := LeaveUnlocked();
      EndCommand();
    }

    /** Switch, service.go:215-250. */
    method Switch(confirmed: bool, mode: string, hostname: string, drawn: bool)
      returns (o: Outcome, ghost st: SwitchTrail)
      requires Valid()
      modifies this`busy, netbird.client, metadata, codes, rooms, machine
      ensures Valid() && busy == old(busy)
      ensures Switches(old(State()), State(), o, st)
      ensures Faults() == old(Faults()) && confirmed && mode in {"create", "join"} && !BadHostname(hostname)
              && !old(busy) && drawn ==>
                (o.Ok? <==> old(State()).CanSwitch())
      ensures !confirmed ==> o == Err(NotConfirmed)
      ensures confirmed && mode !in {"create", "join"} ==> o == Err(InvalidMode)
      ensures confirmed && mode in {"create", "join"} && BadHostname(hostname) ==> o == Err(InvalidHostname)
      ensures confirmed && mode in {"create", "join"} && !BadHostname(hostname) && st.Declined? ==>
                o == Err(if old(busy) then CommandInProgress else StoredStateConflict)
      ensures old(busy) || !confirmed || mode !in {"create", "join"} || BadHostname(hostname) ==> st.Declined?
      ensures Tells(o, old(machine.Now()))
      ensures o.Ok? ==> machine.shown.state in {ShownFor(netbird.client.told), SessionState.Reconnecting}
    {
      hide LeaveRun, EnrollRun, ShownFor;
      st := Declined;
      if !confirmed { return Err(NotConfirmed), st; }
      if mode != "create" && mode != "join" {
        o := Fail(InvalidMode);
        return;
      }
      if BadHostname(hostname) {
        o := Fail(InvalidHostname);
        return;
      }
      var refused := BeginCommand();
      if refused.Some? { return Err(refused.value), st; }
      o, st := SwitchUnlocked(mode, drawn);
      EndCommand();
    }

    /** service.go:230-249: the intent of a Create is only drawn once the old room is gone. */
    method SwitchUnlocked(mode: string, drawn: bool) returns (o: Outcome, ghost st: SwitchTrail)
      requires Valid()
      modifies netbird.client, metadata, codes, rooms, machine
      ensures Valid() && Switches(old(State()), State(), o, st)
      ensures Faults() >= old(Faults())
      ensures Faults() == old(Faults()) && (mode == "create" ==> drawn) ==> (o.Ok? <==> old(State()).CanSwitch())
      ensures st.Declined? ==> o == Err(StoredStateConflict)
      ensures o.Err? ==> machine.shown == Shown(RecoverableError, NoPath) && !Silent(o.error)
      ensures o.Ok? ==> machine.shown.state in {ShownFor(netbird.client.told), SessionState.Reconnecting}
    {
      hide LeaveRun, EnrollRun, ShownFor;
      st := Declined;
      ghost var left, mid := None, State();
      var room, why, metaRead, codeRead := LoadSavedRoom();
      if room.Some? {
        ghost var q;
        o, q := LeaveUnlocked();
        if o.Err? { return o, NotLeft(q); }
        LeftState(old(State()), q);
        left, mid := Some(q), State();
      } else if why != NoRoomSaved {
        o := Fail(why);
        return;
      }
      if mode == "create" && !drawn {
        o := Fail(OperationFailed);
        st := Moved(left, mid, None);
        return;
      }
      ghost var secret, q;
      o, q, secret := EnrollUnlocked();
      st := Moved(left, mid, Some(q));
    }

    /** Disconnect, service.go:146-159. */
    method Disconnect() returns (o: Outcome)
      requires Valid()
      modifies this`busy, netbird.client, metadata`faults, codes`faults, machine
      ensures Valid() && busy == old(busy)
      ensures Faults() == old(Faults()) && !old(busy) ==> (o.Ok? <==> old(State()).CanLeave())
      ensures if old(busy) then NothingHappens(old(State()), State(), o) else KeepsRoom(old(State()), State(), o, false)
      ensures old(busy) ==> o == Err(CommandInProgress)
      ensures Tells(o, old(machine.Now()))
      ensures o.Ok? ==> machine.shown == Shown(ControlPlaneConnected, NoPath)
    {
      var refused := BeginCommand();
      if refused.Some? { return Err(refused.value); }
      o := DisconnectUnlocked();
      EndCommand();
    }

    method DisconnectUnlocked() returns (o: Outcome)
      requires Valid()
      modifies netbird.client, metadata`faults, codes`faults, machine
      ensures Valid() && KeepsRoom(old(State()), State(), o, false)
      ensures Faults() == old(Faults()) ==> (o.Ok? <==> old(State()).CanLeave())
      ensures o.Err? ==> machine.shown == Shown(RecoverableError, NoPath) && !Silent(o.error)
      ensures o.Ok? ==> machine.shown == Shown(ControlPlaneConnected, NoPath)
    {
      var room, why, metaRead, codeRead := LoadSavedRoom();
      if room.None? {
        o := Fail(why);
        return;
      }
      var err := netbird.Disconnect(room.value.profileId);
      if err {
        o := Fail(OperationFailed);
        return;
      }
      var _ := machine.Apply(Facts(roomSaved := true, userDisconnected := true));
      o := Ok;
    }

    /** Connect and Reconnect, service.go:162-186. */
    method Reconnect(waits: seq<bool>) returns (o: Outcome)
      requires Valid() && |waits| == |monitor.retryDelays|
      modifies this`busy, netbird.client, metadata`faults, codes`faults, machine
      ensures Valid() && busy == old(busy)
      ensures Faults() == old(Faults()) && !old(busy) ==> (o.Ok? <==> old(State()).CanLeave())
      ensures if old(busy) then NothingHappens(old(State()), State(), o) else KeepsRoom(old(State()), State(), o, true)
      ensures old(busy) ==> o == Err(CommandInProgress)
      ensures Tells(o, old(machine.Now()))
      ensures o.Ok? ==> machine.shown.state == ShownFor(netbird.client.told)
    {
      var refused := BeginCommand();
      if refused.Some? { return Err(refused.value); }
      o := ReconnectUnlocked(waits);
      EndCommand();
    }

    method ReconnectUnlocked(waits: seq<bool>) returns (o: Outcome)
      requires Valid() && |waits| == |monitor.retryDelays|
      modifies netbird.client, metadata`faults, codes`faults, machine
      ensures Valid() && KeepsRoom(old(State()), State(), o, true)
      ensures Faults() == old(Faults()) ==> (o.Ok? <==> old(State()).CanLeave())
      ensures o.Err? ==> machine.shown == Shown(RecoverableError, NoPath) && !Silent(o.error)
      ensures o.Ok? ==> machine.shown.state == ShownFor(netbird.client.told)
    {
      var room, why, metaRead, codeRead := LoadSavedRoom();
      if room.None? {
        o := Fail(why);
        return;
      }
      var _ := machine.Apply(Facts(roomSaved := true, reconnectInProgress := true));
      var resumed, attempts := monitor.Resume(room.value.profileId, waits);
      if !resumed.Resumed? {
        o := Fail(OperationFailed);
        return;
      }
      var facts := Facts(roomSaved := true, controlPlaneReady := resumed.snapshot.ControlPlaneReady(),
                         daemonPeers := resumed.snapshot.peers);
      StatusShows(resumed.snapshot, netbird.client.told);
      var _ := machine.Apply(facts);
      o := Ok;
    }
  }

  // A command that has not begun, or is not confirmed, does not show.
  predicate Silent(error: CommandError) { error.CommandInProgress? || error.NotConfirmed? }

  // service.go:222-223 and 259-260: the trimmed name has 1 to 63 bytes.
  predicate BadHostname(hostname: string) {
    var name := TrimSpace(hostname);
    name == "" || Utf8Length(name) > MAX_HOSTNAME
  }

  function NoReplies(metaRead: bool, codeRead: bool): LeaveReplies {
    LeaveReplies(metaRead, codeRead, DeregisterReplies(false, Refused),
                 RemoveReplies(false, false, Answer(Refused, false), Answer(Refused, false)), Refused, Refused)
  }

  const NO_ATTEMPT :=
    AttemptReplies(LoginReplies(false, Refused, false), UpReplies(false, Refused, false), Refused, Refused)

  const NO_UNDO := UndoReplies(NoReplies(false, false).deregister, NoReplies(false, false).remove, Refused, Refused)

  function Unanswered(metaRead: bool, codeRead: bool, next: ProfileId): EnrollReplies {
    EnrollReplies(metaRead, codeRead, false, Enrollment(0, 0, 0), EnsureReplies(false, Refused, false, next),
                  NO_ATTEMPT, NO_UNDO)
  }

  /** enrollmentTransaction, service.go:416-424. */
  class Transaction {
    var enrollmentAttempted: bool
    var codeWriteAttempted: bool
    var metadataWriteAttempted: bool
    var compensated: bool
    var cleanupFailures: nat
    ghost var runs: nat          // compensations that did anything

    ghost predicate Valid()
      reads this
    {
      runs == (if compensated then 1 else 0) && (!compensated ==> cleanupFailures == 0)
    }

    ghost function After(local: Local, ok: bool): Attempted
      reads this
    {
      Attempted(local, enrollmentAttempted, codeWriteAttempted, metadataWriteAttempted, ok)
    }

    constructor ()
      ensures Valid()
      ensures !enrollmentAttempted && !codeWriteAttempted && !metadataWriteAttempted && !compensated
    {
      enrollmentAttempted, codeWriteAttempted, metadataWriteAttempted, compensated := false, false, false, false;
      cleanupFailures, runs := 0, 0;
    }

    method Note(err: bool)
      requires Valid() && compensated
      modifies this`cleanupFailures
      ensures Valid() && cleanupFailures == old(cleanupFailures) + Bit(err)
    {
      if err { cleanupFailures := cleanupFailures + 1; }
    }
  }
}
