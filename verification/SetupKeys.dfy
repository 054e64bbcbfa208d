/** The setup key on the client: handed to one consumer at most, and wiped
    (client/internal/netbird/adapter.go:34-66, client/internal/roomapi/client.go:79-126). */
module SetupKeys {
  import opened Text

  ghost predicate Zeroed(a: array<byte>)
    reads a
  {
    forall i :: 0 <= i < a.Length ==> a[i] == 0
  }

  /** netbird.SetupKey. `buffer` remembers the array the key was made with. */
  class SetupKey {
    var value: array?<byte>
    ghost const buffer: array<byte>

    ghost predicate Valid()
      reads this, buffer
    {
      value == null || value == buffer
    }

    ghost predicate Wiped()
      reads this, buffer
    {
      value == null && Zeroed(buffer)
    }

    function Bytes(): seq<byte>
      reads this, value
    {
      if value == null then [] else value[..]
    }

    /** NewSetupKey: a copy, so that wiping it leaves the caller's bytes alone. */
    constructor (bytes: seq<byte>)
      ensures Valid() && value == buffer && fresh(buffer) && Bytes() == bytes
    {
      var copy := new byte[|bytes|](i requires 0 <= i < |bytes| => bytes[i]);
      value, buffer := copy, copy;
      new;
      assert value[..] == bytes;
    }

    /** Clear, adapter.go:58-66. */
    method Clear()
      requires Valid()
      modifies this, buffer
      ensures Valid() && value == null
      ensures old(value) != null ==> Zeroed(buffer)
      ensures old(value) == null ==> buffer[..] == old(buffer[..])
    {
      if value == null { return; }
      for i := 0 to value.Length
        invariant value == buffer && forall j :: 0 <= j < i ==> buffer[j] == 0
      {
        value[i] := 0;
      }
      value := null;
    }
  }

  /** roomapi.enrollmentSecret. */
  class EnrollmentSecret {
    var key: SetupKey?
    var consumed: bool
    ghost const made: SetupKey

    ghost predicate Valid()
      reads this, made, made.buffer
    {
      && made.Valid() && (key == null || key == made)
      && (consumed <==> key == null)
      && (key != null ==> made.value == made.buffer)
    }

    constructor (key: SetupKey)
      requires key.Valid() && key.value == key.buffer
      ensures Valid() && !consumed && made == key
    {
      this.key, consumed, made := key, false, key;
    }

    /** takeSetupKey, client.go:113-126: the first caller gets the key, nobody else does. */
    method Take() returns (taken: SetupKey?)
      requires Valid()
      modifies this
      ensures Valid() && consumed
      ensures taken == (if old(consumed) then null else made)
    {
      if consumed || key == null { return null; }
      taken := key;
      key, consumed := null, true;
    }

    /** DiscardSetupKey, client.go:106-111: whoever still finds the key wipes it; a key that
        somebody has taken is left to him. */
    method Discard()
      requires Valid()
      modifies this, made, made.buffer
      ensures Valid() && consumed
      ensures !old(consumed) ==> made.Wiped()
      ensures old(consumed) ==> made.value == old(made.value) && made.buffer[..] == old(made.buffer[..])
    {
      var taken := Take();
      if taken != null { taken.Clear(); }
    }
  }

  // ---------------------------------------------------------------- any interleaving

  // One caller of ConsumeSetupKey or DiscardSetupKey, between its atomic steps.
  datatype Stage =
    | Asking                 // before takeSetupKey
    | Consuming              // holds the key, the consumer has not run yet
    | Clearing               // holds the key, has only Clear to do
    | Gone(served: bool)     // returned; served if it had the key

  datatype Caller = Caller(consumes: bool, stage: Stage)

  // Where the bytes of the key are: `held` in the secret, or wiped.
  datatype Custody = Custody(held: bool, consumed: bool, wiped: bool, runs: nat, callers: seq<Caller>)

  predicate Holds(c: Caller) { c.stage.Consuming? || c.stage.Clearing? }

  predicate Consumed(c: Caller) { c.consumes && Had(c) && !c.stage.Consuming? }

  function Moved(s: Custody, i: nat): Custody
    requires i < |s.callers|
  {
    var c := s.callers[i];
    match c.stage
    case Asking =>
      if s.consumed || !s.held then s.(callers := s.callers[i := c.(stage := Gone(false))])
      else
        var taken := c.(stage := if c.consumes then Consuming else Clearing);
        s.(held := false, consumed := true, callers := s.callers[i := taken])
    case Consuming => s.(runs := s.runs + 1, callers := s.callers[i := c.(stage := Clearing)])
    case Clearing => s.(wiped := true, callers := s.callers[i := c.(stage := Gone(true))])
    case Gone(_) => s
  }

  function Run(s: Custody, schedule: seq<nat>): Custody
    requires forall k :: 0 <= k < |schedule| ==> schedule[k] < |s.callers|
    ensures |Run(s, schedule).callers| == |s.callers|
  {
    if schedule == [] then s else Moved(Run(s, schedule[..|schedule| - 1]), schedule[|schedule| - 1])
  }

  /** At most one caller ever had the key; the bytes are in the secret, with that caller,
      or wiped; only a consumer that has them has run. */
  ghost predicate KeyOk(s: Custody) {
    && (s.consumed <==> !s.held) && (s.wiped ==> s.consumed) && s.runs <= 1
    && (forall i, j :: 0 <= i < |s.callers| && 0 <= j < |s.callers| && Had(s.callers[i]) && Had(s.callers[j]) ==>
          i == j)
    && (s.held ==> s.runs == 0 && forall i :: 0 <= i < |s.callers| ==> !Had(s.callers[i]))
    && (!s.held ==> exists i :: 0 <= i < |s.callers| && Had(s.callers[i]))
    && (forall i :: 0 <= i < |s.callers| ==>
          var c := s.callers[i];
          && (Had(c) ==> s.runs == if c.consumes && !c.stage.Consuming? then 1 else 0)
          && (c.stage.Consuming? ==> c.consumes)
          && (Had(c) ==> (s.wiped <==> c.stage.Gone?)))
  }

  predicate Had(c: Caller) { Holds(c) || (c.stage.Gone? && c.stage.served) }

  ghost predicate Fresh(s: Custody) {
    s.held && !s.consumed && !s.wiped && s.runs == 0 && forall i :: 0 <= i < |s.callers| ==> s.callers[i].stage.Asking?
  }

  lemma MovedKeeps(s: Custody, i: nat)
    requires KeyOk(s) && i < |s.callers|
    ensures KeyOk(Moved(s, i))
  {
    var t := Moved(s, i);
    if s.callers[i].stage.Asking? && s.held {
      assert Had(t.callers[i]);
    } else {
      if !s.held {
        var j :| 0 <= j < |s.callers| && Had(s.callers[j]);
        assert Had(t.callers[j]);
      }
    }
  }

  lemma {:induction false} RunKeeps(s: Custody, schedule: seq<nat>)
    requires Fresh(s) && forall k :: 0 <= k < |schedule| ==> schedule[k] < |s.callers|
    ensures KeyOk(Run(s, schedule))
  {
    if schedule != [] {
      RunKeeps(s, schedule[..|schedule| - 1]);
      MovedKeeps(Run(s, schedule[..|schedule| - 1]), schedule[|schedule| - 1]);
    }
  }

  /** However Consume and Discard calls interleave: one caller at most is given the key, the
      consumer runs once at most, and once every caller has returned the bytes are wiped
      and the secret no longer refers to them. */
  lemma OneConsumerThenWiped(s: Custody, schedule: seq<nat>)
    requires Fresh(s) && forall k :: 0 <= k < |schedule| ==> schedule[k] < |s.callers|
    ensures var t := Run(s, schedule);
      && t.runs <= 1
      && (forall i, j :: 0 <= i < j < |t.callers| ==> !(Had(t.callers[i]) && Had(t.callers[j])))
      && (t.callers != [] && (forall i :: 0 <= i < |t.callers| ==> t.callers[i].stage.Gone?) ==>
            t.wiped && !t.held && t.consumed)
      && (t.runs == 1 <==>
            exists i :: 0 <= i < |t.callers| && Consumed(t.callers[i]))
  {
    RunKeeps(s, schedule);
    var t := Run(s, schedule);
    if t.callers != [] { Answered(s, schedule, 0); }
  }

  // Whoever returned found the key gone, or took it.
  lemma {:induction false} Answered(s: Custody, schedule: seq<nat>, i: nat)
    requires Fresh(s) && (forall k :: 0 <= k < |schedule| ==> schedule[k] < |s.callers|) && i < |s.callers|
    ensures var t := Run(s, schedule); !t.callers[i].stage.Asking? ==> !t.held
  {
    if schedule != [] { Answered(s, schedule[..|schedule| - 1], i); RunKeeps(s, schedule[..|schedule| - 1]); }
  }
}
