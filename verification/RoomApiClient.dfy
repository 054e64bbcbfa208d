/** The Room API client's request loop and its create intent
    (client/internal/roomapi/client.go:159-265, 317-337, 397-416, 458-475). */
module RoomApiClient {
  import opened Outcomes

  // time.Duration counts nanoseconds in an int64.
  const SECOND: int := 1_000_000_000
  const MAXIMUM_DELAY: int := 5 * SECOND
  const TWO_63: int := 0x8000_0000_0000_0000
  const TWO_64: int := 0x1_0000_0000_0000_0000

  /** What an int64 operation keeps of its exact result. */
  function Wrap(n: int): (r: int)
    ensures -TWO_63 <= r < TWO_63
    ensures -TWO_63 <= n < TWO_63 ==> r == n
  {
    (n + TWO_63) % TWO_64 - TWO_63
  }

  /** A Retry-After header: delay-seconds as strconv.Atoi reads it, a date `ahead` of now
      by so many nanoseconds, or something else (section 10.2.3 of RFC 9110). */
  datatype RetryAfter = Seconds(n: int) | Date(ahead: int) | Unusable

  /** parseRetryAfter, client.go:466-475. A negative number is no number here, and no date. */
  function ParseRetryAfter(header: RetryAfter): int {
    match header
    case Seconds(n) => if n >= 0 then Wrap(n * SECOND) else 0
    case Date(ahead) => if ahead > 0 then ahead else 0
    case Unusable => 0
  }

  datatype Failure =
    | HTTPError(status: int, retryAfter: RetryAfter)
    | TransportError
    | OtherError          // an ended context, an oversized or malformed reply

  predicate Transient(status: int) { status in {408, 429, 500, 502, 503, 504} }

  predicate IsRetryable(err: Failure) {
    match err
    case HTTPError(status, _) => Transient(status)
    case TransportError => true
    case OtherError => false
  }

  function DelayAfter(base: int, err: Failure): int {
    var longer := err.HTTPError? && ParseRetryAfter(err.retryAfter) > base;
    var delay := if longer then ParseRetryAfter(err.retryAfter) else base;
    if delay > MAXIMUM_DELAY then MAXIMUM_DELAY else delay
  }

  // ---------------------------------------------------------------- the delay

  /** Each wait lies between its base delay and five seconds, whatever the header says and
      however the multiplication wraps. */
  lemma DelayInRange(base: int, err: Failure)
    requires 0 <= base <= MAXIMUM_DELAY
    ensures base <= DelayAfter(base, err) <= MAXIMUM_DELAY
  {
  }

  /** The wait a server that asks for n seconds is owed, cut off at five seconds. */
  function Owed(base: int, n: nat): int {
    if n * SECOND > MAXIMUM_DELAY then MAXIMUM_DELAY else if n * SECOND > base then n * SECOND else base
  }

  /** Delay-seconds are honoured exactly when the product fits an int64, or wraps to
      something no shorter than five seconds, or the base delay is that long anyway. */
  lemma SecondsHonouredIff(base: int, status: int, n: nat)
    requires 0 <= base <= MAXIMUM_DELAY && n < TWO_63
    ensures DelayAfter(base, HTTPError(status, Seconds(n))) == Owed(base, n) <==>
              n * SECOND < TWO_63 || Wrap(n * SECOND) >= MAXIMUM_DELAY || base == MAXIMUM_DELAY
  {
    if n * SECOND < TWO_63 { assert Wrap(n * SECOND) == n * SECOND; }
  }

  /** A date is honoured up to five seconds; a negative number, a header that says neither, and
      an error that has none, get the base delay. */
  lemma OtherHeaders(base: int, status: int, ahead: int, n: int)
    requires 0 <= base <= MAXIMUM_DELAY
    ensures DelayAfter(base, HTTPError(status, Date(ahead))) ==
            if ahead <= base then base else if ahead <= MAXIMUM_DELAY then ahead else MAXIMUM_DELAY
    ensures DelayAfter(base, HTTPError(status, Unusable)) == DelayAfter(base, TransportError) == base
    ensures n < 0 ==> DelayAfter(base, HTTPError(status, Seconds(n))) == base
  {
  }

  /** Which errors are worth another attempt: a transport that fails, a server too busy or too
      slow, and the first five failures of its own but "not implemented". */
  lemma RetryableIff(err: Failure)
    ensures IsRetryable(err) <==>
              || err.TransportError?
              || (err.HTTPError? && (err.status == 408 || err.status == 429
                                     || (500 <= err.status <= 504 && err.status != 501)))
  {
  }

  /** The shortest delay that wraps: a server that asks for it gets the base delay. */
  lemma ShortestWrapIgnored(base: int)
    requires 0 <= base < MAXIMUM_DELAY
    ensures var n := TWO_63 / SECOND + 1;
      && (n - 1) * SECOND < TWO_63 <= n * SECOND
      && DelayAfter(base, HTTPError(503, Seconds(n))) == base != Owed(base, n)
  {
  }

  // ---------------------------------------------------------------- the loop

  type Key = nat       // an idempotency key; 0 for none

  // An answer may decode and still be no complete enrollment, client.go:405-416.
  datatype Reply = Answered(body: nat, complete: bool) | Failed(failure: Failure)

  datatype Attempt = Attempt(key: Key, reply: Reply)

  // A wait comes to its end, or the context ends first.
  datatype Wait = Wait(delay: int, ended: bool)

  /** What happened: the attempts in order and the waits between them. */
  datatype Exchange = Exchange(attempts: seq<Attempt>, waits: seq<Wait>)

  /** The other side, and the clock: they answer what they like. */
  class Server {
    ghost var seen: seq<Attempt>
    ghost var waited: seq<Wait>

    method Receive(key: Key) returns (reply: Reply)
      modifies this`seen
      ensures seen == old(seen) + [Attempt(key, reply)]
    {
      reply := *;
      seen := seen + [Attempt(key, reply)];
    }

    method Sleep(delay: int) returns (ended: bool)
      modifies this`waited
      ensures waited == old(waited) + [Wait(delay, ended)]
    {
      ended := *;
      waited := waited + [Wait(delay, ended)];
    }
  }

  datatype Answer = Body(body: nat, complete: bool) | Error(failure: Failure) | Interrupted    // a wait cut short

  /** Every attempt but the last failed with an error worth retrying, all carry the key, and
      between two attempts lies the delay of the first one, waited to its end. */
  ghost predicate Orderly(x: Exchange, key: Key, delays: seq<int>) {
    && |x.attempts| <= |delays| + 1 && |x.waits| <= |delays| && |x.attempts| - 1 <= |x.waits| <= |x.attempts|
    && (forall i :: 0 <= i < |x.attempts| ==> x.attempts[i].key == key)
    && (forall i :: 0 <= i < |x.waits| ==>
          && x.attempts[i].reply.Failed? && IsRetryable(x.attempts[i].reply.failure)
          && x.waits[i].delay == DelayAfter(delays[i], x.attempts[i].reply.failure)
          && (x.waits[i].ended <==> i + 1 < |x.attempts|))
  }

  class Client {
    const server: Server
    const retryDelays: seq<int>

    constructor (server: Server)
      ensures this.server == server && retryDelays == [SECOND / 4, SECOND / 2, SECOND]
    {
      this.server, retryDelays := server, [SECOND / 4, SECOND / 2, SECOND];
    }

    /** do, client.go:317-337. It gives up at the first error that is not worth a retry, at
        the last of the delays, or when a wait is cut short, and not before. */
    method Do(key: Key) returns (answer: Answer, ghost x: Exchange)
      modifies server
      ensures server.seen == old(server.seen) + x.attempts && server.waited == old(server.waited) + x.waits
      ensures x.attempts != [] && Orderly(x, key, retryDelays)
      ensures var last := x.attempts[|x.attempts| - 1].reply;
        match answer
        case Body(body, complete) => last == Answered(body, complete) && |x.waits| == |x.attempts| - 1
        case Error(failure) =>
          && last == Failed(failure) && |x.waits| == |x.attempts| - 1
          && (IsRetryable(failure) ==> |x.attempts| == |retryDelays| + 1)
        case Interrupted => |x.waits| == |x.attempts|
    {
      x := Exchange([], []);
      var attempt := 0;
      while true
        invariant 0 <= attempt <= |retryDelays| && |x.attempts| == |x.waits| == attempt
        invariant server.seen == old(server.seen) + x.attempts && server.waited == old(server.waited) + x.waits
        invariant forall i :: 0 <= i < attempt ==>
                    && x.attempts[i].key == key && x.attempts[i].reply.Failed?
                    && IsRetryable(x.attempts[i].reply.failure)
                    && x.waits[i] == Wait(DelayAfter(retryDelays[i], x.attempts[i].reply.failure), true)
        decreases |retryDelays| - attempt
      {
        var reply := server.Receive(key);
        x := x.(attempts := x.attempts + [Attempt(key, reply)]);
        if reply.Answered? { return Body(reply.body, reply.complete), x; }
        if attempt >= |retryDelays| || !IsRetryable(reply.failure) { return Error(reply.failure), x; }
        var delay := retryDelays[attempt];
        if reply.failure.HTTPError? {
          var asked := ParseRetryAfter(reply.failure.retryAfter);
          if asked > delay { delay := asked; }
        }
        if delay > MAXIMUM_DELAY { delay := MAXIMUM_DELAY; }
        var ended := server.Sleep(delay);
        x := x.(waits := x.waits + [Wait(delay, ended)]);
        if !ended { return Interrupted, x; }
        attempt := attempt + 1;
      }
    }

    /** Create, client.go:244-265. */
    method Create(intent: CreateIntent) returns (r: Created, ghost x: Exchange)
      requires intent.Valid()
      modifies server, intent
      ensures intent.Valid()
      ensures old(intent.complete) ==>
                r == NotSent(IntentComplete) && x.attempts == [] && server.seen == old(server.seen)
      ensures !old(intent.complete) && old(intent.inFlight) ==>
                r == NotSent(IntentInFlight) && x.attempts == [] && server.seen == old(server.seen)
      ensures old(intent.complete || intent.inFlight) ==>
                intent.complete == old(intent.complete) && intent.inFlight == old(intent.inFlight)
      ensures !old(intent.complete || intent.inFlight) ==>
                && server.seen == old(server.seen) + x.attempts && Orderly(x, intent.made, retryDelays)
                && !intent.inFlight && intent.complete == r.Enrolled? && x.attempts != []
                && r == match x.attempts[|x.attempts| - 1].reply
                        case Answered(body, true) => Enrolled(body)
                        case _ => NotEnrolled
    {
      x := Exchange([], []);
      var key, refusal := intent.Begin();
      if refusal.Some? { return NotSent(refusal.value), x; }
      var answer;
      answer, x := Do(key);
      r := if answer.Body? && answer.complete then Enrolled(answer.body) else NotEnrolled;
      intent.Finish(r.Enrolled?);
    }
  }

  datatype Created = Enrolled(body: nat) | NotEnrolled | NotSent(reason: Refusal)

  datatype Refusal = IntentComplete | IntentInFlight

  /** One intended room: one idempotency key for all its attempts, until it succeeded. */
  class CreateIntent {
    var key: Key
    var inFlight: bool
    var complete: bool
    ghost const made: Key

    ghost predicate Valid()
      reads this
    {
      made != 0 && key == (if complete then 0 else made) && (complete ==> !inFlight)
    }

    constructor (key: Key)
      requires key != 0
      ensures Valid() && !inFlight && !complete && made == key
    {
      this.key, inFlight, complete, made := key, false, false, key;
    }

    /** begin, client.go:185-199. */
    method Begin() returns (k: Key, refusal: Option<Refusal>)
      requires Valid()
      modifies this
      ensures Valid() && complete == old(complete)
      ensures refusal == if complete then Some(IntentComplete) else if old(inFlight) then Some(IntentInFlight) else None
      ensures if refusal.None? then k == made && inFlight else inFlight == old(inFlight)
    {
      if complete { return 0, Some(IntentComplete); }
      if inFlight { return 0, Some(IntentInFlight); }
      inFlight := true;
      return key, None;
    }

    /** finish, client.go:201-209. */
    method Finish(success: bool)
      requires Valid() && !complete
      modifies this
      ensures Valid() && !inFlight && complete == success
    {
      inFlight := false;
      if success { complete, key := true, 0; }
    }
  }

  /** Every wait of an exchange is between its base delay and five seconds. */
  lemma WaitsInRange(x: Exchange, key: Key, delays: seq<int>, i: nat)
    requires Orderly(x, key, delays) && i < |x.waits| && 0 <= delays[i] <= MAXIMUM_DELAY
    ensures delays[i] <= x.waits[i].delay <= MAXIMUM_DELAY
  {
    DelayInRange(delays[i], x.attempts[i].reply.failure);
  }
}
