/** The recovery monitor (client/internal/netbird/monitor.go): one subscription to the
    daemon's events at a time, a bounded number of attempts to renew it, and a status poll. */
module RecoveryMonitor {
  import opened Outcomes
  import opened DaemonStatus
  import opened LocalDaemon
  import opened ManagedProfiles

  // ---------------------------------------------------------------- what select can deliver

  // One Status call: the snapshot went out; the context ended while it was sent; it failed.
  datatype StatusReply = Delivered | Undelivered | Failed(contextDone: bool)

  datatype Input =
    | ContextDone
    | Polled(status: StatusReply)
    | TimerFired
    | EventIn(sent: bool, status: StatusReply)
    | StreamClosed                     // either channel closed
    | StreamError(isNil: bool)

  // What the monitor does and sees, in order.
  datatype Note =
    | Subscribed
    | EventReceived
    | StatusUp
    | StatusDown(reported: bool)
    | GaveUp                           // the stream is exhausted, and this is reported
    | Restarted                        // the count of failures starts again

  /** The variables of watch. `timer` is the delay of the pending retry, `live` says that
      there is a subscription not cancelled. */
  datatype Watch = Watch(
    live: bool, timer: Option<nat>, streamFailures: nat, streamExhausted: bool, statusUnavailable: bool,
    returned: bool, log: seq<Note>)

  // ---------------------------------------------------------------- the steps

  function Subscribe(w: Watch): Watch {
    w.(live := true, log := w.log + [Subscribed])
  }

  /** emitStatus, monitor.go:131-151, and the return of its callers once the context is done. */
  function EmitStatus(w: Watch, status: StatusReply): Watch {
    match status
    case Failed(done) =>
      w.(statusUnavailable := true, returned := done, log := w.log + [StatusDown(!w.statusUnavailable)])
    case Undelivered => w.(statusUnavailable := false, returned := true, log := w.log + [StatusUp])
    case Delivered =>
      var up := w.(statusUnavailable := false, log := w.log + [StatusUp]);
      if w.streamExhausted && w.statusUnavailable
      then Subscribe(up.(streamFailures := 0, streamExhausted := false, log := up.log + [Restarted]))
      else up
  }

  /** scheduleStreamRecovery, monitor.go:153-171. */
  function ScheduleRecovery(w: Watch, delays: seq<nat>): Watch {
    var n := w.streamFailures + 1;
    if n > |delays| then w.(live := false, streamFailures := n, streamExhausted := true, log := w.log + [GaveUp])
    else w.(live := false, streamFailures := n, timer := Some(delays[n - 1]))
  }

  function Start(status: StatusReply): Watch {
    Closing(EmitStatus(Subscribe(Watch(false, None, 0, false, false, false, [])), status))
  }

  // The deferred cancel and Stop.
  function Closing(w: Watch): Watch {
    if w.returned then w.(live := false, timer := None) else w
  }

  /** A select only picks a timer that runs and a channel that is not nil. */
  predicate Ready(w: Watch, input: Input) {
    !w.returned &&
    match input
    case ContextDone | Polled(_) => true
    case TimerFired => w.timer.Some?
    case EventIn(_, _) | StreamClosed | StreamError(_) => w.live
  }

  /** One round of the loop, monitor.go:178-211. */
  function Step(w: Watch, input: Input, delays: seq<nat>): Watch
    requires Ready(w, input)
  {
    Closing(
      match input
      case ContextDone => w.(returned := true)
      case Polled(status) => EmitStatus(w, status)
      case TimerFired => Subscribe(w.(timer := None))
      case EventIn(sent, status) =>
        var seen := w.(streamFailures := 0, log := w.log + [EventReceived]);
        if sent then EmitStatus(seen, status) else seen.(returned := true)
      case StreamClosed => ScheduleRecovery(w, delays)
      case StreamError(isNil) => if isNil then w else ScheduleRecovery(w, delays))
  }

  ghost predicate IsWatch(w: seq<Watch>, first: StatusReply, inputs: seq<Input>, delays: seq<nat>) {
    && |w| == |inputs| + 1 && w[0] == Start(first)
    && forall i :: 0 <= i < |inputs| ==> Ready(w[i], inputs[i]) && w[i + 1] == Step(w[i], inputs[i], delays)
  }

  // ---------------------------------------------------------------- the code

  class Monitor {
    const netbird: RPCAdapter
    const retryDelays: seq<nat>
    var live: bool
    var timer: Option<nat>
    var streamFailures: nat
    var streamExhausted: bool
    var statusUnavailable: bool
    ghost var log: seq<Note>

    constructor (netbird: RPCAdapter, retryDelays: seq<nat>)
      ensures this.netbird == netbird && this.retryDelays == retryDelays
    {
      this.netbird, this.retryDelays := netbird, retryDelays;
    }

    ghost function Now(returned: bool): Watch
      reads this
    {
      Watch(live, timer, streamFailures, streamExhausted, statusUnavailable, returned, log)
    }

    method StartSubscription()
      modifies this
      ensures Now(false) == Subscribe(old(Now(false)))
    {
      live := true;
      log := log + [Subscribed];
    }

    method EmitStatusNow(status: StatusReply) returns (quit: bool)
      modifies this
      ensures Now(quit) == EmitStatus(old(Now(false)), status)
    {
      var wasUnavailable := statusUnavailable;
      if status.Failed? {
        log := log + [StatusDown(!statusUnavailable)];
        statusUnavailable := true;
        return status.contextDone;
      }
      statusUnavailable := false;
      log := log + [StatusUp];
      if status.Undelivered? { return true; }
      if streamExhausted && wasUnavailable {
        streamFailures, streamExhausted := 0, false;
        log := log + [Restarted];
        StartSubscription();
      }
      return false;
    }

    method ScheduleStreamRecovery()
      modifies this
      ensures Now(false) == ScheduleRecovery(old(Now(false)), retryDelays)
    {
      live := false;
      streamFailures := streamFailures + 1;
      if streamFailures > |retryDelays| {
        streamExhausted := true;
        log := log + [GaveUp];
        return;
      }
      timer := Some(retryDelays[streamFailures - 1]);
    }

    /** watch, monitor.go:96-212, over whatever the select delivers, the context's end last. */
    method Run(first: StatusReply, inputs: seq<Input>, ghost w: seq<Watch>)
      requires IsWatch(w, first, inputs, retryDelays) && w[|inputs|].returned
      modifies this
      ensures Now(true) == w[|inputs|]
      ensures !live && timer.None?
    {
      live, timer, streamFailures, streamExhausted, statusUnavailable, log := false, None, 0, false, false, [];
      StartSubscription();
      var quit := EmitStatusNow(first);
      var i := 0;
      while !quit && i < |inputs|
        invariant 0 <= i <= |inputs|
        invariant Closing(Now(quit)) == w[i]
        invariant quit ==> i == |inputs|
        decreases |inputs| - i
      {
        match inputs[i] {
          case ContextDone => quit := true;
          case Polled(status) => quit := EmitStatusNow(status);
          case TimerFired =>
            timer := None;
            StartSubscription();
          case EventIn(sent, status) =>
            streamFailures := 0;
            log := log + [EventReceived];
            if sent { quit := EmitStatusNow(status); } else { quit := true; }
          case StreamClosed => ScheduleStreamRecovery();
          case StreamError(isNil) => if !isNil { ScheduleStreamRecovery(); }
        }
        i := i + 1;
        assert i < |inputs| ==> Ready(w[i], inputs[i]);
      }
      live, timer := false, None;
    }

    /** Resume, monitor.go:71-94: one attempt more than there are delays, unless one
        succeeds or a wait is cut short. `waits` is what happened to each wait. */
    method Resume(p: ProfileId, waits: seq<bool>) returns (r: Resumed, ghost attempts: nat)
      requires netbird.client.State().Valid() && |waits| == |retryDelays|
      modifies netbird.client`active, netbird.client`up, netbird.client`calls, netbird.client`faults
      modifies netbird.client`told
      ensures netbird.client.calls >= old(netbird.client.calls) && netbird.client.faults >= old(netbird.client.faults)
      ensures r.Resumed? ==> Reads(r.snapshot, netbird.client.told)
      ensures netbird.client.active in {old(netbird.client.active), p}
      ensures netbird.client.up in {old(netbird.client.up), Some(p)}
      ensures r.Resumed? ==> netbird.client.up == Some(p)
      ensures netbird.client.State().Valid() && attempts <= |retryDelays| + 1
      ensures r.Exhausted? ==> attempts == r.attempts == |retryDelays| + 1
      ensures r.Cancelled? ==> exists k :: 0 <= k < |waits| && !waits[k] && attempts == k + 1
      ensures r.Resumed? ==> p in netbird.client.named
      ensures netbird.client.faults == old(netbird.client.faults) && p in netbird.client.named ==>
                r.Resumed? && attempts == 1
    {
      attempts := 0;
      for attempt := 0 to |retryDelays| + 1
        invariant attempts == attempt
        invariant netbird.client.calls >= old(netbird.client.calls)
        invariant netbird.client.faults >= old(netbird.client.faults)
        invariant attempt > 0 && p in netbird.client.named ==> netbird.client.faults > old(netbird.client.faults)
        invariant netbird.client.active in {old(netbird.client.active), p}
        invariant netbird.client.up in {old(netbird.client.up), Some(p)}
        invariant netbird.client.State().Valid()
      {
        if attempt > 0 && !waits[attempt - 1] { return Cancelled, attempts; }
        attempts := attempts + 1;
        var err, q := netbird.Connect(p);
        if err { continue; }
        var snapshot, err' := netbird.Status();
        if !err' { return Resumed(snapshot), attempts; }
      }
      return Exhausted(|retryDelays| + 1), attempts;
    }
  }

  datatype Resumed = Resumed(snapshot: Snapshot) | Cancelled | Exhausted(attempts: nat)

  // ---------------------------------------------------------------- what the log says

  predicate Breaks(n: Note) { n.EventReceived? || n.Restarted? }

  /** Subscriptions opened since the last event or restart. */
  function Opened(log: seq<Note>): nat {
    if log == [] then 0
    else match log[|log| - 1]
      case Subscribed => Opened(log[..|log| - 1]) + 1
      case EventReceived | Restarted => 0
      case _ => Opened(log[..|log| - 1])
  }

  function Subscriptions(log: seq<Note>): nat {
    if log == [] then 0
    else Subscriptions(log[..|log| - 1]) + if log[|log| - 1].Subscribed? then 1 else 0
  }

  /** Whether the last Status call failed. */
  function Down(log: seq<Note>): bool {
    if log == [] then false
    else match log[|log| - 1]
      case StatusUp => false
      case StatusDown(_) => true
      case _ => Down(log[..|log| - 1])
  }

  /** Whether the stream was given up and not restarted since. */
  function Exhausted(log: seq<Note>): bool {
    if log == [] then false
    else match log[|log| - 1]
      case GaveUp => true
      case Restarted => false
      case _ => Exhausted(log[..|log| - 1])
  }

  /** What one note may follow. */
  predicate Follows(log: seq<Note>, n: Note, bound: nat) {
    match n
    case Subscribed => Opened(log) < bound && !Exhausted(log)
    case StatusDown(reported) => reported == !Down(log)
    case Restarted => Exhausted(log) && log != [] && log[|log| - 1].StatusUp? && Down(log[..|log| - 1])
    case _ => true
  }

  ghost predicate LogOk(log: seq<Note>, bound: nat) {
    forall i :: 0 <= i < |log| ==> Follows(log[..i], log[i], bound)
  }

  lemma Noted(log: seq<Note>, n: Note, bound: nat)
    requires LogOk(log, bound) && Follows(log, n, bound)
    ensures LogOk(log + [n], bound)
    ensures Down(log + [n]) == (if n.StatusUp? then false else if n.StatusDown? then true else Down(log))
    ensures Exhausted(log + [n]) == (if n.GaveUp? then true else if n.Restarted? then false else Exhausted(log))
    ensures Opened(log + [n]) == (if n.Subscribed? then Opened(log) + 1 else if Breaks(n) then 0 else Opened(log))
  {
    var more := log + [n];
    assert more[..|log|] == log;
    forall i | 0 <= i < |more| ensures Follows(more[..i], more[i], bound) {
      if i < |log| { assert more[..i] == log[..i]; }
    }
  }

  // ---------------------------------------------------------------- the invariant

  /** Exactly one of a live subscription, a pending retry and an exhausted stream; nothing
      once it has returned. */
  ghost predicate Inv(w: Watch, delays: seq<nat>) {
    && (w.returned ==> !w.live && w.timer.None?)
    && (!w.returned ==> Bit(w.live) + Bit(w.timer.Some?) + Bit(w.streamExhausted) == 1)
    && (w.streamExhausted <==> w.streamFailures > |delays|) && w.streamFailures <= |delays| + 1
    && (w.timer.Some? ==> 1 <= w.streamFailures && w.timer.value == delays[w.streamFailures - 1])
    && w.statusUnavailable == Down(w.log) && w.streamExhausted == Exhausted(w.log)
    && Opened(w.log) <= w.streamFailures + 1 && (!w.live && !w.returned ==> Opened(w.log) <= w.streamFailures)
    && LogOk(w.log, |delays| + 1)
  }

  lemma EmitKeeps(w: Watch, status: StatusReply, delays: seq<nat>)
    requires Inv(w, delays) && !w.returned
    ensures Inv(Closing(EmitStatus(w, status)), delays)
  {
    hide Down, Exhausted, Opened, LogOk;
    match status
    case Failed(_) =>
      Noted(w.log, StatusDown(!w.statusUnavailable), |delays| + 1);
    case Undelivered => UpNoted(w.log, |delays| + 1);
    case Delivered =>
      UpNoted(w.log, |delays| + 1);
      if w.streamExhausted && w.statusUnavailable { Recovered(w.log, |delays| + 1); }
  }

  lemma UpNoted(log: seq<Note>, bound: nat)
    requires LogOk(log, bound)
    ensures LogOk(log + [StatusUp], bound) && !Down(log + [StatusUp])
    ensures Exhausted(log + [StatusUp]) == Exhausted(log) && Opened(log + [StatusUp]) == Opened(log)
  {
    Noted(log, StatusUp, bound);
  }

  lemma Recovered(log: seq<Note>, bound: nat)
    requires LogOk(log, bound) && Down(log) && Exhausted(log) && bound > 0
    ensures var after := log + [StatusUp] + [Restarted] + [Subscribed];
      LogOk(after, bound) && !Down(after) && !Exhausted(after) && Opened(after) == 1
  {
    UpNoted(log, bound);
    var up := log + [StatusUp];
    assert up[..|up| - 1] == log;
    hide LogOk, Down, Exhausted, Opened;
    Noted(up, Restarted, bound);
    Noted(up + [Restarted], Subscribed, bound);
  }

  lemma ScheduleKeeps(w: Watch, delays: seq<nat>)
    requires Inv(w, delays) && w.live && !w.returned
    ensures Inv(Closing(ScheduleRecovery(w, delays)), delays)
  {
    if w.streamFailures + 1 > |delays| { Noted(w.log, GaveUp, |delays| + 1); }
  }

  lemma EventKeeps(w: Watch, sent: bool, status: StatusReply, delays: seq<nat>)
    requires Inv(w, delays) && w.live && !w.returned
    ensures Inv(Step(w, EventIn(sent, status), delays), delays)
  {
    var seen := w.(streamFailures := 0, log := w.log + [EventReceived]);
    SeenKeeps(w, delays);
    hide LogOk, EmitStatus, Down, Exhausted, Opened;
    if sent { EmitKeeps(seen, status, delays); }
  }

  lemma SeenKeeps(w: Watch, delays: seq<nat>)
    requires Inv(w, delays) && w.live && !w.returned
    ensures Inv(w.(streamFailures := 0, log := w.log + [EventReceived]), delays)
  {
    Noted(w.log, EventReceived, |delays| + 1);
    hide LogOk, Down, Exhausted, Opened;
  }

  lemma TimerKeeps(w: Watch, delays: seq<nat>)
    requires Inv(w, delays) && Ready(w, TimerFired)
    ensures Inv(Step(w, TimerFired, delays), delays)
  {
    hide LogOk, Down, Exhausted, Opened, EmitStatus, ScheduleRecovery;
    Noted(w.log, Subscribed, |delays| + 1);
  }

  lemma DoneKeeps(w: Watch, delays: seq<nat>)
    requires Inv(w, delays) && Ready(w, ContextDone)
    ensures Inv(Step(w, ContextDone, delays), delays)
  {
    hide LogOk, Down, Exhausted, Opened;
  }

  lemma StepKeeps(w: Watch, input: Input, delays: seq<nat>)
    requires Inv(w, delays) && Ready(w, input)
    ensures Inv(Step(w, input, delays), delays)
  {
    hide Inv, EmitStatus, ScheduleRecovery, Subscribe;
    match input
    case Polled(status) => EmitKeeps(w, status, delays);
    case TimerFired => TimerKeeps(w, delays);
    case EventIn(sent, status) => EventKeeps(w, sent, status, delays);
    case StreamClosed => ScheduleKeeps(w, delays);
    case StreamError(isNil) => if !isNil { ScheduleKeeps(w, delays); }
    case ContextDone => DoneKeeps(w, delays);
  }

  lemma {:induction false} Along(w: seq<Watch>, first: StatusReply, inputs: seq<Input>, delays: seq<nat>, n: nat)
    requires IsWatch(w, first, inputs, delays) && n < |w|
    ensures Inv(w[n], delays)
  {
    if n == 0 {
      Noted([], Subscribed, |delays| + 1);
      assert [] + [Subscribed] == [Subscribed];
      EmitKeeps(Subscribe(Watch(false, None, 0, false, false, false, [])), first, delays);
    } else {
      Along(w, first, inputs, delays, n - 1);
      StepKeeps(w[n - 1], inputs[n - 1], delays);
    }
  }

  /** At the head of every round: one of a live subscription, a retry pending with a delay
      from the table, and an exhausted stream; exhausted exactly after more failures in a
      row than there are delays. And nothing survives the return. */
  lemma OneOfThree(w: seq<Watch>, first: StatusReply, inputs: seq<Input>, delays: seq<nat>, n: nat)
    requires IsWatch(w, first, inputs, delays) && n < |w|
    ensures w[n].returned ==> !w[n].live && w[n].timer.None?
    ensures !w[n].returned ==>
              && (w[n].live || w[n].timer.Some? || w[n].streamExhausted)
              && !(w[n].live && w[n].timer.Some?) && !(w[n].live && w[n].streamExhausted)
              && !(w[n].timer.Some? && w[n].streamExhausted)
    ensures w[n].streamExhausted <==> w[n].streamFailures > |delays|
    ensures w[n].timer.Some? ==>
              1 <= w[n].streamFailures <= |delays| && w[n].timer.value == delays[w[n].streamFailures - 1]
  {
    Along(w, first, inputs, delays, n);
  }

  lemma LogAlong(w: seq<Watch>, first: StatusReply, inputs: seq<Input>, delays: seq<nat>, n: nat)
    requires IsWatch(w, first, inputs, delays) && n < |w|
    ensures LogOk(w[n].log, |delays| + 1)
  {
    Along(w, first, inputs, delays, n);
  }

  // ---------------------------------------------------------------- bounded retries

  lemma {:induction false} WindowWithinStreak(log: seq<Note>, i: nat)
    requires i <= |log| && forall k :: i <= k < |log| ==> !Breaks(log[k])
    ensures Subscriptions(log[i..]) <= Opened(log)
    decreases |log| - i
  {
    if i < |log| {
      var init := log[..|log| - 1];
      WindowWithinStreak(init, i);
      assert log[i..][..|log[i..]| - 1] == init[i..];
    }
  }

  lemma OpenedBounded(log: seq<Note>, bound: nat, j: nat)
    requires LogOk(log, bound) && j <= |log|
    ensures Opened(log[..j]) <= bound
    decreases j
  {
    if j > 0 {
      OpenedBounded(log, bound, j - 1);
      assert Follows(log[..j - 1], log[j - 1], bound);
      assert log[..j][..j - 1] == log[..j - 1];
    }
  }

  /** In any stretch of the log in which no event arrives and the count does not restart,
      at most one subscription more than there are delays is opened. */
  lemma BoundedRetries(w: seq<Watch>, first: StatusReply, inputs: seq<Input>, delays: seq<nat>, n: nat, i: nat, j: nat)
    requires IsWatch(w, first, inputs, delays) && n < |w| && i <= j <= |w[n].log|
    requires forall k :: i <= k < j ==> !Breaks(w[n].log[k])
    ensures Subscriptions(w[n].log[i..j]) <= |delays| + 1
  {
    hide IsWatch;
    LogAlong(w, first, inputs, delays, n);
    var upTo := w[n].log[..j];
    WindowWithinStreak(upTo, i);
    assert upTo[i..] == w[n].log[i..j];
    OpenedBounded(w[n].log, |delays| + 1, j);
  }

  // ---------------------------------------------------------------- after exhaustion

  lemma {:induction false} StillExhausted(log: seq<Note>, g: nat)
    requires g < |log| && log[g].GaveUp? && forall k :: g < k < |log| ==> !log[k].Restarted?
    ensures Exhausted(log)
    decreases |log|
  {
    if g < |log| - 1 { StillExhausted(log[..|log| - 1], g); }
  }

  lemma RestartBetween(log: seq<Note>, bound: nat, g: nat, k: nat)
    requires LogOk(log, bound) && g < k < |log| && log[g].GaveUp? && log[k].Subscribed?
    ensures exists r :: g < r < k && log[r].Restarted?
  {
    assert Follows(log[..k], log[k], bound);
    if forall r :: g < r < k ==> !log[r].Restarted? { StillExhausted(log[..k], g); }
  }

  lemma RestartFollows(log: seq<Note>, bound: nat, r: nat)
    requires LogOk(log, bound) && r < |log| && log[r].Restarted?
    ensures 0 < r && log[r - 1].StatusUp? && Down(log[..r - 1])
  {
    assert Follows(log[..r], log[r], bound);
    assert log[..r][..r - 1] == log[..r - 1];
  }

  /** Once the stream was given up, a subscription is opened again only after a restart,
      and a restart comes right after a Status call that succeeded where the last one,
      with no success between, had failed. */
  lemma ResubscribesOnRecovery(
    w: seq<Watch>, first: StatusReply, inputs: seq<Input>, delays: seq<nat>, n: nat, g: nat, k: nat)
    requires IsWatch(w, first, inputs, delays) && n < |w| && g < k < |w[n].log|
    requires w[n].log[g].GaveUp? && w[n].log[k].Subscribed?
    ensures exists r :: g < r < k && w[n].log[r].Restarted? && w[n].log[r - 1].StatusUp? && Down(w[n].log[..r - 1])
  {
    hide IsWatch, LogOk, Down;
    LogAlong(w, first, inputs, delays, n);
    var log := w[n].log;
    RestartBetween(log, |delays| + 1, g, k);
    var r :| g < r < k && log[r].Restarted?;
    RestartFollows(log, |delays| + 1, r);
  }

  lemma {:induction false} StillDown(log: seq<Note>, i: nat)
    requires i < |log| && log[i].StatusDown? && forall k :: i < k < |log| ==> !log[k].StatusUp?
    ensures Down(log)
    decreases |log|
  {
    if i < |log| - 1 { StillDown(log[..|log| - 1], i); }
  }

  /** A failed Status call is reported unless the last one failed too: between two reports
      there is a success. */
  lemma ReportsSeparated(w: seq<Watch>, first: StatusReply, inputs: seq<Input>, delays: seq<nat>, n: nat, i: nat,
                         j: nat)
    requires IsWatch(w, first, inputs, delays) && n < |w| && i < j < |w[n].log|
    requires w[n].log[i] == StatusDown(true) && w[n].log[j] == StatusDown(true)
    ensures exists k :: i < k < j && w[n].log[k].StatusUp?
  {
    hide IsWatch;
    LogAlong(w, first, inputs, delays, n);
    var log := w[n].log;
    assert Follows(log[..j], log[j], |delays| + 1);
    if forall k :: i < k < j ==> !log[k].StatusUp? { StillDown(log[..j], i); }
  }
}
