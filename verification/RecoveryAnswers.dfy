/** What the monitor does about each thing it is told, and when it gives the stream up, as a
    function of what it was told. */
module RecoveryAnswers {
  import opened Outcomes
  import opened RecoveryMonitor

  /** The stream has ended: one of its channels is closed, or it reports an error. */
  predicate EndsStream(input: Input) { input.StreamClosed? || input == StreamError(false) }

  // The Status call that an input leads to, if any.
  function StatusOf(input: Input): Option<StatusReply> {
    match input
    case Polled(status) => Some(status)
    case EventIn(true, status) => Some(status)
    case _ => None
  }

  // The context is done, or was found done while something was sent or asked.
  predicate EndsWatch(input: Input) {
    || input.ContextDone? || (input.EventIn? && !input.sent)
    || (StatusOf(input).Some? && (StatusOf(input).value.Undelivered? || StatusOf(input).value == Failed(true)))
  }

  // ---------------------------------------------------------------- told so far

  /** Whether the last Status call failed. */
  predicate LastFailed(first: StatusReply, told: seq<Input>) {
    if told == [] then first.Failed? else
    match StatusOf(told[|told| - 1])
    case Some(status) => status.Failed?
    case None => LastFailed(first, told[..|told| - 1])
  }

  /** The ends of the stream since the last event, or since the stream was given up and a
      Status call succeeded where the last one had failed. */
  function Ends(first: StatusReply, told: seq<Input>, bound: nat): nat {
    if told == [] then 0 else
    var init, last := told[..|told| - 1], told[|told| - 1];
    if EndsStream(last) then Ends(first, init, bound) + 1
    else if last.EventIn? then 0
    else if last == Polled(Delivered) && Ends(first, init, bound) == bound && LastFailed(first, init) then 0
    else Ends(first, init, bound)
  }

  // ---------------------------------------------------------------- every input is acted on

  /** A Status call that succeeds with the stream given up, where the last one had failed. */
  predicate Recovers(w: Watch, input: Input) {
    input == Polled(Delivered) && w.streamExhausted && w.statusUnavailable
  }

  /** What each input leads to. */
  predicate Acts(a: Watch, input: Input, b: Watch, delays: seq<nat>) {
    var k := a.streamFailures;
    && (b.returned <==> EndsWatch(input))
    && (EndsStream(input) ==>
          && !b.live && b.streamFailures == k + 1
          && (k < |delays| ==> b.timer == Some(delays[k]) && !b.streamExhausted && b.log == a.log)
          && (k >= |delays| ==> b.streamExhausted && b.timer.None? && b.log == a.log + [GaveUp]))
    && (input == StreamError(true) ==> b == a)
    && (input.TimerFired? ==> b == a.(live := true, timer := None, log := a.log + [Subscribed]))
    && (input.EventIn? ==> b.streamFailures == 0 && a.log + [EventReceived] <= b.log)
    && (StatusOf(input).Some? ==>
          var seen := if input.EventIn? then [EventReceived] else [];
          var status := if StatusOf(input).value.Failed? then StatusDown(!a.statusUnavailable) else StatusUp;
          && b.statusUnavailable == StatusOf(input).value.Failed?
          && b.log == a.log + seen + [status] + if Recovers(a, input) then [Restarted, Subscribed] else [])
    && (Recovers(a, input) ==> b.live && b.streamFailures == 0 && !b.streamExhausted)
    && (input.Polled? && !Recovers(a, input) && !b.returned ==>
          b.live == a.live && b.timer == a.timer && b.streamFailures == k && b.streamExhausted == a.streamExhausted)
    && (input.EventIn? && !b.returned ==> b.live)
  }

  lemma StepActs(w: Watch, input: Input, delays: seq<nat>)
    requires Inv(w, delays) && Ready(w, input)
    ensures Acts(w, input, Step(w, input, delays), delays)
  {
    hide LogOk, Down, Opened;
    match input
    case Polled(status) => match status { case Failed(_) => case Undelivered => case Delivered => }
    case EventIn(sent, status) => match status { case Failed(_) => case Undelivered => case Delivered => }
    case _ =>
  }

  /** Whatever the select delivers is acted on: an end of the stream takes the subscription down
      and leads to a retry after the next delay, or, past the last delay, to giving up; a timer
      that fires subscribes; an event resets the count and a Status call follows it; a Status
      call is noted, and reported if it fails and the last one did not. */
  lemma EveryInputActsOn(w: seq<Watch>, first: StatusReply, inputs: seq<Input>, delays: seq<nat>, n: nat)
    requires IsWatch(w, first, inputs, delays) && n < |inputs|
    ensures Acts(w[n], inputs[n], w[n + 1], delays)
  {
    Along(w, first, inputs, delays, n);
    StepActs(w[n], inputs[n], delays);
    hide Acts, Inv, Step;
  }

  // ---------------------------------------------------------------- when it gives up

  lemma StepCounts(a: Watch, input: Input, b: Watch, first: StatusReply, told: seq<Input>, delays: seq<nat>)
    requires Inv(a, delays) && Ready(a, input) && Acts(a, input, b, delays)
    requires b == Step(a, input, delays)
    requires a.streamFailures == Ends(first, told, |delays| + 1) && a.statusUnavailable == LastFailed(first, told)
    ensures b.streamFailures == Ends(first, told + [input], |delays| + 1)
    ensures b.statusUnavailable == LastFailed(first, told + [input])
  {
    assert (told + [input])[..|told|] == told;
    hide LogOk, Down, Opened;
  }

  lemma {:induction false} CountAlong(w: seq<Watch>, first: StatusReply, inputs: seq<Input>, delays: seq<nat>, n: nat)
    requires IsWatch(w, first, inputs, delays) && n < |w|
    ensures w[n].streamFailures == Ends(first, inputs[..n], |delays| + 1)
    ensures w[n].statusUnavailable == LastFailed(first, inputs[..n])
  {
    if n > 0 {
      CountAlong(w, first, inputs, delays, n - 1);
      Along(w, first, inputs, delays, n - 1);
      EveryInputActsOn(w, first, inputs, delays, n - 1);
      StepCounts(w[n - 1], inputs[n - 1], w[n], first, inputs[..n - 1], delays);
      assert inputs[..n] == inputs[..n - 1] + [inputs[n - 1]];
      hide Step, Inv, Acts;
    }
  }

  /** The stream is given up exactly when it ends for the (|delays| + 1)-th time with no event
      and no restart between, and stays given up exactly until the restart. */
  lemma GivesUpIff(w: seq<Watch>, first: StatusReply, inputs: seq<Input>, delays: seq<nat>, n: nat)
    requires IsWatch(w, first, inputs, delays) && n < |w|
    ensures w[n].streamExhausted <==> Ends(first, inputs[..n], |delays| + 1) == |delays| + 1
    ensures n < |inputs| ==>
              (w[n + 1].log == w[n].log + [GaveUp] <==>
                 EndsStream(inputs[n]) && Ends(first, inputs[..n], |delays| + 1) == |delays|)
  {
    CountAlong(w, first, inputs, delays, n);
    Along(w, first, inputs, delays, n);
    if n < |inputs| {
      EveryInputActsOn(w, first, inputs, delays, n);
      GivenUpNoted(w[n], inputs[n], delays);
    }
    hide IsWatch, Step, Ends;
  }

  lemma GivenUpNoted(w: Watch, input: Input, delays: seq<nat>)
    requires Inv(w, delays) && Ready(w, input)
    ensures Step(w, input, delays).log == w.log + [GaveUp] <==> EndsStream(input) && w.streamFailures == |delays|
  {
    hide LogOk, Down, Opened;
    var b := Step(w, input, delays);
    match input
    case Polled(status) => assert b.log[|w.log|].StatusUp? || b.log[|w.log|].StatusDown?;
    case EventIn(sent, status) => assert b.log[|w.log|].EventReceived?;
    case TimerFired => assert b.log[|w.log|].Subscribed?;
    case _ =>
  }
}
