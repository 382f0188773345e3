/**
 * Runs of the receiver: every entry point arrives on the one handler queue, so a run is a
 * sequence of events applied one after the other, and its effect log is the concatenation of
 * the steps' effects.
 */
module Trace {
  import opened Options
  import opened JavaInt
  import opened Connectivity
  import opened Receiver
  import Backoff

  /** The events that reach the receiver, with the OS reading they observe where they read one. */
  datatype Event =
    | Broadcast(active: Option<NetKind>)        // onReceive
    | HostCheck(repeat: int32)                   // checkState(context, repeat)
    | HostCheckDefault                           // checkState(context)
    | TickRuns                                   // the handler runs the pending tick
    | ProbeTimeout                               // Ping_navigator.timeout
    | ProbeReplied(active: Option<NetKind>)      // Ping_navigator.replied
    | ProbeEnded                                 // Ping_navigator.ended
    | HostUnregister                             // unregister

  function Apply(s: State, e: Event): Step
  {
    match e
    case Broadcast(active) => OnReceive(s, active)
    case HostCheck(repeat) => CheckState(s, repeat)
    case HostCheckDefault => CheckStateDefault(s)
    case TickRuns => Tick(s)
    case ProbeTimeout => Timeout(s)
    case ProbeReplied(active) => Replied(s, active)
    case ProbeEnded => Ended(s)
    case HostUnregister => Unregister(s)
  }

  /**
   * Applies the events in order with the given step; the result is the final state and the
   * whole effect log.
   */
  function RunWith(step: (State, Event) -> Step, s: State, events: seq<Event>): Step
    decreases |events|
  {
    if events == [] then Step(s, [])
    else
      var first := step(s, events[0]);
      var rest := RunWith(step, first.state, events[1..]);
      Step(rest.state, first.effects + rest.effects)
  }

  /** A run of the receiver: its entry points applied in the order the handler queue delivers them. */
  function Run(s: State, events: seq<Event>): Step
  {
    RunWith(Apply, s, events)
  }

  /** The host's configuration is never changed by an event; a built template stays built. */
  ghost predicate SameConfig(s: State, t: State)
  {
    && t.navigatorSet == s.navigatorSet
    && t.notificationEnabled == s.notificationEnabled
    && (s.templateBuilt ==> t.templateBuilt)
  }

  lemma ApplyKeepsInvariant(s: State, e: Event)
    ensures Valid(s) ==> Valid(Apply(s, e).state)
    ensures SameConfig(s, Apply(s, e).state)
  {
  }

  lemma RunWithCons(step: (State, Event) -> Step, s: State, e: Event, rest: seq<Event>)
    ensures var first := step(s, e);
      var tail := RunWith(step, first.state, rest);
      RunWith(step, s, [e] + rest) == Step(tail.state, first.effects + tail.effects)
  {
    assert ([e] + rest)[0] == e;
    assert ([e] + rest)[1..] == rest;
  }

  lemma RunCons(s: State, e: Event, rest: seq<Event>)
    ensures var first := Apply(s, e);
      var tail := Run(first.state, rest);
      Run(s, [e] + rest) == Step(tail.state, first.effects + tail.effects)
  {
    RunWithCons(Apply, s, e, rest);
  }

  /**
   * Every run keeps the state well formed (a non-zero budget, a pending delay within the cap)
   * and leaves the host's configuration as it was.
   */
  lemma {:induction false} RunKeepsInvariant(s: State, events: seq<Event>)
    ensures Valid(s) ==> Valid(Run(s, events).state)
    ensures SameConfig(s, Run(s, events).state)
    decreases |events|
  {
    if events != [] {
      var first := Apply(s, events[0]);
      assert Run(s, events) == Step(Run(first.state, events[1..]).state, first.effects + Run(first.state, events[1..]).effects);
      ApplyKeepsInvariant(s, events[0]);
      RunKeepsInvariant(first.state, events[1..]);
    }
  }

  /**
   * Starting from the status `last`, every callback in the log reports a status different from
   * the one reported (or committed) before it: the host never hears the same news twice in a row.
   */
  predicate NoRepeatedNews(last: Option<Status>, effects: seq<Effect>)
    decreases |effects|
  {
    if effects == [] then true
    else
      match Reported(effects[0])
      case None => NoRepeatedNews(last, effects[1..])
      case Some(st) => Some(st) != last && NoRepeatedNews(Some(st), effects[1..])
  }

  /** The status reported by the log's last callback, or `last` when it has none. */
  function LastNews(last: Option<Status>, effects: seq<Effect>): Option<Status>
    decreases |effects|
  {
    if effects == [] then last
    else
      match Reported(effects[0])
      case None => LastNews(last, effects[1..])
      case Some(st) => LastNews(Some(st), effects[1..])
  }

  lemma {:induction false} NoRepeatedNewsAppend(last: Option<Status>, a: seq<Effect>, b: seq<Effect>)
    requires NoRepeatedNews(last, a)
    requires NoRepeatedNews(LastNews(last, a), b)
    ensures NoRepeatedNews(last, a + b)
    ensures LastNews(last, a + b) == LastNews(LastNews(last, a), b)
    decreases |a|
  {
    if a == [] {
      assert a + b == b;
    } else {
      assert (a + b)[0] == a[0];
      assert (a + b)[1..] == a[1..] + b;
      match Reported(a[0])
      case None => NoRepeatedNewsAppend(last, a[1..], b);
      case Some(st) => NoRepeatedNewsAppend(Some(st), a[1..], b);
    }
  }

  /** A log without callbacks carries no news. */
  lemma {:induction false} NoNews(last: Option<Status>, effects: seq<Effect>)
    requires forall i :: 0 <= i < |effects| ==> !IsCallback(effects[i])
    ensures NoRepeatedNews(last, effects) && LastNews(last, effects) == last
    decreases |effects|
  {
    if effects != [] {
      NoNews(last, effects[1..]);
    }
  }

  /** With a navigator set, a reconciliation's callback (if any) is news, and it is what it committed. */
  lemma ReconcileNewsMatchesCommit(s: State, proposed: Status, active: Option<NetKind>)
    requires s.navigatorSet
    ensures var r := DetectAndAct(s, proposed, active);
      NoRepeatedNews(s.lastState, r.effects) && LastNews(s.lastState, r.effects) == r.state.lastState
  {
    var r := DetectAndAct(s, proposed, active);
    if s.lastState != Some(proposed) {
      match proposed
      case Connected =>
        assert r.effects == [HideAlert, OnConnected(ConnectionType(active))];
        assert r.effects[1..][1..] == [];
        NoNews(Some(Connected), r.effects[1..][1..]);
      case Disconnected =>
        assert r.effects[0] == OnDisconnected;
        assert forall i :: 1 <= i < |r.effects| ==> !IsCallback(r.effects[i]);
        NoNews(Some(Disconnected), r.effects[1..]);
    }
  }

  /** With a navigator set, one step's callback (if any) is news, and it is what the step committed. */
  lemma StepNewsMatchesCommit(s: State, e: Event)
    requires s.navigatorSet
    ensures NoRepeatedNews(s.lastState, Apply(s, e).effects)
    ensures LastNews(s.lastState, Apply(s, e).effects) == Apply(s, e).state.lastState
  {
    match e
    case ProbeReplied(active) =>
      ReconcileNewsMatchesCommit(s, Connected, active);
    case ProbeTimeout =>
      ReconcileNewsMatchesCommit(s, Disconnected, None);
    case _ =>
      var r := Apply(s, e);
      assert r.state.lastState == s.lastState;
      NoNews(s.lastState, r.effects);
  }

  /**
   * While a navigator is set, the callbacks of any run alternate between connected and
   * disconnected, starting from the committed status, and the last one always agrees with the
   * status committed at the end: no callback is ever fired twice for the same news.
   */
  lemma {:induction false} CallbacksAlternate(s: State, events: seq<Event>)
    requires s.navigatorSet
    ensures NoRepeatedNews(s.lastState, Run(s, events).effects)
    ensures LastNews(s.lastState, Run(s, events).effects) == Run(s, events).state.lastState
    decreases |events|
  {
    if events != [] {
      var first := Apply(s, events[0]);
      ApplyKeepsInvariant(s, events[0]);
      StepNewsMatchesCommit(s, events[0]);
      CallbacksAlternate(first.state, events[1..]);
      assert Run(s, events) == Step(Run(first.state, events[1..]).state, first.effects + Run(first.state, events[1..]).effects);
      NoRepeatedNewsAppend(s.lastState, first.effects, Run(first.state, events[1..]).effects);
    }
  }

  /** Running two event sequences one after the other is running their concatenation. */
  lemma {:induction false} RunWithAppend(step: (State, Event) -> Step, s: State, a: seq<Event>, b: seq<Event>)
    ensures var first := RunWith(step, s, a);
      var second := RunWith(step, first.state, b);
      RunWith(step, s, a + b) == Step(second.state, first.effects + second.effects)
    decreases |a|
  {
    if a == [] {
      assert a + b == b;
    } else {
      var next := step(s, a[0]);
      RunWithAppend(step, next.state, a[1..], b);
      assert (a + b)[0] == a[0];
      assert (a + b)[1..] == a[1..] + b;
      var first := RunWith(step, next.state, a[1..]);
      var second := RunWith(step, first.state, b);
      assert next.effects + (first.effects + second.effects)
          == (next.effects + first.effects) + second.effects;
    }
  }

  /** A fresh cycle with a budget of 4 spends it on three ended attempts, backing off 20, 80, 180 ms. */
  lemma BudgetFourBacksOff(s: State)
    requires s.counter == 0
    ensures var r := Run(s, [HostCheck(4), ProbeEnded, ProbeEnded, ProbeEnded]);
      && r.effects == [Schedule(0), Schedule(20), Schedule(80), Schedule(180)]
      && r.state.counter == 3 && r.state.repeat == 1
      && r.state.lastState == s.lastState
  {
    var s1 := CheckState(s, 4).state;
    var s2 := Ended(s1).state;
    var s3 := Ended(s2).state;
    var s4 := Ended(s3).state;
    assert s1.counter == 0 && s1.repeat == 4;
    assert s2.counter == 1 && s2.repeat == 3;
    assert s3.counter == 2 && s3.repeat == 2;
    assert s4.counter == 3 && s4.repeat == 1;
    Backoff.DelaySamples();
    RunCons(s3, ProbeEnded, []);
    RunCons(s2, ProbeEnded, [ProbeEnded]);
    RunCons(s1, ProbeEnded, [ProbeEnded, ProbeEnded]);
    RunCons(s, HostCheck(4), [ProbeEnded, ProbeEnded, ProbeEnded]);
    assert [HostCheck(4)] + [ProbeEnded, ProbeEnded, ProbeEnded]
        == [HostCheck(4), ProbeEnded, ProbeEnded, ProbeEnded];
  }

  /** A timeout after a run adds the timeout's step to the run's end. */
  lemma RunThenTimeout(s: State, events: seq<Event>)
    ensures var before := Run(s, events);
      var last := Timeout(before.state);
      Run(s, events + [ProbeTimeout]) == Step(last.state, before.effects + last.effects)
  {
    var before := Run(s, events);
    var last := Timeout(before.state);
    RunWithAppend(Apply, s, events, [ProbeTimeout]);
    RunCons(before.state, ProbeTimeout, []);
    assert [ProbeTimeout] + [] == [ProbeTimeout];
    assert last.effects + [] == last.effects;
  }

  /** The timeout of the last attempt reports a committed connection as lost, exactly once. */
  lemma LastAttemptTimeoutDisconnects(s: State)
    requires s.navigatorSet && s.repeat == 1 && s.lastState == Some(Connected)
    ensures var r := Timeout(s);
      && r.effects[0] == OnDisconnected
      && CallbackCount(r.effects) == 1
      && r.state.lastState == Some(Disconnected)
      && r.state.counter == 0
  {
    DetectAndActFiresOnce(s, Disconnected, None);
  }

  /**
   * A cycle started with a budget of 4 from a fresh counter: three attempts end without a
   * verdict and reschedule after 20, 80 and 180 ms, and the fourth attempt's timeout is the
   * one that reports the disconnect, exactly once.
   */
  lemma FourAttemptDisconnect(s: State)
    requires s.navigatorSet && s.counter == 0 && s.lastState == Some(Connected)
    ensures var r := Run(s, [HostCheck(4), ProbeEnded, ProbeEnded, ProbeEnded, ProbeTimeout]);
      && |r.effects| > 4
      && r.effects[..4] == [Schedule(0), Schedule(20), Schedule(80), Schedule(180)]
      && r.effects[4] == OnDisconnected
      && CallbackCount(r.effects) == 1
      && r.state.lastState == Some(Disconnected)
      && r.state.counter == 0
  {
    var attempts := [HostCheck(4), ProbeEnded, ProbeEnded, ProbeEnded];
    var prefix := [Schedule(0), Schedule(20), Schedule(80), Schedule(180)];
    BudgetFourBacksOff(s);
    var s4 := Run(s, attempts).state;
    LastAttemptTimeoutDisconnects(s4);
    RunThenTimeout(s, attempts);
    assert attempts + [ProbeTimeout] == [HostCheck(4), ProbeEnded, ProbeEnded, ProbeEnded, ProbeTimeout];
    CallbackCountAppend(prefix, Timeout(s4).effects);
  }

  /**
   * With the default budget of 1 there is no retry: the first timeout is already the
   * authoritative one and reports the disconnect.
   */
  lemma DefaultBudgetHasNoRetry(s: State)
    requires s.navigatorSet && s.repeat == 1 && s.lastState == Some(Connected)
    ensures var r := Run(s, [HostCheckDefault, TickRuns, ProbeTimeout]);
      && r.state.lastState == Some(Disconnected)
      && OnDisconnected in r.effects
  {
    var s1 := CheckStateDefault(s).state;
    var s2 := Tick(s1).state;
    assert s2.repeat == 1;
    assert Timeout(s2).effects[0] == OnDisconnected;
  }

  /**
   * Reconnecting while disconnected: one reply commits connected, hides the alert, reports the
   * OS connection type once, resets the counter and leaves the budget at 1.
   */
  lemma ReconnectOnReply(s: State, active: Option<NetKind>)
    requires s.navigatorSet && s.lastState == Some(Disconnected)
    ensures var r := Run(s, [ProbeReplied(active)]);
      && r.effects == [HideAlert, OnConnected(ConnectionType(active))]
      && r.state.lastState == Some(Connected)
      && r.state.counter == 0 && r.state.repeat == 1
  {
    RunCons(s, ProbeReplied(active), []);
    assert [ProbeReplied(active)] + [] == [ProbeReplied(active)];
    assert Replied(s, active).effects + [] == Replied(s, active).effects;
  }

}
