/**
 * The connectivity state machine of `NetworkChangeReceiver`: one immutable record holds what the
 * Java class keeps in static fields, and each entry point is a step that returns the new record
 * together with the side effects it performs, in order.
 */
module Receiver {
  import opened Options
  import opened JavaInt
  import opened Connectivity
  import Backoff

  /** The observable side effects of a step. */
  datatype Effect =
    | HideAlert                         // cancel the "connection lost" notification
    | ShowAlert                         // post the "connection lost" notification
    | BuildTemplate                     // lazily build the notification template
    | OnConnected(connectionType: int)  // host callback
    | OnDisconnected                    // host callback
    | Schedule(delay: int)              // post the probe tick after `delay` ms

  /**
   * The receiver's process-wide state. `pending` is the one probe tick posted on the handler
   * queue, by its delay; `templateBuilt`, `navigatorSet` and `notificationEnabled` are the
   * host's configuration (the notification builder, the UI navigator and the enable flag).
   */
  datatype State = State(
    lastState: Option<Status>,
    counter: int32,
    repeat: int32,
    pending: Option<int>,
    templateBuilt: bool,
    navigatorSet: bool,
    notificationEnabled: bool)

  /** The outcome of one step: the new state and the effects performed, first to last. */
  datatype Step = Step(state: State, effects: seq<Effect>)

  /** The repeat budget a broadcast restarts the probe cycle with. */
  const BROADCAST_REPEAT: int32 := 4

  /** The state fields hold what the source keeps in them between entry points. */
  ghost predicate Valid(s: State)
  {
    && s.repeat != 0
    && (s.pending.Some? ==> 0 <= s.pending.value <= Backoff.MAX_DELAY_MS)
  }

  /** The state at class load: nothing committed yet, counter 0, repeat 1, nothing scheduled. */
  function Initial(templateBuilt: bool, navigatorSet: bool, notificationEnabled: bool): State
  {
    State(None, 0, 1, None, templateBuilt, navigatorSet, notificationEnabled)
  }

  /** The status a host callback reports, or `None` when the effect is not a callback. */
  function Reported(e: Effect): Option<Status>
  {
    match e
    case OnConnected(_) => Some(Connected)
    case OnDisconnected => Some(Disconnected)
    case _ => None
  }

  /** True when the effect is a host callback. */
  predicate IsCallback(e: Effect)
  {
    Reported(e).Some?
  }

  /** The number of host callbacks among the effects. */
  function CallbackCount(effects: seq<Effect>): nat
  {
    if effects == [] then 0
    else (if IsCallback(effects[0]) then 1 else 0) + CallbackCount(effects[1..])
  }

  lemma CallbackCountAppend(a: seq<Effect>, b: seq<Effect>)
    ensures CallbackCount(a + b) == CallbackCount(a) + CallbackCount(b)
  {
    if a == [] {
      assert a + b == b;
    } else {
      assert (a + b)[1..] == a[1..] + b;
    }
  }

  /**
   * `detectAndAct`: reconcile a proposed status with the last committed one. A repeated status
   * does nothing at all (not even the counter is touched). A real change resets the counter and
   * fires the alert and the host callback; it is committed except for a disconnect that nobody
   * listens to, which only hides the alert.
   */
  function DetectAndAct(s: State, proposed: Status, active: Option<NetKind>): (r: Step)
    ensures Valid(s) ==> Valid(r.state)
    // a no-op exactly when the proposal repeats the committed status
    ensures r.effects == [] <==> s.lastState == Some(proposed)
    ensures s.lastState == Some(proposed) ==> r.state == s
    // a real change resets the counter and commits, unless nobody listens to a disconnect
    ensures s.lastState != Some(proposed) ==> r.state.counter == 0
    ensures s.lastState != Some(proposed) ==>
      r.state.lastState == (if proposed == Disconnected && !s.navigatorSet then s.lastState else Some(proposed))
    // the status changes at most once, and only to the proposal
    ensures r.state.lastState == s.lastState || r.state.lastState == Some(proposed)
    // callbacks are of the proposal's kind, and only with a navigator
    ensures (OnDisconnected in r.effects || exists t :: OnConnected(t) in r.effects) ==> s.navigatorSet
    ensures OnDisconnected in r.effects ==> proposed == Disconnected
    ensures forall t :: OnConnected(t) in r.effects ==> proposed == Connected && t == ConnectionType(active)
    // the alert is shown only for a listened-to disconnect with notifications enabled
    ensures ShowAlert in r.effects <==>
      s.lastState != Some(proposed) && proposed == Disconnected && s.navigatorSet && s.notificationEnabled
    ensures HideAlert in r.effects <==>
      s.lastState != Some(proposed) && (proposed == Connected || !s.navigatorSet)
    // the template is built at most once, right before its first use
    ensures BuildTemplate in r.effects <==> ShowAlert in r.effects && !s.templateBuilt
    // order: each effect at most once; a hide or the disconnect callback comes first, the alert
    // comes last, right after the template it needs, and onConnected follows the hide
    ensures forall i, j :: 0 <= i < j < |r.effects| ==> r.effects[i] != r.effects[j]
    ensures HideAlert in r.effects ==> r.effects[0] == HideAlert
    ensures OnDisconnected in r.effects ==> r.effects[0] == OnDisconnected
    ensures ShowAlert in r.effects ==> r.effects[|r.effects| - 1] == ShowAlert
    ensures BuildTemplate in r.effects ==> |r.effects| >= 2 && r.effects[|r.effects| - 2] == BuildTemplate
    ensures forall t :: OnConnected(t) in r.effects ==> r.effects == [HideAlert, OnConnected(t)]
    ensures r.state.templateBuilt == (s.templateBuilt || BuildTemplate in r.effects)
    // the scheduler and the configuration are left alone: no tick is posted and none is dropped
    ensures forall e :: e in r.effects ==> !e.Schedule?
    ensures r.state.repeat == s.repeat && r.state.pending == s.pending
    ensures r.state.navigatorSet == s.navigatorSet && r.state.notificationEnabled == s.notificationEnabled
  {
    if s.lastState == Some(proposed) then Step(s, [])
    else
      var reset := s.(counter := 0);
      match proposed
      case Disconnected =>
        if !s.navigatorSet then Step(reset, [HideAlert])
        else
          var committed := reset.(lastState := Some(Disconnected));
          if !s.notificationEnabled then Step(committed, [OnDisconnected])
          else if s.templateBuilt then Step(committed, [OnDisconnected, ShowAlert])
          else Step(committed.(templateBuilt := true), [OnDisconnected, BuildTemplate, ShowAlert])
      case Connected =>
        var committed := reset.(lastState := Some(Connected));
        if s.navigatorSet then Step(committed, [HideAlert, OnConnected(ConnectionType(active))])
        else Step(committed, [HideAlert])
  }

  /**
   * `checkState(context, repeat)`: store the repeat budget (0 becomes 1, anything else, negative
   * values included, is kept), drop the pending tick and post exactly one new tick whose delay is
   * the backoff for the current counter.
   */
  function CheckState(s: State, repeat: int32): (r: Step)
    ensures Valid(s) ==> Valid(r.state)
    ensures r.state.repeat != 0
    ensures repeat != 0 ==> r.state.repeat == repeat
    ensures repeat == 0 ==> r.state.repeat == 1
    ensures r.state.pending == Some(Backoff.Delay(s.counter))
    ensures r.effects == [Schedule(r.state.pending.value)]
    // the posted delay is the source's getDelay() while its int product does not overflow
    ensures Backoff.Abs(s.counter as int) <= Backoff.LAST_SAFE_COUNTER ==>
      r.state.pending == Some(Backoff.DelayAsWritten(s.counter))
    ensures r.state == s.(repeat := r.state.repeat, pending := r.state.pending)
  {
    var budget := if repeat == 0 then 1 else repeat;
    var delay := Backoff.Delay(s.counter);
    var posted := Step(s.(repeat := budget, pending := Some(delay)), [Schedule(delay)]);
    // the agreement with getDelay() needs the lemma only while the product fits in an int
    (if Backoff.Abs(s.counter as int) <= Backoff.LAST_SAFE_COUNTER then
       Backoff.AsWrittenAgreesWhileNoOverflow(s.counter); posted
     else posted)
  }

  /** `checkState(context)`: restart the probe cycle with the budget already stored. */
  function CheckStateDefault(s: State): (r: Step)
    ensures Valid(s) ==> Valid(r.state)
    ensures r.state.repeat != 0
    ensures s.repeat != 0 ==> r.state.repeat == s.repeat
    ensures r.state.pending == Some(Backoff.Delay(s.counter))
    ensures r.effects == [Schedule(Backoff.Delay(s.counter))]
    ensures Backoff.Abs(s.counter as int) <= Backoff.LAST_SAFE_COUNTER ==>
      r.state.pending == Some(Backoff.DelayAsWritten(s.counter))
    ensures r.state == s.(repeat := r.state.repeat, pending := r.state.pending)
  {
    CheckState(s, s.repeat)
  }

  /** The handler runs the pending tick: it is no longer pending; the probe it starts reports later. */
  function Tick(s: State): (r: Step)
    ensures Valid(s) ==> Valid(r.state)
    ensures r.state.pending.None? && r.effects == []
    ensures r.state == s.(pending := None)
  {
    Step(s.(pending := None), [])
  }

  /** The probe got no reply: authoritative only on the last attempt of the budget. */
  function Timeout(s: State): (r: Step)
    ensures Valid(s) ==> Valid(r.state)
    ensures s.repeat != 1 ==> r == Step(s, [])
    ensures s.repeat == 1 ==> r == DetectAndAct(s, Disconnected, None)
    ensures r.effects != [] ==> s.repeat == 1 && s.lastState != Some(Disconnected)
    ensures forall e :: e in r.effects ==> !e.Schedule?
  {
    if s.repeat == 1 then DetectAndAct(s, Disconnected, None) else Step(s, [])
  }

  /** The probe got a reply: reconcile to connected, then the budget is back to 1. */
  function Replied(s: State, active: Option<NetKind>): (r: Step)
    ensures Valid(s) ==> Valid(r.state)
    ensures r.state.repeat == 1
    ensures r.state.lastState == Some(Connected)
    ensures r.effects == [] <==> s.lastState == Some(Connected)
    ensures r.effects == DetectAndAct(s, Connected, active).effects
    ensures r.state.counter == (if s.lastState == Some(Connected) then s.counter else 0)
    ensures ShowAlert !in r.effects && OnDisconnected !in r.effects
    // nothing else changes: no tick is posted, so the probe cycle ends here
    ensures forall e :: e in r.effects ==> !e.Schedule?
    ensures r.state == s.(lastState := Some(Connected),
                          counter := (if s.lastState == Some(Connected) then s.counter else 0),
                          repeat := 1)
  {
    var st := DetectAndAct(s, Connected, active);
    Step(st.state.(repeat := 1), st.effects)
  }

  /**
   * The probe attempt ended without a verdict: count one more unchanged cycle, spend one unit
   * of the budget and reschedule through `checkState`, so a budget that reaches 0 becomes 1.
   */
  function Ended(s: State): (r: Step)
    ensures Valid(s) ==> Valid(r.state)
    ensures r.state.counter == Inc(s.counter)
    ensures r.state.repeat == (if s.repeat == 1 then 1 else Dec(s.repeat))
    ensures r.state.pending == Some(Backoff.Delay(r.state.counter))
    ensures r.effects == [Schedule(Backoff.Delay(r.state.counter))]
    ensures Backoff.Abs(r.state.counter as int) <= Backoff.LAST_SAFE_COUNTER ==>
      r.state.pending == Some(Backoff.DelayAsWritten(r.state.counter))
    ensures r.state.lastState == s.lastState && r.state.templateBuilt == s.templateBuilt
    ensures r.state == s.(counter := r.state.counter, repeat := r.state.repeat, pending := r.state.pending)
  {
    var bumped := s.(counter := Inc(s.counter), repeat := Dec(s.repeat));
    CheckState(bumped, bumped.repeat)
  }

  /**
   * `onReceive`: an OS connectivity broadcast. Ignored when it reports the committed status;
   * otherwise the counter is reset and the probe cycle restarts with a budget of 4, so the next
   * tick is posted with no delay. The broadcast itself commits nothing.
   */
  function OnReceive(s: State, active: Option<NetKind>): (r: Step)
    ensures Valid(s) ==> Valid(r.state)
    ensures s.lastState == Some(ConnectivityStatus(active)) ==> r == Step(s, [])
    ensures s.lastState != Some(ConnectivityStatus(active)) ==>
      && r.state == s.(counter := 0, repeat := BROADCAST_REPEAT, pending := Some(0))
      && r.effects == [Schedule(0)]
  {
    if Code(s.lastState) == Code(Some(ConnectivityStatus(active))) then Step(s, [])
    else CheckState(s.(counter := 0), BROADCAST_REPEAT)
  }

  /** `unregister`: hide the alert. The pending tick is not cancelled and nothing else changes. */
  function Unregister(s: State): (r: Step)
    ensures Valid(s) ==> Valid(r.state)
    ensures r.state == s
    ensures r.effects == [HideAlert]
  {
    Step(s, [HideAlert])
  }

  /**
   * One reconciliation fires at most one host callback, and it fires one exactly for a real
   * change while a navigator is set.
   */
  lemma DetectAndActFiresOnce(s: State, proposed: Status, active: Option<NetKind>)
    ensures var r := DetectAndAct(s, proposed, active);
      && CallbackCount(r.effects) <= 1
      && (CallbackCount(r.effects) == 1 <==> s.lastState != Some(proposed) && s.navigatorSet)
  {
    var effects := DetectAndAct(s, proposed, active).effects;
    if effects != [] {
      assert CallbackCount(effects) == (if IsCallback(effects[0]) then 1 else 0) + CallbackCount(effects[1..]);
      if |effects| > 1 {
        assert CallbackCount(effects[1..]) == (if IsCallback(effects[1]) then 1 else 0) + CallbackCount(effects[2..]);
        if |effects| > 2 {
          assert effects[2..] == [ShowAlert];
          assert CallbackCount(effects[2..]) == 0;
        } else {
          assert effects[2..] == [];
        }
      } else {
        assert effects[1..] == [];
      }
    }
  }

  /** A committed change is not reported twice: the same proposal right after it is a no-op. */
  lemma DetectAndActSettles(s: State, proposed: Status, active: Option<NetKind>, active': Option<NetKind>)
    requires !(proposed == Disconnected && !s.navigatorSet)
    ensures var first := DetectAndAct(s, proposed, active);
      DetectAndAct(first.state, proposed, active') == Step(first.state, [])
  {
  }

  /**
   * A disconnect with no navigator is never committed, so every later disconnect proposal is
   * again a change: it resets the counter and hides the alert once more.
   */
  lemma UnlistenedDisconnectRepeats(s: State, active: Option<NetKind>, active': Option<NetKind>)
    requires !s.navigatorSet && s.lastState != Some(Disconnected)
    ensures var first := DetectAndAct(s, Disconnected, active);
      && first.state.lastState == s.lastState
      && DetectAndAct(first.state, Disconnected, active') == first
  {
  }

  /** Nothing is committed at start, so whatever the first proposal is, it counts as a change. */
  lemma FirstProposalIsChange(templateBuilt: bool, navigatorSet: bool, notificationEnabled: bool,
                              proposed: Status, active: Option<NetKind>)
    // at class load LAST_STATE is -1, the counter 0, the budget 1, and no tick is posted
    ensures var s0 := Initial(templateBuilt, navigatorSet, notificationEnabled);
      Code(s0.lastState) == UNKNOWN_CODE && s0.counter == 0 && s0.repeat == 1 && s0.pending.None?
    ensures Valid(Initial(templateBuilt, navigatorSet, notificationEnabled))
    ensures DetectAndAct(Initial(templateBuilt, navigatorSet, notificationEnabled), proposed, active).effects != []
  {
  }

  /** A second `checkState` replaces the first one's tick: only the last posted tick is pending. */
  lemma CheckStateReplacesPendingTick(s: State, first: int32, second: int32)
    ensures CheckState(CheckState(s, first).state, second).state == CheckState(s, second).state
  {
  }

  /** A broadcast does not commit, so the same broadcast again restarts the cycle again, identically. */
  lemma OnReceiveRepeats(s: State, active: Option<NetKind>)
    ensures var first := OnReceive(s, active);
      OnReceive(first.state, active) == first
  {
  }

  /**
   * A negative budget (which `checkState` accepts as is) only moves further from 1 on each ended
   * attempt, and while it is not 1 no timeout reports a disconnect.
   */
  lemma NegativeBudgetNeverTimesOut(s: State)
    requires MIN < s.repeat as int < 0
    ensures Timeout(s) == Step(s, [])
    ensures Ended(s).state.repeat as int == s.repeat as int - 1
  {
  }

}
