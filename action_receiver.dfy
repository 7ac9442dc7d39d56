/**
 * ActionBroadcastReceiver: tap intake and lazy background-engine bootstrap.
 *
 * `onReceive` ignores any intent whose action is not ACTION_TAPPED (compared
 * ignoring case), creates the isolate preferences on first use, cancels the
 * tapped notification when asked (by tag and id when the tag is a string,
 * by id otherwise), publishes the response map to the process-wide
 * ActionEventSink and calls `startEngine`. `startEngine` does nothing once
 * the process-wide engine exists; otherwise it builds the engine, only then
 * looks up the dispatcher handle, and, if that lookup succeeds, registers the
 * sink on the actions channel and runs the Dart callback.
 *
 * Calls into Android and Flutter are recorded as an ordered `Effect` trace;
 * the dispatcher-handle lookup result is an input.
 */
module ActionReceiver {
  import opened Common
  import opened ActionEventRelay

  const ActionTapped: string := "com.dexterous.flutterlocalnotifications.ActionBroadcastReceiver.ACTION_TAPPED"
  const ActionsChannel: string := "dexterous.com/flutter/local_notifications/actions"

  /** Response-map keys, as defined by FlutterLocalNotificationsPlugin. */
  const NotificationIdKey: string := "notificationId"
  const NotificationTagKey: string := "notificationTag"

  /** A Dart callback handle stored by the isolate preferences (opaque). */
  datatype CallbackHandle = CallbackHandle(id: nat)

  /**
   * A tap intent: its action (null allowed), its CANCEL_NOTIFICATION boolean
   * extra (absent allowed), and the response map extracted from it.
   */
  datatype TapIntent = TapIntent(action: Option<string>, cancelExtra: Option<bool>, response: ActionEvent)

  /** A call made into Android or Flutter, in the order made. */
  datatype Effect =
    | CreatePreferences
    | CancelById(id: int)
    | CancelByTag(tag: string, id: int)
    | StartInitialization
    | EnsureInitializationComplete
    | ConstructEngine
    | LookupDispatcherHandle
    | SetStreamHandler(channel: string)
    | FindAppBundlePath
    | ExecuteDartCallback(handle: CallbackHandle)

  /** Java's `Character.toLowerCase`, restricted to ASCII letters. */
  function LowerAscii(c: char): char {
    if 'A' <= c <= 'Z' then (c as int + 32) as char else c
  }

  /** `String.equalsIgnoreCase` on non-null strings. */
  predicate EqualsIgnoreCase(a: string, b: string) {
    |a| == |b| && forall i :: 0 <= i < |a| ==> LowerAscii(a[i]) == LowerAscii(b[i])
  }

  /** `ACTION_TAPPED.equalsIgnoreCase(action)`: false for a null action. */
  predicate IsTapAction(action: Option<string>) {
    action.Some? && EqualsIgnoreCase(ActionTapped, action.value)
  }

  /** `getBooleanExtra(CANCEL_NOTIFICATION, false)`. */
  predicate CancelRequested(intent: TapIntent) {
    intent.cancelExtra == Some(true)
  }

  /** When cancellation is requested, the map holds an `Integer` id. */
  predicate WellTypedCancel(intent: TapIntent) {
    CancelRequested(intent) ==>
      NotificationIdKey in intent.response && intent.response[NotificationIdKey].IntValue?
  }

  /**
   * The payload is read only after the action check, so only a tap intent
   * needs a well-typed id; an ignored intent may carry anything.
   */
  predicate ReadableTap(intent: TapIntent) {
    IsTapAction(intent.action) ==> WellTypedCancel(intent)
  }

  /** `tag instanceof String` for `action.get(NOTIFICATION_TAG)`. */
  predicate HasStringTag(response: ActionEvent) {
    NotificationTagKey in response && response[NotificationTagKey].StringValue?
  }

  /** The cancellation `onReceive` performs for a tap intent. */
  function CancelEffects(intent: TapIntent): seq<Effect>
    requires WellTypedCancel(intent)
  {
    if !CancelRequested(intent) then []
    else
      var id := intent.response[NotificationIdKey].i;
      if HasStringTag(intent.response) then [CancelByTag(intent.response[NotificationTagKey].s, id)]
      else [CancelById(id)]
  }

  /** The calls `startEngine` makes, given whether the engine exists and the lookup result. */
  function StartEngineEffects(engine: bool, lookup: Option<CallbackHandle>): seq<Effect> {
    if engine then []
    else
      [StartInitialization, EnsureInitializationComplete, ConstructEngine, LookupDispatcherHandle]
      + (if lookup.None? then []
         else [SetStreamHandler(ActionsChannel), FindAppBundlePath, ExecuteDartCallback(lookup.value)])
  }

  /** The two static fields: the event sink (as its relay state) and whether the engine exists. */
  datatype StaticState = StaticState(sink: Option<Relay>, engine: bool)

  /** What one `onReceive` leaves behind: statics, the instance's preferences flag, and its calls. */
  datatype Received = Received(statics: StaticState, preferences: bool, effects: seq<Effect>)

  /** The relay a tap is published to: the existing sink, or a new one. */
  function SinkOrFresh(sink: Option<Relay>): Relay {
    if sink.None? then Fresh else sink.value
  }

  /** `onReceive` on a receiver whose preferences exist iff `preferences`. */
  function Receive(st: StaticState, preferences: bool, intent: TapIntent, lookup: Option<CallbackHandle>): Received
    requires ReadableTap(intent)
  {
    if !IsTapAction(intent.action) then Received(st, preferences, [])
    else
      Received(
        StaticState(Some(Publish(SinkOrFresh(st.sink), intent.response)), true),
        true,
        (if preferences then [] else [CreatePreferences])
        + CancelEffects(intent)
        + StartEngineEffects(st.engine, lookup))
  }

  /** One broadcast delivered to a receiver instance, with the lookup result it would see. */
  datatype Broadcast = Broadcast(intent: TapIntent, preferences: bool, lookup: Option<CallbackHandle>)

  predicate AllReadable(bs: seq<Broadcast>) {
    forall i :: 0 <= i < |bs| ==> ReadableTap(bs[i].intent)
  }

  lemma AllReadableTail(bs: seq<Broadcast>)
    requires AllReadable(bs) && bs != []
    ensures AllReadable(bs[1..])
  {
    assert forall i :: 0 <= i < |bs[1..]| ==> bs[1..][i] == bs[i + 1];
  }

  datatype RunResult = RunResult(statics: StaticState, effects: seq<Effect>)

  /** The broadcasts `bs`, received in order from statics `st`. */
  function ReceiveAll(st: StaticState, bs: seq<Broadcast>): RunResult
    requires AllReadable(bs)
    decreases |bs|
  {
    if bs == [] then RunResult(st, [])
    else
      var r := Receive(st, bs[0].preferences, bs[0].intent, bs[0].lookup);
      var rest := ReceiveAll(r.statics, bs[1..]);
      RunResult(rest.statics, r.effects + rest.effects)
  }

  predicate IsConstruction(e: Effect) { e.ConstructEngine? }
  predicate IsLookup(e: Effect) { e.LookupDispatcherHandle? }
  predicate IsExecution(e: Effect) { e.ExecuteDartCallback? }
  predicate IsCancel(e: Effect) { e.CancelById? || e.CancelByTag? }

  /** How many of `es` satisfy `p`. */
  function Count(es: seq<Effect>, p: Effect -> bool): nat
    decreases |es|
  {
    if es == [] then 0 else (if p(es[0]) then 1 else 0) + Count(es[1..], p)
  }

  /** The cancellation calls among `es`, in order. */
  function Cancels(es: seq<Effect>): seq<Effect>
    decreases |es|
  {
    if es == [] then [] else (if IsCancel(es[0]) then [es[0]] else []) + Cancels(es[1..])
  }

  lemma {:induction false} CountAppend(a: seq<Effect>, b: seq<Effect>, p: Effect -> bool)
    ensures Count(a + b, p) == Count(a, p) + Count(b, p)
    decreases |a|
  {
    if a == [] {
      assert a + b == b;
    } else {
      assert (a + b)[1..] == a[1..] + b;
      CountAppend(a[1..], b, p);
    }
  }

  lemma {:induction false} CancelsAppend(a: seq<Effect>, b: seq<Effect>)
    ensures Cancels(a + b) == Cancels(a) + Cancels(b)
    decreases |a|
  {
    if a == [] {
      assert a + b == b;
    } else {
      var rest := a[1..];
      assert (a + b)[0] == a[0];
      assert (a + b)[1..] == rest + b;
      CancelsAppend(rest, b);
      assert Cancels(a + b) == (if IsCancel(a[0]) then [a[0]] else []) + Cancels(rest + b);
    }
  }

  lemma {:induction false} CountNone(es: seq<Effect>, p: Effect -> bool)
    requires forall i :: 0 <= i < |es| ==> !p(es[i])
    ensures Count(es, p) == 0
    decreases |es|
  {
    if es != [] {
      CountNone(es[1..], p);
    }
  }

  /**
   * A `startEngine` call that finds no engine constructs exactly one,
   * looks the handle up exactly once, and runs the callback exactly when the
   * lookup succeeded; one that finds an engine makes no call at all.
   */
  lemma StartEngineCounts(engine: bool, lookup: Option<CallbackHandle>)
    ensures Count(StartEngineEffects(engine, lookup), IsConstruction) == (if engine then 0 else 1)
    ensures Count(StartEngineEffects(engine, lookup), IsLookup) == (if engine then 0 else 1)
    ensures Count(StartEngineEffects(engine, lookup), IsExecution)
         == (if engine || lookup.None? then 0 else 1)
  {
    if !engine {
      var tail: seq<Effect> :=
        if lookup.None? then [] else [SetStreamHandler(ActionsChannel), FindAppBundlePath, ExecuteDartCallback(lookup.value)];
      var es := StartEngineEffects(engine, lookup);
      assert es == [StartInitialization, EnsureInitializationComplete] + [ConstructEngine] + ([LookupDispatcherHandle] + tail);
      CountExactlyOne([StartInitialization, EnsureInitializationComplete], ConstructEngine, [LookupDispatcherHandle] + tail, IsConstruction);
      assert es == [StartInitialization, EnsureInitializationComplete, ConstructEngine] + [LookupDispatcherHandle] + tail;
      CountExactlyOne([StartInitialization, EnsureInitializationComplete, ConstructEngine], LookupDispatcherHandle, tail, IsLookup);
      if lookup.None? {
        CountNone(es, IsExecution);
      } else {
        var front := [StartInitialization, EnsureInitializationComplete, ConstructEngine, LookupDispatcherHandle, SetStreamHandler(ActionsChannel), FindAppBundlePath];
        assert es == front + [ExecuteDartCallback(lookup.value)] + [];
        CountExactlyOne(front, ExecuteDartCallback(lookup.value), [], IsExecution);
      }
    }
  }

  /** A sequence with exactly one element satisfying `p` counts one. */
  lemma CountExactlyOne(a: seq<Effect>, x: Effect, b: seq<Effect>, p: Effect -> bool)
    requires forall i :: 0 <= i < |a| ==> !p(a[i])
    requires p(x)
    requires forall i :: 0 <= i < |b| ==> !p(b[i])
    ensures Count(a + [x] + b, p) == 1
  {
    CountAppend(a + [x], b, p);
    CountAppend(a, [x], p);
    CountNone(a, p);
    CountNone(b, p);
    assert [x][1..] == [];
  }

  /**
   * Within one `startEngine` call the dispatcher lookup comes after the
   * engine is constructed, and when the lookup yields nothing neither the
   * stream handler nor the Dart callback is set up.
   */
  lemma LookupFollowsConstruction(engine: bool, lookup: Option<CallbackHandle>)
    ensures var es := StartEngineEffects(engine, lookup);
      forall i, j | 0 <= i < |es| && 0 <= j < |es| && es[i].ConstructEngine? && es[j].LookupDispatcherHandle? :: i < j
    ensures lookup.None? ==>
      forall e | e in StartEngineEffects(engine, lookup) :: !e.SetStreamHandler? && !e.ExecuteDartCallback?
  {
  }

  /** Any action other than ACTION_TAPPED (ignoring case), null included, changes nothing and calls nothing. */
  lemma IgnoredActionHasNoEffect(st: StaticState, preferences: bool, intent: TapIntent, lookup: Option<CallbackHandle>)
    requires !IsTapAction(intent.action)
    ensures Receive(st, preferences, intent, lookup) == Received(st, preferences, [])
  {
  }

  /** Every character of `s` lower-cased. */
  function LowerAll(s: string): string {
    seq(|s|, i requires 0 <= i < |s| => LowerAscii(s[i]))
  }

  /**
   * The action match ignores the case of ASCII letters: an action is
   * accepted exactly when it lower-cases to the lower-cased constant, so two
   * spellings that lower-case alike are both accepted or both rejected; the
   * exact constant is accepted, and a null action is rejected.
   */
  lemma TapActionIgnoresCase(s: string, t: string)
    requires LowerAll(s) == LowerAll(t)
    ensures IsTapAction(Some(s)) <==> LowerAll(s) == LowerAll(ActionTapped)
    ensures IsTapAction(Some(s)) <==> IsTapAction(Some(t))
    ensures IsTapAction(Some(ActionTapped))
    ensures !IsTapAction(None)
  {
    TapActionIffLower(s);
    TapActionIffLower(t);
  }

  /** `equalsIgnoreCase` against the constant is equality after lower-casing. */
  lemma TapActionIffLower(s: string)
    ensures IsTapAction(Some(s)) <==> LowerAll(s) == LowerAll(ActionTapped)
  {
    var ls, lt := LowerAll(s), LowerAll(ActionTapped);
    if IsTapAction(Some(s)) {
      assert forall i :: 0 <= i < |ls| ==> ls[i] == LowerAscii(s[i]) == LowerAscii(ActionTapped[i]) == lt[i];
    }
    if ls == lt {
      assert forall i :: 0 <= i < |s| ==> LowerAscii(ActionTapped[i]) == lt[i] == ls[i] == LowerAscii(s[i]);
    }
  }

  /**
   * A tap intent cancels exactly one notification when the cancel extra is
   * true — by (tag, id) when the tag is a string, by id alone otherwise —
   * and none when it is false or absent; an ignored intent cancels nothing.
   */
  lemma CancelChoice(st: StaticState, preferences: bool, intent: TapIntent, lookup: Option<CallbackHandle>)
    requires ReadableTap(intent)
    ensures var cs := Cancels(Receive(st, preferences, intent, lookup).effects);
      if !IsTapAction(intent.action) || !CancelRequested(intent) then cs == []
      else if HasStringTag(intent.response) then
        cs == [CancelByTag(intent.response[NotificationTagKey].s, intent.response[NotificationIdKey].i)]
      else cs == [CancelById(intent.response[NotificationIdKey].i)]
  {
    ReceiveCancels(st, preferences, intent, lookup);
    if IsTapAction(intent.action) {
      var cs := CancelEffects(intent);
      if |cs| == 1 {
        assert cs[1..] == [];
        assert Cancels(cs) == cs;
      }
    }
  }

  /** The cancellations of one `onReceive` are those of its cancel step. */
  lemma ReceiveCancels(st: StaticState, preferences: bool, intent: TapIntent, lookup: Option<CallbackHandle>)
    requires ReadableTap(intent)
    ensures Cancels(Receive(st, preferences, intent, lookup).effects)
         == (if IsTapAction(intent.action) then Cancels(CancelEffects(intent)) else [])
  {
    if IsTapAction(intent.action) {
      var pre: seq<Effect> := if preferences then [] else [CreatePreferences];
      var start := StartEngineEffects(st.engine, lookup);
      CancelsAppend(pre + CancelEffects(intent), start);
      CancelsAppend(pre, CancelEffects(intent));
      NoCancelsInPreferences(preferences);
      NoCancelsInStartEngine(st.engine, lookup);
    }
  }

  lemma NoCancelsInPreferences(preferences: bool)
    ensures Cancels(if preferences then [] else [CreatePreferences]) == []
  {
    if !preferences {
      assert [CreatePreferences][1..] == [];
    }
  }

  lemma NoCancelsInStartEngine(engine: bool, lookup: Option<CallbackHandle>)
    ensures Cancels(StartEngineEffects(engine, lookup)) == []
  {
    CancelsNone(StartEngineEffects(engine, lookup));
  }

  lemma {:induction false} CancelsNone(es: seq<Effect>)
    requires forall i :: 0 <= i < |es| ==> !IsCancel(es[i])
    ensures Cancels(es) == []
    decreases |es|
  {
    if es != [] {
      CancelsNone(es[1..]);
    }
  }

  /** Example: cancel=true, id 7, no tag — only `cancel(7)`. */
  lemma CancelWithoutTag()
    ensures var intent := TapIntent(Some(ActionTapped), Some(true), map[NotificationIdKey := IntValue(7)]);
      CancelEffects(intent) == [CancelById(7)]
  {
    var response := map[NotificationIdKey := IntValue(7)];
    assert NotificationTagKey !in response;
  }

  /** Example: cancel=true, id 7, tag "grp" — only `cancel("grp", 7)`. */
  lemma CancelWithTag()
    ensures var intent := TapIntent(Some(ActionTapped), Some(true),
        map[NotificationIdKey := IntValue(7), NotificationTagKey := StringValue("grp")]);
      CancelEffects(intent) == [CancelByTag("grp", 7)]
  {
  }

  /**
   * Once the engine slot is set, every later broadcast leaves it set and its
   * `startEngine` is a no-op: the only calls left are creating preferences
   * and cancelling notifications.
   */
  lemma {:induction false} EngineGuardHolds(st: StaticState, bs: seq<Broadcast>)
    requires AllReadable(bs)
    requires st.engine
    ensures ReceiveAll(st, bs).statics.engine
    ensures forall e | e in ReceiveAll(st, bs).effects :: e.CreatePreferences? || IsCancel(e)
    ensures Count(ReceiveAll(st, bs).effects, IsConstruction) == 0
    ensures Count(ReceiveAll(st, bs).effects, IsLookup) == 0
    ensures Count(ReceiveAll(st, bs).effects, IsExecution) == 0
    decreases |bs|
  {
    if bs != [] {
      var r := Receive(st, bs[0].preferences, bs[0].intent, bs[0].lookup);
      AllReadableTail(bs);
      EngineGuardHolds(r.statics, bs[1..]);
      var rest := ReceiveAll(r.statics, bs[1..]);
      CountAppend(r.effects, rest.effects, IsConstruction);
      CountAppend(r.effects, rest.effects, IsLookup);
      CountAppend(r.effects, rest.effects, IsExecution);
      ReceiveCounts(st, bs[0].preferences, bs[0].intent, bs[0].lookup);
      if IsTapAction(bs[0].intent.action) {
        assert StartEngineEffects(st.engine, bs[0].lookup) == [];
        assert forall e | e in CancelEffects(bs[0].intent) :: IsCancel(e);
      }
      assert ReceiveAll(st, bs).effects == r.effects + rest.effects;
    }
  }

  /** The engine calls one `onReceive` makes are exactly those of its `startEngine`, if it gets that far. */
  lemma ReceiveCounts(st: StaticState, preferences: bool, intent: TapIntent, lookup: Option<CallbackHandle>)
    requires ReadableTap(intent)
    ensures var es := Receive(st, preferences, intent, lookup).effects;
      var start := if IsTapAction(intent.action) then StartEngineEffects(st.engine, lookup) else [];
      && Count(es, IsConstruction) == Count(start, IsConstruction)
      && Count(es, IsLookup) == Count(start, IsLookup)
      && Count(es, IsExecution) == Count(start, IsExecution)
  {
    if IsTapAction(intent.action) {
      var front := (if preferences then [] else [CreatePreferences]) + CancelEffects(intent);
      var start := StartEngineEffects(st.engine, lookup);
      assert forall i :: 0 <= i < |front| ==> !IsConstruction(front[i]) && !IsLookup(front[i]) && !IsExecution(front[i]);
      CountNone(front, IsConstruction);
      CountNone(front, IsLookup);
      CountNone(front, IsExecution);
      CountAppend(front, start, IsConstruction);
      CountAppend(front, start, IsLookup);
      CountAppend(front, start, IsExecution);
    }
  }

  /**
   * Over any number of broadcasts the engine is constructed at most once and
   * the Dart callback is run at most once (never, if the engine already
   * existed).
   */
  lemma {:induction false} EngineBuiltAtMostOnce(st: StaticState, bs: seq<Broadcast>)
    requires AllReadable(bs)
    ensures Count(ReceiveAll(st, bs).effects, IsConstruction) <= (if st.engine then 0 else 1)
    ensures Count(ReceiveAll(st, bs).effects, IsExecution) <= (if st.engine then 0 else 1)
    decreases |bs|
  {
    if bs != [] {
      var r := Receive(st, bs[0].preferences, bs[0].intent, bs[0].lookup);
      AllReadableTail(bs);
      var rest := ReceiveAll(r.statics, bs[1..]);
      CountAppend(r.effects, rest.effects, IsConstruction);
      CountAppend(r.effects, rest.effects, IsExecution);
      ReceiveCounts(st, bs[0].preferences, bs[0].intent, bs[0].lookup);
      StartEngineCounts(st.engine, bs[0].lookup);
      if r.statics.engine {
        EngineGuardHolds(r.statics, bs[1..]);
      } else {
        EngineBuiltAtMostOnce(r.statics, bs[1..]);
      }
    }
  }

  /**
   * A failed dispatcher lookup is permanent: if the first tap that builds the
   * engine finds no handle, the engine slot stays set and no broadcast after
   * it — whatever its lookup would return — ever runs the Dart callback.
   */
  lemma FailedLookupIsPermanent(st: StaticState, bs: seq<Broadcast>)
    requires AllReadable(bs) && bs != []
    requires !st.engine && IsTapAction(bs[0].intent.action) && bs[0].lookup.None?
    ensures ReceiveAll(st, bs).statics.engine
    ensures Count(ReceiveAll(st, bs).effects, IsExecution) == 0
    ensures forall e | e in ReceiveAll(st, bs).effects :: !e.SetStreamHandler? && !e.ExecuteDartCallback?
  {
    var r := Receive(st, bs[0].preferences, bs[0].intent, bs[0].lookup);
    AllReadableTail(bs);
    var rest := ReceiveAll(r.statics, bs[1..]);
    var all := ReceiveAll(st, bs);
    assert all.statics == rest.statics && all.effects == r.effects + rest.effects;
    FirstTapWithoutHandle(st, bs[0].preferences, bs[0].intent, bs[0].lookup);
    EngineGuardHolds(r.statics, bs[1..]);
    CountAppend(r.effects, rest.effects, IsExecution);
    forall e | e in all.effects
      ensures !e.SetStreamHandler? && !e.ExecuteDartCallback?
    {
      if e !in r.effects {
        assert e in rest.effects;
      }
    }
  }

  /** The tap that builds the engine but finds no handle leaves the slot set and runs nothing. */
  lemma FirstTapWithoutHandle(st: StaticState, preferences: bool, intent: TapIntent, lookup: Option<CallbackHandle>)
    requires ReadableTap(intent) && !st.engine && IsTapAction(intent.action) && lookup.None?
    ensures Receive(st, preferences, intent, lookup).statics.engine
    ensures Count(Receive(st, preferences, intent, lookup).effects, IsExecution) == 0
    ensures forall e | e in Receive(st, preferences, intent, lookup).effects :: !e.SetStreamHandler? && !e.ExecuteDartCallback?
  {
    ReceiveCounts(st, preferences, intent, lookup);
    StartEngineCounts(st.engine, lookup);
    NoChannelWithoutHandle(st, preferences, intent, lookup);
  }

  /** A broadcast whose lookup finds no handle registers no stream handler and runs no callback. */
  lemma NoChannelWithoutHandle(st: StaticState, preferences: bool, intent: TapIntent, lookup: Option<CallbackHandle>)
    requires ReadableTap(intent) && lookup.None?
    ensures forall e | e in Receive(st, preferences, intent, lookup).effects :: !e.SetStreamHandler? && !e.ExecuteDartCallback?
  {
    if IsTapAction(intent.action) {
      LookupFollowsConstruction(st.engine, lookup);
      assert forall e | e in CancelEffects(intent) :: IsCancel(e);
    }
  }

  /** The static fields `actionEventSink` and `engine`, shared by every receiver instance. */
  class ReceiverStatics {
    var actionEventSink: ActionEventSink?
    /** `engine != null` */
    var engine: bool

    ghost predicate Valid()
      reads this, actionEventSink
    {
      actionEventSink != null ==> actionEventSink.Valid()
    }

    function View(): StaticState
      reads this, actionEventSink
    {
      StaticState(if actionEventSink == null then None else Some(actionEventSink.State()), engine)
    }

    constructor ()
      ensures Valid() && View() == StaticState(None, false)
    {
      actionEventSink := null;
      engine := false;
    }
  }

  /** One receiver instance; `preferences` is `preferences != null`. */
  class ActionBroadcastReceiver {
    var preferences: bool
    const statics: ReceiverStatics

    /** `ActionBroadcastReceiver()` (no preferences yet) or the test constructor that injects them. */
    constructor (statics: ReceiverStatics, preferences: bool)
      ensures this.statics == statics && this.preferences == preferences
    {
      this.statics := statics;
      this.preferences := preferences;
    }

    method OnReceive(intent: TapIntent, lookup: Option<CallbackHandle>) returns (effects: seq<Effect>)
      requires statics.Valid()
      requires ReadableTap(intent)
      modifies this, statics, statics.actionEventSink
      ensures statics.Valid()
      ensures var r := Receive(old(statics.View()), old(preferences), intent, lookup);
        statics.View() == r.statics && preferences == r.preferences && effects == r.effects
      ensures old(statics.actionEventSink) != null ==> statics.actionEventSink == old(statics.actionEventSink)
      ensures IsTapAction(intent.action) ==>
        statics.actionEventSink != null &&
        statics.actionEventSink.published
          == (if old(statics.actionEventSink) == null then [] else old(statics.actionEventSink.published))
             + [intent.response]
    {
      ghost var before := statics.View();
      effects := [];
      if !IsTapAction(intent.action) {
        return;
      }
      if !preferences {
        preferences := true;
        effects := effects + [CreatePreferences];
      }
      ghost var pre := effects;
      assert pre == (if old(preferences) then [] else [CreatePreferences]);
      var response := intent.response;
      if CancelRequested(intent) {
        var id := response[NotificationIdKey].i;
        var tag := if NotificationTagKey in response then Some(response[NotificationTagKey]) else None;
        if tag.Some? && tag.value.StringValue? {
          effects := effects + [CancelByTag(tag.value.s, id)];
        } else {
          effects := effects + [CancelById(id)];
        }
      }
      assert effects == pre + CancelEffects(intent);
      if statics.actionEventSink == null {
        statics.actionEventSink := new ActionEventSink();
      }
      var sink := statics.actionEventSink;
      assert sink.State() == SinkOrFresh(before.sink);
      sink.AddItem(response);
      var started := StartEngine(lookup);
      effects := effects + started;
      assert statics.View() == StaticState(Some(Publish(SinkOrFresh(before.sink), response)), true);
    }

    method StartEngine(lookup: Option<CallbackHandle>) returns (effects: seq<Effect>)
      modifies statics`engine
      ensures statics.engine
      ensures effects == StartEngineEffects(old(statics.engine), lookup)
    {
      if statics.engine {
        return [];
      }
      effects := [StartInitialization, EnsureInitializationComplete];
      statics.engine := true;
      effects := effects + [ConstructEngine];
      // The lookup must follow engine construction.
      effects := effects + [LookupDispatcherHandle];
      if lookup.None? {
        return;
      }
      effects := effects + [SetStreamHandler(ActionsChannel), FindAppBundlePath, ExecuteDartCallback(lookup.value)];
    }
  }
}
