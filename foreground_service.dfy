/**
 * ForegroundService: the `onStartCommand` decision and `orCombineFlags`.
 *
 * `onStartCommand` declines (START_NOT_STICKY, no foreground) when the intent
 * is null or its start parameter is missing or cannot be extracted; otherwise
 * it renders the notification and promotes the service to the foreground,
 * with the OR of the requested service types when types are given and the
 * platform is Android Q or later, without them otherwise, and returns the
 * requested start mode. An exception while rendering, combining the flags
 * (an empty type list) or starting makes it return START_NOT_STICKY.
 */
module ForegroundService {
  import opened Common

  /** `Service.START_NOT_STICKY`. */
  const StartNotSticky: int32 := 2

  /** `Build.VERSION_CODES.Q`, the first SDK with typed foreground services. */
  const VersionQ: int := 29

  /** The deserialized `ForegroundServiceStartParameter`. */
  datatype StartParameter = StartParameter(notificationId: int32, foregroundServiceTypes: Option<seq<bv32>>, startMode: int32)

  /** The outcome of `getSerializableExtra`: null, an exception, or the parameter. */
  datatype Extraction = Missing | Threw | Extracted(parameter: StartParameter)

  datatype Intent = Intent(extra: Extraction)

  /** A call made into Android or the plugin, in the order made. */
  datatype Call =
    | CreateNotification
    | StartForegroundUntyped(id: int32)
    | StartForegroundTyped(id: int32, types: bv32)

  /** The returned start code and the calls made. */
  datatype Outcome = Outcome(code: int32, calls: seq<Call>)

  /** The bitwise OR of a non-empty list of flags, folded from the left. */
  function OrAll(flags: seq<bv32>): bv32
    requires |flags| > 0
    decreases |flags|
  {
    if |flags| == 1 then flags[0] else OrAll(flags[..|flags| - 1]) | flags[|flags| - 1]
  }

  /** `orCombineFlags`: None stands for the exception `flags.get(0)` throws on an empty list. */
  method OrCombineFlags(flags: seq<bv32>) returns (r: Option<bv32>)
    ensures r.None? <==> flags == []
    ensures r.Some? ==> r.value == OrAll(flags)
  {
    if |flags| == 0 {
      return None;
    }
    var flag := flags[0];
    var i := 1;
    while i < |flags|
      invariant 1 <= i <= |flags|
      invariant flag == OrAll(flags[..i])
    {
      assert flags[..i + 1][..i] == flags[..i];
      flag := flag | flags[i];
      i := i + 1;
    }
    assert flags[..i] == flags;
    return Some(flag);
  }

  /** Every flag's bits are in the OR. */
  lemma {:induction false} OrAllCoversEach(flags: seq<bv32>, k: int)
    requires 0 <= k < |flags|
    ensures flags[k] | OrAll(flags) == OrAll(flags)
    decreases |flags|
  {
    if |flags| > 1 && k < |flags| - 1 {
      assert flags[..|flags| - 1][k] == flags[k];
      OrAllCoversEach(flags[..|flags| - 1], k);
    }
  }

  /** The OR has no bit that no flag has: it lies inside every common upper bound. */
  lemma {:induction false} OrAllIsLeast(flags: seq<bv32>, m: bv32)
    requires |flags| > 0
    requires forall k :: 0 <= k < |flags| ==> flags[k] | m == m
    ensures OrAll(flags) | m == m
    decreases |flags|
  {
    if |flags| > 1 {
      var front := flags[..|flags| - 1];
      assert forall k :: 0 <= k < |front| ==> front[k] == flags[k];
      OrAllIsLeast(front, m);
    }
  }

  /** A single flag combines to itself. */
  lemma OrAllSingle(f: bv32)
    ensures OrAll([f]) == f
  {
  }

  /** [1, 2, 4] combines to 7. */
  lemma OrAllOneTwoFour()
    ensures OrAll([1, 2, 4]) == 7
  {
    var flags: seq<bv32> := [1, 2, 4];
    var front := flags[..2];
    assert front[..1] == [1];
    assert OrAll(front[..1]) == 1;
    assert OrAll(front) == 1 | 2;
    assert OrAll(flags) == (1 | 2) | 4;
  }

  /**
   * `onStartCommand` given the intent, the SDK level, and whether rendering
   * or `startForeground` throws.
   */
  function OnStartCommand(intent: Option<Intent>, sdk: int, renderThrows: bool, startThrows: bool): (r: Outcome)
    // Nothing is called without an extracted parameter.
    ensures r.calls == [] <==> intent.None? || !intent.value.extra.Extracted?
    // The notification is rendered first, and at most one foreground start follows it.
    ensures r.calls != [] ==> r.calls[0] == CreateNotification && |r.calls| <= 2
    ensures forall k :: 1 <= k < |r.calls| ==> !r.calls[k].CreateNotification?
    // Any code other than START_NOT_STICKY is the requested start mode, after a foreground start.
    ensures r.code != StartNotSticky ==>
      intent.Some? && intent.value.extra.Extracted? && r.code == intent.value.extra.parameter.startMode
      && |r.calls| == 2
  {
    if intent.None? then Outcome(StartNotSticky, [])
    else match intent.value.extra
      case Missing => Outcome(StartNotSticky, [])
      case Threw => Outcome(StartNotSticky, [])
      case Extracted(p) =>
        if renderThrows then Outcome(StartNotSticky, [CreateNotification])
        else if p.foregroundServiceTypes.Some? && sdk >= VersionQ then
          var types := p.foregroundServiceTypes.value;
          if types == [] then Outcome(StartNotSticky, [CreateNotification])
          else
            Outcome(if startThrows then StartNotSticky else p.startMode,
                    [CreateNotification, StartForegroundTyped(p.notificationId, OrAll(types))])
        else
          Outcome(if startThrows then StartNotSticky else p.startMode,
                  [CreateNotification, StartForegroundUntyped(p.notificationId)])
  }

  predicate StartsForeground(o: Outcome) {
    exists c :: c in o.calls && (c.StartForegroundTyped? || c.StartForegroundUntyped?)
  }

  /** A null intent, or a parameter that is null or cannot be extracted, is declined without any call. */
  lemma DeclinedWithoutParameter(intent: Option<Intent>, sdk: int, renderThrows: bool, startThrows: bool)
    requires intent.None? || !intent.value.extra.Extracted?
    ensures OnStartCommand(intent, sdk, renderThrows, startThrows) == Outcome(StartNotSticky, [])
    ensures !StartsForeground(OnStartCommand(intent, sdk, renderThrows, startThrows))
  {
  }

  /**
   * The typed `startForeground` is used exactly when the parameter carries a
   * non-empty type list and the SDK is at least Q, and then with the OR of
   * the types; the untyped one exactly when there are no types or the SDK is
   * older. An empty type list starts nothing and declines.
   */
  lemma ForegroundCallChoice(p: StartParameter, sdk: int, startThrows: bool)
    ensures var o := OnStartCommand(Some(Intent(Extracted(p))), sdk, false, startThrows);
      var typed := p.foregroundServiceTypes.Some? && sdk >= VersionQ;
      && (typed && p.foregroundServiceTypes.value == [] ==>
            o.code == StartNotSticky && !StartsForeground(o))
      && (typed && p.foregroundServiceTypes.value != [] ==>
            StartForegroundTyped(p.notificationId, OrAll(p.foregroundServiceTypes.value)) in o.calls
            && forall c :: c in o.calls ==> !c.StartForegroundUntyped?)
      && (!typed ==>
            StartForegroundUntyped(p.notificationId) in o.calls
            && forall c :: c in o.calls ==> !c.StartForegroundTyped?)
  {
  }

  /**
   * The start mode is returned exactly when rendering, flag combination and
   * the foreground start all succeed; every failure returns START_NOT_STICKY.
   */
  lemma ReturnCode(intent: Option<Intent>, sdk: int, renderThrows: bool, startThrows: bool)
    ensures var o := OnStartCommand(intent, sdk, renderThrows, startThrows);
      var ok := intent.Some? && intent.value.extra.Extracted? && !renderThrows && !startThrows
        && !(intent.value.extra.parameter.foregroundServiceTypes == Some([]) && sdk >= VersionQ);
      o.code == if ok then intent.value.extra.parameter.startMode else StartNotSticky
  {
  }

  /** Success means the service was promoted: a foreground call was made whenever the start mode is returned. */
  lemma SuccessStartsForeground(intent: Option<Intent>, sdk: int, renderThrows: bool)
    ensures var o := OnStartCommand(intent, sdk, renderThrows, false);
      intent.Some? && intent.value.extra.Extracted? && !renderThrows
      && !(intent.value.extra.parameter.foregroundServiceTypes == Some([]) && sdk >= VersionQ)
      <==> StartsForeground(o)
  {
    var o := OnStartCommand(intent, sdk, renderThrows, false);
    if intent.Some? && intent.value.extra.Extracted? && !renderThrows
      && !(intent.value.extra.parameter.foregroundServiceTypes == Some([]) && sdk >= VersionQ) {
      assert o.calls[1] in o.calls;
    }
  }
}
