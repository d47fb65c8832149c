/**
 * The UI state reducers: date coercion, the focus (fullscreen), dark-mode and
 * messaging setters, and the downtime initialiser. Each reducer overwrites
 * fields of the caller's state record in place and reports what changed.
 *
 * Instants are milliseconds since the epoch. The clock is a parameter
 * (`clock`), and the parsing of date strings, which belongs to the host's
 * date library, is a function parameter (`parse`).
 */
module StateCore {
  import opened Wrappers

  /** The JavaScript values the reducers inspect. */
  datatype Value =
    | Absent                        // null or undefined
    | DateValue(time: Option<int>)  // a Date object; None is an invalid date
    | NumberValue(n: real)          // a finite number
    | StringValue(s: string)
    | OtherValue                    // any other value (a boolean, a plain object, ...)

  /** The largest distance from the epoch, in milliseconds, a Date can hold (TimeClip of ECMA-262). */
  const MaxTime: int := 8_640_000_000_000_000

  /** A number truncated towards zero. */
  function Truncate(n: real): (t: int)
    ensures n >= 0.0 ==> t as real <= n < t as real + 1.0
    ensures n < 0.0 ==> t as real - 1.0 < n <= t as real
  {
    if n >= 0.0 then n.Floor else -((-n).Floor)
  }

  /** The time of `new Date(n)` for a finite number `n`; None when it is out of range. */
  function TimeClip(n: real): (r: Option<int>)
    ensures r.Some? <==> -MaxTime as real <= n <= MaxTime as real
    ensures r.Some? ==> r.value == Truncate(n)
    ensures r.Some? ==> -MaxTime <= r.value <= MaxTime
  {
    if -MaxTime as real <= n <= MaxTime as real then Some(Truncate(n)) else None
  }

  /** The valid instant a value denotes by itself: a valid Date, a number in range, or a string the parser accepts. */
  function OwnInstant(v: Value, parse: string -> Option<int>): Option<int> {
    match v
    case DateValue(t) => t
    case NumberValue(n) => TimeClip(n)
    case StringValue(str) => parse(str)
    case _ => None
  }

  /** A Date object holding a valid instant. */
  predicate IsValidDate(v: Value) {
    v.DateValue? && v.time.Some?
  }

  /**
   * coerceDate(value, fallback): the first valid candidate among `value`
   * itself, its numeric reading and its parse, then `fallback` — which is
   * used only when it is itself a valid Date — and otherwise null.
   */
  function CoerceDate(value: Value, fallback: Value, parse: string -> Option<int>): (r: Option<int>)
    ensures OwnInstant(value, parse).Some? ==> r == OwnInstant(value, parse)
    ensures OwnInstant(value, parse).None? && IsValidDate(fallback) ==> r == fallback.time
    ensures r.None? <==> OwnInstant(value, parse).None? && !IsValidDate(fallback)
  {
    if value.DateValue? && value.time.Some? then value.time
    else if value.NumberValue? && TimeClip(value.n).Some? then TimeClip(value.n)
    else if value.StringValue? && parse(value.s).Some? then parse(value.s)
    else if fallback.DateValue? && fallback.time.Some? then fallback.time
    else None
  }

  /** A coerced instant as a value: a Date, or null. */
  function AsValue(t: Option<int>): (v: Value)
    ensures t.Some? ==> IsValidDate(v) && v.time == t
    ensures t.None? ==> v == Absent
  {
    if t.Some? then DateValue(t) else Absent
  }

  /**
   * The `since` instant focus mode records when it is enabled: a valid
   * `options.since`, else a valid stored `fullscreenSince`, else `now`,
   * where `now` is `options.now` when that is a Date and the clock otherwise.
   */
  function FocusSince(optionsNow: Value, optionsSince: Value, stored: Value, clock: int, parse: string -> Option<int>): (since: Value)
    ensures since.DateValue?
    ensures OwnInstant(optionsSince, parse).Some? ==> since == DateValue(OwnInstant(optionsSince, parse))
    ensures OwnInstant(optionsSince, parse).None? && OwnInstant(stored, parse).Some? ==> since == DateValue(OwnInstant(stored, parse))
    ensures OwnInstant(optionsSince, parse).None? && OwnInstant(stored, parse).None? ==>
      since == (if optionsNow.DateValue? then optionsNow else DateValue(Some(clock)))
  {
    var now := if optionsNow.DateValue? then optionsNow else DateValue(Some(clock));
    var coerced := CoerceDate(optionsSince, AsValue(CoerceDate(stored, now, parse)), parse);
    if coerced.Some? then DateValue(coerced) else now
  }

  /** The downtime length in hours: the given value when it is a positive number, else 24. */
  function DowntimeHours(duration: Value): (h: real)
    ensures h > 0.0
    ensures duration.NumberValue? && duration.n > 0.0 ==> h == duration.n
    ensures !(duration.NumberValue? && duration.n > 0.0) ==> h == 24.0
  {
    if duration.NumberValue? && duration.n > 0.0 then duration.n else 24.0
  }

  /** The instant downtime starts at: what `options.now` denotes when it is valid, else the clock. */
  function DowntimeStart(optionsNow: Value, clock: int, parse: string -> Option<int>): (t: int)
    ensures OwnInstant(optionsNow, parse).Some? ==> t == OwnInstant(optionsNow, parse).value
    ensures OwnInstant(optionsNow, parse).None? ==> t == clock
  {
    var coerced := CoerceDate(optionsNow, DateValue(Some(clock)), parse);
    if coerced.Some? then coerced.value else clock
  }

  /** The errors the reducers throw. */
  datatype ReducerError =
    | StateRequired    // the state record is missing
    | OptionsRequired  // an options object passed as `null` is read

  /**
   * The fields of an options object the reducers read. An omitted argument
   * defaults to `{}`, whose fields are `Absent`; `None` is an explicit `null`.
   */
  datatype FocusOptions = FocusOptions(now: Value, since: Value)
  datatype DowntimeOptions = DowntimeOptions(now: Value, durationHours: Value)

  /** What a boolean setter reports. */
  datatype Change = Change(changed: bool)

  /** What the focus setter reports. */
  datatype FocusChange = FocusChange(changed: bool, since: Value)

  /** What the downtime initialiser reports. */
  datatype DowntimeStarted = DowntimeStarted(startTime: int, durationHours: real)

  /**
   * The shared UI state record. A field the record does not hold
   * (`undefined`) reads as `false` for the flags and as `Absent` otherwise.
   */
  class UiState {
    var fullscreenMode: bool
    var fullscreenSince: Value
    var darkMode: bool
    var messagesOn: bool
    var downtimeStarted: bool
    var downtimeStartTime: Value
    var downtimeDuration: Value
    var downtimePaused: bool
    var pausedDuration: Value
    var pauseStartTime: Value

    /** An empty record, `{}`. */
    constructor ()
      ensures !fullscreenMode && fullscreenSince == Absent
      ensures !darkMode && !messagesOn
      ensures !downtimeStarted && downtimeStartTime == Absent && downtimeDuration == Absent
      ensures !downtimePaused && pausedDuration == Absent && pauseStartTime == Absent
    {
      fullscreenMode, fullscreenSince := false, Absent;
      darkMode, messagesOn := false, false;
      downtimeStarted, downtimeStartTime, downtimeDuration := false, Absent, Absent;
      downtimePaused, pausedDuration, pauseStartTime := false, Absent, Absent;
    }
  }

  /** The record a reducer may write: `state` itself, or nothing when it is null. */
  function RecordOf(state: UiState?): set<UiState> {
    if state == null then {} else {state}
  }

  /**
   * ensureFocusState(state, active, options): sets focus mode to `active`;
   * enabling records the instant `FocusSince` chooses, disabling clears it.
   * A `null` options object throws when enabling, where `options.now` is
   * read, and before anything is written; disabling never reads it.
   */
  method EnsureFocusState(state: UiState?, active: bool, options: Option<FocusOptions>, clock: int, parse: string -> Option<int>)
    returns (r: Result<FocusChange, ReducerError>)
    modifies RecordOf(state)`fullscreenMode, RecordOf(state)`fullscreenSince
    ensures state == null ==> r == Err(StateRequired)
    ensures state != null && active && options.None? ==>
      r == Err(OptionsRequired) && unchanged(state)
    ensures state != null && (!active || options.Some?) ==>
      && r.Ok?
      && state.fullscreenMode == active
      && r.value.changed == (old(state.fullscreenMode) != active)
      && (active ==> r.value.since == FocusSince(options.value.now, options.value.since, old(state.fullscreenSince), clock, parse))
      && (!active ==> r.value.since == Absent)
      && state.fullscreenSince == r.value.since
  {
    if state == null {
      return Err(StateRequired);
    }
    var previous := state.fullscreenMode;
    var since := Absent;
    if active {
      if options.None? {
        return Err(OptionsRequired);
      }
      since := FocusSince(options.value.now, options.value.since, state.fullscreenSince, clock, parse);
    }
    state.fullscreenMode := active;
    state.fullscreenSince := if active then since else Absent;
    return Ok(FocusChange(previous != active, since));
  }

  /** ensureDarkMode(state, enabled): sets the flag and reports whether it flipped. */
  method EnsureDarkMode(state: UiState?, enabled: bool) returns (r: Result<Change, ReducerError>)
    modifies RecordOf(state)`darkMode
    ensures state == null ==> r == Err(StateRequired)
    ensures state != null ==> state.darkMode == enabled && r == Ok(Change(old(state.darkMode) != enabled))
  {
    if state == null {
      return Err(StateRequired);
    }
    var previous := state.darkMode;
    state.darkMode := enabled;
    return Ok(Change(previous != enabled));
  }

  /** ensureMessagingState(state, enabled): sets the flag and reports whether it flipped. */
  method EnsureMessagingState(state: UiState?, enabled: bool) returns (r: Result<Change, ReducerError>)
    modifies RecordOf(state)`messagesOn
    ensures state == null ==> r == Err(StateRequired)
    ensures state != null ==> state.messagesOn == enabled && r == Ok(Change(old(state.messagesOn) != enabled))
  {
    if state == null {
      return Err(StateRequired);
    }
    var previous := state.messagesOn;
    state.messagesOn := enabled;
    return Ok(Change(previous != enabled));
  }

  /**
   * startDowntime(state, options): opens a downtime episode, resetting the
   * pause bookkeeping; the start and the length are echoed. A `null`
   * options object throws before anything is written.
   */
  method StartDowntime(state: UiState?, options: Option<DowntimeOptions>, clock: int, parse: string -> Option<int>)
    returns (r: Result<DowntimeStarted, ReducerError>)
    modifies RecordOf(state)`downtimeStarted, RecordOf(state)`downtimeStartTime, RecordOf(state)`downtimeDuration
    modifies RecordOf(state)`downtimePaused, RecordOf(state)`pausedDuration, RecordOf(state)`pauseStartTime
    ensures state == null ==> r == Err(StateRequired)
    ensures state != null && options.None? ==> r == Err(OptionsRequired) && unchanged(state)
    ensures state != null && options.Some? ==>
      && r == Ok(DowntimeStarted(DowntimeStart(options.value.now, clock, parse), DowntimeHours(options.value.durationHours)))
      && state.downtimeStarted
      && state.downtimeStartTime == DateValue(Some(r.value.startTime))
      && state.downtimeDuration == NumberValue(r.value.durationHours)
      && !state.downtimePaused
      && state.pausedDuration == NumberValue(0.0)
      && state.pauseStartTime == Absent
  {
    if state == null {
      return Err(StateRequired);
    }
    if options.None? {
      return Err(OptionsRequired);
    }
    var now := DowntimeStart(options.value.now, clock, parse);
    var durationHours := DowntimeHours(options.value.durationHours);
    state.downtimeStarted := true;
    state.downtimeStartTime := DateValue(Some(now));
    state.downtimeDuration := NumberValue(durationHours);
    state.downtimePaused := false;
    state.pausedDuration := NumberValue(0.0);
    state.pauseStartTime := Absent;
    return Ok(DowntimeStarted(now, durationHours));
  }

  /** Repeating ensureDarkMode with the same value reports no change the second time. */
  method RepeatDarkMode(state: UiState, enabled: bool) returns (first: Change, second: Change)
    modifies state`darkMode
    ensures state.darkMode == enabled
    ensures first.changed == (old(state.darkMode) != enabled)
    ensures !second.changed
  {
    var r1 := EnsureDarkMode(state, enabled);
    var r2 := EnsureDarkMode(state, enabled);
    first, second := r1.value, r2.value;
  }

  /** Repeating ensureMessagingState with the same value reports no change the second time. */
  method RepeatMessagingState(state: UiState, enabled: bool) returns (first: Change, second: Change)
    modifies state`messagesOn
    ensures state.messagesOn == enabled
    ensures first.changed == (old(state.messagesOn) != enabled)
    ensures !second.changed
  {
    var r1 := EnsureMessagingState(state, enabled);
    var r2 := EnsureMessagingState(state, enabled);
    first, second := r1.value, r2.value;
  }

  /**
   * Re-enabling focus without an explicit `since` reports no change and keeps
   * the recorded instant, whatever `now` the second call passes — provided the
   * first call did not take an invalid Date as `now`.
   */
  method ReenableFocusKeepsSince(state: UiState, options: FocusOptions, laterNow: Value, clock: int, laterClock: int, parse: string -> Option<int>)
    returns (first: FocusChange, second: FocusChange)
    requires !(options.now.DateValue? && options.now.time.None?)
    modifies state`fullscreenMode, state`fullscreenSince
    ensures state.fullscreenMode
    ensures IsValidDate(first.since)
    ensures !second.changed
    ensures second.since == first.since && state.fullscreenSince == first.since
  {
    var r1 := EnsureFocusState(state, true, Some(options), clock, parse);
    first := r1.value;
    assert OwnInstant(first.since, parse) == first.since.time;
    var r2 := EnsureFocusState(state, true, Some(FocusOptions(laterNow, Absent)), laterClock, parse);
    second := r2.value;
  }

  /** A date parser that accepts nothing; the replayed tests pass only Date objects. */
  function NoParse(s: string): Option<int> {
    None
  }

  /** 2024-01-01T00:00:00Z and 2024-01-01T00:05:00Z, in milliseconds. */
  const NewYear2024: int := 1_704_067_200_000
  const NewYear2024PlusFive: int := 1_704_067_500_000
  /** 2024-02-02T12:00:00Z, in milliseconds. */
  const February2Noon2024: int := 1_706_875_200_000

  /** testFocusStateLifecycle: enabling records a since, re-enabling keeps it, disabling clears it. */
  method FocusStateLifecycleScenario(clock: int)
    returns (enable: FocusChange, modeAfterEnable: bool, sinceAfterEnable: Value, second: FocusChange, keptSince: bool,
             disable: FocusChange, finalMode: bool, finalSince: Value)
    ensures modeAfterEnable && sinceAfterEnable == DateValue(Some(NewYear2024))
    ensures enable.changed && enable.since == sinceAfterEnable
    ensures !second.changed && keptSince
    ensures disable.changed && !finalMode && finalSince == Absent
  {
    var state := new UiState();
    var r1 := EnsureFocusState(state, true, Some(FocusOptions(DateValue(Some(NewYear2024)), Absent)), clock, NoParse);
    enable := r1.value;
    modeAfterEnable, sinceAfterEnable := state.fullscreenMode, state.fullscreenSince;
    var persistedSince := state.fullscreenSince;
    var r2 := EnsureFocusState(state, true, Some(FocusOptions(DateValue(Some(NewYear2024PlusFive)), Absent)), clock, NoParse);
    second := r2.value;
    keptSince := state.fullscreenSince == persistedSince;
    var r3 := EnsureFocusState(state, false, Some(FocusOptions(DateValue(Some(NewYear2024)), Absent)), clock, NoParse);
    disable := r3.value;
    finalMode, finalSince := state.fullscreenMode, state.fullscreenSince;
  }

  /** testDarkModeReducer: the first enable changes, a repeat does not, a disable does. */
  method DarkModeScenario() returns (enable: Change, second: Change, disable: Change, flagAfterEnable: bool)
    ensures enable.changed && flagAfterEnable
    ensures !second.changed
    ensures disable.changed
  {
    var state := new UiState();
    var r1 := EnsureDarkMode(state, true);
    enable, flagAfterEnable := r1.value, state.darkMode;
    var r2 := EnsureDarkMode(state, true);
    second := r2.value;
    var r3 := EnsureDarkMode(state, false);
    disable := r3.value;
  }

  /** testMessagingReducer: the first enable changes, a repeat does not, a disable does and clears the flag. */
  method MessagingScenario() returns (enable: Change, idempotent: Change, disable: Change, flagAfterEnable: bool, flagAfterDisable: bool)
    ensures enable.changed && flagAfterEnable
    ensures !idempotent.changed
    ensures disable.changed && !flagAfterDisable
  {
    var state := new UiState();
    var r1 := EnsureMessagingState(state, true);
    enable, flagAfterEnable := r1.value, state.messagesOn;
    var r2 := EnsureMessagingState(state, true);
    idempotent := r2.value;
    var r3 := EnsureMessagingState(state, false);
    disable, flagAfterDisable := r3.value, state.messagesOn;
  }

  /** testStartDowntimeReducer: the fields are reset, the given start and duration are stored and echoed. */
  method StartDowntimeScenario(clock: int) returns (result: DowntimeStarted, started: bool, paused: bool, pauseStart: Value, paused0: Value, duration: Value, startTime: Value)
    ensures started && !paused && pauseStart == Absent && paused0 == NumberValue(0.0)
    ensures duration == NumberValue(12.0)
    ensures startTime == DateValue(Some(February2Noon2024))
    ensures result.durationHours == 12.0
  {
    var state := new UiState();
    var r := StartDowntime(state, Some(DowntimeOptions(DateValue(Some(February2Noon2024)), NumberValue(12.0))), clock, NoParse);
    result := r.value;
    started, paused, pauseStart := state.downtimeStarted, state.downtimePaused, state.pauseStartTime;
    paused0, duration, startTime := state.pausedDuration, state.downtimeDuration, state.downtimeStartTime;
  }
}
