/**
 * The time machine: a per-context override of "now" that lets organizers
 * with the right permission look at a test-mode shop as of another date.
 * `time_machine_now` reads the override with a fallback; the two
 * context managers set it for the length of a block and clear it again
 * when the block is left.
 *
 * Instants are whole seconds. `now()` is the parameter `wallClock`; the
 * date parser `dateutil.parser.parse` is the parameter `parse`.
 */
module TimeMachine {
  import opened Wrappers

  type Instant = int

  /** The `default` argument of `time_machine_now`: left at `False`, or given explicitly (a datetime or `None`). */
  datatype Fallback = WallClock | Given(value: Option<Instant>)

  /** What `time_machine_now` returns when no override is set. */
  function FallbackValue(default: Fallback, wallClock: Instant): (r: Option<Instant>)
    ensures default.WallClock? ==> r == Some(wallClock)
    ensures default.Given? ==> r == default.value
  {
    match default
    case WallClock => Some(wallClock)
    case Given(v) => v
  }

  /** The attributes of a request the override depends on, and the two it sets. */
  class Request {
    const hasEvent: bool
    /** `request.session['timemachine_now_dt']`, if the session holds it. */
    const sessionNowDt: Option<string>
    const eventTestmode: bool
    const userAuthenticated: bool
    /** Whether the user holds `can_change_event_settings` for the event. */
    const canChangeEventSettings: bool
    var nowDt: Instant
    var nowDtIsFake: bool

    constructor (hasEvent: bool, sessionNowDt: Option<string>, eventTestmode: bool,
                 userAuthenticated: bool, canChangeEventSettings: bool)
      ensures this.hasEvent == hasEvent && this.sessionNowDt == sessionNowDt
      ensures this.eventTestmode == eventTestmode && this.userAuthenticated == userAuthenticated
      ensures this.canChangeEventSettings == canChangeEventSettings
      ensures nowDt == 0 && !nowDtIsFake
    {
      this.hasEvent := hasEvent;
      this.sessionNowDt := sessionNowDt;
      this.eventTestmode := eventTestmode;
      this.userAuthenticated := userAuthenticated;
      this.canChangeEventSettings := canChangeEventSettings;
      nowDt := 0;
      nowDtIsFake := false;
    }
  }

  /** A request sees a faked time only when all five conditions hold. */
  predicate FakeTime(request: Request) {
    && request.hasEvent
    && request.sessionNowDt.Some?
    && request.eventTestmode
    && request.userAuthenticated
    && request.canChangeEventSettings
  }

  /** `timemachine_now_var`: the override of the current context. */
  class Clock {
    var override: Option<Instant>

    /** A fresh context: the variable's default is `None`. */
    constructor ()
      ensures override == None
    {
      override := None;
    }

    /** `time_machine_now(default)`: the override wins whatever the default; without one, the fallback. */
    function Now(default: Fallback, wallClock: Instant): (r: Option<Instant>)
      reads this
      ensures override.Some? ==> r == override
      ensures override.None? ==> r == FallbackValue(default, wallClock)
      ensures r.None? <==> override.None? && default == Given(None)
    {
      if override.Some? then override else FallbackValue(default, wallClock)
    }

    /**
     * `with time_machine_now_assigned(nowDt):` around a block that reads
     * the clock once; `inside` is what that read returns. The override is
     * cleared when the block is left, whatever it was before.
     */
    method Assigned(nowDt: Instant, default: Fallback, wallClock: Instant) returns (inside: Option<Instant>)
      modifies this
      ensures inside == Some(nowDt)
      ensures override == None
    {
      override := Some(nowDt);
      inside := Now(default, wallClock);
      override := None;
    }

    /**
     * An assigned block inside another: once the inner block is left, the
     * outer block no longer sees its own override but the fallback.
     */
    method NestedAssigned(outer: Instant, inner: Instant, default: Fallback, wallClock: Instant)
      returns (insideInner: Option<Instant>, afterInner: Option<Instant>)
      modifies this
      ensures insideInner == Some(inner)
      ensures afterInner == FallbackValue(default, wallClock)
      ensures override == None
    {
      override := Some(outer);
      insideInner := Assigned(inner, default, wallClock);
      afterInner := Now(default, wallClock);
      override := None;
    }

    /**
     * `with time_machine_now_assigned_from_request(request):` around a block
     * that reads the clock once. The request records its time and whether it
     * is faked; the override is that time only when it is faked, and is
     * cleared when the block is left.
     */
    method AssignedFromRequest(request: Request, parse: string -> Instant, default: Fallback, wallClock: Instant)
      returns (inside: Option<Instant>)
      modifies this, request
      ensures request.nowDtIsFake == FakeTime(request)
      ensures FakeTime(request) ==> request.nowDt == parse(request.sessionNowDt.value) && inside == Some(request.nowDt)
      ensures !FakeTime(request) ==> request.nowDt == wallClock && inside == FallbackValue(default, wallClock)
      ensures override == None
    {
      if request.hasEvent && request.sessionNowDt.Some? && request.eventTestmode
         && request.userAuthenticated && request.canChangeEventSettings {
        request.nowDt := parse(request.sessionNowDt.value);
        request.nowDtIsFake := true;
      } else {
        request.nowDt := wallClock;
        request.nowDtIsFake := false;
      }
      override := if request.nowDtIsFake then Some(request.nowDt) else None;
      inside := Now(default, wallClock);
      override := None;
    }
  }

  /** Without an override, `now()` is what the default `False` gives and `None` gives nothing. */
  lemma NoOverrideFallbacks(c: Clock, wallClock: Instant)
    requires c.override == None
    ensures c.Now(WallClock, wallClock) == Some(wallClock)
    ensures c.Now(Given(None), wallClock) == None
  {
  }

  /** With an override, every default gives the same answer. */
  lemma OverrideIgnoresDefault(c: Clock, d1: Fallback, d2: Fallback, w1: Instant, w2: Instant)
    requires c.override.Some?
    ensures c.Now(d1, w1) == c.Now(d2, w2) == c.override
  {
  }
}
