/**
 * The lease decision of Components.ComponentSessionCleanupTrigger.run, with the clock
 * passed in: on each tick a session is either kept (possibly with a "will expire"
 * notification, and with the delay until the next tick) or released.
 * Times are milliseconds.
 */
module SessionLease {
  import opened JavaLang

  /** The first "will expire" notification is due this long before the lifetime ends. */
  const WILL_EXPIRE_WINDOW_MS: int := 90_000
  /** Each notification moves the next one this much later. */
  const NOTIFICATION_INTERVAL_MS: int := 30_000
  /** Added to every reschedule delay. */
  const RESCHEDULE_SLACK_MS: int := 10

  /** init(): a configured maximum session duration of zero means "unlimited" (Long.MAX_VALUE ms). */
  function MaxSessionLifetime(configuredMs: int): (lifetime: int)
    ensures configuredMs == 0 ==> lifetime == LONG_MAX
    ensures configuredMs != 0 ==> lifetime == configuredMs
    ensures 0 <= configuredMs <= LONG_MAX ==> 0 < lifetime <= LONG_MAX
  {
    if configuredMs == 0 then LONG_MAX else configuredMs
  }

  /** The trigger's initial nextNotificationTimeout. */
  function FirstNotificationThreshold(lifetime: int): int {
    lifetime - WILL_EXPIRE_WINDOW_MS
  }

  function Min(a: int, b: int): int {
    if a <= b then a else b
  }

  datatype Decision =
    | Keep(notifyWillExpire: bool, nextThreshold: int, delay: int)
    | Release(notifyExpired: bool)

  /**
   * One tick at time `now` for a session started at `startTs` whose last keepalive was
   * at `keepaliveTs`, with keepalive timeout `timeout`, lifetime `lifetime`, the
   * trigger's current notification threshold, and whether an event sink is attached.
   * A kept session is always checked again strictly later, and no later than the slack
   * after its keepalive deadline.
   */
  function Decide(now: int, keepaliveTs: int, startTs: int, timeout: int, lifetime: int,
                  threshold: int, hasSink: bool): (d: Decision)
    ensures d.Keep? <==> now - keepaliveTs < timeout && now - startTs < lifetime
    ensures d.Keep? ==> RESCHEDULE_SLACK_MS < d.delay <= keepaliveTs + timeout - now + RESCHEDULE_SLACK_MS
  {
    var duration := now - startTs;
    var elapsed := now - keepaliveTs;
    if elapsed < timeout && duration < lifetime then
      var notify := hasSink && duration >= threshold;
      var next := if notify then threshold + NOTIFICATION_INTERVAL_MS else threshold;
      var gap := if duration < next then next - duration else lifetime - duration;
      Keep(notify, next, Min(gap, timeout - elapsed) + RESCHEDULE_SLACK_MS)
    else
      Release(hasSink && duration >= lifetime)
  }

  /**
   * A session that was never kept alive (keepalive timestamp still 0) is released at the
   * trigger's first tick, which is scheduled `timeout` ms after creation.
   */
  lemma NeverKeptAliveReleasedAtFirstTick(startTs: int, timeout: int, lifetime: int, threshold: int, hasSink: bool)
    requires startTs >= 0
    ensures Decide(startTs + timeout, 0, startTs, timeout, lifetime, threshold, hasSink).Release?
  {
  }

  /**
   * A keepalive timeout alone (lifetime not yet reached) releases the session without an
   * "expired" notification; reaching the lifetime releases it whatever the keepalives,
   * with the notification exactly when a sink is attached.
   */
  lemma ExpiredNotificationOnlyAtLifetime(now: int, keepaliveTs: int, startTs: int, timeout: int,
                                          lifetime: int, threshold: int, hasSink: bool)
    ensures var d := Decide(now, keepaliveTs, startTs, timeout, lifetime, threshold, hasSink);
      && (now - startTs >= lifetime ==> d == Release(hasSink))
      && (now - startTs < lifetime && now - keepaliveTs >= timeout ==> d == Release(false))
  {
  }

  /** With the lifetime cap disabled, only the keepalive timeout can release a session. */
  lemma DisabledLifetimeOnlyTimesOut(now: int, keepaliveTs: int, startTs: int, timeout: int,
                                     threshold: int, hasSink: bool)
    requires now - startTs < LONG_MAX
    ensures Decide(now, keepaliveTs, startTs, timeout, MaxSessionLifetime(0), threshold, hasSink).Keep?
            <==> now - keepaliveTs < timeout
  {
  }

  /**
   * The ticks of one trigger while no keepalive arrives, starting at `now`: the time at
   * which release is submitted. It comes at the latest the slack after the keepalive
   * deadline.
   */
  function IdleReleaseTime(now: int, keepaliveTs: int, startTs: int, timeout: int, lifetime: int,
                           threshold: int, hasSink: bool): (t: int)
    ensures t >= now
    ensures now - keepaliveTs < timeout ==> t <= keepaliveTs + timeout + RESCHEDULE_SLACK_MS
    decreases keepaliveTs + timeout - now
  {
    match Decide(now, keepaliveTs, startTs, timeout, lifetime, threshold, hasSink)
    case Release(_) => now
    case Keep(_, next, delay) =>
      IdleReleaseTime(now + delay, keepaliveTs, startTs, timeout, lifetime, next, hasSink)
  }

  /** What a tick observes: the clock, the session's keepalive timestamp, and whether a sink is attached. */
  datatype Observation = Observation(now: int, keepaliveTs: int, hasSink: bool)

  datatype TickTrace = TickTrace(notifications: nat, threshold: int, released: bool)

  /**
   * Runs the trigger over successive ticks until one decides to release; counts the
   * "will expire" notifications sent and returns the final threshold.
   */
  function RunTicks(ticks: seq<Observation>, startTs: int, timeout: int, lifetime: int, threshold: int): (r: TickTrace)
    ensures r.threshold == threshold + NOTIFICATION_INTERVAL_MS * r.notifications
    ensures r.notifications > 0 ==> r.threshold - NOTIFICATION_INTERVAL_MS < lifetime
    decreases |ticks|
  {
    if ticks == [] then TickTrace(0, threshold, false)
    else
      var o := ticks[0];
      match Decide(o.now, o.keepaliveTs, startTs, timeout, lifetime, threshold, o.hasSink)
      case Release(_) => TickTrace(0, threshold, true)
      case Keep(notify, next, _) =>
        var rest := RunTicks(ticks[1..], startTs, timeout, lifetime, next);
        TickTrace(rest.notifications + (if notify then 1 else 0), rest.threshold, rest.released)
  }

  /**
   * The cleanup trigger sends a session at most three "will expire" notifications over its
   * whole life (the one-off that setEventSink schedules is not the trigger's).
   */
  lemma AtMostThreeWillExpireNotifications(ticks: seq<Observation>, startTs: int, timeout: int, lifetime: int)
    ensures RunTicks(ticks, startTs, timeout, lifetime, FirstNotificationThreshold(lifetime)).notifications <= 3
  {
  }
}
