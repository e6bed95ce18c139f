/**
 * The component-session lifecycle of the Components frontend: the session object
 * (keepalive timestamp, start timestamp, release-once flag), the id -> session registry
 * with register / unregister / keepalive / hasComponentSession / release, session
 * creation, and the self-rescheduling cleanup trigger, driven by an explicit tick.
 */
module Components {
  import opened JavaLang
  import opened TaskStacks
  import opened SessionLease

  /** The last cleanup task createComponent pushes: "unregister-session/<id>". */
  function UnregisterTask(id: string): Task {
    Task("unregister-session/" + id, UnregisterSession(id))
  }

  /** The session ids whose unregister task is among `ran`. */
  function UnregisteredIds(ran: seq<Task>): set<string> {
    set t | t in ran && t.action.UnregisterSession? :: t.action.sessionId
  }

  lemma UnregisteredIdsAppend(ran: seq<Task>, t: Task)
    ensures UnregisteredIds(ran + [t])
            == UnregisteredIds(ran) + (if t.action.UnregisterSession? then {t.action.sessionId} else {})
  {
    var extra := if t.action.UnregisterSession? then {t.action.sessionId} else {};
    forall x | x in UnregisteredIds(ran) + extra ensures x in UnregisteredIds(ran + [t]) {
      if x in UnregisteredIds(ran) {
        var u :| u in ran && u.action.UnregisterSession? && u.action.sessionId == x;
        assert u in ran + [t];
      } else {
        assert t in ran + [t];
      }
    }
  }

  lemma RanUnregisterRemoves(ran: seq<Task>, id: string)
    requires UnregisterTask(id) in ran
    ensures id in UnregisteredIds(ran)
  {
    var t := UnregisterTask(id);
    assert t.action.sessionId == id;
  }

  class ComponentSession {
    const id: string
    const startTimestamp: int
    var keepaliveTimestamp: int
    var released: bool
    /** The session's cleanup tasks, shared with the code that created the component. */
    const tasks: TaskStack
    /** Whether setEventSink was called (the SSE sink itself is transport). */
    var hasEventSink: bool

    constructor (id: string, tasks: TaskStack, now: int)
      ensures this.id == id && this.tasks == tasks && startTimestamp == now
      ensures keepaliveTimestamp == 0 && !released && !hasEventSink
    {
      this.id := id;
      this.tasks := tasks;
      startTimestamp := now;
      keepaliveTimestamp := 0;
      released := false;
      hasEventSink := false;
    }

    /**
     * keepalive(): records the current time, then forwards the keepalive to the
     * component proxy, whose outcome is `forwarded`; the timestamp is set either way.
     */
    method Keepalive(now: int, forwarded: Outcome) returns (r: Outcome)
      modifies this`keepaliveTimestamp
      ensures keepaliveTimestamp == now
      ensures r == forwarded
    {
      keepaliveTimestamp := now;
      r := forwarded;
    }

    /**
     * release(): only the first call drains its TaskStack (most recently pushed task
     * first); any later call returns at once. `ran` lists those that ran.
     */
    method Release() returns (ran: seq<Task>)
      modifies this`released, tasks
      ensures released
      ensures old(released) ==> ran == [] && tasks.tasks == old(tasks.tasks)
      ensures !old(released) ==> ran == old(tasks.tasks) && tasks.tasks == []
    {
      if released {
        ran := [];
        return;
      }
      released := true;
      var ok;
      ok, ran := tasks.Execute();
    }

    /**
     * setEventSink(): attaches the sink; when the lifetime cap is on, a one-off
     * "will expire" notification is also scheduled (10 s later). `lifetime` is the
     * registry's maxSessionDuration (Components.maxSessionDuration), which the code
     * reads from the enclosing frontend.
     */
    method SetEventSink(lifetime: int) returns (scheduledNotification: bool)
      modifies this`hasEventSink
      ensures hasEventSink
      ensures scheduledNotification == (lifetime < LONG_MAX)
    {
      hasEventSink := true;
      scheduledNotification := lifetime < LONG_MAX;
    }
  }

  /** ComponentSessionCleanupTrigger: the lease check of one session. */
  class CleanupTrigger {
    const session: ComponentSession
    const timeout: int
    const lifetime: int
    var nextNotificationTimeout: int

    constructor (session: ComponentSession, timeout: int, lifetime: int)
      ensures this.session == session && this.timeout == timeout && this.lifetime == lifetime
      ensures nextNotificationTimeout == FirstNotificationThreshold(lifetime)
    {
      this.session := session;
      this.timeout := timeout;
      this.lifetime := lifetime;
      nextNotificationTimeout := lifetime - WILL_EXPIRE_WINDOW_MS;
    }

    /**
     * run() at time `now`: the decision is the lease decision on the session's current
     * timestamps, and the threshold advances exactly when a notification is sent.
     */
    method Run(now: int) returns (d: Decision)
      modifies this`nextNotificationTimeout
      ensures d == Decide(now, session.keepaliveTimestamp, session.startTimestamp, timeout, lifetime,
                          old(nextNotificationTimeout), session.hasEventSink)
      ensures nextNotificationTimeout == if d.Keep? then d.nextThreshold else old(nextNotificationTimeout)
    {
      var curts := now;
      var prevts := session.keepaliveTimestamp;
      var duration := curts - session.startTimestamp;
      var elapsed := curts - prevts;
      if elapsed < timeout && duration < lifetime {
        var notify := false;
        if session.hasEventSink && duration >= nextNotificationTimeout {
          notify := true;
          nextNotificationTimeout := nextNotificationTimeout + NOTIFICATION_INTERVAL_MS;
        }
        var delay := if duration < nextNotificationTimeout then nextNotificationTimeout - duration
                     else lifetime - duration;
        d := Keep(notify, nextNotificationTimeout, Min(delay, timeout - elapsed) + RESCHEDULE_SLACK_MS);
      } else {
        d := Release(session.hasEventSink && duration >= lifetime);
      }
    }
  }

  /** The Components frontend's session registry and its timing configuration. */
  class Components {
    var sessions: map<string, ComponentSession>
    /** components.client_timeout, in ms. */
    const sessionExpirationTimeout: int
    /** emil.max_session_duration after init()'s normalisation, in ms. */
    const maxSessionDuration: int

    /**
     * Every registered session is registered under its own id, has not been released,
     * and still holds its unregister task.
     */
    ghost predicate Valid()
      reads this, sessions.Values, set s | s in sessions.Values :: s.tasks
    {
      forall id :: id in sessions ==>
        && sessions[id].id == id
        && !sessions[id].released
        && UnregisterTask(id) in sessions[id].tasks.tasks
    }

    /** init(): an empty registry; a zero maximum duration is turned into "unlimited". */
    constructor (clientTimeout: int, configuredMaxDuration: int)
      ensures Valid() && sessions == map[]
      ensures sessionExpirationTimeout == clientTimeout
      ensures maxSessionDuration == MaxSessionLifetime(configuredMaxDuration)
      ensures configuredMaxDuration == 0 ==> maxSessionDuration == LONG_MAX
    {
      sessions := map[];
      sessionExpirationTimeout := clientTimeout;
      maxSessionDuration := if configuredMaxDuration == 0 then LONG_MAX else configuredMaxDuration;
    }

    /** hasComponentSession(componentId): whether a session is registered under the id. */
    predicate HasComponentSession(id: string): (r: bool)
      reads this
      ensures r <==> id in sessions.Keys
    {
      id in sessions
    }

    /** The session registered under `id`, if any, as a set. */
    function SessionOf(id: string): set<ComponentSession>
      reads this
    {
      if id in sessions then {sessions[id]} else {}
    }

    /** The task stack of the session registered under `id`, if any, as a set. */
    function TasksOf(id: string): set<TaskStack>
      reads this, SessionOf(id)
    {
      if id in sessions then {sessions[id].tasks} else {}
    }

    /** register(): inserts the session under its id. */
    method Register(session: ComponentSession)
      requires Valid()
      requires !session.released && UnregisterTask(session.id) in session.tasks.tasks
      modifies this`sessions
      ensures sessions == old(sessions)[session.id := session]
      ensures Valid()
    {
      sessions := sessions[session.id := session];
    }

    /** unregister(): removes whatever is registered under the session's id. */
    method Unregister(id: string)
      modifies this`sessions
      ensures sessions == old(sessions) - {id}
    {
      sessions := sessions - {id};
    }

    /**
     * The tail of createComponent: wraps the created component's cleanup tasks in a new
     * session, pushes its unregister task on top, registers it and creates its cleanup
     * trigger, whose first tick comes `sessionExpirationTimeout` ms later.
     */
    method CreateComponent(cid: string, cleanups: TaskStack, now: int)
      returns (session: ComponentSession, trigger: CleanupTrigger, firstDelay: int)
      requires Valid()
      modifies this`sessions, cleanups
      ensures Valid()
      ensures fresh(session) && fresh(trigger)
      ensures session.id == cid && session.tasks == cleanups && session.startTimestamp == now
      ensures session.keepaliveTimestamp == 0 && !session.released && !session.hasEventSink
      ensures cleanups.tasks == [UnregisterTask(cid)] + old(cleanups.tasks)
      ensures sessions == old(sessions)[cid := session]
      ensures HasComponentSession(cid)
      ensures trigger.session == session && trigger.timeout == sessionExpirationTimeout
      ensures trigger.lifetime == maxSessionDuration
      ensures trigger.nextNotificationTimeout == FirstNotificationThreshold(maxSessionDuration)
      ensures firstDelay == sessionExpirationTimeout
    {
      session := new ComponentSession(cid, cleanups, now);
      cleanups.Push(UnregisterTask(cid));
      Register(session);
      trigger := new CleanupTrigger(session, sessionExpirationTimeout, maxSessionDuration);
      firstDelay := sessionExpirationTimeout;
    }

    /**
     * keepalive(componentId): an unknown id gives false and changes nothing; a known id
     * has its session's keepalive timestamp set to `now` and gives true, unless
     * forwarding the keepalive to the component failed (`forwarded`).
     */
    method Keepalive(id: string, now: int, forwarded: Outcome) returns (r: Result<bool>)
      requires Valid()
      modifies SessionOf(id)`keepaliveTimestamp
      ensures Valid() && sessions == old(sessions)
      ensures !HasComponentSession(id) ==> r == Ok(false)
      ensures id in sessions ==> sessions[id].keepaliveTimestamp == now
      ensures id in sessions ==> r == if forwarded.Pass? then Ok(true) else Err(forwarded.message)
    {
      if id !in sessions {
        return Ok(false);
      }
      var session := sessions[id];
      var outcome := session.Keepalive(now, forwarded);
      r := if outcome.Pass? then Ok(true) else Err(outcome.message);
    }

    /** Runs the unregister tasks among `ran`, in order. */
    method ApplyUnregisters(ran: seq<Task>)
      modifies this`sessions
      ensures sessions == old(sessions) - UnregisteredIds(ran)
    {
      for k := 0 to |ran|
        invariant sessions == old(sessions) - UnregisteredIds(ran[..k])
      {
        assert ran[..k + 1] == ran[..k] + [ran[k]];
        UnregisteredIdsAppend(ran[..k], ran[k]);
        if ran[k].action.UnregisterSession? {
          Unregister(ran[k].action.sessionId);
        }
      }
      assert ran[..|ran|] == ran;
    }

    /**
     * session.release() followed by the effects of its tasks on the registry: the first
     * release drains the session's tasks and so removes it, and every session sharing
     * its task stack, from the registry; a repeated release changes nothing.
     */
    method ReleaseSession(s: ComponentSession) returns (ran: seq<Task>)
      requires Valid()
      modifies this`sessions, s`released, s.tasks
      ensures Valid()
      ensures s.released
      ensures old(s.released) ==> ran == [] && sessions == old(sessions)
      ensures !old(s.released) ==> ran == old(s.tasks.tasks) && s.tasks.tasks == []
      ensures sessions == old(sessions) - UnregisteredIds(ran)
      ensures forall id :: id in old(sessions) && old(sessions[id]) == s ==> id !in sessions
    {
      ran := s.Release();
      ApplyUnregisters(ran);
      forall id | id in sessions
        ensures sessions[id].id == id && !sessions[id].released
        ensures UnregisterTask(id) in sessions[id].tasks.tasks
      {
        var t := sessions[id];
        assert t == old(sessions[id]);
        if !old(s.released) && (t == s || t.tasks == s.tasks) {
          RanUnregisterRemoves(ran, id);
          assert false;
        }
      }
      forall id | id in old(sessions) && old(sessions[id]) == s ensures id !in sessions {
        if !old(s.released) {
          RanUnregisterRemoves(ran, id);
        }
      }
    }

    /**
     * releaseComponent(componentId): an unknown id is "not found" and changes nothing;
     * a known one is released: its tasks run (`ran`, most recently pushed first), its task
     * stack is left empty, and it is no longer registered afterwards.
     */
    method ReleaseComponent(id: string) returns (r: Outcome, ran: seq<Task>)
      requires Valid()
      modifies this`sessions, SessionOf(id)`released, TasksOf(id)
      ensures Valid()
      ensures id !in old(sessions) ==> r == Fail("Could not find component.") && ran == [] && sessions == old(sessions)
      ensures id in old(sessions) ==> r == Pass && ran == old(sessions[id].tasks.tasks)
      ensures id in old(sessions) ==> old(sessions[id]).released && old(sessions[id]).tasks.tasks == []
      ensures id in old(sessions) ==> !HasComponentSession(id) && sessions == old(sessions) - UnregisteredIds(ran)
    {
      if id !in sessions {
        return Fail("Could not find component."), [];
      }
      ran := ReleaseSession(sessions[id]);
      r := Pass;
    }

    /**
     * One tick of a session's cleanup trigger at time `now`: it decides, and on a release
     * decision the session is released (the executor hand-off is made synchronous); `ran`
     * are the tasks that release ran.
     */
    method Tick(trigger: CleanupTrigger, now: int) returns (d: Decision, ran: seq<Task>)
      requires Valid()
      modifies trigger`nextNotificationTimeout, this`sessions, trigger.session`released, trigger.session.tasks
      ensures Valid()
      ensures d == Decide(now, trigger.session.keepaliveTimestamp, trigger.session.startTimestamp,
                          trigger.timeout, trigger.lifetime, old(trigger.nextNotificationTimeout),
                          trigger.session.hasEventSink)
      ensures d.Keep? ==> sessions == old(sessions) && trigger.nextNotificationTimeout == d.nextThreshold
      ensures d.Keep? ==>
        && ran == []
        && trigger.session.released == old(trigger.session.released)
        && trigger.session.tasks.tasks == old(trigger.session.tasks.tasks)
      ensures d.Release? ==> trigger.session.released && trigger.nextNotificationTimeout == old(trigger.nextNotificationTimeout)
      ensures d.Release? ==> sessions == old(sessions) - UnregisteredIds(ran)
      ensures d.Release? && old(trigger.session.released) ==> ran == []
      ensures d.Release? && !old(trigger.session.released) ==>
        ran == old(trigger.session.tasks.tasks) && trigger.session.tasks.tasks == []
      ensures d.Release? ==> forall id :: id in old(sessions) && old(sessions[id]) == trigger.session ==> id !in sessions
    {
      d := trigger.Run(now);
      ran := [];
      if d.Release? {
        ran := ReleaseSession(trigger.session);
      }
    }
  }

  /** Create, keep alive and release one session; a second release finds nothing. */
  method SessionRoundTrip() {
    var frontend := new Components(60_000, 0);
    var cleanups := new TaskStack();
    cleanups.Push(Task("release-session/gw-1", External(false)));
    var session, trigger, delay := frontend.CreateComponent("c1", cleanups, 1_000);
    assert frontend.HasComponentSession("c1");
    var alive := frontend.Keepalive("c1", 30_000, Pass);
    assert alive == Ok(true);
    var r, ran := frontend.ReleaseComponent("c1");
    assert r == Pass && UnregisterTask("c1") in ran && !frontend.HasComponentSession("c1");
    r, ran := frontend.ReleaseComponent("c1");
    assert r.Fail? && ran == [];
    var missing := frontend.Keepalive("c1", 40_000, Pass);
    assert missing == Ok(false);
  }
}
