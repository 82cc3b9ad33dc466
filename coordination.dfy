/**
 * The distributed-locking coordination client of cinder/coordination.py:
 * the Lock wrapper that turns a backend ToozError into a None result, and the
 * Coordinator, which holds a backend session (`coordinator` in the source) and
 * a `started` flag, changed by start, _start, stop and the heartbeat loop.
 *
 * The backend (tooz) is abstract: every call into it takes the outcome it
 * has as a parameter. What the Coordinator does to the outside world (asking
 * for a session, calling start/stop/heartbeat on it, spawning the heartbeat
 * task, sleeping) is recorded in an event trace.
 */
module Coordination {
  import opened Wrappers
  import Naming

  /** How a backend call ended: it returned, or it raised ToozError. */
  datatype CallOutcome = Succeeded | ToozError

  /** How the connection sequence of _start ended. */
  datatype ConnectOutcome =
    | GetCoordinatorFailed   // get_coordinator(url, member_id) raised ToozError
    | SessionStartFailed     // the session was made, its start() raised ToozError
    | Connected              // both returned

  /** What a backend lock call gave back: a value, or a raised ToozError. */
  datatype Reply<T> = Returned(value: T) | Raised

  /**
   * A backend session, as get_coordinator returns it. `serial` tells apart the
   * sessions made by different connection attempts.
   */
  datatype Session = Session(backendUrl: string, memberId: string, serial: nat)

  datatype SessionCall = StartSession | StopSession | SendHeartbeat

  /** What the Coordinator does to its environment, in order. */
  datatype Event =
    | GetCoordinator(backendUrl: string, memberId: string)
    | Invoke(session: Session, call: SessionCall)
    | SpawnHeartbeat
    | Sleep

  /**
   * What one heartbeat iteration meets: the outcome of the reconnection it
   * tries if it finds the coordinator not started, and that of the heartbeat.
   */
  datatype Tick = Tick(reconnect: ConnectOutcome, beat: CallOutcome)

  /** A lock handle: the backend lock it wraps, named by its full name. */
  datatype Lock = Lock(session: Session, name: string)
  {
    /**
     * Lock.acquire: the backend's answer to acquire(blocking) when it
     * answers, None when it raised ToozError (logged, never propagated).
     */
    function Acquire(blocking: bool, backend: bool -> Reply<bool>): (r: Option<bool>)
      ensures r.Some? <==> backend(blocking).Returned?
      ensures r.Some? ==> r.value == backend(blocking).value
    {
      match backend(blocking)
      case Returned(acquired) => Some(acquired)
      case Raised => None
    }

    /** Lock.release: the backend's answer, or None when it raised ToozError. */
    function Release(backend: Reply<bool>): (r: Option<bool>)
      ensures r.Some? <==> backend.Returned?
      ensures r.Some? ==> r.value == backend.value
    {
      match backend
      case Returned(released) => Some(released)
      case Raised => None
    }
  }

  /** The fields of a Coordinator and the trace of what it did so far. */
  datatype Snapshot = Snapshot(
    prefix: string,
    myId: string,
    session: Option<Session>,
    started: bool,
    serial: nat,
    events: seq<Event>)

  /** The invariant of the state machine: a started coordinator holds a session. */
  predicate Inv(s: Snapshot)
  {
    s.started ==> s.session.Some?
  }

  /** The events added to the trace after `s`, when `r` extends it. */
  function Added(s: Snapshot, r: Snapshot): seq<Event>
    requires |s.events| <= |r.events|
  {
    r.events[|s.events|..]
  }

  /** Coordinator._start: connect to the configured backend, if there is one. */
  function AfterConnect(s: Snapshot, backendUrl: string, outcome: ConnectOutcome): (r: Snapshot)
    ensures backendUrl == "" ==> r == s
    ensures backendUrl != "" ==> (r.started <==> outcome == Connected)
    ensures backendUrl != "" && outcome != GetCoordinatorFailed ==>
              r.session == Some(Session(backendUrl, Naming.MemberId(s.prefix, s.myId), s.serial))
    ensures outcome == GetCoordinatorFailed ==> r.session == s.session
    ensures Inv(s) ==> Inv(r)
    ensures s.session.Some? ==> r.session.Some?
    ensures r.prefix == s.prefix && r.myId == s.myId
    ensures s.events <= r.events
    ensures SpawnHeartbeat !in Added(s, r) && Sleep !in Added(s, r)
    ensures (GetCoordinator(backendUrl, Naming.MemberId(s.prefix, s.myId)) in Added(s, r)) <==> backendUrl != ""
  {
    if backendUrl == "" then s
    else
      var memberId := Naming.MemberId(s.prefix, s.myId);
      var asked := s.events + [GetCoordinator(backendUrl, memberId)];
      if outcome == GetCoordinatorFailed then
        var r := s.(started := false, events := asked);
        assert Added(s, r) == [GetCoordinator(backendUrl, memberId)];
        r
      else
        var made := Session(backendUrl, memberId, s.serial);
        var r := s.(session := Some(made), serial := s.serial + 1,
                    started := outcome == Connected,
                    events := asked + [Invoke(made, StartSession)]);
        assert Added(s, r) == [GetCoordinator(backendUrl, memberId), Invoke(made, StartSession)];
        r
  }

  /** Coordinator.start: connect unless started; spawn the heartbeat if that worked. */
  function AfterStart(s: Snapshot, backendUrl: string, outcome: ConnectOutcome): (r: Snapshot)
    ensures s.started ==> r == s
    ensures !s.started ==> r.session == AfterConnect(s, backendUrl, outcome).session
                           && r.started == AfterConnect(s, backendUrl, outcome).started
    ensures Inv(s) ==> Inv(r)
    ensures s.events <= r.events
    ensures SpawnHeartbeat in Added(s, r) <==> !s.started && r.started
  {
    if s.started then s
    else
      var t := AfterConnect(s, backendUrl, outcome);
      if t.started then
        var r := t.(events := t.events + [SpawnHeartbeat]);
        assert Added(s, r) == Added(s, t) + [SpawnHeartbeat];
        r
      else t
  }

  /** Coordinator.stop: give up the session, if any; `started` is cleared either way. */
  function AfterStop(s: Snapshot, outcome: CallOutcome): (r: Snapshot)
    ensures s.session.None? ==> r == s
    ensures r.session.None?
    ensures Inv(s) ==> Inv(r) && !r.started
    ensures s.session.Some? ==> r.events == s.events + [Invoke(s.session.value, StopSession)]
    ensures r.prefix == s.prefix && r.myId == s.myId && r.serial == s.serial
  {
    match s.session
    case None => s
    case Some(held) =>
      // a ToozError from held.stop() is logged; the finally clause clears started
      s.(session := None, started := false, events := s.events + [Invoke(held, StopSession)])
  }

  /** The events of a heartbeat call on `session` that had `outcome`. */
  function BeatEvents(session: Session, outcome: CallOutcome): seq<Event>
  {
    [Invoke(session, SendHeartbeat)] + (if outcome == Succeeded then [Sleep] else [])
  }

  /**
   * One iteration of Coordinator._heartbeat: runs only while a session is
   * held; reconnects first if not started; sleeps only after a heartbeat
   * that succeeded.
   */
  function AfterBeat(s: Snapshot, backendUrl: string, tick: Tick): (r: Snapshot)
    ensures s.session.None? ==> r == s
    ensures s.session.Some? ==> r.session.Some?
    ensures Inv(s) ==> Inv(r)
    ensures s.started ==> r.session == s.session && r.started == s.started
    ensures s.events <= r.events
    ensures s.session.Some? ==> (Sleep in Added(s, r) <==> tick.beat == Succeeded)
  {
    match s.session
    case None => s
    case Some(_) =>
      var t := if s.started then s else AfterConnect(s, backendUrl, tick.reconnect);
      var beat := BeatEvents(t.session.value, tick.beat);
      var r := t.(events := t.events + beat);
      assert Added(s, r) == Added(s, t) + beat;
      r
  }

  /** Every iteration of the loop ends with the heartbeat call on the session it then holds. */
  lemma BeatEndsWithHeartbeat(s: Snapshot, backendUrl: string, tick: Tick)
    requires s.session.Some?
    ensures var r := AfterBeat(s, backendUrl, tick);
            var beat := BeatEvents(r.session.value, tick.beat);
            |beat| <= |Added(s, r)| && r.events[|r.events| - |beat|..] == beat
  {
    var r := AfterBeat(s, backendUrl, tick);
    var beat := BeatEvents(r.session.value, tick.beat);
    var t := if s.started then s else AfterConnect(s, backendUrl, tick.reconnect);
    assert r.events == t.events + beat;
    assert r.events[|r.events| - |beat|..] == beat;
  }

  /** A heartbeat iteration asks for a new session exactly when it finds the coordinator not started. */
  lemma BeatReconnectsOnlyWhenNotStarted(s: Snapshot, backendUrl: string, tick: Tick)
    requires s.session.Some?
    ensures GetCoordinator(backendUrl, Naming.MemberId(s.prefix, s.myId)) in Added(s, AfterBeat(s, backendUrl, tick))
            <==> !s.started && backendUrl != ""
  {
    if s.started {
      var r := AfterBeat(s, backendUrl, tick);
      StartedBeat(s, backendUrl, tick);
      assert Added(s, r) == BeatEvents(s.session.value, tick.beat);
    } else {
      ReconnectingBeatAsks(s, backendUrl, tick);
    }
  }

  /** The events a reconnecting iteration adds are those of `_start` followed by the heartbeat's. */
  lemma ReconnectingBeatAsks(s: Snapshot, backendUrl: string, tick: Tick)
    requires !s.started && s.session.Some?
    ensures var t := AfterConnect(s, backendUrl, tick.reconnect);
            Added(s, AfterBeat(s, backendUrl, tick)) == Added(s, t) + BeatEvents(t.session.value, tick.beat)
  {
    var t := AfterConnect(s, backendUrl, tick.reconnect);
    ReconnectingBeat(s, backendUrl, tick);
    assert t.events + BeatEvents(t.session.value, tick.beat) == s.events + Added(s, t) + BeatEvents(t.session.value, tick.beat);
  }

  /** A heartbeat iteration of a coordinator that is not started reconnects, then sends the heartbeat. */
  lemma ReconnectingBeat(s: Snapshot, backendUrl: string, tick: Tick)
    requires !s.started && s.session.Some?
    ensures var t := AfterConnect(s, backendUrl, tick.reconnect);
            AfterBeat(s, backendUrl, tick) == t.(events := t.events + BeatEvents(t.session.value, tick.beat))
  {
  }

  /** A heartbeat iteration of a started coordinator only adds the events of the heartbeat call. */
  lemma StartedBeat(s: Snapshot, backendUrl: string, tick: Tick)
    requires s.started && s.session.Some?
    ensures AfterBeat(s, backendUrl, tick) == s.(events := s.events + BeatEvents(s.session.value, tick.beat))
  {
  }

  /** The heartbeat loop, run for as many iterations as there are ticks, or until no session is held. */
  function AfterHeartbeats(s: Snapshot, backendUrl: string, ticks: seq<Tick>): (r: Snapshot)
    ensures Inv(s) ==> Inv(r)
    ensures s.session.Some? ==> r.session.Some?
    ensures s.session.None? ==> r == s
    decreases |ticks|
  {
    if ticks == [] || s.session.None? then s
    else AfterHeartbeats(AfterBeat(s, backendUrl, ticks[0]), backendUrl, ticks[1..])
  }

  lemma HeartbeatsUnfold(s: Snapshot, backendUrl: string, ticks: seq<Tick>)
    requires ticks != [] && s.session.Some?
    ensures AfterHeartbeats(s, backendUrl, ticks) == AfterHeartbeats(AfterBeat(s, backendUrl, ticks[0]), backendUrl, ticks[1..])
  {
  }

  /** The events of the heartbeat calls on one session for a run of ticks. */
  function BeatTrace(session: Session, ticks: seq<Tick>): seq<Event>
  {
    if ticks == [] then [] else BeatEvents(session, ticks[0].beat) + BeatTrace(session, ticks[1..])
  }

  /**
   * A failed heartbeat does not clear `started`, so a started coordinator's
   * heartbeat loop never reconnects: it only sends heartbeats on the session
   * it holds, and sleeps after each that succeeded.
   */
  lemma {:induction false} StartedHeartbeatsNeverReconnect(s: Snapshot, backendUrl: string, ticks: seq<Tick>)
    requires s.started && s.session.Some?
    ensures AfterHeartbeats(s, backendUrl, ticks) == s.(events := s.events + BeatTrace(s.session.value, ticks))
    decreases |ticks|
  {
    var held := s.session.value;
    if ticks != [] {
      var first := BeatEvents(held, ticks[0].beat);
      var rest := BeatTrace(held, ticks[1..]);
      var t := s.(events := s.events + first);
      StartedHeartbeatStep(s, backendUrl, ticks);
      StartedHeartbeatsNeverReconnect(t, backendUrl, ticks[1..]);
      assert (s.events + first) + rest == s.events + (first + rest);
    } else {
      assert s.events + [] == s.events;
    }
  }

  /** The first iteration of a started coordinator's loop only adds its heartbeat's events. */
  lemma StartedHeartbeatStep(s: Snapshot, backendUrl: string, ticks: seq<Tick>)
    requires s.started && s.session.Some? && ticks != []
    ensures AfterHeartbeats(s, backendUrl, ticks)
            == AfterHeartbeats(s.(events := s.events + BeatEvents(s.session.value, ticks[0].beat)), backendUrl, ticks[1..])
    ensures BeatTrace(s.session.value, ticks) == BeatEvents(s.session.value, ticks[0].beat) + BeatTrace(s.session.value, ticks[1..])
  {
    StartedBeat(s, backendUrl, ticks[0]);
    HeartbeatsUnfold(s, backendUrl, ticks);
  }

  /** Stopping always leaves the coordinator inactive, whether the backend's stop failed or not. */
  lemma StopOutcomeIrrelevant(s: Snapshot)
    ensures AfterStop(s, Succeeded) == AfterStop(s, ToozError)
    ensures AfterStop(s, ToozError).session.None?
  {
  }

  class Coordinator {
    const prefix: string
    const myId: string
    /** The backend session (`coordinator` in the source), None when not connected. */
    var session: Option<Session>
    var started: bool
    /** How many sessions get_coordinator has made so far. */
    var serial: nat
    var events: seq<Event>

    function Current(): Snapshot
      reads this
    {
      Snapshot(prefix, myId, session, started, serial, events)
    }

    predicate Valid()
      reads this
    {
      Inv(Current())
    }

    /** Coordinator.__init__; `generatedId` stands for str(uuid.uuid4()), used when no my_id is given. */
    constructor (myId: string, generatedId: string, prefix: string)
      ensures Valid()
      ensures session.None? && !started && serial == 0 && events == []
      ensures this.myId == (if myId != "" then myId else generatedId)
      ensures this.prefix == prefix
    {
      this.prefix := prefix;
      this.myId := if myId != "" then myId else generatedId;
      session := None;
      started := false;
      serial := 0;
      events := [];
    }

    /** Coordinator.is_active: a session is held, whatever `started` says. */
    function IsActive(): (r: bool)
      reads this
      ensures r <==> session.Some?
    {
      session.Some?
    }

    /** Coordinator._start. */
    method Connect(backendUrl: string, outcome: ConnectOutcome)
      requires Valid()
      modifies this
      ensures Valid()
      ensures Current() == AfterConnect(old(Current()), backendUrl, outcome)
    {
      if backendUrl == "" {
        // "Coordination backend not configured." is logged
        return;
      }
      var memberId := Naming.MemberId(prefix, myId);
      events := events + [GetCoordinator(backendUrl, memberId)];
      if outcome == GetCoordinatorFailed {
        started := false;
        return;
      }
      session := Some(Session(backendUrl, memberId, serial));
      serial := serial + 1;
      events := events + [Invoke(session.value, StartSession)];
      started := outcome == Connected;
    }

    /** Coordinator.start. */
    method Start(backendUrl: string, outcome: ConnectOutcome)
      requires Valid()
      modifies this
      ensures Valid()
      ensures Current() == AfterStart(old(Current()), backendUrl, outcome)
    {
      if !started {
        Connect(backendUrl, outcome);
        if started {
          events := events + [SpawnHeartbeat];
        }
      }
    }

    /** Coordinator.stop: the session is taken out of the field before its stop is called. */
    method Stop(outcome: CallOutcome)
      requires Valid()
      modifies this
      ensures Valid() && !IsActive() && !started
      ensures Current() == AfterStop(old(Current()), outcome)
    {
      if session.None? {
        return;
      }
      var held;
      held, session := session.value, None;
      events := events + [Invoke(held, StopSession)];
      if outcome == ToozError {
        // the error is logged
      }
      started := false;
    }

    /** One iteration of the body of Coordinator._heartbeat, entered while a session is held. */
    method HeartbeatOnce(backendUrl: string, tick: Tick)
      requires Valid() && session.Some?
      modifies this
      ensures Valid()
      ensures Current() == AfterBeat(old(Current()), backendUrl, tick)
    {
      if !started {
        // re-connect
        Connect(backendUrl, tick.reconnect);
      }
      ghost var reconnected := Current();
      events := events + [Invoke(session.value, SendHeartbeat)];
      if tick.beat == Succeeded {
        events := events + [Sleep];
      } else {
        // the ToozError of the heartbeat is logged
      }
      assert events == reconnected.events + BeatEvents(reconnected.session.value, tick.beat);
    }

    /** Coordinator._heartbeat, for as many iterations as there are ticks. */
    method Heartbeat(backendUrl: string, ticks: seq<Tick>)
      requires Valid()
      modifies this
      ensures Valid()
      ensures Current() == AfterHeartbeats(old(Current()), backendUrl, ticks)
    {
      var i := 0;
      while session.Some? && i < |ticks|
        invariant 0 <= i <= |ticks|
        invariant Valid()
        invariant AfterHeartbeats(Current(), backendUrl, ticks[i..])
               == AfterHeartbeats(old(Current()), backendUrl, ticks)
      {
        HeartbeatsUnfold(Current(), backendUrl, ticks[i..]);
        HeartbeatOnce(backendUrl, ticks[i]);
        assert ticks[i..][1..] == ticks[i + 1..];
        i := i + 1;
      }
      assert ticks[i..] == [] || session.None?;
    }

    /** Coordinator.get_lock: a lock under the full lock name, or None when no session is held. */
    function GetLock(name: string, external: bool): (r: Option<Lock>)
      reads this
      ensures r.Some? <==> session.Some?
      ensures r.Some? ==> r.value.session == session.value
                          && r.value.name == Naming.LockName(prefix, myId, name, external)
    {
      match session
      case Some(held) => Some(Lock(held, Naming.LockName(prefix, myId, name, external)))
      case None => None   // "Unable to create lock." is logged
    }
  }
}
