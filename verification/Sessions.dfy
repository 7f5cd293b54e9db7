// The session registry: one mutable state object per session, changed only through the registry.
module Sessions {
  import opened Text
  import opened Machine

  class SessionState {
    const sessionId: string
    var absorbedFps: set<string>
    var summaryUser: Option<string>
    var summaryAsst: Option<string>
    var compactInFlight: bool
    var sensorQueued: bool

    constructor (sessionId: string)
      ensures this.sessionId == sessionId && View() == FRESH
    {
      this.sessionId := sessionId;
      absorbedFps, summaryUser, summaryAsst, compactInFlight, sensorQueued := {}, None, None, false, false;
    }

    function View(): Session
      reads this
    {
      Session(absorbedFps, summaryUser, summaryAsst, compactInFlight, sensorQueued)
    }
  }

  /** The effect of `mark_compact_done` on a session: absorbed only together with a non-empty pair. */
  function CompactDone(x: Session, fps: set<string>, user: Option<string>, asst: Option<string>): Session {
    if Truthy(user) && Truthy(asst) then Session(x.absorbed + fps, user, asst, false, x.queued)
    else x.(inFlight := false)
  }

  /** The registry's map with one session updated; an unknown one is ignored. */
  function Updated(sessions: map<string, Session>, sid: string, f: Session -> Session): map<string, Session> {
    if sid in sessions then sessions[sid := f(sessions[sid])] else sessions
  }

  function SetQueued(sessions: map<string, Session>, sid: string, b: bool): map<string, Session> {
    Updated(sessions, sid, (x: Session) => x.(queued := b))
  }

  function SetFlight(sessions: map<string, Session>, sid: string, b: bool): map<string, Session> {
    Updated(sessions, sid, (x: Session) => x.(inFlight := b))
  }

  function SetDone(sessions: map<string, Session>, sid: string, fps: set<string>, user: Option<string>,
                   asst: Option<string>): map<string, Session>
  {
    Updated(sessions, sid, (x: Session) => CompactDone(x, fps, user, asst))
  }

  class SessionRegistry {
    var states: map<string, SessionState>

    constructor ()
      ensures Valid() && View() == map[] && states == map[]
    {
      states := map[];
    }

    ghost predicate Valid()
      reads this
    {
      forall a, b :: a in states && b in states && states[a] == states[b] ==> a == b
    }

    ghost function Objects(): set<SessionState>
      reads this
    {
      set sid | sid in states :: states[sid]
    }

    ghost function View(): map<string, Session>
      reads this, Objects()
    {
      map sid | sid in states :: states[sid].View()
    }

    method GetOrCreate(sid: string) returns (s: SessionState)
      requires Valid()
      modifies this
      ensures Valid() && sid in states && s == states[sid]
      ensures s.View() == if sid in old(View()) then old(View())[sid] else FRESH
      ensures View() == if sid in old(View()) then old(View()) else old(View())[sid := FRESH]
      ensures fresh(Objects() - old(Objects()))
    {
      if sid in states {
        s := states[sid];
      } else {
        s := new SessionState(sid);
        assert s !in Objects();
        states := states[sid := s];
        assert View() == old(View())[sid := FRESH];
      }
    }

    method Get(sid: string) returns (s: Option<SessionState>)
      requires Valid()
      ensures s.Some? <==> sid in states
      ensures s.Some? ==> s.value == states[sid]
    {
      s := if sid in states then Some(states[sid]) else None;
    }

    method MarkSensorQueued(sid: string)
      requires Valid()
      modifies Objects()
      ensures Valid()
      ensures View() == SetQueued(old(View()), sid, true)
    {
      if sid in states { states[sid].sensorQueued := true; }
    }

    method MarkSensorPickup(sid: string)
      requires Valid()
      modifies Objects()
      ensures Valid()
      ensures View() == SetQueued(old(View()), sid, false)
    {
      if sid in states { states[sid].sensorQueued := false; }
    }

    method MarkCompactStart(sid: string)
      requires Valid()
      modifies Objects()
      ensures Valid()
      ensures View() == SetFlight(old(View()), sid, true)
    {
      if sid in states { states[sid].compactInFlight := true; }
    }

    /** The `finally` clause of a compaction. */
    method ClearFlight(sid: string)
      requires Valid()
      modifies Objects()
      ensures Valid()
      ensures View() == SetFlight(old(View()), sid, false)
    {
      if sid in states { states[sid].compactInFlight := false; }
    }

    method MarkCompactDone(sid: string, fps: set<string>, user: Option<string>, asst: Option<string>)
      requires Valid()
      modifies Objects()
      ensures Valid()
      ensures View() == SetDone(old(View()), sid, fps, user, asst)
    {
      if sid !in states { return; }
      var s := states[sid];
      s.compactInFlight := false;
      if Truthy(user) && Truthy(asst) {
        s.absorbedFps := s.absorbedFps + fps;
        s.summaryUser := user;
        s.summaryAsst := asst;
      }
    }
  }
}
