/** The in-memory `SessionStore` of backend/app/api/session_store.py. */
module Sessions {
  import opened Json

  /** The `Dict[str, Any]` stored per session. */
  type SessionData = map<string, Json>

  /** `dict.get(session_id, {})`: a session never set reads as the empty dictionary. */
  function Lookup(sessions: map<string, SessionData>, id: string): SessionData {
    if id in sessions then sessions[id] else map[]
  }

  class SessionStore {
    var sessions: map<string, SessionData>

    /** A fresh store holds no sessions. */
    constructor ()
      ensures sessions == map[]
    {
      sessions := map[];
    }

    /** `get_session`: the stored data, or `{}` for an id never set; the store is not changed. */
    method GetSession(id: string) returns (data: SessionData)
      ensures id in sessions ==> data == sessions[id]
      ensures id !in sessions ==> data == map[]
    {
      data := if id in sessions then sessions[id] else map[];
    }

    /** `set_session`: stores `data` under `id`, replacing what was there; other ids keep their data. */
    method SetSession(id: string, data: SessionData)
      modifies this
      ensures sessions == old(sessions)[id := data]
      ensures forall other | other != id :: Lookup(sessions, other) == Lookup(old(sessions), other)
    {
      sessions := sessions[id := data];
    }

    /** `delete_session`: removes `id` if present; deleting an absent id changes nothing. */
    method DeleteSession(id: string)
      modifies this
      ensures sessions == old(sessions) - {id}
      ensures id !in old(sessions) ==> sessions == old(sessions)
      ensures Lookup(sessions, id) == map[]
    {
      if id in sessions {
        sessions := sessions - {id};
      }
    }
  }

  /** Reading after a write gives the written data, and a second write overwrites the first. */
  lemma GetAfterSet(sessions: map<string, SessionData>, id: string, d1: SessionData, d2: SessionData)
    ensures Lookup(sessions[id := d1], id) == d1
    ensures Lookup(sessions[id := d1][id := d2], id) == d2
  {
  }

  /** The `session_store` singleton used as its callers use it: set, read back, delete, read back. */
  method SetReadDeleteRead(id: string, other: string, d: SessionData)
    requires id != other
  {
    var store := new SessionStore();
    var before := store.GetSession(id);
    assert before == map[];
    store.SetSession(id, d);
    var got := store.GetSession(id);
    assert got == d;
    var untouched := store.GetSession(other);
    assert untouched == map[];
    store.DeleteSession(id);
    var gone := store.GetSession(id);
    assert gone == map[];
  }
}
