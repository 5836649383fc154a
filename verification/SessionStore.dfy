// The Redis scripts behind browser sessions. Each script is one atomic step
// over the session, family and refresh-lease keys.
module SessionStore {
  import opened Prelude

  // A session index is the keyed digest of a credential; it is taken to be
  // injective, so an index stands for its credential.
  type Index = nat
  type SessionId = nat
  type Owner = nat

  datatype SessionRecord = SessionRecord(
    id: SessionId, revision: nat, absoluteExpiresAtMs: int,
    createdAtMs: int, authenticatedAtMs: int, csrfToken: nat, tokens: nat)

  datatype Redis = Redis(
    sessions: map<Index, SessionRecord>,
    families: map<SessionId, Index>,
    leases: map<SessionId, Owner>)

  function FamilyIs(r: Redis, id: SessionId, index: Index): bool {
    id in r.families && r.families[id] == index
  }

  // ------------------------------------------------------------- specification

  function DropFamilyAt(r: Redis, id: SessionId, index: Index): Redis {
    if FamilyIs(r, id, index) then r.(families := r.families - {id}) else r
  }

  // getSession: what a presented credential is good for.
  function Touch(r: Redis, index: Index, nowMs: int): (Redis, Option<SessionRecord>) {
    if index !in r.sessions then (r, None)
    else
      var record := r.sessions[index];
      if record.absoluteExpiresAtMs <= nowMs then
        (DropFamilyAt(r.(sessions := r.sessions - {index}), record.id, index), None)
      else if !FamilyIs(r, record.id, index) then (r, None)
      else (r, Some(record))
  }

  function CanCreate(r: Redis, index: Index, record: SessionRecord): bool {
    index !in r.sessions && record.id !in r.families
  }

  function Create(r: Redis, index: Index, record: SessionRecord): Redis {
    if !CanCreate(r, index, record) then r
    else r.(sessions := r.sessions[index := record], families := r.families[record.id := index])
  }

  function Delete(r: Redis, index: Index): Redis {
    if index !in r.sessions then r
    else DropFamilyAt(r, r.sessions[index].id, index).(sessions := r.sessions - {index})
  }

  function CanRotate(r: Redis, previous: Index, next: Index, expectedRevision: nat, record: SessionRecord): bool {
    && next !in r.sessions
    && previous in r.sessions
    && r.sessions[previous].revision == expectedRevision
    && record.id == r.sessions[previous].id
    && FamilyIs(r, record.id, previous)
  }

  function Rotate(r: Redis, previous: Index, next: Index, expectedRevision: nat, record: SessionRecord): Redis {
    if !CanRotate(r, previous, next, expectedRevision, record) then r
    else r.(sessions := (r.sessions - {previous})[next := record], families := r.families[record.id := next])
  }

  function Revoke(r: Redis, id: SessionId): Redis {
    if id !in r.families then r
    else
      var current := r.families[id];
      if current !in r.sessions then r.(families := r.families - {id})
      else if r.sessions[current].id != id then r
      else r.(sessions := r.sessions - {current}, families := r.families - {id})
  }

  function AcquireLease(r: Redis, id: SessionId, owner: Owner): Redis {
    if id in r.leases then r else r.(leases := r.leases[id := owner])
  }

  function ReleaseLease(r: Redis, id: SessionId, owner: Owner): Redis {
    if id in r.leases && r.leases[id] == owner then r.(leases := r.leases - {id}) else r
  }

  // ------------------------------------------------------------------ the store

  class RedisSessionStore {
    var sessions: map<Index, SessionRecord>
    var families: map<SessionId, Index>
    var leases: map<SessionId, Owner>

    constructor ()
      ensures View() == Redis(map[], map[], map[])
    {
      sessions, families, leases := map[], map[], map[];
    }

    function View(): Redis
      reads this
    {
      Redis(sessions, families, leases)
    }

    method GetSession(index: Index, nowMs: int) returns (found: Option<SessionRecord>)
      modifies this
      ensures View() == Touch(old(View()), index, nowMs).0
      ensures found == Touch(old(View()), index, nowMs).1
    {
      if index !in sessions {
        return None;
      }
      var record := sessions[index];
      var remaining := record.absoluteExpiresAtMs - nowMs;
      if remaining <= 0 {
        sessions := sessions - {index};
        if record.id in families && families[record.id] == index {
          families := families - {record.id};
        }
        return None;
      }
      if record.id !in families || families[record.id] != index {
        return None;
      }
      return Some(record);
    }

    method CreateSession(index: Index, record: SessionRecord) returns (created: bool)
      modifies this
      ensures created == CanCreate(old(View()), index, record)
      ensures View() == Create(old(View()), index, record)
    {
      if index in sessions || record.id in families {
        return false;
      }
      sessions := sessions[index := record];
      families := families[record.id := index];
      return true;
    }

    method DeleteSession(index: Index) returns (deleted: Option<SessionRecord>)
      modifies this
      ensures deleted == if index in old(sessions) then Some(old(sessions)[index]) else None
      ensures View() == Delete(old(View()), index)
    {
      if index !in sessions {
        return None;
      }
      var record := sessions[index];
      if record.id in families && families[record.id] == index {
        families := families - {record.id};
      }
      sessions := sessions - {index};
      return Some(record);
    }

    method RotateSession(previous: Index, next: Index, expectedRevision: nat, record: SessionRecord) returns (rotated: bool)
      modifies this
      ensures rotated == CanRotate(old(View()), previous, next, expectedRevision, record)
      ensures View() == Rotate(old(View()), previous, next, expectedRevision, record)
    {
      if next in sessions {
        return false;
      }
      if previous !in sessions {
        return false;
      }
      var current := sessions[previous];
      if current.revision != expectedRevision {
        return false;
      }
      if record.id != current.id {
        return false;
      }
      if current.id !in families || families[current.id] != previous {
        return false;
      }
      sessions := sessions - {previous};
      sessions := sessions[next := record];
      families := families[current.id := next];
      return true;
    }

    method RevokeSession(id: SessionId) returns (revoked: Option<SessionRecord>)
      modifies this
      ensures View() == Revoke(old(View()), id)
      ensures revoked.Some? ==>
        (id in old(families) && old(families)[id] in old(sessions) && revoked.value == old(sessions)[old(families)[id]] && revoked.value.id == id)
      ensures revoked.None? ==> sessions == old(sessions)
    {
      if id !in families {
        return None;
      }
      var current := families[id];
      if current !in sessions {
        families := families - {id};
        return None;
      }
      var record := sessions[current];
      if record.id != id {
        return None;
      }
      sessions := sessions - {current};
      families := families - {id};
      return Some(record);
    }

    method AcquireRefreshLease(id: SessionId, owner: Owner) returns (acquired: bool)
      modifies this`leases
      ensures acquired <==> id !in old(leases)
      ensures View() == AcquireLease(old(View()), id, owner)
    {
      if id in leases {
        return false;
      }
      leases := leases[id := owner];
      return true;
    }

    method ReleaseRefreshLease(id: SessionId, owner: Owner)
      modifies this`leases
      ensures View() == ReleaseLease(old(View()), id, owner)
    {
      if id in leases && leases[id] == owner {
        leases := leases - {id};
      }
    }
  }
}
