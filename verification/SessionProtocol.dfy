// Login, refresh and logout as sequences of store scripts that interleave
// freely, while any key may expire and any request may die at any moment.
module SessionProtocol {
  import opened SessionStore

  // A refresh between two of its awaits.
  datatype Refresh =
    | Begun(previous: Index)
    | Looked(previous: Index, initial: SessionRecord)
    | Leased(previous: Index, initial: SessionRecord, owner: Owner)
    | Checked(previous: Index, initial: SessionRecord, owner: Owner, current: SessionRecord, timestamp: int)
    | Rotated(initial: SessionRecord, owner: Owner, next: Index)
    | Compensating(initial: SessionRecord, owner: Owner, next: Index)
    | Releasing(initial: SessionRecord, owner: Owner)

  // A logout that knows the session it is about to revoke.
  datatype Logout = Logout(reference: SessionId)

  // A successful rotation.
  datatype Rotation = Rotation(id: SessionId, revision: nat, previous: Index, next: Index)

  // `written`, `expiry`, `rotations` and `known` only record what happened.
  datatype System = System(
    redis: Redis,
    refreshes: map<nat, Refresh>,
    logouts: map<nat, Logout>,
    owners: set<Owner>,
    written: map<Index, SessionRecord>,   // every session record ever stored, by index
    expiry: map<SessionId, int>,          // absolute expiry fixed at login
    rotations: seq<Rotation>,
    known: set<SessionId>)                // every session id that has occurred

  const Start := System(Redis(map[], map[], map[]), map[], map[], {}, map[], map[], [], {})

  datatype Step =
    | Login(index: Index, id: SessionId, nowMs: int, absoluteTtlMs: int, authenticatedAtMs: int, csrfToken: nat, tokens: nat)
    | Access(index: Index, nowMs: int)
    | Discard(index: Index)
    | BeginRefresh(request: nat, index: Index)
    | LookUp(request: nat, nowMs: int)
    | TakeLease(request: nat, owner: Owner)
    | LookAgain(request: nat, nowMs: int)
    | Exchange(request: nat, succeeds: bool, next: Index, tokens: nat)
    | AuditRefresh(request: nat, succeeds: bool)
    | Compensate(request: nat)
    | Release(request: nat)
    | RefreshDies(request: nat)
    | BeginLogout(request: nat, reference: SessionId)
    | LogoutByCredential(request: nat, index: Index, nowMs: int)
    | RevokeFamily(request: nat)
    | SessionExpires(index: Index)
    | FamilyExpires(id: SessionId)
    | LeaseExpires(id: SessionId)

  function WithRefresh(s: System, request: nat, r: Refresh): System {
    s.(refreshes := s.refreshes[request := r])
  }

  function EndRefresh(s: System, request: nat): System {
    s.(refreshes := s.refreshes - {request})
  }

  // completeLogin: a fresh credential and a fresh session id.
  function DoLogin(s: System, step: Step): System
    requires step.Login?
  {
    var record := SessionRecord(step.id, 0, step.nowMs + step.absoluteTtlMs, step.nowMs, step.authenticatedAtMs, step.csrfToken, step.tokens);
    if step.index in s.written || step.id in s.known then s
    else if !CanCreate(s.redis, step.index, record) then s.(known := s.known + {step.id})
    else s.(redis := Create(s.redis, step.index, record), written := s.written[step.index := record],
            expiry := s.expiry[step.id := record.absoluteExpiresAtMs], known := s.known + {step.id})
  }

  function DoLookUp(s: System, request: nat, nowMs: int): System {
    if request !in s.refreshes || !s.refreshes[request].Begun? then s
    else
      var previous := s.refreshes[request].previous;
      var (redis, found) := Touch(s.redis, previous, nowMs);
      var s1 := s.(redis := redis);
      if found.None? then EndRefresh(s1, request) else WithRefresh(s1, request, Looked(previous, found.value))
  }

  function DoTakeLease(s: System, request: nat, owner: Owner): System {
    if request !in s.refreshes || !s.refreshes[request].Looked? || owner in s.owners then s
    else
      var r := s.refreshes[request];
      var s1 := s.(owners := s.owners + {owner});
      if r.initial.id in s.redis.leases then EndRefresh(s1, request)
      else WithRefresh(s1.(redis := AcquireLease(s.redis, r.initial.id, owner)), request, Leased(r.previous, r.initial, owner))
  }

  function DoLookAgain(s: System, request: nat, nowMs: int): System {
    if request !in s.refreshes || !s.refreshes[request].Leased? then s
    else
      var r := s.refreshes[request];
      var (redis, found) := Touch(s.redis, r.previous, nowMs);
      var s1 := s.(redis := redis);
      if found.None? || found.value.id != r.initial.id || found.value.revision != r.initial.revision
      then WithRefresh(s1, request, Releasing(r.initial, r.owner))
      else WithRefresh(s1, request, Checked(r.previous, r.initial, r.owner, found.value, nowMs))
  }

  // The token exchange, then the rotation under the revision just read.
  function DoExchange(s: System, request: nat, succeeds: bool, next: Index, tokens: nat): System {
    if request !in s.refreshes || !s.refreshes[request].Checked? || next in s.written then s
    else
      var r := s.refreshes[request];
      var record := r.current.(revision := r.current.revision + 1, tokens := tokens);
      if !succeeds || record.absoluteExpiresAtMs - r.timestamp <= 0 || !CanRotate(s.redis, r.previous, next, r.current.revision, record)
      then WithRefresh(s, request, Releasing(r.initial, r.owner))
      else
        WithRefresh(s.(redis := Rotate(s.redis, r.previous, next, r.current.revision, record),
                       written := s.written[next := record],
                       rotations := s.rotations + [Rotation(record.id, r.current.revision, r.previous, next)]),
                    request, Rotated(r.initial, r.owner, next))
  }

  function DoAudit(s: System, request: nat, succeeds: bool): System {
    if request !in s.refreshes || !s.refreshes[request].Rotated? then s
    else
      var r := s.refreshes[request];
      WithRefresh(s, request, if succeeds then Releasing(r.initial, r.owner) else Compensating(r.initial, r.owner, r.next))
  }

  function DoCompensate(s: System, request: nat): System {
    if request !in s.refreshes || !s.refreshes[request].Compensating? then s
    else
      var r := s.refreshes[request];
      WithRefresh(s.(redis := Delete(s.redis, r.next)), request, Releasing(r.initial, r.owner))
  }

  function DoRelease(s: System, request: nat): System {
    if request !in s.refreshes || !s.refreshes[request].Releasing? then s
    else
      var r := s.refreshes[request];
      EndRefresh(s.(redis := ReleaseLease(s.redis, r.initial.id, r.owner)), request)
  }

  function DoLogoutByCredential(s: System, request: nat, index: Index, nowMs: int): System {
    if request in s.logouts then s
    else
      var (redis, found) := Touch(s.redis, index, nowMs);
      var s1 := s.(redis := redis);
      if found.None? then s1 else s1.(logouts := s.logouts[request := Logout(found.value.id)])
  }

  function DoRevoke(s: System, request: nat): System {
    if request !in s.logouts then s
    else s.(redis := Revoke(s.redis, s.logouts[request].reference), logouts := s.logouts - {request})
  }

  function Apply(s: System, step: Step): System {
    match step
    case Login(_, _, _, _, _, _, _) => DoLogin(s, step)
    case Access(index, nowMs) => s.(redis := Touch(s.redis, index, nowMs).0)
    case Discard(index) => s.(redis := Delete(s.redis, index))
    case BeginRefresh(request, index) => if request in s.refreshes then s else WithRefresh(s, request, Begun(index))
    case LookUp(request, nowMs) => DoLookUp(s, request, nowMs)
    case TakeLease(request, owner) => DoTakeLease(s, request, owner)
    case LookAgain(request, nowMs) => DoLookAgain(s, request, nowMs)
    case Exchange(request, succeeds, next, tokens) => DoExchange(s, request, succeeds, next, tokens)
    case AuditRefresh(request, succeeds) => DoAudit(s, request, succeeds)
    case Compensate(request) => DoCompensate(s, request)
    case Release(request) => DoRelease(s, request)
    case RefreshDies(request) => EndRefresh(s, request)
    case BeginLogout(request, reference) =>
      if request in s.logouts then s
      else s.(logouts := s.logouts[request := Logout(reference)], known := s.known + {reference})
    case LogoutByCredential(request, index, nowMs) => DoLogoutByCredential(s, request, index, nowMs)
    case RevokeFamily(request) => DoRevoke(s, request)
    case SessionExpires(index) => s.(redis := s.redis.(sessions := s.redis.sessions - {index}))
    case FamilyExpires(id) => s.(redis := s.redis.(families := s.redis.families - {id}))
    case LeaseExpires(id) => s.(redis := s.redis.(leases := s.redis.leases - {id}))
  }

  function Run(s: System, steps: seq<Step>): System
    decreases |steps|
  {
    if steps == [] then s else Apply(Run(s, steps[..|steps| - 1]), steps[|steps| - 1])
  }

  // A credential is accepted at an instant when its record is handed out.
  predicate Accepted(s: System, index: Index, nowMs: int) {
    Touch(s.redis, index, nowMs).1.Some?
  }

  function Holder(s: System, index: Index, nowMs: int): SessionRecord
    requires Accepted(s, index, nowMs)
  {
    Touch(s.redis, index, nowMs).1.value
  }

  // ------------------------------------------------------------ the invariant

  function RotationsOf(rotations: seq<Rotation>, id: SessionId): nat {
    if rotations == [] then 0
    else RotationsOf(rotations[..|rotations| - 1], id) + (if rotations[|rotations| - 1].id == id then 1 else 0)
  }

  // Stored records are the ones written, and carry the expiry of their login.
  ghost predicate Recorded(s: System) {
    && (forall i :: i in s.redis.sessions ==> i in s.written && s.written[i] == s.redis.sessions[i])
    && (forall i :: i in s.written ==> s.written[i].id in s.expiry)
    && (forall i :: i in s.written ==> s.written[i].absoluteExpiresAtMs == s.expiry[s.written[i].id])
    && (forall id :: id in s.expiry ==> id in s.known)
  }

  // A family points at a record of its own, at the latest revision.
  ghost predicate FamiliesCurrent(s: System) {
    forall id :: id in s.redis.families ==>
      && s.redis.families[id] in s.written
      && s.written[s.redis.families[id]].id == id
      && s.written[s.redis.families[id]].revision == RotationsOf(s.rotations, id)
  }

  ghost predicate RotationsOrdered(s: System) {
    forall k :: 0 <= k < |s.rotations| ==>
      var r := s.rotations[k];
      && r.revision == RotationsOf(s.rotations[..k], r.id)
      && r.previous in s.written && r.next in s.written && r.previous != r.next
      && s.written[r.previous].id == r.id && s.written[r.next].id == r.id
      && s.written[r.previous].revision == r.revision && s.written[r.next].revision == r.revision + 1
  }

  // What a refresh has read was written under the credential it presented.
  ghost predicate RefreshSound(s: System, r: Refresh) {
    && (r.Looked? || r.Leased? || r.Checked? ==> r.previous in s.written && s.written[r.previous] == r.initial)
    && (r.Checked? ==> r.current == r.initial)
    && (!r.Begun? ==> r.initial.id in s.known)
  }

  ghost predicate RefreshesSound(s: System) {
    forall q :: q in s.refreshes ==> RefreshSound(s, s.refreshes[q])
  }

  ghost predicate LogoutsKnown(s: System) {
    forall q :: q in s.logouts ==> s.logouts[q].reference in s.known
  }

  ghost predicate Inv(s: System) {
    Recorded(s) && FamiliesCurrent(s) && RotationsOrdered(s) && RefreshesSound(s) && LogoutsKnown(s)
  }
}
