// Publishing policies: versions written once, a current pointer, a receipt for every publication.
module PolicyPublication {
  import opened Prelude
  import opened Texts
  import opened PolicyModel
  import opened PolicyText
  import opened PolicyTheorems
  import opened PolicyEvaluation

  // ------------------------------------------------------------------- database

  datatype Expected = AnyPrevious | NoPrevious | PreviousIs(version: Text)

  datatype Command = Command(publicationId: Text, publishedAt: Instant, contractSupported: bool, expected: Expected, snapshot: Policy)

  datatype Fingerprint = Fingerprint(contentDigest: Text, publishedAt: Instant, version: Text, expected: Expected)

  datatype StoredVersion = StoredVersion(contentDigest: Text, snapshot: Policy)

  datatype Publication = Publication(
    publicationId: Text, fingerprint: Fingerprint, version: Text, contentDigest: Text, publishedAt: Instant, previousVersion: Option<Text>)

  datatype Current = Current(version: Text, contentDigest: Text, publicationId: Text)

  // Publications in the order they were inserted.
  datatype Database = Database(versions: map<Text, StoredVersion>, publications: seq<Publication>, current: Option<Current>)

  const Empty := Database(map[], [], None)

  const PublicationIdOf: Publication -> Text := (p: Publication) => p.publicationId

  datatype Outcome = Invalid | Conflict | Unavailable | Published(publication: Publication, replayed: bool)

  function FingerprintOf(c: Command, canonical: Policy): Fingerprint {
    Fingerprint(Digest(canonical), c.publishedAt, canonical.version, c.expected)
  }

  predicate ExpectationFails(current: Option<Current>, expected: Expected) {
    match expected
    case AnyPrevious => false
    case NoPrevious => current.Some?
    case PreviousIs(version) => current.None? || current.value.version != version
  }

  predicate Contradicts(versions: map<Text, StoredVersion>, canonical: Policy) {
    canonical.version in versions &&
    (versions[canonical.version].contentDigest != Digest(canonical) || Digest(versions[canonical.version].snapshot) != Digest(canonical))
  }

  function NewPublication(db: Database, c: Command, canonical: Policy): Publication {
    Publication(Lower(c.publicationId), FingerprintOf(c, canonical), canonical.version, Digest(canonical), c.publishedAt,
                if db.current.None? then None else Some(db.current.value.version))
  }

  function AfterPublishing(db: Database, c: Command, canonical: Policy): Database {
    var p := NewPublication(db, c, canonical);
    Database(if canonical.version in db.versions then db.versions else db.versions[canonical.version := StoredVersion(Digest(canonical), canonical)],
             db.publications + [p], Some(Current(p.version, p.contentDigest, p.publicationId)))
  }

  function PublishCommand(db: Database, c: Command): (Database, Outcome) {
    var canonical := Canonicalize(c.snapshot);
    if canonical.None? || !c.contractSupported then (db, Invalid)
    else
      var prior := FindBy(PublicationIdOf, db.publications, Lower(c.publicationId));
      if prior.Some? then
        if prior.value.fingerprint != FingerprintOf(c, canonical.value) then (db, Conflict) else (db, Published(prior.value, true))
      else if Contradicts(db.versions, canonical.value) || ExpectationFails(db.current, c.expected) then (db, Conflict)
      else (AfterPublishing(db, c, canonical.value), Published(NewPublication(db, c, canonical.value), false))
  }

  // What loading a version does: it must have been published, and what is stored
  // must still canonicalise to the stored digest.
  function Load(db: Database, version: Text): Option<Policy> {
    if version !in db.versions || !(exists i :: 0 <= i < |db.publications| && db.publications[i].version == version) then None
    else
      match Canonicalize(db.versions[version].snapshot)
      case None => None
      case Some(c) => if Digest(c) != db.versions[version].contentDigest then None else Some(c)
  }

  // ------------------------------------------------------------ the invariant

  ghost predicate VersionsCanonical(versions: map<Text, StoredVersion>) {
    forall v | v in versions ::
      && Canonicalize(versions[v].snapshot) == Some(versions[v].snapshot)
      && versions[v].contentDigest == Digest(versions[v].snapshot) && versions[v].snapshot.version == v
  }

  ghost predicate PublicationsStored(versions: map<Text, StoredVersion>, publications: seq<Publication>) {
    && (forall i | 0 <= i < |publications| ::
          publications[i].version in versions && versions[publications[i].version].contentDigest == publications[i].contentDigest
          && publications[i].fingerprint.contentDigest == publications[i].contentDigest && publications[i].fingerprint.version == publications[i].version)
    && (forall v | v in versions :: exists i :: 0 <= i < |publications| && publications[i].version == v)
  }

  predicate NamesItsPredecessor(publications: seq<Publication>, i: nat)
    requires i < |publications|
  {
    publications[i].previousVersion == if i == 0 then None else Some(publications[i - 1].version)
  }

  // Each publication names the version of the one before it.
  ghost predicate Chained(publications: seq<Publication>) {
    forall i: nat | i < |publications| :: NamesItsPredecessor(publications, i)
  }

  predicate CurrentIsLast(publications: seq<Publication>, current: Option<Current>) {
    if publications == [] then current == None
    else
      var p := publications[|publications| - 1];
      current == Some(Current(p.version, p.contentDigest, p.publicationId))
  }

  ghost predicate Sound(db: Database) {
    && VersionsCanonical(db.versions) && PublicationsStored(db.versions, db.publications)
    && Chained(db.publications) && CurrentIsLast(db.publications, db.current)
  }

  // ------------------------------------------------------------------- the store

  class PostgresPolicyStore {
    var versions: map<Text, StoredVersion>
    var publications: seq<Publication>
    var current: Option<Current>

    constructor ()
      ensures View() == Empty
    {
      versions, publications, current := map[], [], None;
    }

    function View(): Database
      reads this
    {
      Database(versions, publications, current)
    }

    // The writes in order, undone when a later check fails.
    method Publish(c: Command) returns (outcome: Outcome)
      requires Sound(View())
      modifies this
      ensures (View(), outcome) == PublishCommand(old(View()), c)
    {
      hide Canonicalize, Digest, FindBy, Lower;
      var canonicalized := Canonicalize(c.snapshot);
      if canonicalized.None? || !c.contractSupported {
        return Invalid;
      }
      var snapshot := canonicalized.value;
      CanonicalizeIsIdempotent(c.snapshot);
      var contentDigest := Digest(snapshot);
      var fingerprint := FingerprintOf(c, snapshot);
      var before := versions;
      var prior := FindBy(PublicationIdOf, publications, Lower(c.publicationId));
      if prior.Some? {
        if prior.value.fingerprint != fingerprint {
          return Conflict;
        }
        return Published(prior.value, true);
      }
      if snapshot.version in versions {
        var existing := versions[snapshot.version];
        if existing.contentDigest != contentDigest || Digest(existing.snapshot) != Digest(snapshot) {
          return Conflict;
        }
      } else {
        versions := versions[snapshot.version := StoredVersion(contentDigest, snapshot)];
      }
      if ExpectationFails(current, c.expected) {
        versions := before;
        return Conflict;
      }
      var previous := if current.None? then None else Some(current.value.version);
      var publication := Publication(Lower(c.publicationId), fingerprint, snapshot.version, contentDigest, c.publishedAt, previous);
      publications := publications + [publication];
      current := Some(Current(snapshot.version, contentDigest, publication.publicationId));
      var readback := versions[snapshot.version];
      var checked := Canonicalize(readback.snapshot);
      if checked.None? || readback.contentDigest != contentDigest || Digest(checked.value) != contentDigest {
        assert false;
      }
      return Published(publication, false);
    }

    method LoadVersion(version: Text) returns (loaded: Option<Policy>)
      ensures loaded == Load(View(), version)
    {
      if version !in versions || !(exists i :: 0 <= i < |publications| && publications[i].version == version) {
        return None;
      }
      var normalized := Canonicalize(versions[version].snapshot);
      if normalized.None? || Digest(normalized.value) != versions[version].contentDigest {
        return None;
      }
      return normalized;
    }
  }

  // ------------------------------------------------------------------- the steps

  lemma {:induction false} StoringKeepsCanonical(db: Database, c: Command, canonical: Policy)
    requires VersionsCanonical(db.versions) && Canonicalize(canonical) == Some(canonical)
    ensures VersionsCanonical(AfterPublishing(db, c, canonical).versions)
  {
    hide Canonicalize, Digest;
  }

  lemma {:induction false} PublishingKeepsStored(db: Database, c: Command, canonical: Policy)
    requires PublicationsStored(db.versions, db.publications) && !Contradicts(db.versions, canonical)
    ensures PublicationsStored(AfterPublishing(db, c, canonical).versions, AfterPublishing(db, c, canonical).publications)
  {
    hide Canonicalize, Digest, Lower;
    var after := AfterPublishing(db, c, canonical);
    var n := |db.publications|;
    assert after.publications[n].version == canonical.version;
    forall v | v in after.versions ensures exists i :: 0 <= i < |after.publications| && after.publications[i].version == v {
      if v != canonical.version {
        var i :| 0 <= i < n && db.publications[i].version == v;
        assert after.publications[i].version == v;
      }
    }
  }

  lemma {:induction false} PublishingKeepsChain(db: Database, c: Command, canonical: Policy)
    requires Chained(db.publications) && CurrentIsLast(db.publications, db.current)
    ensures var after := AfterPublishing(db, c, canonical); Chained(after.publications) && CurrentIsLast(after.publications, after.current)
  {
    hide Canonicalize, Digest, Lower;
    var before, after := db.publications, AfterPublishing(db, c, canonical).publications;
    var p := NewPublication(db, c, canonical);
    assert after == before + [p];
    assert p.previousVersion == if before == [] then None else Some(before[|before| - 1].version);
    forall i: nat | i < |after| ensures NamesItsPredecessor(after, i) {
      if i < |before| {
        assert NamesItsPredecessor(before, i);
      }
    }
  }

  lemma {:induction false} PublishKeepsSound(db: Database, c: Command)
    requires Sound(db)
    ensures Sound(PublishCommand(db, c).0)
  {
    var canonical := Canonicalize(c.snapshot);
    hide Canonicalize, Digest, FindBy, Lower, VersionsCanonical, PublicationsStored, Chained, CurrentIsLast, Contradicts, AfterPublishing;
    if PublishCommand(db, c).0 != db {
      CanonicalizeIsIdempotent(c.snapshot);
      StoringKeepsCanonical(db, c, canonical.value);
      PublishingKeepsStored(db, c, canonical.value);
      PublishingKeepsChain(db, c, canonical.value);
    }
  }

  lemma {:induction false} VersionsOnlyGrow(db: Database, c: Command)
    ensures forall v | v in db.versions :: v in PublishCommand(db, c).0.versions && PublishCommand(db, c).0.versions[v] == db.versions[v]
    ensures db.publications <= PublishCommand(db, c).0.publications
  {
    hide Canonicalize, Digest, FindBy;
  }

  function Run(db: Database, commands: seq<Command>): Database
    decreases |commands|
  {
    if commands == [] then db else PublishCommand(Run(db, commands[..|commands| - 1]), commands[|commands| - 1]).0
  }

  lemma {:induction false} RunIsSound(db: Database, commands: seq<Command>)
    requires Sound(db)
    ensures Sound(Run(db, commands))
    ensures forall v | v in db.versions :: v in Run(db, commands).versions && Run(db, commands).versions[v] == db.versions[v]
    ensures db.publications <= Run(db, commands).publications
    decreases |commands|
  {
    if commands != [] {
      var n := |commands| - 1;
      RunIsSound(db, commands[..n]);
      PublishKeepsSound(Run(db, commands[..n]), commands[n]);
      VersionsOnlyGrow(Run(db, commands[..n]), commands[n]);
      hide Sound, PublishCommand;
    }
  }

  lemma {:induction false} RunSplits(db: Database, a: seq<Command>, b: seq<Command>)
    ensures Run(db, a + b) == Run(Run(db, a), b)
    decreases |b|
  {
    hide PublishCommand;
    if b == [] {
      assert a + b == a;
    } else {
      var n := |b| - 1;
      RunSplits(db, a, b[..n]);
      assert (a + b)[..|a + b| - 1] == a + b[..n];
      assert (a + b)[|a + b| - 1] == b[n];
    }
  }

  // ---------------------------------------------------------------- the theorems

  lemma {:induction false} LastIsStored(db: Database)
    requires PublicationsStored(db.versions, db.publications) && db.publications != []
    ensures var p := db.publications[|db.publications| - 1];
      p.version in db.versions && db.versions[p.version].contentDigest == p.contentDigest
  {
  }

  // What the current pointer and the chain of publications look like.
  ghost predicate PointerAndChain(db: Database) {
    && (db.current.None? <==> db.publications == [])
    && (db.current.Some? ==>
          var p := db.publications[|db.publications| - 1];
          && db.current.value == Current(p.version, p.contentDigest, p.publicationId)
          && p.version in db.versions && db.versions[p.version].contentDigest == p.contentDigest)
    && Chained(db.publications)
  }

  lemma {:induction false} SoundPointsAndChains(db: Database)
    requires Sound(db)
    ensures PointerAndChain(db)
  {
    if db.publications != [] {
      LastIsStored(db);
    }
    hide VersionsCanonical, PublicationsStored;
  }

  // In every run the current pointer names the last publication and a stored
  // version with the same digest, and each publication's previous version is the
  // version of the publication before it.
  lemma {:induction false} CurrentAndChain(commands: seq<Command>)
    ensures PointerAndChain(Run(Empty, commands))
  {
    RunIsSound(Empty, commands);
    hide Run, Sound, PointerAndChain;
    SoundPointsAndChains(Run(Empty, commands));
  }

  // A stored policy always passes the digest check on loading and comes back
  // exactly as it was stored.
  lemma {:induction false} StoredPoliciesLoad(commands: seq<Command>, version: Text)
    ensures var db := Run(Empty, commands);
      Load(db, version) == if version in db.versions then Some(db.versions[version].snapshot) else None
  {
    RunIsSound(Empty, commands);
    hide Run, Canonicalize, Digest, Chained, CurrentIsLast;
  }

  lemma {:induction false} FindInLonger(publications: seq<Publication>, more: seq<Publication>, id: Text)
    requires FindBy(PublicationIdOf, publications, id).Some? && publications <= more
    ensures FindBy(PublicationIdOf, more, id) == FindBy(PublicationIdOf, publications, id)
  {
    if PublicationIdOf(publications[0]) != id {
      FindInLonger(publications[1..], more[1..], id);
    }
  }

  lemma {:induction false} FindAppended(publications: seq<Publication>, p: Publication)
    requires FindBy(PublicationIdOf, publications, p.publicationId).None?
    ensures FindBy(PublicationIdOf, publications + [p], p.publicationId) == Some(p)
  {
    if publications != [] {
      FindAppended(publications[1..], p);
      assert (publications + [p])[1..] == publications[1..] + [p];
    }
  }

  lemma {:induction false} PublishedIsFound(db: Database, c: Command)
    requires PublishCommand(db, c).1.Published?
    ensures Canonicalize(c.snapshot).Some? && c.contractSupported
    ensures var p := PublishCommand(db, c).1.publication;
      && FindBy(PublicationIdOf, PublishCommand(db, c).0.publications, Lower(c.publicationId)) == Some(p)
      && p.fingerprint == FingerprintOf(c, Canonicalize(c.snapshot).value)
  {
    var canonical := Canonicalize(c.snapshot);
    hide Canonicalize, Digest, FindBy, Lower, Contradicts, ExpectationFails;
    if FindBy(PublicationIdOf, db.publications, Lower(c.publicationId)).None? {
      FindAppended(db.publications, NewPublication(db, c, canonical.value));
    }
  }

  lemma {:induction false} OriginalStays(commands: seq<Command>, c: Command, more: seq<Command>)
    requires PublishCommand(Run(Empty, commands), c).1.Published?
    ensures FindBy(PublicationIdOf, Run(Empty, commands + [c] + more).publications, Lower(c.publicationId))
            == Some(PublishCommand(Run(Empty, commands), c).1.publication)
  {
    var db1 := Run(Empty, commands + [c]);
    assert (commands + [c])[..|commands|] == commands;
    assert db1 == PublishCommand(Run(Empty, commands), c).0;
    hide Run, PublishCommand, FindBy, Lower, Sound;
    PublishedIsFound(Run(Empty, commands), c);
    RunIsSound(Empty, commands + [c]);
    RunIsSound(db1, more);
    RunSplits(Empty, commands + [c], more);
    FindInLonger(db1.publications, Run(db1, more).publications, Lower(c.publicationId));
  }

  lemma {:induction false} SameFingerprint(c: Command, again: Command)
    requires Canonicalize(c.snapshot).Some? && Canonicalize(again.snapshot).Some?
    ensures FingerprintOf(again, Canonicalize(again.snapshot).value) == FingerprintOf(c, Canonicalize(c.snapshot).value)
            <==> Canonicalize(again.snapshot) == Canonicalize(c.snapshot) && again.publishedAt == c.publishedAt && again.expected == c.expected
  {
    hide Canonicalize, Digest;
    DigestDecides(Canonicalize(again.snapshot).value, Canonicalize(c.snapshot).value);
  }

  // A publication repeated later is answered with the original result exactly
  // when its snapshot canonicalises to the same policy and its time and its
  // expectation agree, and is a conflict otherwise; either way it changes nothing.
  lemma {:induction false} ReplayReturnsTheOriginal(commands: seq<Command>, c: Command, more: seq<Command>, again: Command)
    requires PublishCommand(Run(Empty, commands), c).1.Published? && Lower(again.publicationId) == Lower(c.publicationId)
    requires again.contractSupported && Canonicalize(again.snapshot).Some?
    ensures var original := PublishCommand(Run(Empty, commands), c).1.publication; var db := Run(Empty, commands + [c] + more);
      PublishCommand(db, again) ==
      (db, if Canonicalize(again.snapshot) == Canonicalize(c.snapshot) && again.publishedAt == c.publishedAt && again.expected == c.expected
           then Published(original, true) else Conflict)
    ensures BagOf(again.snapshot) == BagOf(c.snapshot) ==> Canonicalize(again.snapshot) == Canonicalize(c.snapshot)
  {
    hide Run, Canonicalize, Digest, FindBy, Lower, Contradicts, ExpectationFails, BagOf, AfterPublishing, NewPublication, FingerprintOf;
    OriginalStays(commands, c, more);
    PublishedIsFound(Run(Empty, commands), c);
    SameFingerprint(c, again);
    if BagOf(again.snapshot) == BagOf(c.snapshot) {
      CanonicalizeForgetsOrder(again.snapshot, c.snapshot);
    }
  }

  lemma {:induction false} PublicationIsStored(db: Database, c: Command)
    requires Sound(db) && PublishCommand(db, c).1.Published?
    ensures var p := Canonicalize(c.snapshot).value; var after := PublishCommand(db, c).0;
      p.version in after.versions && after.versions[p.version].contentDigest == Digest(p)
  {
    hide Canonicalize, Digest, FindBy, Lower, ExpectationFails, VersionsCanonical, Chained, CurrentIsLast;
    var prior := FindBy(PublicationIdOf, db.publications, Lower(c.publicationId));
    if prior.Some? {
      FoundIsThere(db.publications, Lower(c.publicationId));
    }
  }

  lemma {:induction false} FoundIsThere(publications: seq<Publication>, id: Text)
    requires FindBy(PublicationIdOf, publications, id).Some?
    ensures FindBy(PublicationIdOf, publications, id).value in publications
  {
    if PublicationIdOf(publications[0]) != id {
      FoundIsThere(publications[1..], id);
    }
  }

  // A version's content is written once: whatever is published under it, first
  // or again, at any time of any run, is exactly what is stored in every later state.
  lemma {:induction false} VersionsAreWriteOnce(before: seq<Command>, c: Command, more: seq<Command>)
    requires PublishCommand(Run(Empty, before), c).1.Published?
    ensures Canonicalize(c.snapshot).Some?
    ensures var p := Canonicalize(c.snapshot).value; var later := Run(Empty, before + [c] + more);
      p.version in later.versions && later.versions[p.version] == StoredVersion(Digest(p), p)
  {
    var db1 := Run(Empty, before + [c]);
    assert (before + [c])[..|before|] == before;
    assert db1 == PublishCommand(Run(Empty, before), c).0;
    hide Run, PublishCommand, Canonicalize, Digest, Lower, Chained, CurrentIsLast, PublicationsStored;
    PublishedIsFound(Run(Empty, before), c);
    RunIsSound(Empty, before);
    PublicationIsStored(Run(Empty, before), c);
    RunIsSound(Empty, before + [c]);
    var p := Canonicalize(c.snapshot).value;
    DigestDecides(db1.versions[p.version].snapshot, p);
    RunIsSound(db1, more);
    RunSplits(Empty, before + [c], more);
  }
}
