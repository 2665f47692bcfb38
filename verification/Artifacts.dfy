/** Content-addressed storage of large payloads (src/core/state/artifacts.py).

    A digest wraps the bytes it was computed from, which makes hashing injective
    by construction; compression is the identity.  A stored file is named by the
    digest of its contents. */
module Artifacts {
  import opened Common

  type ArtifactId = nat

  datatype Digest = Sha256(of: Bytes)

  datatype StorageError = NotFound | FileMissing | DigestMismatch | UndecodablePayload

  /** A collection that completed, or one that died before its commit with some files gone. */
  datatype Collection = Completed | Aborted(lost: set<Digest>)

  /** The `artifacts` and `artifact_references` tables and the files beside them. */
  datatype Vault = Vault(
    rows: map<ArtifactId, Digest>,
    references: set<(ArtifactId, Text)>,
    files: map<Digest, Bytes>,
    nextId: ArtifactId,
    maxBytes: nat)
  {
    ghost predicate Valid() {
      && maxBytes >= 1
      && (forall i, j {:trigger rows[i], rows[j]} :: i in rows && j in rows && rows[i] == rows[j] ==> i == j)
      && (forall i :: i in rows ==> i < nextId)
      && (forall r :: r in references ==> r.0 in rows)
      && (forall d :: d in files ==> files[d] == d.of)
    }

    ghost predicate Referenced(id: ArtifactId) {
      exists owner: Text :: (id, owner) in references
    }

    /** The artifact can be read back. */
    ghost predicate Intact(id: ArtifactId) {
      id in rows && rows[id] in files && files[rows[id]] == rows[id].of
    }

    ghost predicate Holds(d: Digest) {
      exists id :: id in rows && rows[id] == d
    }

    ghost function IdOf(d: Digest): ArtifactId
      requires Holds(d)
    {
      var id :| id in rows && rows[id] == d; id
    }

    function Get(id: ArtifactId): Result<Bytes, StorageError> {
      if id !in rows then Err(NotFound)
      else if rows[id] !in files then Err(FileMissing)
      else if Sha256(files[rows[id]]) != rows[id] then Err(DigestMismatch)
      else Ok(files[rows[id]])
    }

    /** The vault after `put` and the id it returns: a known digest is returned
        as it is, without a look at its file. */
    ghost function Put(content: Bytes): (Vault, ArtifactId) {
      var d := Sha256(content[..Min(|content|, maxBytes)]);
      if Holds(d) then (this, IdOf(d))
      else (this.(rows := rows[nextId := d], files := files[d := d.of], nextId := nextId + 1), nextId)
    }

    function AddReference(id: ArtifactId, owner: Text): Vault {
      this.(references := references + {(id, owner)})
    }

    ghost function Garbage(): set<ArtifactId> {
      set id | id in rows && !Referenced(id)
    }

    ghost function Without(ids: set<ArtifactId>): Vault
      requires ids <= rows.Keys
    {
      this.(rows := rows - ids, files := files - set id | id in ids :: rows[id])
    }

    /** Rows and files after a completed collection. */
    ghost function Collect(): Vault {
      Without(Garbage())
    }

    /** A collection that died before its commit: some files are gone, no row is. */
    ghost function CollectAborted(lost: set<Digest>): Vault {
      this.(files := files - (lost * set id | id in Garbage() :: rows[id]))
    }

    ghost function After(c: Collection): Vault {
      match c
      case Completed => Collect()
      case Aborted(lost) => CollectAborted(lost)
    }

    ghost function Collections(cs: seq<Collection>): Vault
      decreases |cs|
    {
      if cs == [] then this else After(cs[0]).Collections(cs[1..])
    }

    /** A put that died before its commit leaves only a file. */
    function PutAborted(content: Bytes): Vault {
      var raw := content[..Min(|content|, maxBytes)];
      this.(files := files[Sha256(raw) := raw])
    }
  }

  lemma PutKeepsValid(v: Vault, content: Bytes)
    requires v.Valid()
    ensures v.Put(content).0.Valid() && v.Put(content).1 in v.Put(content).0.rows
    ensures forall id :: v.Intact(id) ==> v.Put(content).0.Intact(id)
  {
  }

  /** Within the size cap, a put can be read back exactly when its digest was new
      or the file of the row it was deduplicated to still exists. */
  lemma PutRoundTrips(v: Vault, content: Bytes)
    requires v.Valid()
    ensures
      var (after, id) := v.Put(content);
      after.Get(id) == Ok(content) <==>
        |content| <= v.maxBytes && (v.Holds(Sha256(content)) ==> Sha256(content) in v.files)
  {
    var raw := content[..Min(|content|, v.maxBytes)];
    if |content| <= v.maxBytes {
      assert raw == content;
    }
  }

  /** Collection, completed or aborted, and an aborted put keep every referenced artifact readable. */
  lemma CollectionKeepsReferenced(v: Vault, id: ArtifactId, lost: set<Digest>, content: Bytes)
    requires v.Valid() && v.Intact(id) && v.Referenced(id)
    ensures v.Collect().Valid() && v.CollectAborted(lost).Valid() && v.PutAborted(content).Valid()
    ensures v.Collect().Intact(id) && v.CollectAborted(lost).Intact(id) && v.PutAborted(content).Intact(id)
    ensures v.Collect().Referenced(id)
  {
    CollectKeepsValid(v, lost, content);
    var owner :| (id, owner) in v.references;
    assert (id, owner) in v.Collect().references;
  }

  lemma CollectKeepsValid(v: Vault, lost: set<Digest>, content: Bytes)
    requires v.Valid()
    ensures v.Collect().Valid() && v.CollectAborted(lost).Valid() && v.PutAborted(content).Valid()
  {
    var w := v.Collect();
    forall r | r in w.references ensures r.0 in w.rows {
      assert (r.0, r.1) in v.references;
      assert v.Referenced(r.0);
    }
  }

  lemma SameReferences(v: Vault, w: Vault)
    requires v.references == w.references
    ensures forall i: ArtifactId :: v.Referenced(i) <==> w.Referenced(i)
  {
    forall i: ArtifactId ensures v.Referenced(i) <==> w.Referenced(i) {
      if v.Referenced(i) {
        var owner :| (i, owner) in v.references;
        assert (i, owner) in w.references;
      }
      if w.Referenced(i) {
        var owner :| (i, owner) in w.references;
        assert (i, owner) in v.references;
      }
    }
  }

  /** A collection between `put` and `add_reference` spares the artifact exactly if somebody
      references it already, whether the put was new or deduplicated.  Otherwise the reference
      that `finish` adds next has nothing to point at. */
  lemma CollectionBeforeReference(v: Vault, content: Bytes)
    requires v.Valid()
    ensures
      var (after, id) := v.Put(content);
      var d := Sha256(content[..Min(|content|, v.maxBytes)]);
      && (id in after.Collect().rows <==> after.Referenced(id))
      && (after.Referenced(id) <==> v.Holds(d) && v.Referenced(v.IdOf(d)))
  {
    var (after, id) := v.Put(content);
    SameReferences(v, after);
  }

  lemma CollectionKeeps(v: Vault, c: Collection)
    requires v.Valid()
    ensures
      var w := v.After(c);
      && w.Valid() && w.references == v.references && w.nextId == v.nextId && w.maxBytes == v.maxBytes
      && (forall i :: i in w.rows ==> i in v.rows && w.rows[i] == v.rows[i])
      && (forall i :: i in v.rows ==> (i in w.rows <==> v.Referenced(i) || c.Aborted?))
      && (forall i :: i in v.rows ==>
            (w.Intact(i) <==> v.Intact(i) && (v.Referenced(i) || (c.Aborted? && v.rows[i] !in c.lost))))
      && (forall i :: w.Referenced(i) <==> v.Referenced(i))
  {
    CollectKeepsValid(v, if c.Aborted? then c.lost else {}, []);
    SameReferences(v, v.After(c));
  }

  /** What any number of collections, completed and aborted, does: an artifact stays exactly if it is
      referenced or none of them completed, and stays readable exactly if moreover none took its file. */
  lemma {:induction false} CollectionsKeep(v: Vault, cs: seq<Collection>, id: ArtifactId)
    requires v.Valid() && id in v.rows
    ensures
      var w := v.Collections(cs);
      && w.Valid() && w.references == v.references && w.nextId == v.nextId && w.maxBytes == v.maxBytes
      && (id in w.rows <==> v.Referenced(id) || forall c :: c in cs ==> c.Aborted?)
      && (w.Intact(id) <==>
            v.Intact(id) && (v.Referenced(id) || forall c :: c in cs ==> c.Aborted? && v.rows[id] !in c.lost))
    ensures id in v.Collections(cs).rows ==> v.Collections(cs).rows[id] == v.rows[id]
    decreases |cs|
  {
    if cs != [] {
      var next := v.After(cs[0]);
      assert forall c :: c in cs <==> c == cs[0] || c in cs[1..];
      CollectionKeeps(v, cs[0]);
      if id in next.rows {
        CollectionsKeep(next, cs[1..], id);
      } else {
        CollectionsShrink(next, cs[1..]);
      }
    }
  }

  lemma {:induction false} CollectionsShrink(v: Vault, cs: seq<Collection>)
    requires v.Valid()
    ensures
      var w := v.Collections(cs);
      && w.Valid() && w.references == v.references && w.nextId == v.nextId && w.maxBytes == v.maxBytes
      && (forall i :: i in w.rows ==> i in v.rows && w.rows[i] == v.rows[i])
    decreases |cs|
  {
    if cs != [] {
      CollectionKeeps(v, cs[0]);
      CollectionsShrink(v.After(cs[0]), cs[1..]);
    }
  }

  /** A collection that crashed before its commit makes a later identical put
      return a record that cannot be read. */
  lemma AbortedCollectionBreaksPut(content: Bytes)
    requires content != []
    ensures
      var v := Vault(map[0 := Sha256(content)], {}, map[Sha256(content) := content], 1, |content|);
      v.Valid() && v.Get(0) == Ok(content)
      && var (after, id) := v.CollectAborted({Sha256(content)}).Put(content);
      id == 0 && after.Get(id) == Err(FileMissing)
  {
    var v := Vault(map[0 := Sha256(content)], {}, map[Sha256(content) := content], 1, |content|);
    var w := v.CollectAborted({Sha256(content)});
    assert 0 in v.Garbage();
    assert content[..|content|] == content;
    assert w.rows[0] == Sha256(content);
  }

  class ArtifactStore {
    var rows: map<ArtifactId, Digest>
    var references: set<(ArtifactId, Text)>
    var files: map<Digest, Bytes>
    var nextId: ArtifactId
    const maxBytes: nat

    ghost function State(): Vault
      reads this
    {
      Vault(rows, references, files, nextId, maxBytes)
    }

    constructor (maxBytes: int)
      ensures State() == Vault(map[], {}, map[], 0, if maxBytes < 1 then 1 else maxBytes)
      ensures State().Valid()
    {
      this.maxBytes := if maxBytes < 1 then 1 else maxBytes;
      rows, references, files, nextId := map[], {}, map[], 0;
    }

    method Put(content: Bytes) returns (id: ArtifactId)
      requires State().Valid()
      modifies this
      ensures (State(), id) == old(State()).Put(content)
      ensures State().Valid() && id in rows
    {
      PutKeepsValid(State(), content);
      var raw := content[..Min(|content|, maxBytes)];
      var digest := Sha256(raw);
      var known := set i | i in rows && rows[i] == digest;
      if known != {} {
        id :| id in known;
        return;
      }
      assert forall i :: i in rows ==> i !in known;
      id := nextId;
      files := files[digest := raw];
      rows := rows[id := digest];
      nextId := nextId + 1;
    }

    method AddReference(id: ArtifactId, owner: Text)
      requires State().Valid() && id in rows
      modifies this
      ensures State() == old(State()).AddReference(id, owner)
      ensures State().Valid()
    {
      references := references + {(id, owner)};
    }

    method Get(id: ArtifactId) returns (r: Result<Bytes, StorageError>)
      ensures r == State().Get(id)
    {
      if id !in rows {
        return Err(NotFound);
      }
      if rows[id] !in files {
        return Err(FileMissing);
      }
      var raw := files[rows[id]];
      if Sha256(raw) != rows[id] {
        return Err(DigestMismatch);
      }
      r := Ok(raw);
    }

    /** Unlinks the file and deletes the row of every unreferenced artifact, one by one. */
    method CollectGarbage() returns (deleted: nat)
      requires State().Valid()
      modifies this
      ensures State() == old(State()).Collect() && deleted == |old(State()).Garbage()|
      ensures State().Valid()
    {
      CollectKeepsValid(State(), {}, []);
      var referenced := set r | r in references :: r.0;
      var garbage := set i | i in rows && i !in referenced;
      ReferencedIds(State(), referenced);
      assert garbage == State().Garbage();
      Remove(garbage);
      deleted := |garbage|;
    }

    method Remove(garbage: set<ArtifactId>)
      requires garbage <= rows.Keys
      modifies this
      ensures State() == old(State()).Without(garbage)
    {
      ghost var before := State();
      NothingRemoved(before);
      var left := garbage;
      assert garbage - left == {};
      while left != {}
        invariant left <= garbage
        invariant State() == before.Without(garbage - left)
      {
        var i :| i in left;
        OneMoreRemoved(before, garbage - left, i);
        files := files - {rows[i]};
        rows := rows - {i};
        assert garbage - (left - {i}) == garbage - left + {i};
        left := left - {i};
      }
      assert garbage - left == garbage;
    }
  }

  lemma NothingRemoved(v: Vault)
    ensures v.Without({}) == v
  {
    assert v.rows - {} == v.rows;
    assert v.files - {} == v.files;
  }

  lemma OneMoreRemoved(v: Vault, ids: set<ArtifactId>, i: ArtifactId)
    requires ids <= v.rows.Keys && i in v.rows && i !in ids
    ensures
      var w := v.Without(ids);
      v.Without(ids + {i}) == w.(rows := w.rows - {i}, files := w.files - {w.rows[i]})
  {
    var w := v.Without(ids);
    assert v.rows - (ids + {i}) == w.rows - {i};
    assert (set id | id in ids + {i} :: v.rows[id]) == (set id | id in ids :: v.rows[id]) + {v.rows[i]};
    assert v.Without(ids + {i}).files == w.files - {w.rows[i]};
  }

  lemma ReferencedIds(v: Vault, referenced: set<ArtifactId>)
    requires referenced == set r | r in v.references :: r.0
    ensures forall id :: v.Referenced(id) <==> id in referenced
  {
    forall id ensures v.Referenced(id) <==> id in referenced {
      if id in referenced {
        var r :| r in v.references && r.0 == id;
        assert (id, r.1) in v.references;
      }
      if v.Referenced(id) {
        var owner :| (id, owner) in v.references;
        assert (id, owner).0 in referenced;
      }
    }
  }
}
