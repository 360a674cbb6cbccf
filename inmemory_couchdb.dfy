/**
 * The in-memory document store that stands in for CouchDB in the repository tests: a
 * nested map from database name to document id to document, changed in place by save,
 * delete, ensure and replicate. It is the reference model of the repository contract.
 *
 * The fresh identifiers the store draws (`Uuid::new_v4`) are parameters.
 */
module InMemoryCouchDb {
  import opened Common
  import opened Models

  type Database = map<string, CouchDbDocument>
  type Databases = map<string, Database>

  /** Every document is filed under its own id. */
  predicate Filed(dbs: Databases) {
    forall name, id :: name in dbs && id in dbs[name] ==> dbs[name][id].id == id
  }

  function NotFound(db: string, id: string): DomainError {
    CouchDbError("Document " + id + " not found in database " + db)
  }

  /** `get_document`: the stored document, or an error when the database or the document is missing. */
  function Lookup(dbs: Databases, db: string, id: string): (r: Result<CouchDbDocument, DomainError>)
    ensures r.Ok? <==> db in dbs && id in dbs[db]
    ensures r.Err? ==> r.error == NotFound(db, id)
  {
    if db in dbs && id in dbs[db] then Ok(dbs[db][id]) else Err(NotFound(db, id))
  }

  /** The document a save stores: the generated id when the given one is empty, and a fresh first revision. */
  function Saved(doc: CouchDbDocument, generatedId: string, revUuid: string): (r: CouchDbDocument)
    ensures r.data == doc.data
  {
    doc.(id := if doc.id == "" then generatedId else doc.id, rev := Some("1-" + revUuid))
  }

  /** The database of that name, or an empty one. */
  function DatabaseOrEmpty(dbs: Databases, db: string): Database {
    if db in dbs then dbs[db] else map[]
  }

  function AfterSave(dbs: Databases, db: string, saved: CouchDbDocument): (r: Databases)
    ensures r.Keys == dbs.Keys + {db}
    ensures saved.id in r[db] && r[db][saved.id] == saved
    ensures forall id :: id in DatabaseOrEmpty(dbs, db) && id != saved.id ==> id in r[db] && r[db][id] == DatabaseOrEmpty(dbs, db)[id]
    ensures forall d :: d in dbs && d != db ==> r[d] == dbs[d]
  {
    dbs[db := DatabaseOrEmpty(dbs, db)[saved.id := saved]]
  }

  function AfterDelete(dbs: Databases, db: string, id: string): (r: Databases)
    requires db in dbs
    ensures r.Keys == dbs.Keys && r[db].Keys == dbs[db].Keys - {id}
    ensures forall d :: d in dbs && d != db ==> r[d] == dbs[d]
  {
    dbs[db := dbs[db] - {id}]
  }

  function AfterEnsure(dbs: Databases, db: string): (r: Databases)
    ensures r.Keys == dbs.Keys + {db}
    ensures db in dbs ==> r == dbs
    ensures db !in dbs ==> r[db] == map[]
  {
    dbs[db := DatabaseOrEmpty(dbs, db)]
  }

  /** The target afterwards holds its own documents overwritten by every document of the source. */
  function AfterReplicate(dbs: Databases, source: string, target: string): (r: Databases)
    requires source in dbs
    ensures r.Keys == dbs.Keys + {target}
    ensures forall id :: id in dbs[source] ==> id in r[target] && r[target][id] == dbs[source][id]
    ensures forall d :: d in dbs && d != target ==> r[d] == dbs[d]
  {
    dbs[target := DatabaseOrEmpty(dbs, target) + dbs[source]]
  }

  /** The replication report: as many documents read and written as the source holds, none failed. */
  function ReplicationReport(count: nat): Json {
    JObject(map["ok" := JBool(true), "docs_read" := JNumber(count), "docs_written" := JNumber(count),
                "docs_failed" := JNumber(0)])
  }

  class InMemoryStore {
    var databases: Databases

    predicate Valid()
      reads this
    {
      Filed(databases)
    }

    /** `new`: no databases at all. */
    constructor()
      ensures Valid() && databases == map[]
    {
      databases := map[];
    }

    method GetDocument(db: string, id: string) returns (r: Result<CouchDbDocument, DomainError>)
      ensures r == Lookup(databases, db, id)
    {
      if db in databases && id in databases[db] {
        r := Ok(databases[db][id]);
      } else {
        r := Err(NotFound(db, id));
      }
    }

    /**
     * `save_document`: creates the database when missing and stores the document under its
     * (possibly generated) id, replacing whatever was there.
     */
    method SaveDocument(db: string, doc: CouchDbDocument, generatedId: string, revUuid: string)
      returns (r: Result<CouchDbDocument, DomainError>)
      requires Valid()
      modifies this
      ensures Valid()
      ensures r == Ok(Saved(doc, generatedId, revUuid))
      ensures databases == AfterSave(old(databases), db, Saved(doc, generatedId, revUuid))
    {
      var target := if db in databases then databases[db] else map[];
      var id := if doc.id == "" then generatedId else doc.id;
      var rev := "1-" + revUuid;
      var newDoc := doc.(id := id, rev := Some(rev));
      databases := databases[db := target[newDoc.id := newDoc]];
      r := Ok(newDoc);
    }

    /** `delete_document`: removes the document whatever revision is given; a missing one is an error. */
    method DeleteDocument(db: string, id: string, rev: string) returns (r: Result<(), DomainError>)
      requires Valid()
      modifies this
      ensures Valid()
      ensures r.Ok? <==> Lookup(old(databases), db, id).Ok?
      ensures r.Ok? ==> databases == AfterDelete(old(databases), db, id)
      ensures r.Err? ==> r.error == NotFound(db, id) && databases == old(databases)
    {
      if db in databases && id in databases[db] {
        databases := databases[db := databases[db] - {id}];
        r := Ok(());
      } else {
        r := Err(NotFound(db, id));
      }
    }

    /** `query_view`: every document of the database, in no particular order; none for a missing one. */
    method QueryView(db: string, designDoc: string, viewName: string, options: Json)
      returns (r: Result<seq<CouchDbDocument>, DomainError>)
      requires Valid()
      ensures r.Ok?
      ensures db !in databases ==> r.value == []
      ensures db in databases ==> |r.value| == |databases[db]|
      ensures db in databases ==> forall d :: d in r.value <==> d in databases[db].Values
    {
      if db !in databases {
        return Ok([]);
      }
      var docs := CollectValues(databases[db]);
      r := Ok(docs);
    }

    /** `ensure_database`: creates an empty database when missing; an existing one is left alone. */
    method EnsureDatabase(db: string) returns (r: Result<(), DomainError>)
      requires Valid()
      modifies this
      ensures Valid()
      ensures r.Ok?
      ensures databases == AfterEnsure(old(databases), db)
    {
      if db !in databases {
        databases := databases[db := map[]];
      }
      r := Ok(());
    }

    /**
     * `replicate`: copies every document of the source into the target (created when
     * missing), each under its id; a missing source is an error and changes nothing.
     */
    method Replicate(source: string, target: string, options: Json) returns (r: Result<Json, DomainError>)
      requires Valid()
      modifies this
      ensures Valid()
      ensures source !in old(databases) ==>
        r == Err(CouchDbError("Source database " + source + " not found")) && databases == old(databases)
      ensures source in old(databases) ==>
        r == Ok(ReplicationReport(|old(databases)[source]|)) && databases == AfterReplicate(old(databases), source, target)
    {
      if source !in databases {
        return Err(CouchDbError("Source database " + source + " not found"));
      }
      var sourceDocs := databases[source];
      var targetDocs := if target in databases then databases[target] else map[];
      targetDocs := CopyDocuments(sourceDocs, targetDocs);
      FiledUnion(databases, source, target);
      databases := databases[target := targetDocs];
      r := Ok(ReplicationReport(|sourceDocs|));
    }
  }

  /** The copy loop of `replicate`: inserts each source document under its id. */
  method CopyDocuments(sourceDocs: Database, targetDocs: Database) returns (r: Database)
    requires forall id :: id in sourceDocs ==> sourceDocs[id].id == id
    ensures r == targetDocs + sourceDocs
  {
    r := targetDocs;
    var keys := sourceDocs.Keys;
    ghost var done: set<string> := {};
    while keys != {}
      invariant keys + done == sourceDocs.Keys && keys !! done
      invariant r == targetDocs + (map k | k in done :: sourceDocs[k])
      decreases keys
    {
      var k :| k in keys;
      var d := sourceDocs[k];
      r := r[d.id := d];
      keys := keys - {k};
      done := done + {k};
    }
    assert done == sourceDocs.Keys;
  }

  /** Every document of a database, each once, in the order the keys are picked. */
  method CollectValues(m: Database) returns (docs: seq<CouchDbDocument>)
    requires forall i :: i in m ==> m[i].id == i
    ensures |docs| == |m|
    ensures forall d :: d in docs <==> d in m.Values
  {
    var keys := m.Keys;
    docs := [];
    ghost var done: set<string> := {};
    while keys != {}
      invariant keys + done == m.Keys && keys !! done
      invariant |docs| == |done|
      invariant forall d :: d in docs <==> exists k :: k in done && m[k] == d
      decreases keys
    {
      var k :| k in keys;
      CollectStep(m, done, docs, k);
      docs := docs + [m[k]];
      keys := keys - {k};
      done := done + {k};
    }
    forall d | d in m.Values ensures d in docs {
      var k :| k in m && m[k] == d;
      assert k in done;
    }
  }

  /** Collecting one more key adds its document, which was not collected before. */
  lemma CollectStep(m: Database, done: set<string>, docs: seq<CouchDbDocument>, k: string)
    requires forall i :: i in m ==> m[i].id == i
    requires k in m && k !in done && done <= m.Keys
    requires forall d :: d in docs <==> exists j :: j in done && m[j] == d
    ensures m[k] !in docs
    ensures forall d :: d in docs + [m[k]] <==> exists j :: j in done + {k} && m[j] == d
  {
    forall d | d in docs + [m[k]] ensures exists j :: j in done + {k} && m[j] == d {
      if d !in docs {
        assert m[k] == d;
      }
    }
  }

  lemma FiledUnion(dbs: Databases, source: string, target: string)
    requires Filed(dbs) && source in dbs
    ensures Filed(AfterReplicate(dbs, source, target))
  {
  }

  // ---------------------------------------------------------------------------------
  // Properties of the repository contract

  /** A saved document reads back with the same id, revision and data. */
  lemma GetAfterSave(dbs: Databases, db: string, doc: CouchDbDocument, generatedId: string, revUuid: string)
    ensures var s := Saved(doc, generatedId, revUuid);
      Lookup(AfterSave(dbs, db, s), db, s.id) == Ok(s)
  {
  }

  /** A save changes no other document, in any database. */
  lemma SaveTouchesOnlyItsDocument(dbs: Databases, db: string, saved: CouchDbDocument, otherDb: string, otherId: string)
    requires otherDb != db || otherId != saved.id
    requires otherDb in dbs
    ensures Lookup(AfterSave(dbs, db, saved), otherDb, otherId) == Lookup(dbs, otherDb, otherId)
  {
  }

  /** A save never loses a database or a document other than the one it replaces. */
  lemma SaveKeepsOthers(dbs: Databases, db: string, saved: CouchDbDocument)
    ensures dbs.Keys + {db} == AfterSave(dbs, db, saved).Keys
    ensures db in dbs ==> AfterSave(dbs, db, saved)[db].Keys == dbs[db].Keys + {saved.id}
    ensures db !in dbs ==> AfterSave(dbs, db, saved)[db] == map[saved.id := saved]
  {
  }

  /**
   * The stored revision is always a first revision; the id is the document's own when it
   * has one and the generated one otherwise.
   */
  lemma SavedRevAndId(doc: CouchDbDocument, generatedId: string, revUuid: string)
    ensures var s := Saved(doc, generatedId, revUuid);
      && s.rev.Some? && StartsWith(s.rev.value, "1-")
      && (doc.id != "" ==> s.id == doc.id)
      && (doc.id == "" ==> s.id == generatedId)
      && (generatedId != "" ==> s.id != "")
  {
    var s := Saved(doc, generatedId, revUuid);
    assert s.rev.value[..2] == "1-";
  }

  /** After a delete the document is gone, and a second delete of it fails. */
  lemma DeleteThenGetFails(dbs: Databases, db: string, id: string)
    requires db in dbs
    ensures Lookup(AfterDelete(dbs, db, id), db, id) == Err(NotFound(db, id))
  {
  }

  /** Deleting keeps every other document. */
  lemma DeleteKeepsOthers(dbs: Databases, db: string, id: string, otherDb: string, otherId: string)
    requires db in dbs
    requires otherDb != db || otherId != id
    ensures Lookup(AfterDelete(dbs, db, id), otherDb, otherId) == Lookup(dbs, otherDb, otherId)
  {
  }

  /** Ensuring twice is ensuring once, and ensuring never removes a document. */
  lemma EnsureIdempotent(dbs: Databases, db: string)
    ensures AfterEnsure(AfterEnsure(dbs, db), db) == AfterEnsure(dbs, db)
    ensures db in dbs ==> AfterEnsure(dbs, db) == dbs
    ensures forall name, id :: name in dbs && id in dbs[name] ==>
      Lookup(AfterEnsure(dbs, db), name, id) == Lookup(dbs, name, id)
  {
  }

  /**
   * After a replication every source document is in the target, the source itself is
   * unchanged, and target documents the source does not have are kept.
   */
  lemma ReplicateCopiesAll(dbs: Databases, source: string, target: string)
    requires source in dbs
    ensures var after := AfterReplicate(dbs, source, target);
      && target in after && source in after
      && (forall id :: id in dbs[source] ==> Lookup(after, target, id) == Lookup(dbs, source, id))
      && after[source] == dbs[source]
      && (forall id :: target in dbs && id in dbs[target] && id !in dbs[source] ==> after[target][id] == dbs[target][id])
      && (forall name :: name in dbs && name != target ==> after[name] == dbs[name])
  {
  }

  /** The report counts the source's documents as both read and written, and no failure. */
  lemma ReplicationReportCounts(count: nat)
    ensures var r := ReplicationReport(count);
      && r.JObject? && r.fields.Keys == {"ok", "docs_read", "docs_written", "docs_failed"}
      && r.fields["docs_read"] == r.fields["docs_written"] == JNumber(count)
      && r.fields["docs_failed"] == JNumber(0) && r.fields["ok"] == JBool(true)
  {
  }

  /** The save-then-get and save-then-delete-then-get scenarios of the repository's tests. */
  method SaveGetDeleteScenario(generatedId: string, revUuid: string)
  {
    var store := new InMemoryStore();
    var doc := CouchDbDocument("test-doc", None, JObject(map["name" := JString("Test Document")]));
    var saved := store.SaveDocument("test-db", doc, generatedId, revUuid);
    assert saved.Ok? && saved.value.id == "test-doc";
    var got := store.GetDocument("test-db", saved.value.id);
    assert got == Ok(saved.value);
    var deleted := store.DeleteDocument("test-db", saved.value.id, saved.value.rev.value);
    assert deleted.Ok?;
    var again := store.GetDocument("test-db", saved.value.id);
    assert again.Err?;
  }
}
