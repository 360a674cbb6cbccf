/**
 * The application service: it sequences calls to the CouchDB repository and passes their
 * results and errors through. Each repository call's outcome is a parameter; the calls
 * actually made are returned, in order, beside the result.
 */
module Services {
  import opened Common
  import opened Models
  import Http
  import CouchDb
  import InMemoryCouchDb

  /** A call the service makes on the repository. */
  datatype RepositoryCall =
    | EnsureDatabase(db: string)
    | SaveDocument(db: string, doc: CouchDbDocument)
    | Replicate(source: string, target: string, options: Json)

  /**
   * `handle_document_sync`: ensures the database, then saves the document; an ensure
   * failure is returned as it is and no save is attempted.
   */
  function HandleDocumentSync(db: string, doc: CouchDbDocument,
                              ensured: Result<(), DomainError>,
                              saved: Result<CouchDbDocument, DomainError>)
    : (r: (Result<CouchDbDocument, DomainError>, seq<RepositoryCall>))
    ensures |r.1| >= 1 && r.1[0] == EnsureDatabase(db)
    ensures ensured.Err? ==> r.0 == Err(ensured.error) && |r.1| == 1
    ensures ensured.Ok? ==> r.0 == saved && r.1 == [EnsureDatabase(db), SaveDocument(db, doc)]
  {
    match ensured
    case Err(e) => (Err(e), [EnsureDatabase(db)])
    case Ok(_) => (saved, [EnsureDatabase(db), SaveDocument(db, doc)])
  }

  /** `handle_replication`: one replicate call whose result or error is returned unchanged. */
  function HandleReplication(source: string, target: string, options: Json,
                             replicated: Result<Json, DomainError>)
    : (r: (Result<Json, DomainError>, seq<RepositoryCall>))
    ensures r.0 == replicated
    ensures r.1 == [Replicate(source, target, options)]
  {
    (replicated, [Replicate(source, target, options)])
  }

  /** `get_couchdb_url` over the CouchDB client: its normalised base URL. */
  function CouchDbUrl(c: CouchDb.Client): (r: string)
    ensures r == c.baseUrl
  {
    c.baseUrl
  }

  /** `get_couchdb_auth` over the CouchDB client: always its credentials. */
  function CouchDbAuth(c: CouchDb.Client): (r: Option<(string, string)>)
    ensures r == Some((c.username, c.password))
  {
    CouchDb.GetAuthCredentials(c)
  }

  /**
   * Against the real client, a sync whose existence check fails never saves and reports
   * the check's error; one whose database exists saves and returns the saved document
   * carrying the backend's revision.
   */
  lemma SyncOverClient(c: CouchDb.Client, db: string, doc: CouchDbDocument,
                       existsSent: Result<Http.StatusCode, CouchDb.TransportError>,
                       createSent: Result<Http.StatusCode, CouchDb.TransportError>,
                       saveSent: Result<Http.StatusCode, CouchDb.TransportError>,
                       replyRev: Result<string, string>)
    ensures var ensured := CouchDb.EnsureDatabase(c, db, existsSent, createSent).0;
      var r := HandleDocumentSync(db, doc, ensured, CouchDb.SaveDocument(doc, saveSent, replyRev));
      && (existsSent.Err? ==> r.1 == [EnsureDatabase(db)] && r.0 == Err(CouchDbError("Failed to check database existence: " + existsSent.error.message)))
      && (existsSent == Ok(200) && saveSent.Ok? && Http.IsSuccess(saveSent.value) && replyRev.Ok? ==>
            r.0 == Ok(doc.(rev := Some(replyRev.value))))
  {
    CouchDb.EnsureDatabaseCalls(c, db, existsSent, createSent);
  }

  /**
   * Against the in-memory repository, a sync always succeeds and the saved document can be
   * read back under its id.
   */
  lemma SyncOverInMemory(dbs: InMemoryCouchDb.Databases, db: string, doc: CouchDbDocument, generatedId: string, revUuid: string)
    ensures var s := InMemoryCouchDb.Saved(doc, generatedId, revUuid);
      var r := HandleDocumentSync(db, doc, Ok(()), Ok(s));
      && r.0 == Ok(s)
      && InMemoryCouchDb.Lookup(InMemoryCouchDb.AfterSave(InMemoryCouchDb.AfterEnsure(dbs, db), db, s), db, s.id) == Ok(s)
  {
    InMemoryCouchDb.GetAfterSave(InMemoryCouchDb.AfterEnsure(dbs, db), db, doc, generatedId, revUuid);
  }

  /** The URL the service hands out always ends with '/'. */
  lemma ServiceUrlEndsWithSlash(url: string, username: string, password: string)
    ensures EndsWith(CouchDbUrl(CouchDb.NewClient(url, username, password)), "/")
    ensures CouchDbAuth(CouchDb.NewClient(url, username, password)) == Some((username, password))
  {
  }
}
