/**
 * The tables behind a requirement source: extractions and fragments, analyses, observations and
 * sources are append-only, and insert-time triggers look at the parents. Shown is what this
 * guarantees over every run of inserts and of attempted updates and deletes.
 */
module Provenance {
  import opened Common

  /** Primary keys, tenants, documents and versions are only compared. */
  type Id = nat

  datatype ExtractionStatus = ExtractionCompleted | ReviewRequired | Unsupported | ExtractionLimit | ExtractionFailed

  datatype AnalysisStatus = AnalysisCompleted | NoRcMarker | AnalysisLimit | AnalysisFailed

  datatype Version = Version(tenant: Id)
  datatype Document = Document(tenant: Id, version: Id, sha256: string)
  datatype Extraction = Extraction(
    tenant: Id, version: Id, document: Id, status: ExtractionStatus, failureCode: Option<string>)
  datatype Fragment = Fragment(tenant: Id, extraction: Id, ordinal: int, text: string)
  datatype Analysis = Analysis(tenant: Id, version: Id, status: AnalysisStatus, failureCode: Option<string>)
  datatype Observation = Observation(tenant: Id, analysis: Id, version: Id, fragment: Id, start: int, end: int)
  datatype Source = Source(tenant: Id, observation: Id, fragment: Id, start: int, end: int)

  datatype Db = Db(
    versions: map<Id, Version>,
    documents: map<Id, Document>,
    extractions: map<Id, Extraction>,
    fragments: map<Id, Fragment>,
    analyses: map<Id, Analysis>,
    observations: map<Id, Observation>,
    sources: map<Id, Source>)

  /** The append-only tables. */
  datatype Guarded = Extractions | Fragments | Analyses | Observations | Sources

  /** Statements; versions and documents are not append-only. */
  datatype Statement =
    | InsertVersion(id: Id, version: Version)
    | DropVersion(id: Id)
    | PutDocument(id: Id, document: Document)
    | DropDocument(id: Id)
    | InsertExtraction(id: Id, extraction: Extraction)
    | InsertFragment(id: Id, fragment: Fragment)
    | InsertAnalysis(id: Id, analysis: Analysis)
    | InsertObservation(id: Id, observation: Observation)
    | InsertSource(id: Id, source: Source)
    | UpdateGuarded(table: Guarded, id: Id)
    | DeleteGuarded(table: Guarded, id: Id)

  // ---- CHECK constraints and triggers ----

  /** A foreign key (tenant_id, dce_version_id) to `dce_versions`. */
  predicate HasVersion(db: Db, tenant: Id, version: Id) {
    version in db.versions && db.versions[version].tenant == tenant
  }

  predicate ExtractionAllowed(db: Db, e: Extraction) {
    && (e.status == ExtractionCompleted <==> e.failureCode.None?)
    && HasVersion(db, e.tenant, e.version)
    && e.document in db.documents && db.documents[e.document].tenant == e.tenant
  }

  /** `validate_dce_extraction_fragment_parent` as migration 0067 leaves it. */
  predicate FragmentAllowed(db: Db, f: Fragment) {
    && f.ordinal > 0 && f.text != ""
    && f.extraction in db.extractions
    && db.extractions[f.extraction].tenant == f.tenant
    && db.extractions[f.extraction].status in {ExtractionCompleted, ReviewRequired}
  }

  predicate AnalysisAllowed(db: Db, a: Analysis) {
    (a.status == AnalysisCompleted <==> a.failureCode.None?) && HasVersion(db, a.tenant, a.version)
  }

  /** `validate_dce_rc_observation_parent`. */
  predicate ObservationAllowed(db: Db, o: Observation) {
    && HasVersion(db, o.tenant, o.version)
    && o.analysis in db.analyses
    && db.analyses[o.analysis].tenant == o.tenant
    && db.analyses[o.analysis].version == o.version
    && db.analyses[o.analysis].status == AnalysisCompleted
  }

  /** `validate_dce_rc_source_parent`: the joins of the trigger, one after another. */
  predicate SourceAllowed(db: Db, s: Source) {
    && 0 <= s.start < s.end
    && s.observation in db.observations
    && var o := db.observations[s.observation];
       && o.tenant == s.tenant && o.fragment == s.fragment && o.start == s.start && o.end == s.end
       && o.analysis in db.analyses
       && var a := db.analyses[o.analysis];
          && a.tenant == o.tenant && a.status == AnalysisCompleted && a.version == o.version
          && s.fragment in db.fragments
          && var f := db.fragments[s.fragment];
             && f.tenant == s.tenant && f.extraction in db.extractions
             && var e := db.extractions[f.extraction];
                && e.tenant == f.tenant && e.document in db.documents
                && var d := db.documents[e.document];
                   d.tenant == e.tenant && d.version == o.version
  }

  /** ON DELETE RESTRICT: a document that an extraction rests on stays, and keeps its tenant. */
  predicate Referenced(db: Db, id: Id) {
    exists x :: x in db.extractions && db.extractions[x].document == id
  }

  /** ON DELETE RESTRICT: a version that any row names stays. */
  predicate VersionReferenced(db: Db, id: Id) {
    || (exists d :: d in db.documents && db.documents[d].version == id)
    || (exists x :: x in db.extractions && db.extractions[x].version == id)
    || (exists a :: a in db.analyses && db.analyses[a].version == id)
    || (exists o :: o in db.observations && db.observations[o].version == id)
  }

  /** `uq_dce_documents__tenant_dce_version_sha256`: another document holds these contents there. */
  predicate ContentsTaken(db: Db, id: Id, d: Document) {
    exists other :: other in db.documents && other != id && db.documents[other] == d
  }

  /**
   * What the constraints let an INSERT or UPDATE of a document do: its version exists, no other
   * document of that version has its contents; an UPDATE keeps the hash, and the tenant while an
   * extraction rests on the document. Nothing keeps the version.
   */
  predicate DocumentWriteAllowed(db: Db, id: Id, d: Document) {
    && HasVersion(db, d.tenant, d.version) && !ContentsTaken(db, id, d)
    && (id in db.documents ==>
          d.sha256 == db.documents[id].sha256 && (Referenced(db, id) ==> d.tenant == db.documents[id].tenant))
  }

  predicate Permitted(db: Db, statement: Statement) {
    match statement
    case InsertVersion(id, _) => id !in db.versions
    case DropVersion(id) => !VersionReferenced(db, id)
    case PutDocument(id, d) => DocumentWriteAllowed(db, id, d)
    case DropDocument(id) => !Referenced(db, id)
    case InsertExtraction(id, e) => id !in db.extractions && ExtractionAllowed(db, e)
    case InsertFragment(id, f) => id !in db.fragments && FragmentAllowed(db, f)
    case InsertAnalysis(id, a) => id !in db.analyses && AnalysisAllowed(db, a)
    case InsertObservation(id, o) => id !in db.observations && ObservationAllowed(db, o)
    case InsertSource(id, s) => id !in db.sources && SourceAllowed(db, s)
    case UpdateGuarded(_, _) => false
    case DeleteGuarded(_, _) => false
  }

  /** A statement that is not permitted raises, and leaves everything as it was. */
  function Execute(db: Db, statement: Statement): Db {
    if !Permitted(db, statement) then db
    else match statement
         case InsertVersion(id, v) => db.(versions := db.versions[id := v])
         case DropVersion(id) => db.(versions := db.versions - {id})
         case PutDocument(id, d) => db.(documents := db.documents[id := d])
         case DropDocument(id) => db.(documents := db.documents - {id})
         case InsertExtraction(id, e) => db.(extractions := db.extractions[id := e])
         case InsertFragment(id, f) => db.(fragments := db.fragments[id := f])
         case InsertAnalysis(id, a) => db.(analyses := db.analyses[id := a])
         case InsertObservation(id, o) => db.(observations := db.observations[id := o])
         case InsertSource(id, s) => db.(sources := db.sources[id := s])
         case UpdateGuarded(_, _) => db
         case DeleteGuarded(_, _) => db
  }

  const EMPTY := Db(map[], map[], map[], map[], map[], map[], map[])

  ghost function Run(statements: seq<Statement>): Db {
    if statements == [] then EMPTY
    else Execute(Run(statements[..|statements| - 1]), statements[|statements| - 1])
  }

  // ---- The chain of a source ----

  /** The chain that does not pass through a document, whose version is not frozen. */
  ghost predicate Chained(db: Db, s: Source) {
    && 0 <= s.start < s.end
    && s.observation in db.observations
    && var o := db.observations[s.observation];
       && o.tenant == s.tenant && o.fragment == s.fragment && o.start == s.start && o.end == s.end
       && o.analysis in db.analyses
       && var a := db.analyses[o.analysis];
          && a.tenant == s.tenant && a.status == AnalysisCompleted && a.version == o.version
          && s.fragment in db.fragments
          && var f := db.fragments[s.fragment];
             && f.tenant == s.tenant && f.ordinal > 0 && f.text != "" && f.extraction in db.extractions
             && var e := db.extractions[f.extraction];
                && e.tenant == s.tenant && e.status in {ExtractionCompleted, ReviewRequired}
                && e.document in db.documents && db.documents[e.document].tenant == s.tenant
  }

  ghost predicate Sound(db: Db) {
    && (forall x :: x in db.extractions ==>
          db.extractions[x].document in db.documents
          && db.documents[db.extractions[x].document].tenant == db.extractions[x].tenant)
    && (forall f :: f in db.fragments ==> FragmentAllowed(db, db.fragments[f]))
    && (forall s :: s in db.sources ==> Chained(db, db.sources[s]))
  }

  /** Rows of the append-only tables stay, unchanged. */
  ghost predicate Kept(a: Db, b: Db) {
    && (forall id :: id in a.extractions ==> id in b.extractions && b.extractions[id] == a.extractions[id])
    && (forall id :: id in a.fragments ==> id in b.fragments && b.fragments[id] == a.fragments[id])
    && (forall id :: id in a.analyses ==> id in b.analyses && b.analyses[id] == a.analyses[id])
    && (forall id :: id in a.observations ==> id in b.observations && b.observations[id] == a.observations[id])
    && (forall id :: id in a.sources ==> id in b.sources && b.sources[id] == a.sources[id])
  }

  lemma StatementKeeps(db: Db, statement: Statement)
    ensures Kept(db, Execute(db, statement))
  {
  }

  ghost predicate DocumentsHeld(db: Db) {
    forall x :: x in db.extractions ==>
      db.extractions[x].document in db.documents
      && db.documents[db.extractions[x].document].tenant == db.extractions[x].tenant
  }

  lemma StatementHoldsDocuments(db: Db, statement: Statement)
    requires DocumentsHeld(db)
    ensures DocumentsHeld(Execute(db, statement))
  {
    var db' := Execute(db, statement);
    forall x | x in db.extractions ensures Referenced(db, db.extractions[x].document) {
    }
  }

  lemma {:induction false} FragmentStays(db: Db, db': Db, f: Fragment)
    requires Kept(db, db') && FragmentAllowed(db, f)
    ensures FragmentAllowed(db', f)
  {
  }

  lemma ChainStays(db: Db, db': Db, s: Source)
    requires Kept(db, db') && DocumentsHeld(db') && Chained(db, s)
    ensures Chained(db', s)
  {
  }

  /** The trigger's joins give the chain, given what the fragment trigger has checked before. */
  lemma {:induction false} TriggerGivesChain(db: Db, s: Source)
    requires Sound(db) && SourceAllowed(db, s)
    ensures Chained(db, s)
  {
    assert FragmentAllowed(db, db.fragments[s.fragment]);
  }

  lemma StatementSound(db: Db, statement: Statement)
    requires Sound(db)
    ensures Sound(Execute(db, statement))
  {
    var db' := Execute(db, statement);
    StatementKeeps(db, statement);
    StatementHoldsDocuments(db, statement);
    forall f | f in db'.fragments ensures FragmentAllowed(db', db'.fragments[f]) {
      FragmentStays(db, db', db'.fragments[f]);
    }
    forall s | s in db'.sources ensures Chained(db', db'.sources[s]) {
      if s !in db.sources {
        TriggerGivesChain(db, db'.sources[s]);
      }
      ChainStays(db, db', db'.sources[s]);
    }
  }

  /** Every source keeps its chain, over every run of permitted and refused statements. */
  lemma {:induction false} SourcesStayChained(statements: seq<Statement>)
    ensures Sound(Run(statements))
    ensures forall s :: s in Run(statements).sources ==> Chained(Run(statements), Run(statements).sources[s])
  {
    if statements != [] {
      var before := statements[..|statements| - 1];
      SourcesStayChained(before);
      StatementSound(Run(before), statements[|statements| - 1]);
    }
  }

  /** What was ever stored in an append-only table is still there, unchanged. */
  lemma {:induction false} NothingIsRewritten(statements: seq<Statement>, i: nat)
    requires i <= |statements|
    ensures Kept(Run(statements[..i]), Run(statements))
    decreases |statements| - i
  {
    if i == |statements| {
      assert statements[..i] == statements;
    } else {
      NothingIsRewritten(statements, i + 1);
      assert statements[..i + 1][..i] == statements[..i];
      StatementKeeps(Run(statements[..i]), statements[i]);
    }
  }

  // ---- The part of the chain that is not protected ----

  ghost function DocumentOf(db: Db, s: Source): Id
    requires Chained(db, s)
  {
    db.extractions[db.fragments[s.fragment].extraction].document
  }

  /** The trigger's last condition: the document belongs to the version of the observation. */
  ghost predicate OfItsVersion(db: Db, s: Source)
    requires Chained(db, s)
  {
    db.documents[DocumentOf(db, s)].version == db.observations[s.observation].version
  }

  ghost predicate AllOfTheirVersion(db: Db)
    requires Sound(db)
  {
    forall s :: s in db.sources ==> OfItsVersion(db, db.sources[s])
  }

  /** The statement moves the document this source rests on to another version. */
  ghost predicate MovesDocumentOf(db: Db, statement: Statement, s: Source)
    requires Chained(db, s)
  {
    statement.PutDocument? && Permitted(db, statement) && statement.id == DocumentOf(db, s)
    && statement.document.version != db.documents[statement.id].version
  }

  ghost predicate MovesCitedDocument(db: Db, statement: Statement)
    requires Sound(db)
  {
    exists id | id in db.sources :: MovesDocumentOf(db, statement, db.sources[id])
  }

  lemma DocumentStays(db: Db, db': Db, s: Source)
    requires Kept(db, db') && Chained(db, s) && Chained(db', s)
    ensures DocumentOf(db', s) == DocumentOf(db, s)
    ensures db'.observations[s.observation] == db.observations[s.observation]
  {
  }

  lemma LinkCompared(db: Db, db': Db, s: Source)
    requires Kept(db, db') && Chained(db, s) && Chained(db', s) && OfItsVersion(db, s)
    ensures OfItsVersion(db', s) <==>
      db'.documents[DocumentOf(db, s)].version == db.documents[DocumentOf(db, s)].version
  {
    DocumentStays(db, db', s);
  }

  /** Only a write of the document itself changes a document that an extraction rests on. */
  lemma DocumentAfter(db: Db, statement: Statement, id: Id)
    requires id in db.documents && Referenced(db, id)
    ensures id in Execute(db, statement).documents
    ensures Execute(db, statement).documents[id] ==
      if statement.PutDocument? && statement.id == id && Permitted(db, statement) then statement.document
      else db.documents[id]
  {
  }

  /** What a statement does to the version link of one source that is already stored. */
  lemma LinkAfter(db: Db, statement: Statement, s: Source)
    requires Sound(db) && Chained(db, s) && Chained(Execute(db, statement), s) && OfItsVersion(db, s)
    ensures OfItsVersion(Execute(db, statement), s) <==> !MovesDocumentOf(db, statement, s)
  {
    StatementKeeps(db, statement);
    assert db.fragments[s.fragment].extraction in db.extractions;
    DocumentAfter(db, statement, DocumentOf(db, s));
    LinkCompared(db, Execute(db, statement), s);
  }

  /** A new source starts out linked, by the last condition of its trigger. */
  lemma LinkOfNew(db: Db, statement: Statement, id: Id)
    requires id in Execute(db, statement).sources && id !in db.sources
    requires Chained(Execute(db, statement), Execute(db, statement).sources[id])
    ensures OfItsVersion(Execute(db, statement), Execute(db, statement).sources[id])
  {
    assert SourceAllowed(db, Execute(db, statement).sources[id]);
  }

  /** The version link is lost exactly when a cited document is moved; no trigger refuses that. */
  lemma {:induction false} VersionLinkLostExactly(db: Db, statement: Statement)
    requires Sound(db) && AllOfTheirVersion(db)
    ensures Sound(Execute(db, statement))
    ensures AllOfTheirVersion(Execute(db, statement)) <==> !MovesCitedDocument(db, statement)
  {
    StatementSound(db, statement);
    StatementKeeps(db, statement);
    forall id | id in Execute(db, statement).sources && id !in db.sources
      ensures OfItsVersion(Execute(db, statement), Execute(db, statement).sources[id])
    {
      LinkOfNew(db, statement, id);
    }
    forall id | id in db.sources
      ensures OfItsVersion(Execute(db, statement), Execute(db, statement).sources[id]) <==>
        !MovesDocumentOf(db, statement, db.sources[id])
    {
      LinkAfter(db, statement, db.sources[id]);
    }
  }

  /**
   * A stored source loses its version link by one permitted statement exactly if some other
   * version of its tenant exists that does not hold the document's contents yet.
   */
  lemma {:induction false} VersionCanBeMovedExactly(db: Db, id: Id, version: Id)
    requires Sound(db) && AllOfTheirVersion(db) && id in db.sources
    requires version != db.documents[DocumentOf(db, db.sources[id])].version
    ensures var target := DocumentOf(db, db.sources[id]);
      var d := db.documents[target];
      var move := PutDocument(target, d.(version := version));
      && Sound(Execute(db, move))
      && (!AllOfTheirVersion(Execute(db, move)) <==>
            HasVersion(db, d.tenant, version) && !ContentsTaken(db, target, d.(version := version)))
  {
    var target := DocumentOf(db, db.sources[id]);
    var move := PutDocument(target, db.documents[target].(version := version));
    if Permitted(db, move) {
      assert MovesDocumentOf(db, move, db.sources[id]);
    }
    VersionLinkLostExactly(db, move);
  }

  /** The trigger lets a source in exactly if its whole chain is there, version link included. */
  lemma {:induction false} TriggerExactly(db: Db, s: Source)
    requires Sound(db)
    ensures SourceAllowed(db, s) <==> Chained(db, s) && OfItsVersion(db, s)
  {
    if SourceAllowed(db, s) {
      TriggerGivesChain(db, s);
    }
  }

  // ---- Parents and children ----

  /** The extraction may be stored: its document and version are there, and only failures have a code. */
  ghost predicate GoodExtraction(db: Db, x: Id, e: Extraction) {
    && x !in db.extractions && (e.status == ExtractionCompleted ==> e.failureCode == None)
    && (e.status != ExtractionCompleted ==> e.failureCode.Some?)
    && e.version in db.versions && db.versions[e.version].tenant == e.tenant
    && e.document in db.documents && db.documents[e.document].tenant == e.tenant
  }

  /**
   * A fragment is stored after its extraction exactly if that one is stored, COMPLETED or
   * REVIEW_REQUIRED and of its tenant, and the fragment has a text and a positive number.
   */
  lemma {:induction false} FragmentStoredExactly(db: Db, x: Id, e: Extraction, id: Id, f: Fragment)
    requires x !in db.extractions && id !in db.fragments && f.extraction == x
    ensures var db' := Execute(Execute(db, InsertExtraction(x, e)), InsertFragment(id, f));
      id in db'.fragments <==>
        && GoodExtraction(db, x, e) && (e.status == ExtractionCompleted || e.status == ReviewRequired)
        && f.tenant == e.tenant && f.ordinal >= 1 && |f.text| > 0
  {
  }

  /** An observation is stored after its analysis exactly if that one is COMPLETED, of its tenant and version. */
  lemma {:induction false} ObservationStoredExactly(db: Db, x: Id, a: Analysis, id: Id, o: Observation)
    requires x !in db.analyses && id !in db.observations && o.analysis == x
    ensures var db' := Execute(Execute(db, InsertAnalysis(x, a)), InsertObservation(id, o));
      id in db'.observations <==>
        && a.status == AnalysisCompleted && a.failureCode == None && a.tenant == o.tenant && a.version == o.version
        && o.version in db.versions && db.versions[o.version].tenant == o.tenant
  {
  }

  // ---- Over runs ----

  /** Failures and nothing else have a code; versions exist; no version holds the same contents twice. */
  ghost predicate WellKept(db: Db) {
    && (forall x :: x in db.extractions ==>
          (db.extractions[x].status == ExtractionCompleted <==> db.extractions[x].failureCode == None))
    && (forall a :: a in db.analyses ==>
          (db.analyses[a].status == AnalysisCompleted <==> db.analyses[a].failureCode == None))
    && (forall d :: d in db.documents ==>
          db.documents[d].version in db.versions
          && db.versions[db.documents[d].version].tenant == db.documents[d].tenant)
    && (forall d, e :: d in db.documents && e in db.documents && db.documents[d] == db.documents[e] ==> d == e)
  }

  lemma StatementKeepsWell(db: Db, statement: Statement)
    requires WellKept(db)
    ensures WellKept(Execute(db, statement))
    ensures forall d :: d in db.documents && d in Execute(db, statement).documents ==>
      Execute(db, statement).documents[d].sha256 == db.documents[d].sha256
  {
    if statement.DropVersion? {
      forall d | d in db.documents && Permitted(db, statement) ensures db.documents[d].version != statement.id {
      }
    }
  }

  /** That is so over every run, and no statement changes the hash of a document. */
  lemma {:induction false} AlwaysWellKept(statements: seq<Statement>, next: Statement)
    ensures WellKept(Run(statements))
    ensures forall d :: d in Run(statements).documents && d in Execute(Run(statements), next).documents ==>
      Execute(Run(statements), next).documents[d].sha256 == Run(statements).documents[d].sha256
    decreases |statements|
  {
    if statements != [] {
      var before := statements[..|statements| - 1];
      AlwaysWellKept(before, statements[|statements| - 1]);
      StatementKeepsWell(Run(before), statements[|statements| - 1]);
    }
    StatementKeepsWell(Run(statements), next);
  }


  /** No statement of the run moves a document a source rests on at that point. */
  ghost predicate NeverMoved(statements: seq<Statement>) {
    statements == [] || (
      var before := statements[..|statements| - 1];
      SourcesStayChained(before);
      NeverMoved(before) && !MovesCitedDocument(Run(before), statements[|statements| - 1]))
  }

  /** As long as no cited document is moved, every source is of its version. */
  lemma {:induction false} VersionLinkKept(statements: seq<Statement>)
    requires NeverMoved(statements)
    ensures Sound(Run(statements)) && AllOfTheirVersion(Run(statements))
  {
    SourcesStayChained(statements);
    if statements != [] {
      var before := statements[..|statements| - 1];
      SourcesStayChained(before);
      VersionLinkKept(before);
      VersionLinkLostExactly(Run(before), statements[|statements| - 1]);
    }
  }

  // ---- A run that reaches a stored source, and one that loses its version ----

  lemma {:induction false} RunOneMore(statements: seq<Statement>, statement: Statement, db: Db)
    requires Execute(Run(statements), statement) == db
    ensures Run(statements + [statement]) == db
  {
    assert (statements + [statement])[..|statements|] == statements;
  }

  const VERSIONS := Db(map[7 := Version(0), 8 := Version(0)], map[], map[], map[], map[], map[], map[])
  const DOCUMENT := Document(0, 7, "abc")
  const EXTRACTION := Extraction(0, 7, 1, ReviewRequired, Some("OCR_REVIEW_REQUIRED"))
  const FRAGMENT := Fragment(0, 2, 1, "text")
  const ANALYSIS := Analysis(0, 7, AnalysisCompleted, None)
  const OBSERVATION := Observation(0, 4, 7, 3, 0, 4)
  const SOURCE := Source(0, 5, 3, 0, 4)

  const WITH_FRAGMENT := VERSIONS.(
    documents := map[1 := DOCUMENT], extractions := map[2 := EXTRACTION], fragments := map[3 := FRAGMENT])

  lemma {:induction false} StoreDocument(run: seq<Statement>) returns (run': seq<Statement>)
    requires Run(run) == VERSIONS
    ensures Run(run') == WITH_FRAGMENT
  {
    var d1 := VERSIONS.(documents := map[1 := DOCUMENT]);
    var d2 := d1.(extractions := map[2 := EXTRACTION]);
    var d3 := d2.(fragments := map[3 := FRAGMENT]);
    RunOneMore(run, PutDocument(1, DOCUMENT), d1);
    var run1 := run + [PutDocument(1, DOCUMENT)];
    RunOneMore(run1, InsertExtraction(2, EXTRACTION), d2);
    var run2 := run1 + [InsertExtraction(2, EXTRACTION)];
    RunOneMore(run2, InsertFragment(3, FRAGMENT), d3);
    run' := run2 + [InsertFragment(3, FRAGMENT)];
  }

  lemma {:induction false} StoreAnalysis(run: seq<Statement>, db: Db) returns (run': seq<Statement>)
    requires db == WITH_FRAGMENT
    requires Run(run) == db
    ensures Run(run') == db.(analyses := map[4 := ANALYSIS], observations := map[5 := OBSERVATION])
  {
    var d4 := db.(analyses := map[4 := ANALYSIS]);
    RunOneMore(run, InsertAnalysis(4, ANALYSIS), d4);
    var run4 := run + [InsertAnalysis(4, ANALYSIS)];
    RunOneMore(run4, InsertObservation(5, OBSERVATION), d4.(observations := map[5 := OBSERVATION]));
    run' := run4 + [InsertObservation(5, OBSERVATION)];
  }

  lemma {:induction false} StoreSource(run: seq<Statement>, db: Db) returns (run': seq<Statement>)
    requires db == WITH_FRAGMENT
    requires Run(run) == db
    ensures Run(run') == db.(
              analyses := map[4 := ANALYSIS], observations := map[5 := OBSERVATION], sources := map[6 := SOURCE])
  {
    run' := StoreAnalysis(run, db);
    RunOneMore(run', InsertSource(6, SOURCE), Run(run').(sources := map[6 := SOURCE]));
    run' := run' + [InsertSource(6, SOURCE)];
  }

  lemma {:induction false} StoreChain() returns (run: seq<Statement>)
    ensures Run(run) == VERSIONS.(
              documents := map[1 := DOCUMENT], extractions := map[2 := EXTRACTION], fragments := map[3 := FRAGMENT],
              analyses := map[4 := ANALYSIS], observations := map[5 := OBSERVATION], sources := map[6 := SOURCE])
  {
    var d7 := EMPTY.(versions := map[7 := Version(0)]);
    RunOneMore([], InsertVersion(7, Version(0)), d7);
    var run7 := [] + [InsertVersion(7, Version(0))];
    RunOneMore(run7, InsertVersion(8, Version(0)), VERSIONS);
    run := StoreDocument(run7 + [InsertVersion(8, Version(0))]);
    run := StoreSource(run, Run(run));
  }

  /** A run that stores a source with its whole chain and then takes its version link away. */
  lemma {:induction false} VersionLinkIsLost() returns (run: seq<Statement>, move: Statement)
    ensures Sound(Run(run)) && 6 in Run(run).sources && AllOfTheirVersion(Run(run))
    ensures Permitted(Run(run), move) && Run(run + [move]) == Execute(Run(run), move)
    ensures Sound(Run(run + [move])) && !AllOfTheirVersion(Run(run + [move]))
  {
    run := StoreChain();
    move := PutDocument(1, DOCUMENT.(version := 8));
    SourcesStayChained(run);
    RunOneMore(run, move, Execute(Run(run), move));
    VersionCanBeMovedExactly(Run(run), 6, 8);
  }
}
