/** The replace-all loader: `importarImoveis` runs `BEGIN`, `TRUNCATE TABLE
    imoveis RESTART IDENTITY`, reads the feed and builds the batch, issues the
    multi-row `INSERT` when there is at least one value, and `COMMIT`s; any
    throw on the way is caught, `ROLLBACK` is issued and the error is
    re-thrown. */
module Loader {
  import opened Wrappers
  import opened Feed
  import opened Mapping
  import opened Batch

  /** The statements `importarImoveis` sends, other than `ROLLBACK`. */
  datatype Statement = BeginTx | TruncateTable | InsertRows | CommitTx

  /** Why an import fails, in the order it can happen. */
  datatype ImportError =
    | Storage(statement: Statement)         // the server rejected a statement
    | FeedUnreadable                        // reading or parsing the uploaded file failed
    | NotAList                              // `listings.forEach` is not a function
    | MappingFailed(listing: ListingError)  // the callback threw for a listing

  /** What the caller gets: `{ success: true, count }`, or the re-thrown error. */
  datatype Outcome = Imported(count: nat) | Failed(error: ImportError)

  // ----- The listings the loop iterates -----

  /** `json.ListingDataFeed.Listings.Listing` as the source iterates it: only
      an array has `forEach`, so a feed with no listing (`undefined`) or with a
      single one (the object itself) throws. */
  function ListingsAsWritten(node: ListingsNode): (r: Result<seq<Listing>, ImportError>)
    ensures r.Success? <==> node.ListingArray?
    ensures r.Success? ==> r.value == node.items
    ensures r.Failure? ==> r.error == NotAList
  {
    match node
    case ListingArray(items) => Success(items)
    case _ => Failure(NotAList)
  }

  /** The listings of a feed, whichever shape the parser gave them: none, one,
      or the array of all of them. */
  function ListingsOf(node: ListingsNode): (ls: seq<Listing>)
    ensures node.NoListing? ==> ls == []
    ensures node.OneListing? ==> ls == [node.listing]
    ensures node.ListingArray? ==> ls == node.items
  {
    match node
    case NoListing => []
    case OneListing(l) => [l]
    case ListingArray(items) => items
  }

  /** A feed with exactly one `<Listing>` is rejected as written, although its
      listing is perfectly usable; so is a feed with none, although the
      `values.length` guard is there to let an empty feed through. */
  lemma SingleListingFeedRejected(l: Listing)
    ensures ListingsAsWritten(OneListing(l)) == Failure(NotAList)
    ensures ListingsOf(OneListing(l)) == [l]
    ensures ListingsAsWritten(NoListing) == Failure(NotAList)
    ensures ListingsOf(NoListing) == []
  {
  }

  /** Where the parser's output is an array, it is read the same way as
      written. */
  lemma ListingsOfAgrees(node: ListingsNode)
    requires ListingsAsWritten(node).Success?
    ensures ListingsOf(node) == ListingsAsWritten(node).value
  {
  }

  // ----- What an import does -----

  /** The outcome of one import of `doc` and the committed table after it,
      against a server rejecting the statements in `rejects` and a table
      holding `before`, with the listings read as `ListingsOf` reads them. */
  function ReplaceAll(doc: Document, rejects: set<Statement>, before: seq<Row>): (seq<Row>, Outcome) {
    if BeginTx in rejects then (before, Failed(Storage(BeginTx)))
    else if TruncateTable in rejects then (before, Failed(Storage(TruncateTable)))
    else if doc.Unreadable? then (before, Failed(FeedUnreadable))
    else Load(ListingsOf(doc.listings), rejects, before)
  }

  /** The import as written: the listings are read as `ListingsAsWritten`
      reads them, so a feed with no listing or a single one throws at
      `listings.forEach` and is rolled back. */
  function ReplaceAllAsWritten(doc: Document, rejects: set<Statement>, before: seq<Row>): (seq<Row>, Outcome) {
    if BeginTx in rejects then (before, Failed(Storage(BeginTx)))
    else if TruncateTable in rejects then (before, Failed(Storage(TruncateTable)))
    else if doc.Unreadable? then (before, Failed(FeedUnreadable))
    else
      match ListingsAsWritten(doc.listings)
      case Failure(e) => (before, Failed(e))
      case Success(listings) => Load(listings, rejects, before)
  }

  /** What follows the parse: the `forEach` loop, the `INSERT` when there is
      a row, and the `COMMIT`; any failure keeps `before`. */
  function Load(listings: seq<Listing>, rejects: set<Statement>, before: seq<Row>): (seq<Row>, Outcome) {
    match ForEach(Normalize, listings)
    case Failure(e) => (before, Failed(MappingFailed(e)))
    case Success(rows) =>
      if rows != [] && InsertRows in rejects then (before, Failed(Storage(InsertRows)))
      else if CommitTx in rejects then (before, Failed(Storage(CommitTx)))
      else (rows, Imported(|listings|))
  }

  /** The import as written and the corrected one agree except on a parsed
      feed with no listing or a single one, which the code rolls back with
      `NotAList` once `BEGIN` and `TRUNCATE` have gone through. */
  lemma AsWrittenAgreesExceptShortFeeds(doc: Document, rejects: set<Statement>, before: seq<Row>)
    ensures !(doc.Parsed? && !doc.listings.ListingArray?) ==>
              ReplaceAllAsWritten(doc, rejects, before) == ReplaceAll(doc, rejects, before)
    ensures doc.Parsed? && !doc.listings.ListingArray? && BeginTx !in rejects && TruncateTable !in rejects ==>
              ReplaceAllAsWritten(doc, rejects, before) == (before, Failed(NotAList))
    ensures ReplaceAllAsWritten(doc, rejects, before).1.Failed? ==> ReplaceAllAsWritten(doc, rejects, before).0 == before
  {
  }

  /** The discrepancy at the level of the whole import: a feed with a single
      usable listing is rolled back as written, where the corrected import
      stores its row. */
  lemma SingleListingImportRejected(l: Listing, before: seq<Row>)
    ensures ReplaceAllAsWritten(Parsed(OneListing(l)), {}, before) == (before, Failed(NotAList))
    ensures Normalize(l).Success? ==>
              ReplaceAll(Parsed(OneListing(l)), {}, before) == ([Normalize(l).value], Imported(1))
  {
    if Normalize(l).Success? {
      ForEachSingle(Normalize, l);
    }
  }

  /** All or nothing: a failed import leaves the table exactly as it was,
      and a successful one replaces it with one row per listing, in feed
      order, each the normalised listing, none left over from before. */
  lemma AllOrNothing(doc: Document, rejects: set<Statement>, before: seq<Row>)
    ensures ReplaceAll(doc, rejects, before).1.Failed? ==> ReplaceAll(doc, rejects, before).0 == before
    ensures ReplaceAll(doc, rejects, before).1.Imported? ==>
              && doc.Parsed?
              && var ls := ListingsOf(doc.listings);
              && var table := ReplaceAll(doc, rejects, before).0;
              && ReplaceAll(doc, rejects, before).1.count == |ls| == |table|
              && forall i :: 0 <= i < |ls| ==> Normalize(ls[i]) == Success(table[i])
  {
    if ReplaceAll(doc, rejects, before).1.Imported? {
      ForEachRows(Normalize, ListingsOf(doc.listings));
    }
  }

  /** What the table held before does not matter to a successful import, so
      importing the same feed again changes nothing. */
  lemma ImportIdempotent(doc: Document, rejects: set<Statement>, before: seq<Row>, other: seq<Row>)
    requires ReplaceAll(doc, rejects, before).1.Imported?
    ensures ReplaceAll(doc, rejects, other) == (ReplaceAll(doc, rejects, before).0, ReplaceAll(doc, rejects, before).1)
    ensures var after := ReplaceAll(doc, rejects, before).0;
            ReplaceAll(doc, rejects, after) == ReplaceAll(doc, rejects, before)
  {
  }

  /** A readable feed whose every listing has string-valued required fields
      imports as many rows as it has listings, when the server accepts every
      statement. */
  lemma ValidFeedImports(listings: ListingsNode, before: seq<Row>)
    requires forall i, f :: 0 <= i < |ListingsOf(listings)| ==> FieldOk(ListingsOf(listings)[i], f)
    ensures ReplaceAll(Parsed(listings), {}, before).1 == Imported(|ListingsOf(listings)|)
    ensures |ReplaceAll(Parsed(listings), {}, before).0| == |ListingsOf(listings)|
  {
    ForEachNormalizeSucceeds(ListingsOf(listings));
  }

  /** A feed without listings issues no `INSERT`, so it empties the table and
      commits even on a server that would reject the `INSERT`. */
  lemma EmptyFeedEmptiesTable(rejects: set<Statement>, before: seq<Row>)
    requires BeginTx !in rejects && TruncateTable !in rejects && CommitTx !in rejects
    ensures ReplaceAll(Parsed(NoListing), rejects, before) == ([], Imported(0))
  {
  }

  /** A feed with a listing that lacks its neighbourhood or city is rejected
      and the table keeps what it held; once `BEGIN` and `TRUNCATE` have gone
      through, the failure is the mapping error of that listing or of an
      earlier one. */
  lemma MissingLocationRollsBack(listings: ListingsNode, rejects: set<Statement>, before: seq<Row>, i: nat)
    requires i < |ListingsOf(listings)|
    requires var l := ListingsOf(listings)[i];
             !Truthy(l.location.neighborhood) || !Truthy(l.location.city)
    ensures ReplaceAll(Parsed(listings), rejects, before).0 == before
    ensures ReplaceAll(Parsed(listings), rejects, before).1.Failed?
    ensures BeginTx !in rejects && TruncateTable !in rejects ==>
              && ReplaceAll(Parsed(listings), rejects, before).1.error.MappingFailed?
              && ReplaceAll(Parsed(listings), rejects, before).1.error.listing.index <= i
  {
    var ls := ListingsOf(listings);
    MissingLocationThrows(ls[i]);
    if ForEach(Normalize, ls).Success? {
      ForEachRows(Normalize, ls);
    } else {
      ForEachFirstFault(Normalize, ls);
    }
  }

  /** An unreadable feed is rejected and the table keeps what it held; once
      `BEGIN` and `TRUNCATE` have gone through, the failure is
      `FeedUnreadable`. */
  lemma UnreadableFeedRollsBack(rejects: set<Statement>, before: seq<Row>)
    ensures ReplaceAll(Unreadable, rejects, before).0 == before
    ensures ReplaceAll(Unreadable, rejects, before).1.Failed?
    ensures BeginTx !in rejects && TruncateTable !in rejects ==>
              ReplaceAll(Unreadable, rejects, before).1 == Failed(FeedUnreadable)
  {
  }

  // ----- The database session -----

  /** One client session on the `imoveis` table: what other sessions see
      (`committed`), what this session sees inside its transaction (`work`),
      and whether a transaction is open. The server fails the statements in
      `rejects` (a lost connection, a timeout, a rejected value). Rows are kept
      in insertion order; with `RESTART IDENTITY` the row at position `i` has
      id `i + 1`. */
  class Database {
    var committed: seq<Row>
    var work: seq<Row>
    var inTx: bool
    const rejects: set<Statement>

    constructor(rows: seq<Row>, rejects: set<Statement>)
      ensures committed == rows && work == rows && !inTx && this.rejects == rejects
    {
      committed := rows;
      work := rows;
      inTx := false;
      this.rejects := rejects;
    }

    /** `BEGIN`. */
    method Begin() returns (ok: bool)
      requires !inTx
      modifies this
      ensures ok == (BeginTx !in rejects)
      ensures committed == old(committed)
      ensures ok ==> inTx && work == committed
      ensures !ok ==> !inTx && work == old(work)
    {
      ok := BeginTx !in rejects;
      if ok {
        inTx := true;
        work := committed;
      }
    }

    /** `TRUNCATE TABLE imoveis RESTART IDENTITY`, inside the transaction. */
    method Truncate() returns (ok: bool)
      requires inTx
      modifies this
      ensures ok == (TruncateTable !in rejects)
      ensures committed == old(committed) && inTx
      ensures ok ==> work == []
      ensures !ok ==> work == old(work)
    {
      ok := TruncateTable !in rejects;
      if ok {
        work := [];
      }
    }

    /** The multi-row `INSERT INTO imoveis (...) VALUES ...` of a batch,
      inside the transaction. The server rejects it when a placeholder does
      not bind to a well-typed row. */
    method Insert(batch: Batch) returns (ok: bool)
      requires inTx
      modifies this
      ensures ok == (InsertRows !in rejects && Bind(batch.placeholders, batch.values).Some?)
      ensures committed == old(committed) && inTx
      ensures ok ==> work == old(work) + Bind(batch.placeholders, batch.values).value
      ensures !ok ==> work == old(work)
    {
      var bound := Bind(batch.placeholders, batch.values);
      ok := InsertRows !in rejects && bound.Some?;
      if ok {
        work := work + bound.value;
      }
    }

    /** `COMMIT`: the transaction's table becomes the table. */
    method Commit() returns (ok: bool)
      requires inTx
      modifies this
      ensures ok == (CommitTx !in rejects)
      ensures ok ==> committed == old(work) && work == old(work) && !inTx
      ensures !ok ==> committed == old(committed) && work == old(work) && inTx
    {
      ok := CommitTx !in rejects;
      if ok {
        committed := work;
        inTx := false;
      }
    }

    /** `ROLLBACK`: whatever the transaction did is discarded. Outside a
        transaction it does nothing. */
    method Rollback()
      modifies this
      ensures committed == old(committed) && work == committed && !inTx
    {
      work := committed;
      inTx := false;
    }
  }

  /** `importarImoveis` on a fresh session. */
  method Import(db: Database, doc: Document) returns (outcome: Outcome)
    requires !db.inTx
    modifies db
    ensures db.committed == ReplaceAll(doc, db.rejects, old(db.committed)).0
    ensures outcome == ReplaceAll(doc, db.rejects, old(db.committed)).1
    ensures !db.inTx
  {
    ghost var before := db.committed;
    var ok := db.Begin();
    if !ok {
      db.Rollback();
      return Failed(Storage(BeginTx));
    }
    ok := db.Truncate();
    if !ok {
      db.Rollback();
      return Failed(Storage(TruncateTable));
    }
    if doc.Unreadable? {
      db.Rollback();
      return Failed(FeedUnreadable);
    }
    var listings := ListingsOf(doc.listings);
    var built := BuildBatch(Normalize, listings);
    if built.Failure? {
      db.Rollback();
      assert ReplaceAll(doc, db.rejects, before) == (before, Failed(MappingFailed(built.error)));
      return Failed(MappingFailed(built.error));
    }
    var batch := built.value;
    ghost var rows := ForEach(Normalize, listings).value;
    assert |batch.values| == 12 * |rows|;
    if |batch.values| > 0 {
      BindBuilt(rows);
      ok := db.Insert(batch);
      if !ok {
        db.Rollback();
        assert ReplaceAll(doc, db.rejects, before) == (before, Failed(Storage(InsertRows)));
        return Failed(Storage(InsertRows));
      }
    }
    assert db.work == rows;
    ok := db.Commit();
    if !ok {
      db.Rollback();
      assert ReplaceAll(doc, db.rejects, before) == (before, Failed(Storage(CommitTx)));
      return Failed(Storage(CommitTx));
    }
    assert ReplaceAll(doc, db.rejects, before) == (rows, Imported(|listings|));
    return Imported(|listings|);
  }
}
