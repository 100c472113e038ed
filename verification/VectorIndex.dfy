/** The chunk index: chunk ids, ingestion of a document, and tenant-scoped search. */
module VectorIndex {
  import opened Prelude
  import opened Retrieval

  type TenantId = nat
  type Embedding = seq<real>

  datatype Embedded = Embedded(chunk: Chunk, embedding: Embedding)

  datatype Row = Row(tenant: TenantId, document: string, index: nat, content: string, embedding: Embedding)

  /** The table, by primary key. */
  type Rows = map<string, Row>

  // ---- chunk ids ----

  function Digit(n: nat): char
    requires n < 10
  {
    "0123456789"[n]
  }

  function Digits(n: nat): string {
    if n < 10 then [Digit(n)] else Digits(n / 10) + [Digit(n % 10)]
  }

  function ChunkId(document: string, index: nat): string {
    document + ":" + Digits(index)
  }

  /** Reading decimal digits. */
  function ReadDigits(s: string): int {
    if s == "" then 0 else 10 * ReadDigits(s[..|s| - 1]) + (s[|s| - 1] as int - '0' as int)
  }

  lemma DigitReadsBack(n: nat)
    requires n < 10
    ensures Digit(n) as int - '0' as int == n
  {
    assert "0123456789"[n] as int == '0' as int + n;
  }

  /** An index is written in decimal: reading it gives it back, and it has no leading zero. */
  lemma {:induction false} DigitsReadBack(n: nat)
    ensures ReadDigits(Digits(n)) == n
    ensures n >= 10 ==> Digits(n)[0] != '0'
    ensures n < 10 ==> |Digits(n)| == 1
  {
    DigitReadsBack(n % 10);
    if n >= 10 {
      DigitsReadBack(n / 10);
      var s := Digits(n);
      assert s[..|s| - 1] == Digits(n / 10);
      if n < 100 {
        DigitReadsBack(n / 10);
        assert Digits(n / 10)[0] == Digit(n / 10);
      }
    }
  }

  predicate ColonFree(s: string) {
    forall i :: 0 <= i < |s| ==> s[i] != ':'
  }

  lemma {:induction false} DigitsAreColonFree(n: nat)
    ensures ColonFree(Digits(n)) && Digits(n) != ""
  {
    if n >= 10 {
      DigitsAreColonFree(n / 10);
    }
  }

  lemma DigitInjective(m: nat, n: nat)
    requires m < 10 && n < 10 && Digit(m) == Digit(n)
    ensures m == n
  {
  }

  lemma {:induction false} DigitsInjective(m: nat, n: nat)
    requires Digits(m) == Digits(n)
    ensures m == n
  {
    DigitsAreColonFree(m / 10);
    DigitsAreColonFree(n / 10);
    var s := Digits(m);
    assert s[|s| - 1] == Digit(m % 10) == Digit(n % 10);
    DigitInjective(m % 10, n % 10);
    if m >= 10 && n >= 10 {
      assert Digits(m / 10) == s[..|s| - 1] == Digits(n / 10);
      DigitsInjective(m / 10, n / 10);
    }
  }

  lemma ColonsMeet(d: string, x: string, e: string, y: string)
    requires ColonFree(x) && |d| < |e|
    ensures d + ":" + x != e + ":" + y
  {
    var s, t := d + ":" + x, e + ":" + y;
    assert t[|e|] == ':';
    if |s| == |t| {
      assert s[|e|] == x[|e| - |d| - 1];
    }
  }

  /** Different chunks have different ids, whatever characters the document ids contain. */
  lemma ChunkIdInjective(d: string, i: nat, e: string, j: nat)
    ensures ChunkId(d, i) == ChunkId(e, j) <==> d == e && i == j
  {
    DigitsAreColonFree(i);
    DigitsAreColonFree(j);
    if |d| < |e| {
      ColonsMeet(d, Digits(i), e, Digits(j));
    } else if |e| < |d| {
      ColonsMeet(e, Digits(j), d, Digits(i));
    } else if ChunkId(d, i) == ChunkId(e, j) {
      var s := ChunkId(d, i);
      assert d == s[..|d|] && e == s[..|d|];
      assert Digits(i) == s[|d| + 1..] && Digits(j) == s[|d| + 1..];
      DigitsInjective(i, j);
    }
  }

  // ---- ingestion ----

  /** The splitter's pieces, numbered and named. */
  function ChunkText(document: string, pieces: seq<string>): seq<Chunk> {
    seq(|pieces|, i requires 0 <= i < |pieces| => Chunk(ChunkId(document, i), document, pieces[i], i))
  }

  datatype EmbeddingError = WrongCount

  /** Pairs chunks and embeddings by position; without chunks the provider is not asked. */
  function Embed(chunks: seq<Chunk>, embeddings: seq<Embedding>): Result<seq<Embedded>, EmbeddingError> {
    if chunks == [] then Ok([])
    else if |embeddings| != |chunks| then Err(WrongCount)
    else
      Ok(seq(|chunks|, i requires 0 <= i < |chunks| => Embedded(chunks[i], embeddings[i])))
  }

  function RowOf(tenant: TenantId, e: Embedded): Row {
    Row(tenant, e.chunk.document, e.chunk.index, e.chunk.content, e.embedding)
  }

  predicate IsOf(row: Row, tenant: TenantId, document: string) {
    row.tenant == tenant && row.document == document
  }

  /** The DELETE. */
  function Without(rows: Rows, tenant: TenantId, document: string): Rows {
    map id | id in rows && !IsOf(rows[id], tenant, document) :: rows[id]
  }

  /** The second key of the table: tenant, document and index. */
  predicate SameSlot(a: Row, b: Row) {
    a.tenant == b.tenant && a.document == b.document && a.index == b.index
  }

  /** Neither the primary key nor the unique constraint objects to the INSERT. */
  predicate CanInsert(rows: Rows, tenant: TenantId, chunks: seq<Embedded>) {
    && (forall i :: 0 <= i < |chunks| ==> chunks[i].chunk.id !in rows)
    && (forall i, id :: 0 <= i < |chunks| && id in rows ==> !SameSlot(RowOf(tenant, chunks[i]), rows[id]))
    && (forall i, j :: 0 <= i < j < |chunks| ==>
          && chunks[i].chunk.id != chunks[j].chunk.id
          && !SameSlot(RowOf(tenant, chunks[i]), RowOf(tenant, chunks[j])))
  }

  function With(rows: Rows, tenant: TenantId, chunks: seq<Embedded>): Rows {
    if chunks == [] then rows
    else
      var last := chunks[|chunks| - 1];
      With(rows, tenant, chunks[..|chunks| - 1])[last.chunk.id := RowOf(tenant, last)]
  }

  /** The table after `replace_document`; None when a key objects, which aborts the transaction. */
  function Replaced(rows: Rows, tenant: TenantId, document: string, chunks: seq<Embedded>): Option<Rows> {
    var rest := Without(rows, tenant, document);
    if CanInsert(rest, tenant, chunks) then Some(With(rest, tenant, chunks)) else None
  }

  /** The table after ingesting a text that splits into `pieces`; None when an error aborts the transaction. */
  function Ingested(rows: Rows, tenant: TenantId, document: string, pieces: seq<string>, embeddings: seq<Embedding>)
    : Option<Rows>
  {
    var embedded := Embed(ChunkText(document, pieces), embeddings);
    if embedded.Err? then None else Replaced(rows, tenant, document, embedded.value)
  }

  class VectorStore {
    var rows: Rows

    constructor ()
      ensures rows == map[]
    {
      rows := map[];
    }

    /** Deletes, then inserts; on a violated key the transaction leaves the table as it was. */
    method ReplaceDocument(tenant: TenantId, document: string, chunks: seq<Embedded>) returns (ok: bool)
      modifies this
      ensures ok <==> Replaced(old(rows), tenant, document, chunks).Some?
      ensures rows == if ok then Replaced(old(rows), tenant, document, chunks).value else old(rows)
    {
      var before := rows;
      rows := Without(rows, tenant, document);
      if chunks == [] {
        return true;
      }
      if !CanInsert(rows, tenant, chunks) {
        rows := before;
        return false;
      }
      var i := 0;
      while i < |chunks|
        invariant 0 <= i <= |chunks|
        invariant rows == With(Without(before, tenant, document), tenant, chunks[..i])
      {
        assert chunks[..i + 1][..i] == chunks[..i];
        rows := rows[chunks[i].chunk.id := RowOf(tenant, chunks[i])];
        i := i + 1;
      }
      assert chunks[..i] == chunks;
      return true;
    }

    /** Chunks, embeds and replaces; the number of chunks is the answer. */
    method Ingest(tenant: TenantId, document: string, pieces: seq<string>, embeddings: seq<Embedding>)
      returns (count: Option<nat>)
      modifies this
      ensures count.Some? <==> Ingested(old(rows), tenant, document, pieces, embeddings).Some?
      ensures count.Some? ==> count == Some(|pieces|)
      ensures rows == if count.Some? then Ingested(old(rows), tenant, document, pieces, embeddings).value
                      else old(rows)
    {
      var embedded := Embed(ChunkText(document, pieces), embeddings);
      if embedded.Err? {
        return None;
      }
      var ok := ReplaceDocument(tenant, document, embedded.value);
      return if ok then Some(|embedded.value|) else None;
    }
  }

  // ---- what ingestion leaves ----

  /** Rows are stored under the id of their document and index; ingestion keeps it so. */
  predicate WellKeyed(rows: Rows) {
    forall id :: id in rows ==> id == ChunkId(rows[id].document, rows[id].index)
  }

  /** Another tenant holds a chunk under an id this ingestion needs. */
  predicate Taken(rows: Rows, tenant: TenantId, document: string, count: nat) {
    exists id :: id in rows && rows[id].tenant != tenant && rows[id].document == document && rows[id].index < count
  }

  lemma {:induction false} WithHolds(rows: Rows, tenant: TenantId, chunks: seq<Embedded>, id: string)
    requires forall i, j :: 0 <= i < j < |chunks| ==> chunks[i].chunk.id != chunks[j].chunk.id
    ensures var r := With(rows, tenant, chunks);
            && (id in r <==> id in rows || exists i :: 0 <= i < |chunks| && chunks[i].chunk.id == id)
            && (forall i :: 0 <= i < |chunks| && chunks[i].chunk.id == id ==> r[id] == RowOf(tenant, chunks[i]))
            && (id in rows && (forall i :: 0 <= i < |chunks| ==> chunks[i].chunk.id != id) ==> r[id] == rows[id])
  {
    if chunks != [] {
      var n := |chunks| - 1;
      var front := chunks[..n];
      forall i, j | 0 <= i < j < |front| ensures front[i].chunk.id != front[j].chunk.id {
        assert front[i] == chunks[i] && front[j] == chunks[j];
      }
      WithHolds(rows, tenant, front, id);
      assert forall i :: 0 <= i < n ==> front[i] == chunks[i];
      if chunks[n].chunk.id == id {
        assert forall i :: 0 <= i < n ==> chunks[i].chunk.id != id;
      }
    }
  }

  function EmbeddedPieces(document: string, pieces: seq<string>, embeddings: seq<Embedding>): seq<Embedded>
    requires |embeddings| == |pieces|
  {
    seq(|pieces|, i requires 0 <= i < |pieces| =>
          Embedded(Chunk(ChunkId(document, i), document, pieces[i], i), embeddings[i]))
  }

  lemma PiecesAreEmbedded(document: string, pieces: seq<string>, embeddings: seq<Embedding>)
    requires |embeddings| == |pieces|
    ensures Embed(ChunkText(document, pieces), embeddings) == Ok(EmbeddedPieces(document, pieces, embeddings))
  {
    var embedded := Embed(ChunkText(document, pieces), embeddings);
    assert embedded.Ok? && |embedded.value| == |pieces|;
    assert embedded.value == EmbeddedPieces(document, pieces, embeddings);
  }

  lemma PiecesAreDistinct(tenant: TenantId, document: string, pieces: seq<string>, embeddings: seq<Embedding>)
    requires |embeddings| == |pieces|
    ensures var chunks := EmbeddedPieces(document, pieces, embeddings);
            forall i, j :: 0 <= i < j < |chunks| ==>
              && chunks[i].chunk.id != chunks[j].chunk.id
              && !SameSlot(RowOf(tenant, chunks[i]), RowOf(tenant, chunks[j]))
  {
    forall i: nat, j: nat | i < j < |pieces| ensures ChunkId(document, i) != ChunkId(document, j) {
      ChunkIdInjective(document, i, document, j);
    }
  }

  lemma InsertableIffUntaken(rows: Rows, tenant: TenantId, document: string, pieces: seq<string>,
                             embeddings: seq<Embedding>)
    requires WellKeyed(rows) && |embeddings| == |pieces|
    ensures CanInsert(Without(rows, tenant, document), tenant, EmbeddedPieces(document, pieces, embeddings))
            <==> !Taken(rows, tenant, document, |pieces|)
  {
    var rest, chunks := Without(rows, tenant, document), EmbeddedPieces(document, pieces, embeddings);
    PiecesAreDistinct(tenant, document, pieces, embeddings);
    if Taken(rows, tenant, document, |pieces|) {
      var id :| id in rows && rows[id].tenant != tenant && rows[id].document == document
                && rows[id].index < |pieces|;
      assert id in rest && chunks[rows[id].index].chunk.id == id;
    } else {
      forall i: nat, id | i < |chunks| && id in rest ensures chunks[i].chunk.id != id {
        ChunkIdInjective(document, i, rest[id].document, rest[id].index);
        assert id in rows && rest[id] == rows[id];
      }
    }
  }

  /**
   Ingestion succeeds if and only if the provider returned one embedding per chunk and no other tenant holds a chunk
   of a document with the same id at one of its indexes: the primary key does not contain the tenant.
   */
  lemma IngestSucceedsExactlyWhenUntaken(rows: Rows, tenant: TenantId, document: string, pieces: seq<string>,
                                         embeddings: seq<Embedding>)
    requires WellKeyed(rows)
    ensures Ingested(rows, tenant, document, pieces, embeddings).Some?
            <==> pieces == [] || (|embeddings| == |pieces| && !Taken(rows, tenant, document, |pieces|))
  {
    if pieces == [] {
      assert ChunkText(document, pieces) == [];
    } else if |embeddings| == |pieces| {
      PiecesAreEmbedded(document, pieces, embeddings);
      InsertableIffUntaken(rows, tenant, document, pieces, embeddings);
    }
  }

  /** A document split into no pieces is embedded as nothing, whatever the provider would have said. */
  function Given(pieces: seq<string>, embeddings: seq<Embedding>): seq<Embedding> {
    if pieces == [] then [] else embeddings
  }

  lemma IngestedIsWith(rows: Rows, tenant: TenantId, document: string, pieces: seq<string>,
                       embeddings: seq<Embedding>)
    requires Ingested(rows, tenant, document, pieces, embeddings).Some?
    ensures |Given(pieces, embeddings)| == |pieces|
    ensures Ingested(rows, tenant, document, pieces, embeddings).value
            == With(Without(rows, tenant, document), tenant,
                    EmbeddedPieces(document, pieces, Given(pieces, embeddings)))
    ensures CanInsert(Without(rows, tenant, document), tenant,
                      EmbeddedPieces(document, pieces, Given(pieces, embeddings)))
  {
    if pieces == [] {
      assert ChunkText(document, pieces) == [];
      assert EmbeddedPieces(document, pieces, []) == [];
    } else {
      PiecesAreEmbedded(document, pieces, embeddings);
    }
  }

  /**
   `after` holds, for the tenant and document, exactly one row per piece, numbered from 0 and paired with its
   embedding by position, and every other row of `rows` as it was.
   */
  ghost predicate Holds(rows: Rows, after: Rows, tenant: TenantId, document: string, pieces: seq<string>,
                        given: seq<Embedding>)
    requires |given| == |pieces|
  {
    && WellKeyed(after)
    && (forall i: nat :: i < |pieces| ==>
          && ChunkId(document, i) in after
          && after[ChunkId(document, i)] == Row(tenant, document, i, pieces[i], given[i]))
    && (forall id :: id in after && IsOf(after[id], tenant, document) ==> after[id].index < |pieces|)
    && Without(after, tenant, document) == Without(rows, tenant, document)
  }

  /** Rows of other tenants, and of the tenant's other documents, are the same in both tables. */
  ghost predicate OthersKept(rows: Rows, after: Rows, tenant: TenantId, document: string) {
    && (forall id :: id in rows && (rows[id].tenant != tenant || rows[id].document != document) ==>
          id in after && after[id] == rows[id])
    && (forall id :: id in after && (after[id].tenant != tenant || after[id].document != document) ==>
          id in rows && after[id] == rows[id])
  }

  lemma DeletingKeepsOthers(rows: Rows, after: Rows, tenant: TenantId, document: string)
    requires Without(after, tenant, document) == Without(rows, tenant, document)
    ensures OthersKept(rows, after, tenant, document)
  {
    forall id | id in rows && (rows[id].tenant != tenant || rows[id].document != document)
      ensures id in after && after[id] == rows[id]
    {
      assert id in Without(rows, tenant, document) && id in Without(after, tenant, document);
    }
    forall id | id in after && (after[id].tenant != tenant || after[id].document != document)
      ensures id in rows && after[id] == rows[id]
    {
      assert id in Without(after, tenant, document) && id in Without(rows, tenant, document);
    }
  }

  /** A successful ingestion replaces the document exactly, and touches nothing else. */
  lemma IngestReplacesExactly(rows: Rows, tenant: TenantId, document: string, pieces: seq<string>,
                              embeddings: seq<Embedding>)
    requires WellKeyed(rows) && Ingested(rows, tenant, document, pieces, embeddings).Some?
    ensures |Given(pieces, embeddings)| == |pieces|
    ensures Holds(rows, Ingested(rows, tenant, document, pieces, embeddings).value, tenant, document, pieces,
                  Given(pieces, embeddings))
    ensures OthersKept(rows, Ingested(rows, tenant, document, pieces, embeddings).value, tenant, document)
  {
    IngestedIsWith(rows, tenant, document, pieces, embeddings);
    PiecesAreDistinct(tenant, document, pieces, Given(pieces, embeddings));
    InsertedRows(rows, tenant, document, pieces, Given(pieces, embeddings));
    DeletingKeepsOthers(rows, Ingested(rows, tenant, document, pieces, embeddings).value, tenant, document);
  }

  lemma InsertedRow(rows: Rows, tenant: TenantId, document: string, pieces: seq<string>, given: seq<Embedding>,
                    id: string)
    requires |given| == |pieces|
    requires CanInsert(Without(rows, tenant, document), tenant, EmbeddedPieces(document, pieces, given))
    ensures var rest := Without(rows, tenant, document);
            var after := With(rest, tenant, EmbeddedPieces(document, pieces, given));
            && (id in rest ==> id in after && after[id] == rest[id])
            && (id in after && id !in rest ==>
                  exists i: nat :: i < |pieces| && id == ChunkId(document, i)
                                   && after[id] == Row(tenant, document, i, pieces[i], given[i]))
            && (forall i: nat :: i < |pieces| && id == ChunkId(document, i) ==>
                  id in after && after[id] == Row(tenant, document, i, pieces[i], given[i]))
  {
    var rest, chunks := Without(rows, tenant, document), EmbeddedPieces(document, pieces, given);
    WithHolds(rest, tenant, chunks, id);
    assert forall i: nat :: i < |pieces| ==> chunks[i].chunk.id == ChunkId(document, i);
  }

  lemma InsertedRows(rows: Rows, tenant: TenantId, document: string, pieces: seq<string>, given: seq<Embedding>)
    requires WellKeyed(rows) && |given| == |pieces|
    requires CanInsert(Without(rows, tenant, document), tenant, EmbeddedPieces(document, pieces, given))
    ensures Holds(rows, With(Without(rows, tenant, document), tenant, EmbeddedPieces(document, pieces, given)),
                  tenant, document, pieces, given)
  {
    var rest := Without(rows, tenant, document);
    var after := With(rest, tenant, EmbeddedPieces(document, pieces, given));
    forall i: nat | i < |pieces|
      ensures ChunkId(document, i) in after
      ensures after[ChunkId(document, i)] == Row(tenant, document, i, pieces[i], given[i])
    {
      InsertedRow(rows, tenant, document, pieces, given, ChunkId(document, i));
    }
    forall id | id in after
      ensures id == ChunkId(after[id].document, after[id].index)
      ensures IsOf(after[id], tenant, document) ==> after[id].index < |pieces|
      ensures id !in rest <==> IsOf(after[id], tenant, document)
      ensures id in rest ==> after[id] == rest[id]
    {
      InsertedRow(rows, tenant, document, pieces, given, id);
    }
    forall id | id in rest ensures id in after {
      InsertedRow(rows, tenant, document, pieces, given, id);
    }
    assert Without(after, tenant, document) == rest;
  }

  /** Two tables that hold the same document, and are otherwise the same, are the same. */
  lemma HoldingIsExact(rows: Rows, a: Rows, b: Rows, tenant: TenantId, document: string, pieces: seq<string>,
                       given: seq<Embedding>)
    requires |given| == |pieces|
    requires Holds(rows, a, tenant, document, pieces, given) && Holds(rows, b, tenant, document, pieces, given)
    ensures a == b
  {
    HoldingIsPart(rows, a, b, tenant, document, pieces, given);
    HoldingIsPart(rows, b, a, tenant, document, pieces, given);
  }

  lemma HoldingIsPart(rows: Rows, a: Rows, b: Rows, tenant: TenantId, document: string, pieces: seq<string>,
                      given: seq<Embedding>)
    requires |given| == |pieces|
    requires Holds(rows, a, tenant, document, pieces, given) && Holds(rows, b, tenant, document, pieces, given)
    ensures forall id :: id in a ==> id in b && b[id] == a[id]
  {
    forall id | id in a ensures id in b && b[id] == a[id] {
      if !IsOf(a[id], tenant, document) {
        assert id in Without(a, tenant, document);
        assert id in Without(b, tenant, document);
      }
    }
  }

  /** Ingesting the same text again changes nothing. */
  lemma IngestIsIdempotent(rows: Rows, tenant: TenantId, document: string, pieces: seq<string>,
                           embeddings: seq<Embedding>)
    requires WellKeyed(rows) && Ingested(rows, tenant, document, pieces, embeddings).Some?
    ensures var after := Ingested(rows, tenant, document, pieces, embeddings);
            Ingested(after.value, tenant, document, pieces, embeddings) == after
  {
    var after := Ingested(rows, tenant, document, pieces, embeddings).value;
    IngestReplacesExactly(rows, tenant, document, pieces, embeddings);
    IngestSucceedsExactlyWhenUntaken(rows, tenant, document, pieces, embeddings);
    IngestSucceedsExactlyWhenUntaken(after, tenant, document, pieces, embeddings);
    TakenElsewhere(rows, after, tenant, document, tenant, document, |pieces|);
    IngestReplacesExactly(after, tenant, document, pieces, embeddings);
    HoldingIsExact(rows, after, Ingested(after, tenant, document, pieces, embeddings).value, tenant, document,
                   pieces, Given(pieces, embeddings));
  }

  /** An id is taken from a tenant by rows that its own ingestions, and those of other documents, leave alone. */
  lemma TakenElsewhere(rows: Rows, after: Rows, t: TenantId, d: string, u: TenantId, e: string, count: nat)
    requires Without(after, t, d) == Without(rows, t, d) && (d == e ==> t == u)
    ensures Taken(after, u, e, count) <==> Taken(rows, u, e, count)
  {
    var rest := Without(rows, t, d);
    if Taken(rows, u, e, count) {
      var id :| id in rows && rows[id].tenant != u && rows[id].document == e && rows[id].index < count;
      assert id in rest && id in Without(after, t, d);
    }
    if Taken(after, u, e, count) {
      var id :| id in after && after[id].tenant != u && after[id].document == e && after[id].index < count;
      assert id in Without(after, t, d) && id in rest;
    }
  }

  /** What `both` adds to `first` is in `back` as well, and so is what `first` had. */
  lemma CommutedIsPart(rows: Rows, first: Rows, second: Rows, both: Rows, back: Rows,
                       t: TenantId, d: string, p: seq<string>, x: seq<Embedding>,
                       u: TenantId, e: string, q: seq<string>, y: seq<Embedding>)
    requires |x| == |p| && |y| == |q| && d != e
    requires Holds(rows, first, t, d, p, x) && Holds(first, both, u, e, q, y)
    requires Holds(rows, second, u, e, q, y) && Holds(second, back, t, d, p, x)
    ensures forall id :: id in both ==> id in back && back[id] == both[id]
  {
    forall id | id in both ensures id in back && back[id] == both[id] {
      var row := both[id];
      if IsOf(row, u, e) {
        assert id == ChunkId(e, row.index) && id in second && second[id] == row;
        assert id in Without(second, t, d);
        assert id in Without(back, t, d);
      } else {
        assert id in Without(both, u, e);
        assert id in Without(first, u, e);
        if IsOf(row, t, d) {
          assert id == ChunkId(d, row.index);
        } else {
          assert id in Without(first, t, d);
          assert id in Without(rows, t, d);
          assert id in Without(rows, u, e);
          assert id in Without(second, u, e);
          assert id in Without(second, t, d);
          assert id in Without(back, t, d);
        }
      }
    }
  }

  lemma CommutedTablesAgree(rows: Rows, first: Rows, second: Rows, both: Rows, back: Rows,
                            t: TenantId, d: string, p: seq<string>, x: seq<Embedding>,
                            u: TenantId, e: string, q: seq<string>, y: seq<Embedding>)
    requires |x| == |p| && |y| == |q| && d != e
    requires Holds(rows, first, t, d, p, x) && Holds(first, both, u, e, q, y)
    requires Holds(rows, second, u, e, q, y) && Holds(second, back, t, d, p, x)
    ensures both == back
  {
    CommutedIsPart(rows, first, second, both, back, t, d, p, x, u, e, q, y);
    CommutedIsPart(rows, second, first, back, both, u, e, q, y, t, d, p, x);
  }

  /** Documents with different ids never get in each other's way, whosoever they are: their ingestions commute. */
  lemma IngestionsCommute(rows: Rows, first: Rows, second: Rows, t: TenantId, d: string, p: seq<string>,
                          x: seq<Embedding>, u: TenantId, e: string, q: seq<string>, y: seq<Embedding>)
    requires WellKeyed(rows) && d != e
    requires Ingested(rows, t, d, p, x) == Some(first) && Ingested(rows, u, e, q, y) == Some(second)
    ensures Ingested(first, u, e, q, y).Some?
    ensures Ingested(first, u, e, q, y) == Ingested(second, t, d, p, x)
  {
    IngestReplacesExactly(rows, t, d, p, x);
    IngestReplacesExactly(rows, u, e, q, y);
    IngestAfterAnother(rows, first, t, d, u, e, q, y);
    IngestAfterAnother(rows, second, u, e, t, d, p, x);
    IngestReplacesExactly(first, u, e, q, y);
    IngestReplacesExactly(second, t, d, p, x);
    CommutedTablesAgree(rows, first, second, Ingested(first, u, e, q, y).value, Ingested(second, t, d, p, x).value,
                        t, d, p, Given(p, x), u, e, q, Given(q, y));
  }

  lemma IngestAfterAnother(rows: Rows, after: Rows, t: TenantId, d: string,
                           u: TenantId, e: string, q: seq<string>, y: seq<Embedding>)
    requires WellKeyed(rows) && WellKeyed(after) && d != e && Without(after, t, d) == Without(rows, t, d)
    requires Ingested(rows, u, e, q, y).Some?
    ensures Ingested(after, u, e, q, y).Some?
  {
    IngestSucceedsExactlyWhenUntaken(rows, u, e, q, y);
    IngestSucceedsExactlyWhenUntaken(after, u, e, q, y);
    TakenElsewhere(rows, after, t, d, u, e, |q|);
  }

  /** Two tenants can indeed collide: the same document id, ingested by both. */
  lemma TenantsCanCollide()
    ensures var first := Ingested(map[], 1, "handbook", ["text"], [[0.0]]);
            && first.Some?
            && WellKeyed(first.value)
            && Ingested(first.value, 2, "handbook", ["text"], [[0.0]]).None?
  {
    IngestSucceedsExactlyWhenUntaken(map[], 1, "handbook", ["text"], [[0.0]]);
    var first := Ingested(map[], 1, "handbook", ["text"], [[0.0]]).value;
    IngestReplacesExactly(map[], 1, "handbook", ["text"], [[0.0]]);
    var id := ChunkId("handbook", 0);
    assert id in first && first[id].tenant == 1 && first[id].document == "handbook" && first[id].index == 0;
    assert Taken(first, 2, "handbook", 1);
    IngestSucceedsExactlyWhenUntaken(first, 2, "handbook", ["text"], [[0.0]]);
  }

  // ---- search ----

  function OwnIds(rows: Rows, tenant: TenantId): set<string> {
    set id | id in rows && rows[id].tenant == tenant
  }

  function ScoreOf(row: Row, distance: Embedding -> real): real {
    1.0 - distance(row.embedding)
  }

  /** A result that shows one of the tenant's rows. */
  predicate Shows(rows: Rows, tenant: TenantId, distance: Embedding -> real, r: Retrieved) {
    && r.chunk.id in OwnIds(rows, tenant)
    && var row := rows[r.chunk.id];
    r == Retrieved(Chunk(r.chunk.id, row.document, row.content, row.index), ScoreOf(row, distance))
  }

  /** Best first. */
  predicate Descending(found: seq<Retrieved>) {
    forall i, j :: 0 <= i < j < |found| ==> found[i].score >= found[j].score
  }

  predicate DistinctIds(found: seq<Retrieved>) {
    forall i, j :: 0 <= i < j < |found| ==> found[i].chunk.id != found[j].chunk.id
  }

  predicate IsListed(found: seq<Retrieved>, id: string) {
    exists i :: 0 <= i < |found| && found[i].chunk.id == id
  }

  /** What ORDER BY distance LIMIT may answer; rows at the same distance come in any order. */
  ghost predicate MayFind(rows: Rows, tenant: TenantId, distance: Embedding -> real, limit: int,
                          found: seq<Retrieved>)
  {
    if limit <= 0 then found == []
    else
      && |found| == (if |OwnIds(rows, tenant)| < limit then |OwnIds(rows, tenant)| else limit)
      && (forall r :: r in found ==> Shows(rows, tenant, distance, r))
      && DistinctIds(found) && Descending(found)
      && (forall id, r :: id in OwnIds(rows, tenant) && !IsListed(found, id) && r in found ==>
            ScoreOf(rows[id], distance) <= r.score)
  }

  /** A subset of the same size is the whole set. */
  lemma FullSubset(part: set<string>, whole: set<string>)
    requires part <= whole && |part| == |whole|
    ensures part == whole
  {
    if id :| id in whole && id !in part {
      FewerInPart(part, whole - {id});
    }
  }

  lemma {:induction false} FewerInPart(part: set<string>, whole: set<string>)
    requires part <= whole
    ensures |part| <= |whole|
  {
    if part != {} {
      var id :| id in part;
      FewerInPart(part - {id}, whole - {id});
    }
  }

  lemma {:induction false} IdsAreCounted(found: seq<Retrieved>)
    requires DistinctIds(found)
    ensures |set r | r in found :: r.chunk.id| == |found|
  {
    if found != [] {
      var front, last := found[..|found| - 1], found[|found| - 1];
      IdsAreCounted(front);
      assert found == front + [last];
      assert (set r | r in found :: r.chunk.id) == (set r | r in front :: r.chunk.id) + {last.chunk.id};
      assert last.chunk.id !in (set r | r in front :: r.chunk.id);
    }
  }

  /** A search that leaves one of the tenant's rows out is full. */
  lemma LeavingOutMeansFull(rows: Rows, tenant: TenantId, distance: Embedding -> real, limit: int,
                            found: seq<Retrieved>, id: string)
    requires limit > 0 && MayFind(rows, tenant, distance, limit, found)
    requires id in OwnIds(rows, tenant) && !IsListed(found, id)
    ensures |found| == limit
  {
    var ids := set r | r in found :: r.chunk.id;
    IdsAreCounted(found);
    assert ids <= OwnIds(rows, tenant) by {
      forall r | r in found ensures r.chunk.id in OwnIds(rows, tenant) {
        assert Shows(rows, tenant, distance, r);
      }
    }
    assert id !in ids by {
      assert forall r :: r in found ==> r.chunk.id != id;
    }
    if |found| != limit {
      FullSubset(ids, OwnIds(rows, tenant));
    }
  }

  /**
   Retrieval end to end: whatever search answers, all results are the tenant's own and relevant; each relevant result
   left out says the same as a returned one that scores at least as well; and if search left out a relevant row of the
   tenant, it found as many as the limit allows, and every one of them scores at least as well as that row.
   */
  lemma RetrievalAnswers(rows: Rows, tenant: TenantId, distance: Embedding -> real, limit: int, minimum: real,
                         key: ContentKey, found: seq<Retrieved>)
    requires limit > 0 && MayFind(rows, tenant, distance, limit, found)
    ensures var answer := FirstOf(Kept(Relevant(found, minimum), key), limit);
            && (forall r :: r in answer ==> Shows(rows, tenant, distance, r) && r.score >= minimum)
            && (forall r :: r in found && r.score >= minimum && r !in answer ==>
                  exists a :: a in answer && a.score >= r.score && key(a.chunk.content) == key(r.chunk.content))
            && (forall id :: id in OwnIds(rows, tenant) && !IsListed(found, id)
                             && ScoreOf(rows[id], distance) >= minimum ==>
                               && |Relevant(found, minimum)| == |found| == limit
                               && forall r :: r in found ==> r.score >= ScoreOf(rows[id], distance))
  {
    LimitDropsNothing(limit, minimum, found, key);
    RelevantIsPart(found, minimum);
    var relevant := Relevant(found, minimum);
    RelevantDescends(found, minimum);
    forall r | r in found && r.score >= minimum && r !in Kept(relevant, key)
      ensures exists a :: a in Kept(relevant, key) && a.score >= r.score && key(a.chunk.content) == key(r.chunk.content)
    {
      LeftOutRepeats(relevant, r, key);
    }
    forall id | id in OwnIds(rows, tenant) && !IsListed(found, id) && ScoreOf(rows[id], distance) >= minimum
      ensures |Relevant(found, minimum)| == |found| == limit
    {
      LeavingOutMeansFull(rows, tenant, distance, limit, found, id);
      AllRelevant(found, minimum);
    }
  }

  lemma {:induction false} AllRelevant(found: seq<Retrieved>, minimum: real)
    requires forall r :: r in found ==> r.score >= minimum
    ensures Relevant(found, minimum) == found
  {
    if found != [] {
      AllRelevant(found[..|found| - 1], minimum);
      assert found == found[..|found| - 1] + [found[|found| - 1]];
    }
  }

  lemma {:induction false} RelevantDescends(found: seq<Retrieved>, minimum: real)
    requires Descending(found) && DistinctIds(found)
    ensures Descending(Relevant(found, minimum)) && DistinctIds(Relevant(found, minimum))
  {
    if found != [] {
      var front, last := found[..|found| - 1], found[|found| - 1];
      RelevantDescends(front, minimum);
      RelevantIsPart(front, minimum);
      var kept := Relevant(front, minimum);
      forall i | 0 <= i < |kept| ensures kept[i].score >= last.score && kept[i].chunk.id != last.chunk.id {
        assert kept[i] in front;
      }
    }
  }

  /** In a descending list without repeated ids, what is left out repeats the content of something kept before it. */
  lemma {:induction false} LeftOutRepeats(items: seq<Retrieved>, r: Retrieved, key: ContentKey)
    requires Descending(items) && DistinctIds(items) && r in items && r !in Kept(items, key)
    ensures exists a :: a in Kept(items, key) && a.score >= r.score && key(a.chunk.content) == key(r.chunk.content)
  {
    var front, last := items[..|items| - 1], items[|items| - 1];
    assert items == front + [last];
    KeptIsNoLonger(front, key);
    if r in front {
      LeftOutRepeats(front, r, key);
    } else {
      var i :| 0 <= i < |Kept(front, key)| && Clash(Kept(front, key)[i], last, key);
      var a := Kept(front, key)[i];
      assert a in front;
    }
  }
}
