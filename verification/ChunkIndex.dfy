/** The chunk index of one source document, kept in step with its content. */
module ChunkIndex {
  import opened Prelude
  import opened Text
  import opened Chunking
  import opened Sections

  datatype Source = Knowledge(id: nat) | ProjectDoc(id: nat)

  /** A row of the table; the embedding is only known by a number. */
  datatype Row = Row(index: nat, content: string, sourceName: Option<string>, parentTitle: Option<string>, embedding: int)

  /** The rows of each source, by chunk index. */
  type Table = map<Source, seq<Row>>

  function RowsOf(t: Table, s: Source): seq<Row> {
    if s in t then t[s] else []
  }

  predicate Numbered(rows: seq<Row>) {
    forall k :: 0 <= k < |rows| ==> rows[k].index == k
  }

  /** Row `k` holds piece `k` under this name. */
  predicate Agrees(rows: seq<Row>, pieces: seq<Piece>, name: Option<string>) {
    && |rows| == |pieces| && Numbered(rows)
    && forall k :: 0 <= k < |rows| ==>
        rows[k].content == pieces[k].text && rows[k].parentTitle == pieces[k].parentTitle && rows[k].sourceName == name
  }

  predicate SameTexts(rows: seq<Row>, pieces: seq<Piece>) {
    |rows| == |pieces| && forall k :: 0 <= k < |rows| ==> rows[k].content == pieces[k].text
  }

  function NewRows(pieces: seq<Piece>, vectors: seq<int>, name: Option<string>): seq<Row>
    requires |vectors| == |pieces|
  {
    seq(|pieces|, k requires 0 <= k < |pieces| => Row(k, pieces[k].text, name, pieces[k].parentTitle, vectors[k]))
  }

  /** `UPDATE ... WHERE chunk_index = idx` for the first `n` pieces. */
  function Patched(rows: seq<Row>, pieces: seq<Piece>, name: Option<string>, n: nat): seq<Row>
    requires n <= |pieces|
  {
    seq(|rows|, k requires 0 <= k < |rows| =>
      if rows[k].index < n then rows[k].(sourceName := name, parentTitle := pieces[rows[k].index].parentTitle) else rows[k])
  }

  /** The table once the pieces of a source are indexed, and the count; `vectors` is the encoder's answer, if any. */
  function Stored(t: Table, s: Source, name: Option<string>, pieces: seq<Piece>, vectors: Option<seq<int>>): (Table, nat) {
    if SameTexts(RowsOf(t, s), pieces) then (t[s := Patched(RowsOf(t, s), pieces, name, |pieces|)], |pieces|)
    else if vectors.None? || |vectors.value| != |pieces| then (t, 0)
    else (t[s := NewRows(pieces, vectors.value, name)], |pieces|)
  }

  /** The table after indexing a content, and the count reported. */
  function Indexed(t: Table, enabled: bool, content: string, s: Source, name: Option<string>,
                   vectors: Option<seq<int>>, size: int, overlap: int): (Table, nat)
  {
    if !enabled then (t, 0)
    else if Strip(content) == "" then (t - {s}, 0)
    else Stored(t, s, name, StructuredPieces(content, size, overlap), vectors)
  }

  lemma VisibleTextHasPieces(content: string, size: int, overlap: int)
    requires Strip(content) != ""
    ensures StructuredPieces(content, size, overlap) != []
  {
    hide Strip, SplitLines, Windows, Merge, Grouped, AllPieces, HasHeadings;
    StripIdempotent(content);
  }

  /**
   A positive count means the rows agree with the content, piece by piece; a zero count leaves the
   table alone unless the content is blank, when the source has no rows. No other source is touched.
   */
  lemma IndexAgrees(t: Table, enabled: bool, content: string, s: Source, name: Option<string>,
                    vectors: Option<seq<int>>, size: int, overlap: int, other: Source)
    requires Numbered(RowsOf(t, s))
    ensures var (t', n) := Indexed(t, enabled, content, s, name, vectors, size, overlap);
      var pieces := StructuredPieces(content, size, overlap);
      && Numbered(RowsOf(t', s))
      && (n > 0 ==> n == |pieces| && Agrees(RowsOf(t', s), pieces, name))
      && (n == 0 ==> if enabled && Strip(content) == "" then RowsOf(t', s) == [] else t' == t)
      && (other != s ==> RowsOf(t', other) == RowsOf(t, other))
  {
    hide Strip, StructuredPieces;
    if Strip(content) != "" { VisibleTextHasPieces(content, size, overlap); }
  }

  /**
   The embeddings: unchanged texts keep theirs, and otherwise a positive count gives row `k` the `k`-th
   vector of the encoder's answer.
   */
  lemma EmbeddingOfRow(t: Table, enabled: bool, content: string, s: Source, name: Option<string>,
                       vectors: Option<seq<int>>, size: int, overlap: int, k: nat)
    requires Indexed(t, enabled, content, s, name, vectors, size, overlap).1 > 0
    requires k < |StructuredPieces(content, size, overlap)|
    ensures var rows := RowsOf(Indexed(t, enabled, content, s, name, vectors, size, overlap).0, s);
      var pieces := StructuredPieces(content, size, overlap);
      && |rows| == |pieces|
      && if SameTexts(RowsOf(t, s), pieces) then rows[k].embedding == RowsOf(t, s)[k].embedding
         else vectors.Some? && |vectors.value| == |pieces| && rows[k].embedding == vectors.value[k]
  {
    hide Strip, StructuredPieces;
  }

  /** When indexing reports nothing: it is off, the content is blank, or its texts changed and the encoder failed. */
  lemma NothingIndexedIff(t: Table, enabled: bool, content: string, s: Source, name: Option<string>,
                          vectors: Option<seq<int>>, size: int, overlap: int)
    ensures var pieces := StructuredPieces(content, size, overlap);
      Indexed(t, enabled, content, s, name, vectors, size, overlap).1 == 0
      <==> || !enabled || AllBlank(content)
           || (!SameTexts(RowsOf(t, s), pieces) && (vectors.None? || |vectors.value| != |pieces|))
  {
    StripBlank(content);
    if !AllBlank(content) { VisibleTextHasPieces(content, size, overlap); }
    hide Strip, StructuredPieces, AllBlank;
  }

  /** Indexing again changes nothing and needs no encoder, whatever the encoder would answer now. */
  lemma IndexIsIdempotent(t: Table, enabled: bool, content: string, s: Source, name: Option<string>,
                          vectors: Option<seq<int>>, later: Option<seq<int>>, size: int, overlap: int)
    requires Numbered(RowsOf(t, s)) && Indexed(t, enabled, content, s, name, vectors, size, overlap).1 > 0
    ensures Indexed(Indexed(t, enabled, content, s, name, vectors, size, overlap).0, enabled, content, s, name, later, size, overlap)
            == Indexed(t, enabled, content, s, name, vectors, size, overlap)
  {
    hide Strip, StructuredPieces, Indexed;
    IndexAgrees(t, enabled, content, s, name, vectors, size, overlap, s);
    PositiveMeansVisible(t, enabled, content, s, name, vectors, size, overlap);
    AgreeingStays(Indexed(t, enabled, content, s, name, vectors, size, overlap).0, content, s, name, later, size, overlap);
  }

  lemma PositiveMeansVisible(t: Table, enabled: bool, content: string, s: Source, name: Option<string>,
                             vectors: Option<seq<int>>, size: int, overlap: int)
    requires Indexed(t, enabled, content, s, name, vectors, size, overlap).1 > 0
    ensures enabled && Strip(content) != "" && s in Indexed(t, enabled, content, s, name, vectors, size, overlap).0
  {
    hide Strip, StructuredPieces;
  }

  lemma AgreeingStays(t: Table, content: string, s: Source, name: Option<string>, later: Option<seq<int>>, size: int, overlap: int)
    requires Agrees(RowsOf(t, s), StructuredPieces(content, size, overlap), name) && s in t && Strip(content) != ""
    ensures Indexed(t, true, content, s, name, later, size, overlap) == (t, |StructuredPieces(content, size, overlap)|)
  {
    hide Strip, StructuredPieces;
    var pieces := StructuredPieces(content, size, overlap);
    assert Patched(RowsOf(t, s), pieces, name, |pieces|) == t[s];
    assert t[s := t[s]] == t;
  }

  class Index {
    var table: Table

    constructor ()
      ensures table == map[]
    {
      table := map[];
    }

    method IndexContent(enabled: bool, content: string, s: Source, name: Option<string>,
                        vectors: Option<seq<int>>, size: int, overlap: int)
      returns (count: nat)
      modifies this
      ensures (table, count) == Indexed(old(table), enabled, content, s, name, vectors, size, overlap)
    {
      hide Strip, StructuredPieces;
      if !enabled {
        return 0;
      }
      if Strip(content) == "" {
        table := table - {s};
        return 0;
      }
      var pieces := SplitIntoStructuredChunks(content, size, overlap);
      if SameTexts(RowsOf(table, s), pieces) {
        Patch(s, pieces, name);
        return |pieces|;
      }
      if vectors.None? || |vectors.value| != |pieces| {
        return 0;
      }
      Replace(s, pieces, vectors.value, name);
      count := |pieces|;
    }

    /** Backfills the metadata of rows whose texts are unchanged. */
    method Patch(s: Source, pieces: seq<Piece>, name: Option<string>)
      modifies this
      ensures table == old(table)[s := Patched(old(RowsOf(table, s)), pieces, name, |pieces|)]
    {
      var existing := RowsOf(table, s);
      var rows := existing;
      assert rows == Patched(existing, pieces, name, 0);
      for idx := 0 to |pieces|
        invariant rows == Patched(existing, pieces, name, idx)
      {
        rows := UpdateWhere(rows, idx, name, pieces[idx].parentTitle);
      }
      table := table[s := rows];
    }

    /** Deletes the source's rows and inserts one for each piece. */
    method Replace(s: Source, pieces: seq<Piece>, vectors: seq<int>, name: Option<string>)
      requires |vectors| == |pieces|
      modifies this
      ensures table == old(table)[s := NewRows(pieces, vectors, name)]
    {
      var rows: seq<Row> := [];
      for idx := 0 to |pieces|
        invariant rows == NewRows(pieces, vectors, name)[..idx]
      {
        rows := rows + [Row(idx, pieces[idx].text, name, pieces[idx].parentTitle, vectors[idx])];
      }
      assert rows == NewRows(pieces, vectors, name);
      table := table[s := rows];
    }

    /** The metadata of the rows with this chunk index. */
    function UpdateWhere(rows: seq<Row>, idx: nat, name: Option<string>, title: Option<string>): seq<Row> {
      seq(|rows|, k requires 0 <= k < |rows| =>
        if rows[k].index == idx then rows[k].(sourceName := name, parentTitle := title) else rows[k])
    }
  }
}
