/** Reciprocal rank fusion of the vector and keyword shortlists. */
module RankFusion {
  import opened Prelude

  datatype Hit = Hit(content: string, distance: real, sourceName: Option<string>, chunkIndex: int,
                     parentTitle: Option<string>, page: Option<int>, score: Option<real>)

  type HitKey = (string, int)

  datatype Entry = Entry(key: HitKey, score: real, hit: Hit)

  const RANK_OFFSET: real := 60.0

  function KeyOf(h: Hit): HitKey {
    (if h.sourceName.Some? then h.sourceName.value else "", h.chunkIndex)
  }

  // ---- the specification ----

  /** The sum of `1/(60+rank)` over the occurrences of `key` among the first `n` rows. */
  function ScoreIn(rows: seq<Hit>, key: HitKey, n: nat): real
    requires n <= |rows|
  {
    if n == 0 then 0.0
    else ScoreIn(rows, key, n - 1) + (if KeyOf(rows[n - 1]) == key then 1.0 / (RANK_OFFSET + n as real) else 0.0)
  }

  /** The keys of `rows` in order of first appearance. */
  function DistinctKeys(rows: seq<Hit>): (ks: seq<HitKey>)
    ensures |ks| <= |rows|
  {
    if rows == [] then []
    else
      var ks := DistinctKeys(rows[..|rows| - 1]);
      var k := KeyOf(rows[|rows| - 1]);
      if k in ks then ks else ks + [k]
  }

  ghost predicate HasKey(rows: seq<Hit>, key: HitKey) {
    exists i :: 0 <= i < |rows| && KeyOf(rows[i]) == key
  }

  predicate UniqueKeys(rows: seq<Hit>) {
    forall i, j :: 0 <= i < j < |rows| ==> KeyOf(rows[i]) != KeyOf(rows[j])
  }

  predicate UniqueEntries(es: seq<Entry>) {
    forall i, j :: 0 <= i < j < |es| ==> es[i].key != es[j].key
  }

  /** The hit kept for a key: the last vector row with it, or else the first keyword row. */
  function LastWith(rows: seq<Hit>, key: HitKey): Option<Hit> {
    if rows == [] then None
    else if KeyOf(rows[|rows| - 1]) == key then Some(rows[|rows| - 1])
    else LastWith(rows[..|rows| - 1], key)
  }

  function FirstWith(rows: seq<Hit>, key: HitKey): Option<Hit> {
    if rows == [] then None
    else
      var earlier := FirstWith(rows[..|rows| - 1], key);
      if earlier.Some? then earlier
      else if KeyOf(rows[|rows| - 1]) == key then Some(rows[|rows| - 1]) else None
  }

  function Kept(vec: seq<Hit>, kw: seq<Hit>, key: HitKey): Option<Hit> {
    if LastWith(vec, key).Some? then LastWith(vec, key) else FirstWith(kw, key)
  }

  function Total(vec: seq<Hit>, kw: seq<Hit>, key: HitKey): real {
    ScoreIn(vec, key, |vec|) + ScoreIn(kw, key, |kw|)
  }

  /** The table holds, in order of first appearance, every key with its exact score and its kept hit. */
  predicate Fused(es: seq<Entry>, vec: seq<Hit>, kw: seq<Hit>) {
    var keys := DistinctKeys(vec + kw);
    && |es| == |keys|
    && (forall i :: 0 <= i < |es| ==> es[i].key == keys[i])
    && (forall i :: 0 <= i < |es| ==> es[i].score == Total(vec, kw, es[i].key))
    && (forall i :: 0 <= i < |es| ==> Kept(vec, kw, es[i].key) == Some(es[i].hit))
  }

  lemma {:induction false} DistinctSpec(rows: seq<Hit>)
    ensures forall i, j :: 0 <= i < j < |DistinctKeys(rows)| ==> DistinctKeys(rows)[i] != DistinctKeys(rows)[j]
    ensures forall k :: k in DistinctKeys(rows) <==> HasKey(rows, k)
  {
    if rows != [] {
      var front, last := rows[..|rows| - 1], rows[|rows| - 1];
      DistinctSpec(front);
      forall k ensures HasKey(rows, k) <==> HasKey(front, k) || k == KeyOf(last) {
        if HasKey(front, k) {
          var i :| 0 <= i < |front| && KeyOf(front[i]) == k;
          assert KeyOf(rows[i]) == k;
        }
        if k == KeyOf(last) { assert KeyOf(rows[|rows| - 1]) == k; }
      }
    }
  }

  // ---- one row ----

  function Find(es: seq<Entry>, key: HitKey): (r: Option<nat>)
    ensures r.Some? ==> r.value < |es| && es[r.value].key == key
    ensures r.None? ==> forall i :: 0 <= i < |es| ==> es[i].key != key
  {
    if es == [] then None
    else if es[|es| - 1].key == key then Some(|es| - 1)
    else Find(es[..|es| - 1], key)
  }

  /** `fused[key] = (cur + add, hit)`, keeping the hit already there when `keep` is set. */
  function Upsert(es: seq<Entry>, hit: Hit, add: real, keep: bool): seq<Entry> {
    var key := KeyOf(hit);
    var at := Find(es, key);
    if at.None? then es + [Entry(key, 0.0 + add, hit)]
    else
      var e := es[at.value];
      es[at.value := Entry(key, e.score + add, if keep then e.hit else hit)]
  }

  lemma {:induction false} ScoreOfPrefix(rows: seq<Hit>, more: seq<Hit>, key: HitKey, n: nat)
    requires n <= |rows|
    ensures ScoreIn(rows + more, key, n) == ScoreIn(rows, key, n)
  {
    if n > 0 { ScoreOfPrefix(rows, more, key, n - 1); }
  }

  lemma {:induction false} ScoreOfAbsent(rows: seq<Hit>, key: HitKey, n: nat)
    requires n <= |rows| && forall i :: 0 <= i < n ==> KeyOf(rows[i]) != key
    ensures ScoreIn(rows, key, n) == 0.0
  {
    if n > 0 { ScoreOfAbsent(rows, key, n - 1); }
  }

  /** What one more row does to the score of each key. */
  lemma ScoreWithRow(rows: seq<Hit>, row: Hit, key: HitKey)
    ensures ScoreIn(rows + [row], key, |rows| + 1)
            == ScoreIn(rows, key, |rows|) + if KeyOf(row) == key then 1.0 / (RANK_OFFSET + (|rows| + 1) as real) else 0.0
  {
    ScoreOfPrefix(rows, [row], key, |rows|);
  }

  lemma TotalOfNew(vec: seq<Hit>, kw: seq<Hit>, key: HitKey)
    requires key !in DistinctKeys(vec + kw)
    ensures Total(vec, kw, key) == 0.0 && LastWith(vec, key).None? && FirstWith(kw, key).None?
  {
    DistinctSpec(vec + kw);
    forall i | 0 <= i < |vec| ensures KeyOf(vec[i]) != key {
      assert (vec + kw)[i] == vec[i];
    }
    forall i | 0 <= i < |kw| ensures KeyOf(kw[i]) != key {
      assert (vec + kw)[|vec| + i] == kw[i];
    }
    ScoreOfAbsent(vec, key, |vec|);
    ScoreOfAbsent(kw, key, |kw|);
    NoneWith(vec, key);
    NoneWith(kw, key);
  }

  lemma {:induction false} NoneWith(rows: seq<Hit>, key: HitKey)
    ensures LastWith(rows, key).None? <==> !HasKey(rows, key)
    ensures FirstWith(rows, key).None? <==> !HasKey(rows, key)
  {
    if rows != [] {
      var front := rows[..|rows| - 1];
      NoneWith(front, key);
      if HasKey(front, key) {
        var i :| 0 <= i < |front| && KeyOf(front[i]) == key;
        assert KeyOf(rows[i]) == key;
      }
    }
  }

  lemma KeysWithRow(es: seq<Entry>, rows: seq<Hit>, row: Hit)
    requires |es| == |DistinctKeys(rows)| && forall i :: 0 <= i < |es| ==> es[i].key == DistinctKeys(rows)[i]
    ensures DistinctKeys(rows + [row]) == DistinctKeys(rows) + if Find(es, KeyOf(row)).None? then [KeyOf(row)] else []
    ensures Find(es, KeyOf(row)).None? <==> KeyOf(row) !in DistinctKeys(rows)
    ensures UniqueEntries(es)
  {
    assert (rows + [row])[..|rows|] == rows;
    DistinctSpec(rows);
  }

  /** A vector row: the score grows by `1/(60+rank)` and the newer hit is kept. */
  lemma VectorRow(es: seq<Entry>, vec: seq<Hit>, row: Hit)
    requires Fused(es, vec, [])
    ensures Fused(Upsert(es, row, 1.0 / (RANK_OFFSET + (|vec| + 1) as real), false), vec + [row], [])
  {
    hide ScoreIn, DistinctKeys, Find, FirstWith;
    var key := KeyOf(row);
    var more := vec + [row];
    assert vec + [] == vec && more + [] == more;
    KeysWithRow(es, vec, row);
    var es' := Upsert(es, row, 1.0 / (RANK_OFFSET + (|vec| + 1) as real), false);
    assert more[..|vec|] == vec;
    forall i | 0 <= i < |es'|
      ensures es'[i].key == DistinctKeys(more)[i]
      ensures es'[i].score == Total(more, [], es'[i].key)
      ensures Kept(more, [], es'[i].key) == Some(es'[i].hit)
    {
      ScoreWithRow(vec, row, es'[i].key);
      if i == |es| { TotalOfNew(vec, [], key); }
    }
  }

  /** A keyword row: the score grows by `1/(60+rank)` and the hit already there is kept. */
  lemma KeywordRow(es: seq<Entry>, vec: seq<Hit>, kw: seq<Hit>, row: Hit)
    requires Fused(es, vec, kw)
    ensures Fused(Upsert(es, row, 1.0 / (RANK_OFFSET + (|kw| + 1) as real), true), vec, kw + [row])
  {
    hide ScoreIn, DistinctKeys, Find, LastWith;
    var key := KeyOf(row);
    var more := kw + [row];
    assert vec + more == (vec + kw) + [row];
    KeysWithRow(es, vec + kw, row);
    var es' := Upsert(es, row, 1.0 / (RANK_OFFSET + (|kw| + 1) as real), true);
    assert more[..|kw|] == kw;
    forall i | 0 <= i < |es'|
      ensures es'[i].key == DistinctKeys(vec + more)[i]
      ensures es'[i].score == Total(vec, more, es'[i].key)
      ensures Kept(vec, more, es'[i].key) == Some(es'[i].hit)
    {
      ScoreWithRow(kw, row, es'[i].key);
      if i == |es| { TotalOfNew(vec, kw, key); }
    }
  }

  // ---- the stable descending sort ----

  function Insert(e: Entry, es: seq<Entry>): seq<Entry> {
    if es == [] || es[|es| - 1].score >= e.score then es + [e]
    else Insert(e, es[..|es| - 1]) + [es[|es| - 1]]
  }

  /** `sorted(..., reverse=True)`: by score, equal scores in their given order. */
  function SortDesc(es: seq<Entry>): seq<Entry> {
    if es == [] then [] else Insert(es[|es| - 1], SortDesc(es[..|es| - 1]))
  }

  ghost predicate Descending(es: seq<Entry>) {
    forall i, j :: 0 <= i < j < |es| ==> es[i].score >= es[j].score
  }

  function WithScore(es: seq<Entry>, x: real): seq<Entry> {
    if es == [] then []
    else WithScore(es[..|es| - 1], x) + if es[|es| - 1].score == x then [es[|es| - 1]] else []
  }

  lemma {:induction false} InsertSpec(e: Entry, es: seq<Entry>)
    requires Descending(es)
    ensures Descending(Insert(e, es)) && multiset(Insert(e, es)) == multiset(es) + multiset{e}
    ensures |Insert(e, es)| == |es| + 1
  {
    if es != [] {
      var front, last := es[..|es| - 1], es[|es| - 1];
      assert es == front + [last];
      if last.score < e.score {
        InsertSpec(e, front);
        var r := Insert(e, front);
        forall i | 0 <= i < |r| ensures r[i].score >= last.score {
          assert r[i] in multiset(r);
        }
      }
    }
  }

  lemma {:induction false} InsertStable(e: Entry, es: seq<Entry>, x: real)
    requires Descending(es)
    ensures WithScore(Insert(e, es), x) == WithScore(es, x) + if e.score == x then [e] else []
  {
    if es == [] || es[|es| - 1].score >= e.score {
      assert (es + [e])[..|es|] == es;
    } else {
      var front, last := es[..|es| - 1], es[|es| - 1];
      InsertStable(e, front, x);
      assert (Insert(e, front) + [last])[..|Insert(e, front)|] == Insert(e, front);
      if e.score == x { NoneEqualBelow(front, last, x); }
    }
  }

  /** Nothing before an entry below `x` needs care: the entry itself is not equal to `x`. */
  lemma NoneEqualBelow(front: seq<Entry>, last: Entry, x: real)
    requires last.score < x
    ensures WithScore(front + [last], x) == WithScore(front, x)
  {
    assert (front + [last])[..|front|] == front;
  }

  /** The sort is a stable descending permutation. */
  lemma {:induction false} SortSpec(es: seq<Entry>)
    ensures Descending(SortDesc(es)) && multiset(SortDesc(es)) == multiset(es) && |SortDesc(es)| == |es|
    ensures forall x :: WithScore(SortDesc(es), x) == WithScore(es, x)
  {
    if es != [] {
      var front, last := es[..|es| - 1], es[|es| - 1];
      assert es == front + [last];
      SortSpec(front);
      InsertSpec(last, SortDesc(front));
      forall x ensures WithScore(SortDesc(es), x) == WithScore(es, x) {
        InsertStable(last, SortDesc(front), x);
      }
    }
  }

  // ---- the result ----

  /** Python's `s[:k]`, a negative `k` counting from the end. */
  function Upto<T>(s: seq<T>, k: int): seq<T> {
    if k >= 0 then s[..Min(k, |s|)] else s[..Max(0, |s| + k)]
  }

  function Scored(es: seq<Entry>): seq<Hit> {
    seq(|es|, i requires 0 <= i < |es| => es[i].hit.(score := Some(es[i].score)))
  }

  /** The hits a fused table answers with. */
  function Answer(es: seq<Entry>, k: int): seq<Hit> {
    Scored(Upto(SortDesc(es), k))
  }

  /** The result has `min(k, distinct keys)` hits, in non-increasing score, each with its exact score. */
  lemma AnswerIsRanked(es: seq<Entry>, vec: seq<Hit>, kw: seq<Hit>, k: nat)
    requires Fused(es, vec, kw)
    ensures |Answer(es, k)| == Min(k, |DistinctKeys(vec + kw)|)
    ensures forall i :: 0 <= i < |Answer(es, k)| ==>
      Answer(es, k)[i].score == Some(Total(vec, kw, KeyOf(Answer(es, k)[i])))
    ensures forall i, j :: 0 <= i < j < |Answer(es, k)| ==> Answer(es, k)[i].score.value >= Answer(es, k)[j].score.value
    ensures UniqueKeys(Answer(es, k))
  {
    hide Total, Kept, DistinctKeys, SortDesc, WithScore;
    SortSpec(es);
    SortedKeepsKeys(es, vec, kw);
  }

  lemma SortedKeepsKeys(es: seq<Entry>, vec: seq<Hit>, kw: seq<Hit>)
    requires Fused(es, vec, kw)
    ensures forall i :: 0 <= i < |SortDesc(es)| ==> KeyOf(SortDesc(es)[i].hit) == SortDesc(es)[i].key
    ensures forall i :: 0 <= i < |SortDesc(es)| ==> SortDesc(es)[i].score == Total(vec, kw, SortDesc(es)[i].key)
    ensures UniqueEntries(SortDesc(es))
  {
    hide DistinctKeys, SortDesc, WithScore, Total;
    var s := SortDesc(es);
    SortSpec(es);
    DistinctSpec(vec + kw);
    forall i | 0 <= i < |s|
      ensures KeyOf(s[i].hit) == s[i].key && s[i].score == Total(vec, kw, s[i].key)
    {
      assert s[i] in multiset(es);
      KeptHasKey(vec, kw, s[i].key);
    }
    PermutationKeepsUnique(es, s);
  }

  lemma {:induction false} KeptHasKey(vec: seq<Hit>, kw: seq<Hit>, key: HitKey)
    ensures Kept(vec, kw, key).Some? ==> KeyOf(Kept(vec, kw, key).value) == key
  {
    WithHasKey(vec, key);
    WithHasKey(kw, key);
  }

  lemma {:induction false} WithHasKey(rows: seq<Hit>, key: HitKey)
    ensures LastWith(rows, key).Some? ==> KeyOf(LastWith(rows, key).value) == key
    ensures FirstWith(rows, key).Some? ==> KeyOf(FirstWith(rows, key).value) == key
  {
    if rows != [] { WithHasKey(rows[..|rows| - 1], key); }
  }

  lemma PermutationKeepsUnique(a: seq<Entry>, b: seq<Entry>)
    requires multiset(a) == multiset(b) && UniqueEntries(a)
    ensures UniqueEntries(b)
  {
    forall i, j | 0 <= i < j < |b| ensures b[i].key != b[j].key {
      assert b[i] in multiset(a) && b[j] in multiset(a);
      if b[i] == b[j] {
        Twice(b, i, j);
        OnceEach(a, b[i]);
      }
    }
  }

  lemma Twice(s: seq<Entry>, i: nat, j: nat)
    requires i < j < |s| && s[i] == s[j]
    ensures multiset(s)[s[i]] >= 2
  {
    assert s == s[..j] + [s[j]] + s[j + 1..];
    assert s[..j][i] == s[i];
    assert s[i] in multiset(s[..j]);
  }

  lemma {:induction false} OnceEach(s: seq<Entry>, e: Entry)
    requires UniqueEntries(s)
    ensures multiset(s)[e] <= 1
  {
    if s != [] {
      var front, last := s[..|s| - 1], s[|s| - 1];
      assert s == front + [last];
      OnceEach(front, e);
      if e == last { assert e !in front; }
    }
  }

  // ---- ahead in both lists, ahead in the fused order ----

  /** `a` does at least as well as `b` in this list, and better if `b` is in it. */
  ghost predicate Ahead(rows: seq<Hit>, a: HitKey, b: HitKey) {
    HasKey(rows, b) ==> exists i, j :: 0 <= i < j < |rows| && KeyOf(rows[i]) == a && KeyOf(rows[j]) == b
  }

  lemma {:induction false} ScoreOfUnique(rows: seq<Hit>, key: HitKey, p: nat, n: nat)
    requires UniqueKeys(rows) && p < n <= |rows| && KeyOf(rows[p]) == key
    ensures ScoreIn(rows, key, n) == 1.0 / (RANK_OFFSET + (p + 1) as real)
  {
    if n == p + 1 {
      ScoreOfAbsent(rows, key, p);
    } else {
      ScoreOfUnique(rows, key, p, n - 1);
    }
  }

  lemma {:induction false} ScoreNonNegative(rows: seq<Hit>, key: HitKey, n: nat)
    requires n <= |rows|
    ensures ScoreIn(rows, key, n) >= 0.0
  {
    if n > 0 { ScoreNonNegative(rows, key, n - 1); }
  }

  lemma AheadScores(rows: seq<Hit>, a: HitKey, b: HitKey)
    requires UniqueKeys(rows) && Ahead(rows, a, b)
    ensures ScoreIn(rows, a, |rows|) >= ScoreIn(rows, b, |rows|)
    ensures HasKey(rows, b) ==> ScoreIn(rows, a, |rows|) > ScoreIn(rows, b, |rows|)
  {
    if HasKey(rows, b) {
      var i, j :| 0 <= i < j < |rows| && KeyOf(rows[i]) == a && KeyOf(rows[j]) == b;
      ScoreOfUnique(rows, a, i, |rows|);
      ScoreOfUnique(rows, b, j, |rows|);
      Reciprocals(RANK_OFFSET + (i + 1) as real, RANK_OFFSET + (j + 1) as real);
    } else {
      ScoreOfAbsent(rows, b, |rows|);
      ScoreNonNegative(rows, a, |rows|);
    }
  }

  lemma Reciprocals(x: real, y: real)
    requires 0.0 < x < y
    ensures 1.0 / x > 1.0 / y
  {
    assert 1.0 / x - 1.0 / y == (y - x) / (x * y);
  }

  ghost predicate Precedes(hits: seq<Hit>, a: HitKey, b: HitKey) {
    exists i, j :: 0 <= i < j < |hits| && KeyOf(hits[i]) == a && KeyOf(hits[j]) == b
  }

  /** With unique keys in each list, a hit ahead of another in both is ahead of it in the answer. */
  lemma AheadInBothIsAhead(es: seq<Entry>, vec: seq<Hit>, kw: seq<Hit>, a: HitKey, b: HitKey, k: nat)
    requires Fused(es, vec, kw) && UniqueKeys(vec) && UniqueKeys(kw)
    requires Ahead(vec, a, b) && Ahead(kw, a, b) && HasKey(Answer(es, k), b)
    ensures Precedes(Answer(es, k), a, b)
  {
    hide SortDesc, DistinctKeys, Total, WithScore, Kept, Ahead, UniqueKeys;
    var ranked := SortDesc(es);
    SortSpec(es);
    SortedKeepsKeys(es, vec, kw);
    var hits := Answer(es, k);
    var j :| 0 <= j < |hits| && KeyOf(hits[j]) == b;
    assert ranked[j].key == b && ranked[j] in multiset(es);
    KeyIsSomewhere(es, vec, kw, b);
    AheadTotals(vec, kw, a, b);
    var at := EntryOf(es, vec, kw, a);
    assert es[at] in multiset(ranked);
    var i :| 0 <= i < |ranked| && ranked[i] == es[at];
    assert ranked[i].score > ranked[j].score;
    assert i < j;
    assert KeyOf(hits[i]) == a;
  }

  lemma KeyIsSomewhere(es: seq<Entry>, vec: seq<Hit>, kw: seq<Hit>, b: HitKey)
    requires Fused(es, vec, kw) && exists e :: e in es && e.key == b
    ensures HasKey(vec, b) || HasKey(kw, b)
  {
    NoneWith(vec, b);
    NoneWith(kw, b);
  }

  lemma AheadTotals(vec: seq<Hit>, kw: seq<Hit>, a: HitKey, b: HitKey)
    requires UniqueKeys(vec) && UniqueKeys(kw) && Ahead(vec, a, b) && Ahead(kw, a, b)
    requires HasKey(vec, b) || HasKey(kw, b)
    ensures Total(vec, kw, a) > Total(vec, kw, b) && HasKey(vec + kw, a)
  {
    hide ScoreIn, Ahead, UniqueKeys, HasKey;
    AheadScores(vec, a, b);
    AheadScores(kw, a, b);
    AheadIsThere(vec, kw, a, b);
  }

  lemma AheadIsThere(vec: seq<Hit>, kw: seq<Hit>, a: HitKey, b: HitKey)
    requires Ahead(vec, a, b) && Ahead(kw, a, b) && (HasKey(vec, b) || HasKey(kw, b))
    ensures HasKey(vec + kw, a)
  {
    if HasKey(vec, b) {
      var i, j :| 0 <= i < j < |vec| && KeyOf(vec[i]) == a && KeyOf(vec[j]) == b;
      assert (vec + kw)[i] == vec[i];
    } else {
      var i, j :| 0 <= i < j < |kw| && KeyOf(kw[i]) == a && KeyOf(kw[j]) == b;
      assert (vec + kw)[|vec| + i] == kw[i];
    }
  }

  lemma EntryOf(es: seq<Entry>, vec: seq<Hit>, kw: seq<Hit>, a: HitKey) returns (at: nat)
    requires Fused(es, vec, kw) && HasKey(vec + kw, a)
    ensures at < |es| && es[at].key == a
  {
    DistinctSpec(vec + kw);
    at :| at < |DistinctKeys(vec + kw)| && DistinctKeys(vec + kw)[at] == a;
  }

  // ---- the fusion loops ----

  method Fuse(vecRows: seq<Hit>, kwRows: seq<Hit>, k: int) returns (hits: seq<Hit>, ghost fused: seq<Entry>)
    ensures vecRows == [] ==> hits == []
    ensures vecRows != [] ==> Fused(fused, vecRows, kwRows) && hits == Answer(fused, k)
  {
    hide Fused, SortDesc;
    if vecRows == [] {
      return [], [];
    }
    var table: seq<Entry> := [];
    EmptyIsFused();
    for i := 0 to |vecRows|
      invariant Fused(table, vecRows[..i], [])
    {
      VectorRow(table, vecRows[..i], vecRows[i]);
      assert vecRows[..i] + [vecRows[i]] == vecRows[..i + 1];
      table := Upsert(table, vecRows[i], 1.0 / (RANK_OFFSET + (i + 1) as real), false);
    }
    assert vecRows[..|vecRows|] == vecRows;
    for i := 0 to |kwRows|
      invariant Fused(table, vecRows, kwRows[..i])
    {
      KeywordRow(table, vecRows, kwRows[..i], kwRows[i]);
      assert kwRows[..i] + [kwRows[i]] == kwRows[..i + 1];
      table := Upsert(table, kwRows[i], 1.0 / (RANK_OFFSET + (i + 1) as real), true);
    }
    assert kwRows[..|kwRows|] == kwRows;
    fused := table;
    hits := Scored(Upto(SortDesc(table), k));
  }

  lemma EmptyIsFused()
    ensures Fused([], [], [])
  {
  }
}
