/** Subsequences of strings: what is kept, in order. */
module Subsequence {
  predicate Subseq(a: string, b: string) {
    a == "" || (b != "" && ((a[0] == b[0] && Subseq(a[1..], b[1..])) || Subseq(a, b[1..])))
  }

  lemma {:induction false} SubseqTail(a: string, b: string)
    requires a != "" && Subseq(a, b)
    ensures Subseq(a[1..], b)
    decreases b
  {
    if !(a[0] == b[0] && Subseq(a[1..], b[1..])) {
      SubseqTail(a, b[1..]);
    }
    SubseqGrowsFront(a[1..], b[..1], b[1..]);
    assert b[..1] + b[1..] == b;
  }

  lemma {:induction false} SubseqGrowsFront(a: string, x: string, b: string)
    requires Subseq(a, b)
    ensures Subseq(a, x + b)
    decreases x
  {
    if x == "" {
      assert x + b == b;
    } else {
      SubseqGrowsFront(a, x[1..], b);
      assert (x + b)[1..] == x[1..] + b;
    }
  }

  lemma {:induction false} SubseqConcat(a: string, c: string, b: string, d: string)
    requires Subseq(a, c) && Subseq(b, d)
    ensures Subseq(a + b, c + d)
    decreases c
  {
    if a == "" {
      assert a + b == b;
      SubseqGrowsFront(b, c, d);
    } else {
      assert (a + b)[1..] == a[1..] + b && (c + d)[1..] == c[1..] + d;
      if a[0] == c[0] && Subseq(a[1..], c[1..]) {
        SubseqConcat(a[1..], c[1..], b, d);
      } else {
        SubseqConcat(a, c[1..], b, d);
      }
    }
  }

  lemma {:induction false} SubseqRefl(a: string)
    ensures Subseq(a, a)
  {
    if a != "" { SubseqRefl(a[1..]); }
  }

  lemma {:induction false} SubseqTrans(a: string, b: string, c: string)
    requires Subseq(a, b) && Subseq(b, c)
    ensures Subseq(a, c)
    decreases c, b
  {
    if a != "" {
      if b[0] == c[0] && Subseq(b[1..], c[1..]) {
        if a[0] == b[0] && Subseq(a[1..], b[1..]) {
          SubseqTrans(a[1..], b[1..], c[1..]);
        } else {
          SubseqTrans(a, b[1..], c[1..]);
        }
      } else {
        SubseqTrans(a, b, c[1..]);
      }
    }
  }
}

/** Sliding-window chunking, and chunking by Markdown section. */
module Chunking {
  import opened Prelude
  import opened Text
  import opened Subsequence

  const MIN_CHUNK_CHARS: nat := 30
  const TITLE_CHARS: nat := 200

  function Flatten(cs: seq<string>): string {
    if cs == [] then "" else cs[0] + Flatten(cs[1..])
  }

  lemma {:induction false} FlattenConcat(a: seq<string>, b: seq<string>)
    ensures Flatten(a + b) == Flatten(a) + Flatten(b)
  {
    if a == [] {
      assert a + b == b;
    } else {
      FlattenConcat(a[1..], b);
      assert (a + b)[0] == a[0] && (a + b)[1..] == a[1..] + b;
      assert a[0] + (Flatten(a[1..]) + Flatten(b)) == a[0] + Flatten(a[1..]) + Flatten(b);
    }
  }

  // ---- the sliding window ----

  /** Python's `text[start:end]` for a start that is not negative and any end. */
  function Slice(text: string, start: nat, end: int): string {
    var e := if end < 0 then Max(0, end + |text|) else Min(end, |text|);
    if e <= start then "" else text[start..e]
  }

  function Step(size: int, overlap: int): nat {
    Max(1, size - overlap)
  }

  /** The starts of the windows the loop visits. */
  function Starts(len: nat, size: int, step: nat, start: nat): seq<nat>
    requires step > 0
    decreases len - start
  {
    if start >= len then [] else [start] + (if start + size >= len then [] else Starts(len, size, step, start + step))
  }

  /** The stripped, non-empty windows from `start` on. */
  function Windows(text: string, size: int, step: nat, start: nat): seq<string>
    requires step > 0
    decreases |text| - start
  {
    if start >= |text| then []
    else
      var c := Strip(Slice(text, start, start + size));
      (if c == "" then [] else [c]) + (if start + size >= |text| then [] else Windows(text, size, step, start + step))
  }

  /** Fragments below the minimum join the chunk before them, if there is one. */
  function Merge(done: seq<string>, raw: seq<string>): seq<string>
    decreases raw
  {
    if raw == [] then done
    else if done != [] && |raw[0]| < MIN_CHUNK_CHARS then
      Merge(done[..|done| - 1] + [done[|done| - 1] + " " + raw[0]], raw[1..])
    else Merge(done + [raw[0]], raw[1..])
  }

  function Chunks(text: string, size: int, overlap: int): seq<string> {
    if Strip(text) == "" then []
    else
      var t := Strip(text);
      if |t| <= size then [t]
      else
        var merged := Merge([], Windows(t, size, Step(size, overlap), 0));
        if merged == [] then [t] else merged
  }

  /** The stripped, non-empty slices at the given starts. */
  function SlicesAt(text: string, size: int, starts: seq<nat>): seq<string> {
    if starts == [] then []
    else
      var c := Strip(Slice(text, starts[0], starts[0] + size));
      (if c == "" then [] else [c]) + SlicesAt(text, size, starts[1..])
  }

  lemma {:induction false} WindowsAreSlices(text: string, size: int, step: nat, start: nat)
    requires step > 0
    ensures Windows(text, size, step, start) == SlicesAt(text, size, Starts(|text|, size, step, start))
    decreases |text| - start
  {
    hide *;
    WindowsUnfold(text, size, step, start);
    StartsAre(|text|, size, step, start);
    if start < |text| && start + size < |text| {
      SlicesFrom(text, size, start, Starts(|text|, size, step, start + step));
      WindowsAreSlices(text, size, step, start + step);
      assert Windows(text, size, step, start)
          == OneOrNone(Strip(Slice(text, start, start + size))) + Windows(text, size, step, start + step);
    } else {
      SlicesFrom(text, size, start, []);
      assert start < |text| ==> Windows(text, size, step, start) == OneOrNone(Strip(Slice(text, start, start + size)));
    }
  }

  lemma SlicesFrom(text: string, size: int, start: nat, rest: seq<nat>)
    ensures SlicesAt(text, size, [start] + rest) == OneOrNone(Strip(Slice(text, start, start + size))) + SlicesAt(text, size, rest)
    ensures SlicesAt(text, size, []) == []
    ensures rest == [] ==> [start] + rest == [start]
  {
    hide Strip, Slice;
    assert ([start] + rest)[1..] == rest;
  }

  lemma {:induction false} SliceIsThere(text: string, size: int, starts: seq<nat>, s: nat)
    requires s in starts
    ensures var c := Strip(Slice(text, s, s + size)); c == "" || c in SlicesAt(text, size, starts)
  {
    hide Strip, Slice;
    if starts[0] != s {
      SliceIsThere(text, size, starts[1..], s);
    }
  }

  /**
   With a positive size and no negative overlap the windows leave no gap: every position is in a slice
   that is blank or, stripped, one of the windows.
   */
  lemma WindowsCover(text: string, size: int, overlap: int, p: nat) returns (s: nat)
    requires 1 <= size && 0 <= overlap && p < |text|
    ensures s <= p < s + size
    ensures var w := text[s..Min(s + size, |text|)];
      w[p - s] == text[p] && (AllBlank(w) || Strip(w) in Windows(text, size, Step(size, overlap), 0))
  {
    hide Windows, Starts, SlicesAt, Strip, AllBlank;
    s := StartsCover(|text|, size, overlap, 0, p);
    var w := text[s..Min(s + size, |text|)];
    assert Slice(text, s, s + size) == w && w[p - s] == text[p];
    hide Slice;
    WindowsAreSlices(text, size, Step(size, overlap), 0);
    SliceIsThere(text, size, Starts(|text|, size, Step(size, overlap), 0), s);
    StripBlank(w);
  }

  lemma {:induction false} StartsCover(len: nat, size: int, overlap: int, start: nat, p: nat) returns (s: nat)
    requires 1 <= size && 0 <= overlap && start <= p < len
    ensures s in Starts(len, size, Step(size, overlap), start) && s <= p < s + size
    decreases len - start
  {
    var step := Step(size, overlap);
    StartsUnfold(len, size, step, start);
    if p < start + size {
      s := start;
    } else {
      hide Starts;
      s := StartsCover(len, size, overlap, start + step, p);
    }
  }

  lemma StartsUnfold(len: nat, size: int, step: nat, start: nat)
    requires step > 0 && start < len
    ensures start in Starts(len, size, step, start)
    ensures start + size < len ==>
      forall s :: s in Starts(len, size, step, start + step) ==> s in Starts(len, size, step, start)
  {
    assert Starts(len, size, step, start)[0] == start;
  }

  /** A negative overlap does leave gaps: what the character after the first window is makes no difference. */
  lemma NegativeOverlapLeavesGap(text: string, other: string, size: int, overlap: int)
    requires 1 <= size && overlap < 0 && size < |text| == |other|
    requires forall i | 0 <= i < |text| && i != size :: text[i] == other[i]
    ensures Windows(text, size, Step(size, overlap), 0) == Windows(other, size, Step(size, overlap), 0)
  {
    hide Windows, Starts, SlicesAt;
    var step := Step(size, overlap);
    StartsAre(|text|, size, step, 0);
    StartsFrom(|text|, size, step, step);
    WindowsAreSlices(text, size, step, 0);
    WindowsAreSlices(other, size, step, 0);
    SlicesAgree(text, other, size, Starts(|text|, size, step, 0));
  }

  lemma {:induction false} StartsFrom(len: nat, size: int, step: nat, start: nat)
    requires step > 0
    ensures forall s :: s in Starts(len, size, step, start) ==> start <= s < len
    decreases len - start
  {
    StartsAre(len, size, step, start);
    hide Starts;
    if start < len && start + size < len {
      StartsFrom(len, size, step, start + step);
    }
  }

  lemma {:induction false} SlicesAgree(text: string, other: string, size: int, starts: seq<nat>)
    requires 1 <= size < |text| == |other| && forall i | 0 <= i < |text| && i != size :: text[i] == other[i]
    requires forall s | s in starts :: s < |text| && !(s <= size < s + size)
    ensures SlicesAt(text, size, starts) == SlicesAt(other, size, starts)
  {
    hide Strip;
    if starts != [] {
      assert starts[0] in starts && forall s | s in starts[1..] :: s in starts;
      assert Slice(text, starts[0], starts[0] + size) == Slice(other, starts[0], starts[0] + size);
      SlicesAgree(text, other, size, starts[1..]);
    }
  }

  lemma StartsAre(len: nat, size: int, step: nat, start: nat)
    requires step > 0
    ensures Starts(len, size, step, start)
            == if start >= len then []
               else if start + size >= len then [start]
               else [start] + Starts(len, size, step, start + step)
  {
  }

  lemma {:induction false} VisibleIsSubseq(s: string)
    ensures Subseq(Visible(s), s)
  {
    if s != "" {
      VisibleIsSubseq(s[1..]);
      if IsBlank(s[0]) {
        assert Visible(s) == Visible(s[1..]);
      } else {
        assert Visible(s)[1..] == Visible(s[1..]);
      }
    }
  }

  /** The visible part of an initial piece of a window survives stripping the window. */
  lemma WindowKeeps(head: string, rest: string)
    ensures Subseq(Visible(head), Strip(head + rest))
  {
    var w := head + rest;
    VisibleConcat(head, rest);
    SubseqRefl(Visible(head));
    SubseqConcat(Visible(head), Visible(head), "", Visible(rest));
    assert Visible(head) + "" == Visible(head);
    VisibleStrip(w);
    VisibleIsSubseq(Strip(w));
    SubseqTrans(Visible(head), Visible(w), Strip(w));
  }

  function OneOrNone(c: string): (r: seq<string>)
    ensures Flatten(r) == c
  {
    if c == "" then [] else FlattenOne(c); [c]
  }

  lemma LastWindowKeeps(text: string, size: int, step: nat, start: nat)
    requires step > 0 && start < |text| <= start + size
    ensures Subseq(Visible(text[start..]), Flatten(Windows(text, size, step, start)))
  {
    hide Strip, Subseq, Visible;
    var w := Slice(text, start, start + size);
    assert w == text[start..] == w + "";
    WindowKeeps(w, "");
    assert Windows(text, size, step, start) == OneOrNone(Strip(w));
  }

  lemma WindowsUnfold(text: string, size: int, step: nat, start: nat)
    requires step > 0
    ensures Windows(text, size, step, start)
            == if start >= |text| then []
               else OneOrNone(Strip(Slice(text, start, start + size)))
                    + if start + size >= |text| then [] else Windows(text, size, step, start + step)
  {
  }

  lemma NothingToKeep(other: string)
    ensures Subseq(Visible(""), other)
  {
  }

  lemma {:induction false} WindowsKeep(text: string, size: int, overlap: int, start: nat)
    requires 1 <= size && 0 <= overlap && start <= |text|
    ensures Subseq(Visible(text[start..]), Flatten(Windows(text, size, Step(size, overlap), start)))
    decreases |text| - start
  {
    hide Subseq, Visible, Windows, Flatten, Strip;
    var step := Step(size, overlap);
    if start == |text| {
      NothingToKeep(Flatten(Windows(text, size, step, start)));
      assert text[start..] == "";
    } else if start + size >= |text| {
      LastWindowKeeps(text, size, step, start);
    } else {
      WindowsKeep(text, size, overlap, start + step);
      OneMoreWindow(text, size, step, start);
    }
  }

  lemma OneMoreWindow(text: string, size: int, step: nat, start: nat)
    requires 1 <= step <= size && start + size < |text|
    requires Subseq(Visible(text[start + step..]), Flatten(Windows(text, size, step, start + step)))
    ensures Subseq(Visible(text[start..]), Flatten(Windows(text, size, step, start)))
  {
    hide Strip, Subseq, Visible, Windows, Flatten, OneOrNone;
    var next := start + step;
    var head, mid := text[start..next], text[next..start + size];
    var c := Strip(head + mid);
    var rest := Windows(text, size, step, next);
    assert Slice(text, start, start + size) == head + mid;
    WindowsUnfold(text, size, step, start);
    WindowKeeps(head, mid);
    FlattenConcat(OneOrNone(c), rest);
    assert text[start..] == head + text[next..];
    VisibleConcat(head, text[next..]);
    SubseqConcat(Visible(head), c, Visible(text[next..]), Flatten(rest));
  }

  lemma {:induction false} MergeKeeps(done: seq<string>, raw: seq<string>)
    ensures Subseq(Flatten(done) + Flatten(raw), Flatten(Merge(done, raw)))
    decreases raw
  {
    if raw == [] {
      assert Flatten(done) + "" == Flatten(done);
      SubseqRefl(Flatten(done));
    } else {
      var next := if done != [] && |raw[0]| < MIN_CHUNK_CHARS
                  then done[..|done| - 1] + [done[|done| - 1] + " " + raw[0]]
                  else done + [raw[0]];
      MergeKeeps(next, raw[1..]);
      assert Subseq(Flatten(done) + raw[0], Flatten(next)) by {
        AppendFragment(done, raw[0]);
      }
      SubseqRefl(Flatten(raw[1..]));
      SubseqConcat(Flatten(done) + raw[0], Flatten(next), Flatten(raw[1..]), Flatten(raw[1..]));
      assert Flatten(done) + raw[0] + Flatten(raw[1..]) == Flatten(done) + Flatten(raw);
      SubseqTrans(Flatten(done) + Flatten(raw), Flatten(next) + Flatten(raw[1..]), Flatten(Merge(done, raw)));
    }
  }

  lemma AppendFragment(done: seq<string>, c: string)
    ensures Subseq(Flatten(done) + c, Flatten(done + [c]))
    ensures done != [] ==>
              Subseq(Flatten(done) + c, Flatten(done[..|done| - 1] + [done[|done| - 1] + " " + c]))
  {
    hide Subseq, Flatten;
    FlattenOne(c);
    FlattenConcat(done, [c]);
    SubseqRefl(Flatten(done) + c);
    if done != [] {
      var front := done[..|done| - 1];
      var last := done[|done| - 1];
      assert done == front + [last];
      FlattenConcat(front, [last]);
      FlattenConcat(front, [last + " " + c]);
      FlattenOne(last);
      FlattenOne(last + " " + c);
      SubseqRefl(Flatten(done));
      SubseqRefl(c);
      SubseqGrowsFront(c, " ", c);
      SubseqConcat(Flatten(done), Flatten(done), c, " " + c);
      assert Flatten(done) + (" " + c) == Flatten(front) + (last + " " + c);
    }
  }

  lemma FlattenOne(c: string)
    ensures Flatten([c]) == c
  {
    assert [c][1..] == [];
    assert c + "" == c;
  }

  /** Chunking keeps every visible character of the text, in order. */
  lemma ChunksKeepText(text: string, size: int, overlap: int)
    requires 1 <= size && 0 <= overlap
    ensures Subseq(Visible(text), Flatten(Chunks(text, size, overlap)))
  {
    hide Subseq, Visible, Windows, Merge, Strip;
    var t := Strip(text);
    VisibleStrip(text);
    VisibleIsSubseq(t);
    FlattenOne(t);
    if t != "" && |t| > size {
      var raw := Windows(t, size, Step(size, overlap), 0);
      WindowsKeep(t, size, overlap, 0);
      assert t[0..] == t;
      MergeKeeps([], raw);
      assert "" + Flatten(raw) == Flatten(raw);
      SubseqTrans(Visible(t), Flatten(raw), Flatten(Merge([], raw)));
    }
  }

  lemma {:induction false} MergeOnlyFirstShort(done: seq<string>, raw: seq<string>)
    requires forall i | 1 <= i < |done| :: |done[i]| >= MIN_CHUNK_CHARS
    ensures forall i | 1 <= i < |Merge(done, raw)| :: |Merge(done, raw)[i]| >= MIN_CHUNK_CHARS
    decreases raw
  {
    if raw != [] {
      if done != [] && |raw[0]| < MIN_CHUNK_CHARS {
        MergeOnlyFirstShort(done[..|done| - 1] + [done[|done| - 1] + " " + raw[0]], raw[1..]);
      } else {
        MergeOnlyFirstShort(done + [raw[0]], raw[1..]);
      }
    }
  }

  /** No chunk but the first is shorter than the minimum, for any size and overlap. */
  lemma OnlyFirstShort(text: string, size: int, overlap: int, i: nat)
    requires 1 <= i < |Chunks(text, size, overlap)|
    ensures |Chunks(text, size, overlap)[i]| >= MIN_CHUNK_CHARS
  {
    MergeOnlyFirstShort([], Windows(Strip(text), size, Step(size, overlap), 0));
  }

  /** The window loop. */
  method SlideWindows(t: string, size: int, step: nat) returns (raw: seq<string>)
    requires step > 0
    ensures raw == Windows(t, size, step, 0)
  {
    hide Strip, Windows, Slice;
    raw := [];
    var start := 0;
    while start < |t|
      invariant start >= 0
      invariant Windows(t, size, step, 0) == raw + Windows(t, size, step, start)
      decreases |t| - start
    {
      WindowsUnfold(t, size, step, start);
      var chunk := Slice(t, start, start + size);
      if Strip(chunk) != "" {
        raw := raw + [Strip(chunk)];
      }
      if start + size >= |t| {
        return;
      }
      start := start + step;
    }
    WindowsUnfold(t, size, step, start);
  }

  /** The merging loop. */
  method MergeFragments(raw: seq<string>) returns (merged: seq<string>)
    ensures merged == Merge([], raw)
  {
    merged := [];
    for i := 0 to |raw|
      invariant Merge([], raw) == Merge(merged, raw[i..])
    {
      var c := raw[i];
      assert raw[i..][0] == c && raw[i..][1..] == raw[i + 1..];
      if merged != [] && |c| < MIN_CHUNK_CHARS {
        merged := merged[..|merged| - 1] + [merged[|merged| - 1] + " " + c];
      } else {
        merged := merged + [c];
      }
    }
  }

  method SplitIntoChunks(text: string, size: int, overlap: int) returns (chunks: seq<string>)
    ensures chunks == Chunks(text, size, overlap)
  {
    hide Strip;
    if Strip(text) == "" {
      return [];
    }
    var t := Strip(text);
    if |t| <= size {
      return [t];
    }
    var raw := SlideWindows(t, size, Max(1, size - overlap));
    var merged := MergeFragments(raw);
    chunks := if merged == [] then [t] else merged;
  }
}
