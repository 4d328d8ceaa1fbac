/** Small shared vocabulary: optional values, and Python's reading of blank characters. */
module Prelude {
  datatype Option<+T> = None | Some(value: T)

  function Min(a: int, b: int): int {
    if a <= b then a else b
  }

  function Max(a: int, b: int): int {
    if a >= b then a else b
  }

  lemma SubsetSize<T>(a: set<T>, b: set<T>)
    requires a <= b
    ensures |a| <= |b|
  {
    assert b == a + (b - a);
  }
}

module Text {
  /** `sep.join(cs)`. */
  function Join(cs: seq<string>, sep: string): string {
    if cs == [] then "" else if |cs| == 1 then cs[0] else cs[0] + sep + Join(cs[1..], sep)
  }

  lemma {:induction false} JoinSnoc(cs: seq<string>, c: string, sep: string)
    requires cs != []
    ensures Join(cs + [c], sep) == Join(cs, sep) + sep + c
  {
    if |cs| == 1 {
      assert (cs + [c])[1..] == [c];
    } else {
      JoinSnoc(cs[1..], c, sep);
      assert (cs + [c])[1..] == cs[1..] + [c];
    }
  }

  /** The characters `str.strip()` and `str.isspace()` treat as white space. */
  predicate IsBlank(c: char) {
    var n := c as int;
    || 0x09 <= n <= 0x0D || 0x1C <= n <= 0x20 || n == 0x85 || n == 0xA0 || n == 0x1680
    || 0x2000 <= n <= 0x200A || n == 0x2028 || n == 0x2029 || n == 0x202F || n == 0x205F || n == 0x3000
  }

  function LStrip(s: string): (r: string)
    ensures |r| <= |s| && r == s[|s| - |r|..]
    ensures forall k | 0 <= k < |s| - |r| :: IsBlank(s[k])
    ensures r != "" ==> !IsBlank(r[0])
  {
    if s == "" || !IsBlank(s[0]) then s else LStrip(s[1..])
  }

  function RStrip(s: string): (r: string)
    ensures |r| <= |s| && r == s[..|r|]
    ensures forall k | |r| <= k < |s| :: IsBlank(s[k])
    ensures r != "" ==> !IsBlank(r[|r| - 1])
  {
    if s == "" || !IsBlank(s[|s| - 1]) then s else RStrip(s[..|s| - 1])
  }

  /** `s.strip()`. */
  function Strip(s: string): (r: string)
    ensures |r| <= |s|
    ensures r != "" ==> !IsBlank(r[0]) && !IsBlank(r[|r| - 1])
    ensures (forall c | c in s :: IsBlank(c)) ==> r == ""
  {
    RStrip(LStrip(s))
  }

  predicate AllBlank(s: string) {
    forall c | c in s :: IsBlank(c)
  }

  lemma StripBlank(s: string)
    ensures Strip(s) == "" <==> AllBlank(s)
  {
    if LStrip(s) == "" {
      assert forall k | 0 <= k < |s| :: IsBlank(s[k]);
    } else {
      assert s[|s| - |LStrip(s)|] == LStrip(s)[0];
    }
  }

  lemma StripFixed(s: string)
    requires s == "" || (!IsBlank(s[0]) && !IsBlank(s[|s| - 1]))
    ensures Strip(s) == s
  {
  }

  lemma StripIdempotent(s: string)
    ensures Strip(Strip(s)) == Strip(s)
  {
    hide *;
    StripFixed(Strip(s));
  }

  /** The visible characters of `s`, in order. */
  function Visible(s: string): string {
    if s == "" then "" else (if IsBlank(s[0]) then "" else [s[0]]) + Visible(s[1..])
  }

  lemma VisibleStep(c: char, s: string)
    ensures Visible([c] + s) == (if IsBlank(c) then "" else [c]) + Visible(s)
  {
    assert ([c] + s)[1..] == s;
  }

  lemma {:induction false} VisibleConcat(a: string, b: string)
    ensures Visible(a + b) == Visible(a) + Visible(b)
    decreases |a|
  {
    if a == "" {
      assert a + b == b;
    } else {
      hide Visible, IsBlank;
      VisibleConcat(a[1..], b);
      VisibleStep(a[0], a[1..] + b);
      VisibleStep(a[0], a[1..]);
      assert a == [a[0]] + a[1..] && a + b == [a[0]] + (a[1..] + b);
    }
  }

  lemma {:induction false} VisibleOfBlank(s: string)
    requires AllBlank(s)
    ensures Visible(s) == ""
  {
    if s != "" {
      VisibleOfBlank(s[1..]);
    }
  }

  lemma VisibleStrip(s: string)
    ensures Visible(Strip(s)) == Visible(s)
  {
    var l := LStrip(s);
    assert Strip(s) == RStrip(l);
    hide LStrip, RStrip, Strip, Visible;
    VisibleTrimmed(s, |s| - |l|, |s|);
    VisibleTrimmed(l, 0, |RStrip(l)|);
    assert s[|s| - |l|..|s|] == l;
    assert l[0..|RStrip(l)|] == RStrip(l);
  }

  /** Blank ends do not show. */
  lemma VisibleTrimmed(s: string, i: nat, j: nat)
    requires i <= j <= |s|
    requires forall k | 0 <= k < |s| && !(i <= k < j) :: IsBlank(s[k])
    ensures Visible(s[i..j]) == Visible(s)
  {
    hide Visible, IsBlank;
    var a, b, c := s[..i], s[i..j], s[j..];
    assert s == a + b + c;
    VisibleConcat(a + b, c);
    VisibleConcat(a, b);
    VisibleOfBlank(a);
    VisibleOfBlank(c);
  }
}
