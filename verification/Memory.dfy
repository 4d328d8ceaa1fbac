/** Memory consolidation: prompt sections within a budget, the episodes zipped to them, and trimming. */
module Memory {
  import opened Prelude
  import opened Text

  // ---- proportional trimming ----

  /** The lengths add up over the three fields, in the order of the source's keys. */
  function TotalLength(fields: seq<string>): nat {
    if fields == [] then 0 else TotalLength(fields[..|fields| - 1]) + |fields[|fields| - 1]|
  }

  /** `int(length * (budget / total))`, exactly, cut toward zero. */
  function Share(length: nat, budget: int, total: nat): int
    requires total > 0
  {
    if budget >= 0 then length * budget / total else -(length * -budget / total)
  }

  /** Python's `s[:max(0, n)]`. */
  function Prefix(s: string, n: int): (r: string)
    ensures r <= s && |r| == Min(Max(0, n), |s|)
  {
    s[..Min(Max(0, n), |s|)]
  }

  lemma TotalOfMore(fields: seq<string>, f: string)
    ensures TotalLength(fields + [f]) == TotalLength(fields) + |f|
  {
    assert (fields + [f])[..|fields|] == fields;
  }

  /** A division by zero, or the trimmed fields. */
  datatype Outcome = ZeroDivision | Trimmed(fields: seq<string>)

  ghost predicate PrefixesOf(out: seq<string>, fields: seq<string>) {
    |out| == |fields| && forall i :: 0 <= i < |out| ==> out[i] <= fields[i]
  }

  lemma {:induction false} TotalOfPrefix(fields: seq<string>, n: nat)
    requires n <= |fields|
    ensures TotalLength(fields[..n]) <= TotalLength(fields)
    decreases |fields| - n
  {
    if n < |fields| {
      assert fields[..n + 1][..n] == fields[..n];
      TotalOfPrefix(fields, n + 1);
    } else {
      assert fields[..n] == fields;
    }
  }

  lemma ShareBounds(length: nat, budget: nat, total: nat)
    requires budget < total
    ensures 0 <= Share(length, budget, total) <= length && Share(length, budget, total) * total <= length * budget
  {
    var s := length * budget / total;
    assert length * budget == s * total + length * budget % total;
    if s > length {
      assert (length + 1) * total <= s * total by { LeMul(length + 1, s, total); }
      assert length * budget <= length * total by { LeMul2(length, budget, total); }
    }
  }

  lemma LeMul(a: nat, b: nat, c: nat)
    requires a <= b
    ensures a * c <= b * c
  {
  }

  lemma LeMul2(a: nat, b: nat, c: nat)
    requires b <= c
    ensures a * b <= a * c
  {
  }

  /** What is used of the budget is at most its share for the characters seen so far. */
  predicate Proportional(used: nat, seen: nat, budget: int, total: nat) {
    used * total <= seen * Max(0, budget)
  }

  /** `n` is the field's share of the budget, `length * budget / total` cut off; nothing of a negative one. */
  predicate HasShare(n: nat, length: nat, budget: int, total: nat) {
    if budget < 0 then n == 0 else n * total <= length * budget < (n + 1) * total
  }

  lemma NothingUsed(budget: int, total: nat)
    ensures Proportional(0, 0, budget, total)
  {
  }

  lemma ProportionalFits(used: nat, seen: nat, budget: int, total: nat)
    requires total > 0 && Proportional(used, seen, budget, total) && seen <= total
    ensures used <= Max(0, budget)
  {
    var b := Max(0, budget);
    if used > b {
      LeMul(b + 1, used, total);
      LeMul(seen, total, b);
    }
  }

  /**
   The trimmed fields are prefixes of the given ones and fit the budget; when something had to be
   trimmed, the budget is used up exactly or the last field is whole. Only empty fields under a
   negative budget fail, with a division by zero.
   */
  method TrimToBudget(mem: seq<string>, budget: int) returns (r: Outcome)
    requires |mem| == 3
    ensures r.ZeroDivision? <==> budget < 0 && TotalLength(mem) == 0
    ensures r.Trimmed? ==> PrefixesOf(r.fields, mem)
    ensures r.Trimmed? && TotalLength(mem) <= budget ==> r.fields == mem
    ensures r.Trimmed? && TotalLength(mem) > budget ==> TotalLength(r.fields) <= Max(0, budget)
    ensures r.Trimmed? && TotalLength(mem) > budget ==> TotalLength(r.fields) == Max(0, budget) || r.fields[2] == mem[2]
    ensures r.Trimmed? && TotalLength(mem) > budget ==>
      forall i | 0 <= i < 2 :: HasShare(|r.fields[i]|, |mem[i]|, budget, TotalLength(mem))
  {
    var total := TotalLength(mem);
    if total <= budget {
      return Trimmed(mem);
    }
    if total == 0 {
      return ZeroDivision;
    }
    hide TotalLength, Share, Prefix, Proportional, HasShare;
    NothingTotal();
    NothingUsed(budget, total);
    assert mem[..0] == [];
    var out: seq<string> := [];
    var used := 0;
    for i := 0 to 2
      invariant |out| == i && used == TotalLength(out) && PrefixesOf(out, mem[..i])
      invariant Proportional(used, TotalLength(mem[..i]), budget, total)
      invariant forall j | 0 <= j < i :: HasShare(|out[j]|, |mem[j]|, budget, total)
    {
      var allowed := Share(|mem[i]|, budget, total);
      FieldFits(mem[i], budget, total, used, TotalLength(mem[..i]));
      TotalOfMore(mem[..i], mem[i]);
      assert mem[..i + 1] == mem[..i] + [mem[i]];
      TotalOfMore(out, Prefix(mem[i], allowed));
      out := out + [Prefix(mem[i], allowed)];
      used := used + |out[i]|;
    }
    var last := Prefix(mem[2], budget - used);
    TotalOfPrefix(mem, 2);
    ProportionalFits(used, TotalLength(mem[..2]), budget, total);
    TotalOfMore(out, last);
    r := Trimmed(out + [last]);
  }

  lemma NothingTotal()
    ensures TotalLength([]) == 0
  {
  }

  lemma FieldFits(field: string, budget: int, total: nat, used: nat, seen: nat)
    requires total > 0 && budget < total && Proportional(used, seen, budget, total)
    ensures Proportional(used + |Prefix(field, Share(|field|, budget, total))|, seen + |field|, budget, total)
    ensures HasShare(|Prefix(field, Share(|field|, budget, total))|, |field|, budget, total)
  {
    var n := |Prefix(field, Share(|field|, budget, total))|;
    if budget >= 0 {
      ShareBounds(|field|, budget, total);
      assert (used + n) * total == used * total + n * total;
      assert (seen + |field|) * budget == seen * budget + |field| * budget;
    } else {
      NegativeShare(|field|, -budget, total);
    }
  }

  lemma NegativeShare(length: nat, excess: nat, total: nat)
    requires total > 0
    ensures length * excess / total >= 0
  {
  }

  // ---- prompt sections ----

  /** A conversation and the excerpts of its messages, those to skip being absent. */
  datatype Conversation = Conversation(id: nat, title: string, excerpts: seq<Option<string>>)

  datatype Meta = Meta(id: nat, title: string, chars: nat)

  /** The excerpts that are there and not empty. */
  function Lines(excerpts: seq<Option<string>>): seq<string> {
    if excerpts == [] then []
    else (if excerpts[0].Some? && excerpts[0].value != "" then [excerpts[0].value] else []) + Lines(excerpts[1..])
  }

  function SectionOf(c: Conversation): string {
    "## 会话「" + c.title + "」\n" + Join(Lines(c.excerpts), "\n")
  }

  /** A section begins with its title line, and each excerpt that is there and not empty adds its line at the end. */
  lemma SectionGrows(c: Conversation, e: Option<string>)
    ensures c.excerpts == [] ==> SectionOf(c) == "## 会话「" + c.title + "」\n"
    ensures SectionOf(c.(excerpts := c.excerpts + [e]))
            == if e.None? || e.value == "" then SectionOf(c)
               else SectionOf(c) + (if Lines(c.excerpts) == [] then "" else "\n") + e.value
    ensures Lines(c.excerpts) == [] <==> forall k | 0 <= k < |c.excerpts| :: c.excerpts[k].None? || c.excerpts[k].value == ""
  {
    LinesSnoc(c.excerpts, e);
    LinesEmptyIff(c.excerpts);
    NoLines();
    var lines := Lines(c.excerpts);
    hide Lines;
    if e.Some? && e.value != "" {
      if lines == [] {
        assert lines + [e.value] == [e.value];
      } else {
        JoinSnoc(lines, e.value, "\n");
      }
    } else {
      assert lines + [] == lines;
    }
  }

  lemma NoLines()
    ensures Lines([]) == []
  {
  }

  lemma {:induction false} LinesSnoc(excerpts: seq<Option<string>>, e: Option<string>)
    ensures Lines(excerpts + [e]) == Lines(excerpts) + if e.Some? && e.value != "" then [e.value] else []
  {
    if excerpts == [] {
      assert excerpts + [e] == [e] && [e][1..] == [];
    } else {
      assert (excerpts + [e])[1..] == excerpts[1..] + [e];
      LinesSnoc(excerpts[1..], e);
    }
  }

  lemma {:induction false} LinesEmptyIff(excerpts: seq<Option<string>>)
    ensures Lines(excerpts) == [] <==> forall k | 0 <= k < |excerpts| :: excerpts[k].None? || excerpts[k].value == ""
  {
    if excerpts != [] {
      LinesEmptyIff(excerpts[1..]);
      assert forall k | 1 <= k < |excerpts| :: excerpts[k] == excerpts[1..][k - 1];
    }
  }

  /** Python's `s[:n]` for any `n`. */
  function Cut(s: string, n: int): string {
    if n >= 0 then s[..Min(n, |s|)] else s[..Max(0, |s| + n)]
  }

  /** The conversations that have a line, in order. */
  function WithLines(convos: seq<Conversation>): seq<Conversation> {
    if convos == [] then []
    else
      var front, c := convos[..|convos| - 1], convos[|convos| - 1];
      WithLines(front) + if Lines(c.excerpts) == [] then [] else [c]
  }

  /** Section and note `k` belong to the `k`-th conversation with a line; all but the last section are whole. */
  ghost predicate Aligned(sections: seq<string>, metas: seq<Meta>, source: seq<Conversation>) {
    && |sections| == |metas| <= |source|
    && (forall k :: 0 <= k < |sections| ==> metas[k] == Meta(source[k].id, source[k].title, |sections[k]|))
    && (forall k :: 0 <= k < |sections| ==> sections[k] <= SectionOf(source[k]))
    && (forall k :: 0 <= k < |sections| - 1 ==> sections[k] == SectionOf(source[k]))
  }

  /** Nothing is left out before the budget is used up. */
  method BuildPlanSections(convos: seq<Conversation>, budget: int) returns (sections: seq<string>, metas: seq<Meta>)
    ensures Aligned(sections, metas, WithLines(convos))
    ensures budget >= 0 ==> TotalLength(sections) <= budget
    ensures |sections| == |WithLines(convos)| || TotalLength(sections) >= budget
    ensures TotalLength(sections) < budget && sections != [] ==>
      sections[|sections| - 1] == SectionOf(WithLines(convos)[|sections| - 1])
    ensures budget < 0 ==> |sections| <= 1
    ensures budget < 0 && sections != [] ==> sections[0] == Cut(SectionOf(WithLines(convos)[0]), budget)
  {
    hide SectionOf, Lines, WithLines, TotalLength, Aligned;
    NothingTotal();
    NoSectionsYet();
    sections, metas := [], [];
    var used := 0;
    var i := 0;
    assert convos[..0] == [];
    while i < |convos|
      invariant 0 <= i <= |convos|
      invariant |sections| == |WithLines(convos[..i])| && Aligned(sections, metas, WithLines(convos[..i]))
      invariant used == TotalLength(sections) && (sections == [] || used < budget)
      invariant sections != [] ==> sections[|sections| - 1] == SectionOf(WithLines(convos[..i])[|sections| - 1])
    {
      var convo := convos[i];
      NextWithLines(convos, i);
      PrefixWithLines(convos, i + 1);
      i := i + 1;
      var lines := Lines(convo.excerpts);
      if lines == [] {
        continue;
      }
      var section := SectionOf(convo);
      if used + |section| > budget {
        section := Cut(section, budget - used);
      }
      TotalOfMore(sections, section);
      AlignedWith(sections, metas, WithLines(convos[..i - 1]), convo, section);
      sections := sections + [section];
      metas := metas + [Meta(convo.id, convo.title, |section|)];
      used := used + |section|;
      if used >= budget {
        AlignedInMore(sections, metas, WithLines(convos[..i]), WithLines(convos));
        return;
      }
    }
    assert convos[..|convos|] == convos;
  }

  lemma NoSectionsYet()
    ensures WithLines([]) == [] && Aligned([], [], [])
  {
  }

  lemma NextWithLines(convos: seq<Conversation>, i: nat)
    requires i < |convos|
    ensures WithLines(convos[..i + 1])
            == if Lines(convos[i].excerpts) == [] then WithLines(convos[..i]) else WithLines(convos[..i]) + [convos[i]]
  {
    hide Lines;
    assert convos[..i + 1][..i] == convos[..i];
  }

  lemma AlignedWith(sections: seq<string>, metas: seq<Meta>, source: seq<Conversation>, c: Conversation, section: string)
    requires Aligned(sections, metas, source) && |sections| == |source| && section <= SectionOf(c)
    requires sections != [] ==> sections[|sections| - 1] == SectionOf(source[|sections| - 1])
    ensures Aligned(sections + [section], metas + [Meta(c.id, c.title, |section|)], source + [c])
  {
  }

  lemma {:induction false} PrefixWithLines(convos: seq<Conversation>, n: nat)
    requires n <= |convos|
    ensures WithLines(convos[..n]) <= WithLines(convos)
    decreases |convos| - n
  {
    if n < |convos| {
      assert convos[..n + 1][..n] == convos[..n];
      PrefixWithLines(convos, n + 1);
    } else {
      assert convos[..n] == convos;
    }
  }

  lemma AlignedInMore(sections: seq<string>, metas: seq<Meta>, source: seq<Conversation>, more: seq<Conversation>)
    requires Aligned(sections, metas, source) && source <= more
    ensures Aligned(sections, metas, more)
  {
  }

  // ---- episodes ----

  /** An element of the parsed array: a text, or anything else. */
  datatype Json = Text(text: string) | NotText

  datatype Episode = Episode(conversation: nat, title: string, summary: string, chars: nat)

  predicate Usable(es: seq<Json>) {
    forall e :: e in es ==> e.Text? && Strip(e.text) != ""
  }

  /** The summaries of an `episodes` array of the expected length made of visible texts; else nothing. */
  function ParseEpisodes(field: Option<seq<Json>>, expected: nat): (r: Option<seq<string>>)
    ensures r.Some? <==> field.Some? && |field.value| == expected && Usable(field.value)
    ensures r.Some? ==> |r.value| == expected
    ensures r.Some? ==> forall i :: 0 <= i < expected ==> r.value[i] == Strip(field.value[i].text)
  {
    if field.Some? && |field.value| == expected && Usable(field.value)
    then
      var es := field.value;
      Some(seq(|es|, i requires 0 <= i < |es| && Usable(es) => Strip(es[i].text)))
    else None
  }

  /** The summaries are used exactly if the array has as many elements as there are sections, all visible texts. */
  lemma ParsesIff(field: Option<seq<Json>>, expected: nat)
    ensures ParseEpisodes(field, expected).Some?
            <==> && field.Some? && |field.value| == expected
                 && forall k | 0 <= k < expected :: field.value[k].Text? && !AllBlank(field.value[k].text)
  {
    if field.Some? {
      forall e | e in field.value ensures e.Text? ==> (Strip(e.text) == "" <==> AllBlank(e.text)) {
        if e.Text? { StripBlank(e.text); }
      }
    }
    hide Strip, AllBlank;
  }

  /** Each section gets its own summary: as many episodes as sections, in order, or none at all. */
  method WriteEpisodes(metas: seq<Meta>, field: Option<seq<Json>>) returns (episodes: seq<Episode>)
    ensures if ParseEpisodes(field, |metas|).None? then episodes == []
      else && |episodes| == |metas|
           && forall k :: 0 <= k < |metas| ==>
                episodes[k] == Episode(metas[k].id, metas[k].title, Strip(field.value[k].text), metas[k].chars)
  {
    hide Strip;
    episodes := [];
    var summaries := ParseEpisodes(field, |metas|);
    if summaries.Some? {
      for k := 0 to |metas|
        invariant |episodes| == k
        invariant forall j :: 0 <= j < k ==>
          episodes[j] == Episode(metas[j].id, metas[j].title, Strip(field.value[j].text), metas[j].chars)
      {
        episodes := episodes + [Episode(metas[k].id, metas[k].title, summaries.value[k], metas[k].chars)];
      }
    }
  }
}
