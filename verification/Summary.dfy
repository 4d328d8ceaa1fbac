/** Incremental summarisation of a conversation: a resumable cursor over its messages. */
module Summary {
  import opened Prelude
  import Text

  datatype Role = System | User | Agent | Roundtable | OtherRole

  /** `failed` is a status of "error"; `text` and `toolCalls` are read from the content. */
  datatype Message = Message(id: nat, role: Role, failed: bool, text: string, toolCalls: bool)

  datatype Config = Config(msgChars: nat, inputChars: nat, preserve: nat, threshold: nat)

  /** A row of conversation_summaries; `covered` is the id of the last message summarised. */
  datatype Row = Row(summary: string, covered: Option<nat>, count: nat, tokens: nat)

  datatype Digest = Digest(summary: string, tokens: nat)

  const AGENT_LABEL: string := "助手"
  const USER_LABEL: string := "用户"
  const ADDENDUM: string := "\n\n【近期补充】\n"

  // ---- one message ----

  /** `_excerpt`: the role label and the clipped text, or None for what is not dialogue. */
  function Excerpt(cfg: Config, m: Message): (r: Option<(string, string)>)
    ensures r.Some? ==> r.value.1 != "" && |r.value.0| == 2
    ensures r.Some? ==> |r.value.1| <= cfg.msgChars + 1
  {
    var text := Text.Strip(m.text);
    if m.role.System? || m.failed || m.role.Roundtable? then None
    else if text == "" then None
    else if m.role.Agent? && m.toolCalls && |text| < 20 then None
    else if !m.role.Agent? && !m.role.User? then None
    else
      Some((if m.role.Agent? then AGENT_LABEL else USER_LABEL, if |text| > cfg.msgChars then text[..cfg.msgChars] + "…" else text))
  }

  /** Exactly which messages are dialogue, and how each role is labelled. */
  lemma ExcerptIff(cfg: Config, m: Message)
    ensures var text := Text.Strip(m.text);
      var shown := if |text| > cfg.msgChars then text[..cfg.msgChars] + "…" else text;
      && (Excerpt(cfg, m) == Some(("用户", shown)) <==> m.role.User? && !m.failed && !Text.AllBlank(m.text))
      && (Excerpt(cfg, m) == Some(("助手", shown)) <==>
            m.role.Agent? && !m.failed && !Text.AllBlank(m.text) && (m.toolCalls ==> |text| >= 20))
      && (Excerpt(cfg, m).Some? ==> Excerpt(cfg, m).value.1 == shown && (m.role.User? || m.role.Agent?))
  {
    Text.StripBlank(m.text);
    hide Text.Strip, Text.AllBlank;
    assert "用户" != "助手" by { assert "用户"[0] != "助手"[0]; }
  }

  predicate Kept(cfg: Config, m: Message) {
    Excerpt(cfg, m).Some?
  }

  function Line(cfg: Config, m: Message): (r: string)
    requires Kept(cfg, m)
    ensures |r| <= cfg.msgChars + 4
  {
    var e := Excerpt(cfg, m).value;
    e.0 + "：" + e.1
  }

  /** The messages a transcript may contain, in order. */
  function Dialogue(cfg: Config, ms: seq<Message>): (r: seq<Message>)
    ensures forall m | m in r :: Kept(cfg, m)
  {
    if ms == [] then []
    else (if Kept(cfg, ms[0]) then [ms[0]] else []) + Dialogue(cfg, ms[1..])
  }

  lemma {:induction false} DialogueConcat(cfg: Config, a: seq<Message>, b: seq<Message>)
    ensures Dialogue(cfg, a + b) == Dialogue(cfg, a) + Dialogue(cfg, b)
  {
    hide Excerpt, Line;
    if a == [] {
      assert a + b == b;
    } else {
      DialogueConcat(cfg, a[1..], b);
      assert (a + b)[1..] == a[1..] + b;
    }
  }

  // ---- one batch ----

  /** `all_msgs[:-preserve]`, which in Python is empty, not everything, when `preserve` is 0. */
  function OutsideWindow(cfg: Config, ms: seq<Message>): seq<Message> {
    if |ms| > cfg.preserve && cfg.preserve > 0 then ms[..|ms| - cfg.preserve] else []
  }

  /** One past the position of the cursor, or 0 if it is unset or not found. */
  function CutAt(ms: seq<Message>, after: Option<nat>): (r: nat)
    ensures r <= |ms|
    ensures r > 0 ==> after == Some(ms[r - 1].id)
    ensures forall i | 0 <= i < |ms| && after == Some(ms[i].id) :: 0 < r <= i + 1
  {
    if after.None? || ms == [] then 0
    else if ms[0].id == after.value then 1
    else
      var r := CutAt(ms[1..], after);
      assert forall i | 1 <= i < |ms| :: ms[i] == ms[1..][i - 1];
      if r == 0 then 0 else r + 1
  }

  /** The messages one run takes from `rest` with `used` characters already taken. */
  function Gather(cfg: Config, rest: seq<Message>, used: nat): (r: seq<Message>)
    ensures forall m | m in r :: Kept(cfg, m)
  {
    if rest == [] then []
    else if !Kept(cfg, rest[0]) then Gather(cfg, rest[1..], used)
    else if used + |Line(cfg, rest[0])| > cfg.inputChars then []
    else [rest[0]] + Gather(cfg, rest[1..], used + |Line(cfg, rest[0])|)
  }

  function Chars(cfg: Config, ms: seq<Message>): nat
    requires forall m | m in ms :: Kept(cfg, m)
  {
    if ms == [] then 0 else |Line(cfg, ms[0])| + Chars(cfg, ms[1..])
  }

  function Pairs(cfg: Config, ms: seq<Message>): seq<(string, string)>
    requires forall m | m in ms :: Kept(cfg, m)
  {
    if ms == [] then [] else assert Kept(cfg, ms[0]); [Excerpt(cfg, ms[0]).value] + Pairs(cfg, ms[1..])
  }

  function Batch(cfg: Config, ms: seq<Message>, after: Option<nat>): (r: seq<Message>)
    ensures forall m | m in r :: Kept(cfg, m)
  {
    var old' := OutsideWindow(cfg, ms);
    Gather(cfg, old'[CutAt(old', after)..], 0)
  }

  function LastId(batch: seq<Message>, after: Option<nat>): Option<nat> {
    if batch == [] then after else Some(batch[|batch| - 1].id)
  }

  /** A batch is all the dialogue of some initial part of what it is taken from, ending at its end. */
  lemma {:induction false} GatherIsPrefix(cfg: Config, rest: seq<Message>, used: nat) returns (n: nat)
    ensures n <= |rest| && Gather(cfg, rest, used) == Dialogue(cfg, rest[..n])
    ensures n == 0 <==> Gather(cfg, rest, used) == []
    ensures n > 0 ==> Gather(cfg, rest, used)[|Gather(cfg, rest, used)| - 1] == rest[n - 1]
  {
    hide Excerpt, Line;
    if rest == [] || (Kept(cfg, rest[0]) && used + |Line(cfg, rest[0])| > cfg.inputChars) {
      n := 0;
    } else {
      var head := if Kept(cfg, rest[0]) then [rest[0]] else [];
      var used' := if Kept(cfg, rest[0]) then used + |Line(cfg, rest[0])| else used;
      var k := GatherIsPrefix(cfg, rest[1..], used');
      assert Gather(cfg, rest, used) == head + Gather(cfg, rest[1..], used');
      n := if Kept(cfg, rest[0]) || k > 0 then k + 1 else 0;
      if n > 0 {
        assert rest[..n][0] == rest[0] && rest[..n][1..] == rest[1..][..k];
        assert Dialogue(cfg, rest[..n]) == head + Dialogue(cfg, rest[1..][..k]);
        assert k > 0 ==> rest[n - 1] == rest[1..][k - 1];
      }
    }
  }

  lemma {:induction false} GatherWithinBudget(cfg: Config, rest: seq<Message>, used: nat)
    requires used <= cfg.inputChars
    ensures used + Chars(cfg, Gather(cfg, rest, used)) <= cfg.inputChars
  {
    hide Excerpt, Line;
    if rest != [] {
      if !Kept(cfg, rest[0]) {
        GatherWithinBudget(cfg, rest[1..], used);
      } else if used + |Line(cfg, rest[0])| <= cfg.inputChars {
        GatherWithinBudget(cfg, rest[1..], used + |Line(cfg, rest[0])|);
        var g := Gather(cfg, rest, used);
        assert g[1..] == Gather(cfg, rest[1..], used + |Line(cfg, rest[0])|);
      }
    }
  }

  /** With room for `want` lines of the greatest length, `want` messages are taken if there are so many. */
  lemma {:induction false} GatherTakesEnough(cfg: Config, rest: seq<Message>, used: nat, want: nat)
    requires used + want * (cfg.msgChars + 4) <= cfg.inputChars
    requires want <= |Dialogue(cfg, rest)|
    ensures |Gather(cfg, rest, used)| >= want
  {
    hide Excerpt, Line;
    if want > 0 {
      if !Kept(cfg, rest[0]) {
        GatherTakesEnough(cfg, rest[1..], used, want);
      } else {
        assert want * (cfg.msgChars + 4) == (want - 1) * (cfg.msgChars + 4) + (cfg.msgChars + 4);
        assert (want - 1) * (cfg.msgChars + 4) >= 0;
        GatherTakesEnough(cfg, rest[1..], used + |Line(cfg, rest[0])|, want - 1);
      }
    }
  }

  // ---- one run ----

  function BuildMessagesText(pairs: seq<(string, string)>): string {
    if pairs == [] then ""
    else if |pairs| == 1 then pairs[0].0 + "：" + pairs[0].1
    else pairs[0].0 + "：" + pairs[0].1 + "\n" + BuildMessagesText(pairs[1..])
  }

  function CoveredBy(row: Option<Row>): Option<nat> {
    if row.Some? then row.value.covered else None
  }

  function CountOf(row: Option<Row>): nat {
    if row.Some? then row.value.count else 0
  }

  /** The run goes as far as storing a batch. */
  predicate Commits(cfg: Config, row: Option<Row>, ms: seq<Message>, digest: Option<Digest>) {
    |Batch(cfg, ms, CoveredBy(row))| >= cfg.threshold && digest.Some?
  }

  function AfterRun(cfg: Config, row: Option<Row>, ms: seq<Message>, digest: Option<Digest>): Option<Row> {
    if !Commits(cfg, row, ms, digest) then row
    else
      var batch := Batch(cfg, ms, CoveredBy(row));
      var d := digest.value;
      Some(Row(if row.Some? && row.value.summary != "" then row.value.summary + ADDENDUM + d.summary else d.summary,
               if ms == [] then None else LastId(batch, CoveredBy(row)),
               CountOf(row) + |batch|,
               d.tokens + if row.Some? then row.value.tokens else 0))
  }

  // ---- whole histories ----

  /** Message ids are unique, and a message outside the recent window keeps its contents for good. */
  ghost predicate Distinct(ms: seq<Message>) {
    forall i, j | 0 <= i < j < |ms| :: ms[i].id != ms[j].id
  }

  ghost predicate Grows(cfg: Config, ms: seq<Message>, ms': seq<Message>) {
    && |ms| <= |ms'|
    && forall i | 0 <= i < |ms| - cfg.preserve :: ms'[i] == ms[i]
  }

  /** One summary task: the messages it sees, and what the summariser makes of them. */
  datatype Visit = Visit(ms: seq<Message>, digest: Option<Digest>)

  ghost predicate History(cfg: Config, before: seq<Message>, visits: seq<Visit>)
    decreases visits
  {
    visits == [] || (Distinct(visits[0].ms) && Grows(cfg, before, visits[0].ms)
                     && History(cfg, visits[0].ms, visits[1..]))
  }

  function AfterVisits(cfg: Config, row: Option<Row>, visits: seq<Visit>): Option<Row>
    decreases visits
  {
    if visits == [] then row else AfterVisits(cfg, AfterRun(cfg, row, visits[0].ms, visits[0].digest), visits[1..])
  }

  /** The batch one run stores, if it stores one. */
  function StoredBy(cfg: Config, row: Option<Row>, v: Visit): seq<Message> {
    if Commits(cfg, row, v.ms, v.digest) then Batch(cfg, v.ms, CoveredBy(row)) else []
  }

  /** The batches stored by the runs, one after the other. */
  function Stored(cfg: Config, row: Option<Row>, visits: seq<Visit>): seq<Message>
    decreases visits
  {
    if visits == [] then []
    else StoredBy(cfg, row, visits[0]) + Stored(cfg, AfterRun(cfg, row, visits[0].ms, visits[0].digest), visits[1..])
  }

  /** `done` is exactly the dialogue among the first `n` messages, and the cursor stands there. */
  ghost predicate Covers(cfg: Config, row: Option<Row>, ms: seq<Message>, done: seq<Message>, n: nat) {
    && (n == 0 || n <= |ms| - cfg.preserve)
    && done == Dialogue(cfg, ms[..n])
    && CountOf(row) == |done|
    && (n == 0 ==> CoveredBy(row).None?)
    && (n > 0 ==> cfg.preserve > 0 && CoveredBy(row) == Some(ms[n - 1].id))
  }

  lemma GrowthKeepsCover(cfg: Config, row: Option<Row>, ms: seq<Message>, ms': seq<Message>, done: seq<Message>, n: nat)
    requires Covers(cfg, row, ms, done, n) && Grows(cfg, ms, ms')
    ensures Covers(cfg, row, ms', done, n)
  {
    assert ms'[..n] == ms[..n];
  }

  lemma RunExtendsCover(cfg: Config, row: Option<Row>, ms: seq<Message>, done: seq<Message>, n: nat) returns (n': nat)
    requires Covers(cfg, row, ms, done, n) && Distinct(ms)
    ensures var batch := Batch(cfg, ms, CoveredBy(row));
      && n <= n' && (n' == 0 || n' <= |ms| - cfg.preserve)
      && done + batch == Dialogue(cfg, ms[..n'])
      && (n' == 0 ==> batch == [])
      && LastId(batch, CoveredBy(row)) == (if n' == 0 then None else Some(ms[n' - 1].id))
      && (n' > 0 ==> cfg.preserve > 0)
  {
    hide Excerpt, Line, Gather, Dialogue;
    var out := OutsideWindow(cfg, ms);
    var cut := CutAt(out, CoveredBy(row));
    assert cut == n by {
      if n > 0 {
        assert out[n - 1] == ms[n - 1];
        assert out[cut - 1] == ms[cut - 1];
      }
    }
    var k := GatherIsPrefix(cfg, out[cut..], 0);
    n' := n + k;
    DialogueConcat(cfg, ms[..n], out[cut..][..k]);
    if k > 0 {
      assert ms[..n] + out[cut..][..k] == ms[..n'];
    } else {
      assert out[cut..][..k] == [];
    }
  }

  lemma RunKeepsCover(cfg: Config, row: Option<Row>, v: Visit, done: seq<Message>, n: nat) returns (n': nat)
    requires Covers(cfg, row, v.ms, done, n) && Distinct(v.ms)
    ensures Covers(cfg, AfterRun(cfg, row, v.ms, v.digest), v.ms, done + StoredBy(cfg, row, v), n')
  {
    if Commits(cfg, row, v.ms, v.digest) {
      n' := RunExtendsCover(cfg, row, v.ms, done, n);
    } else {
      n' := n;
      assert done + [] == done;
    }
  }

  lemma {:induction false} VisitsCover(cfg: Config, row: Option<Row>, ms: seq<Message>, done: seq<Message>, n: nat, visits: seq<Visit>)
    returns (n': nat)
    requires Covers(cfg, row, ms, done, n) && History(cfg, ms, visits)
    ensures var last := if visits == [] then ms else visits[|visits| - 1].ms;
      Covers(cfg, AfterVisits(cfg, row, visits), last, done + Stored(cfg, row, visits), n')
    decreases visits
  {
    hide Covers, AfterRun, StoredBy;
    if visits == [] {
      n' := n;
      assert done + [] == done;
    } else {
      var v := visits[0];
      var row' := AfterRun(cfg, row, v.ms, v.digest);
      GrowthKeepsCover(cfg, row, ms, v.ms, done, n);
      var m := RunKeepsCover(cfg, row, v, done, n);
      n' := VisitsCover(cfg, row', v.ms, done + StoredBy(cfg, row, v), m, visits[1..]);
      assert done + StoredBy(cfg, row, v) + Stored(cfg, row', visits[1..]) == done + Stored(cfg, row, visits);
    }
  }

  /**
   Over any growing history and any sequence of runs, whether or not the summariser works, the stored
   batches concatenate to exactly the dialogue of an initial part of the conversation: each message
   once, in order, none skipped, none of the `preserve` newest; and `covered_count` counts them.
   */
  lemma CoveredExactlyOnce(cfg: Config, visits: seq<Visit>) returns (n: nat)
    requires visits != [] && History(cfg, [], visits)
    ensures var ms := visits[|visits| - 1].ms;
      && (n == 0 || n <= |ms| - cfg.preserve)
      && Stored(cfg, None, visits) == Dialogue(cfg, ms[..n])
      && CountOf(AfterVisits(cfg, None, visits)) == |Stored(cfg, None, visits)|
  {
    n := VisitsCover(cfg, None, [], [], 0, visits);
    assert [] + Stored(cfg, None, visits) == Stored(cfg, None, visits);
  }

  // ---- what is stored of the digests ----

  /** The digests of the runs that stored their batch, in order. */
  function Digests(cfg: Config, row: Option<Row>, visits: seq<Visit>): seq<Digest>
    decreases visits
  {
    if visits == [] then []
    else
      (if Commits(cfg, row, visits[0].ms, visits[0].digest) then [visits[0].digest.value] else [])
      + Digests(cfg, AfterRun(cfg, row, visits[0].ms, visits[0].digest), visits[1..])
  }

  /** The texts joined by the addendum; empty ones before the first text count as nothing. */
  function Merged(ds: seq<Digest>): string {
    if ds == [] then ""
    else if ds[0].summary == "" then Merged(ds[1..])
    else Text.Join(Summaries(ds), ADDENDUM)
  }

  function Summaries(ds: seq<Digest>): (r: seq<string>)
    ensures |r| == |ds|
    ensures forall i | 0 <= i < |ds| :: r[i] == ds[i].summary
  {
    seq(|ds|, i requires 0 <= i < |ds| => ds[i].summary)
  }

  function TotalTokens(ds: seq<Digest>): nat {
    if ds == [] then 0 else ds[0].tokens + TotalTokens(ds[1..])
  }

  /** The row holds what these digests come to. */
  predicate Holds(row: Option<Row>, ds: seq<Digest>) {
    && (row.None? <==> ds == [])
    && (row.Some? ==> row.value.summary == Merged(ds) && row.value.tokens == TotalTokens(ds))
  }

  lemma {:induction false} MergedSnoc(ds: seq<Digest>, d: Digest)
    ensures Merged(ds + [d]) == if Merged(ds) != "" then Merged(ds) + ADDENDUM + d.summary else d.summary
    ensures Merged(ds) == "" <==> forall i | 0 <= i < |ds| :: ds[i].summary == ""
    ensures TotalTokens(ds + [d]) == TotalTokens(ds) + d.tokens
  {
    if ds == [] {
      assert ds + [d] == [d] && [d][1..] == [];
      assert Summaries([d]) == [d.summary];
    } else {
      assert (ds + [d])[1..] == ds[1..] + [d];
      MergedSnoc(ds[1..], d);
      if ds[0].summary != "" {
        Text.JoinSnoc(Summaries(ds), d.summary, ADDENDUM);
        assert Summaries(ds + [d]) == Summaries(ds) + [d.summary];
        JoinNotEmpty(Summaries(ds));
      }
    }
  }

  lemma JoinNotEmpty(cs: seq<string>)
    requires cs != [] && cs[0] != ""
    ensures Text.Join(cs, ADDENDUM) != ""
  {
    if |cs| > 1 {
      assert Text.Join(cs, ADDENDUM) == cs[0] + ADDENDUM + Text.Join(cs[1..], ADDENDUM);
    }
  }

  lemma RunHolds(cfg: Config, row: Option<Row>, ds: seq<Digest>, ms: seq<Message>, digest: Option<Digest>)
    requires Holds(row, ds)
    ensures Holds(AfterRun(cfg, row, ms, digest), if Commits(cfg, row, ms, digest) then ds + [digest.value] else ds)
  {
    hide Batch, Merged, TotalTokens;
    if Commits(cfg, row, ms, digest) {
      MergedSnoc(ds, digest.value);
      NoDigests();
    }
  }

  lemma NoDigests()
    ensures Merged([]) == "" && TotalTokens([]) == 0
  {
  }

  lemma {:induction false} VisitsHold(cfg: Config, row: Option<Row>, ds: seq<Digest>, visits: seq<Visit>)
    requires Holds(row, ds)
    ensures Holds(AfterVisits(cfg, row, visits), ds + Digests(cfg, row, visits))
    decreases visits
  {
    hide Holds, Commits, AfterRun;
    if visits == [] {
      assert ds + [] == ds;
    } else {
      var v := visits[0];
      var row' := AfterRun(cfg, row, v.ms, v.digest);
      RunHolds(cfg, row, ds, v.ms, v.digest);
      DigestIsThere(cfg, row, v.ms, v.digest);
      var here := if Commits(cfg, row, v.ms, v.digest) then [v.digest.value] else [];
      assert ds + [] == ds;
      VisitsHold(cfg, row', ds + here, visits[1..]);
      assert ds + here + Digests(cfg, row', visits[1..]) == ds + (here + Digests(cfg, row', visits[1..]));
    }
  }

  lemma DigestIsThere(cfg: Config, row: Option<Row>, ms: seq<Message>, digest: Option<Digest>)
    ensures Commits(cfg, row, ms, digest) ==> digest.Some?
  {
    hide Batch;
  }

  /**
   Over any runs the stored summary is the digests of the runs that stored a batch, in order and joined by
   the addendum, and the token estimate is their sum: no digest is dropped, replaced or counted twice.
   */
  lemma NoDigestLost(cfg: Config, visits: seq<Visit>)
    ensures var ds := Digests(cfg, None, visits); var row := AfterVisits(cfg, None, visits);
      && (row.None? <==> ds == [])
      && (row.Some? ==> row.value.summary == Merged(ds) && row.value.tokens == TotalTokens(ds))
  {
    hide Merged, TotalTokens;
    assert Holds(None, []);
    VisitsHold(cfg, None, [], visits);
    assert [] + Digests(cfg, None, visits) == Digests(cfg, None, visits);
  }

  // ---- the text fed ----

  /** The text one run gives to the summariser. */
  function Fed(cfg: Config, row: Option<Row>, ms: seq<Message>): string {
    BuildMessagesText(Pairs(cfg, Batch(cfg, ms, CoveredBy(row))))
  }

  function LineBreaks(lines: nat): nat {
    if lines == 0 then 0 else lines - 1
  }

  lemma {:induction false} TextLength(cfg: Config, ms: seq<Message>)
    requires forall m | m in ms :: Kept(cfg, m)
    ensures |BuildMessagesText(Pairs(cfg, ms))| == Chars(cfg, ms) + LineBreaks(|ms|)
  {
    hide Excerpt;
    PairsLength(cfg, ms);
    if |ms| > 1 {
      assert Pairs(cfg, ms)[1..] == Pairs(cfg, ms[1..]);
      TextLength(cfg, ms[1..]);
    }
  }

  /** The budget counts the characters of the lines but not the breaks between them. */
  ghost predicate FedWithinBudget(cfg: Config) {
    forall row, ms | Distinct(ms) && |Batch(cfg, ms, CoveredBy(row))| >= cfg.threshold ::
      |Fed(cfg, row, ms)| <= cfg.inputChars
  }

  /** So many of the shortest lines fit that, made longer, they fill the budget up to the breaks between them. */
  predicate RoomToOverrun(cfg: Config) {
    var most := cfg.inputChars / 4;
    && cfg.preserve > 0 && most >= 2 && most >= cfg.threshold
    && cfg.inputChars + 2 <= most * (cfg.msgChars + 5)
  }

  lemma LineLength(cfg: Config, m: Message)
    requires Kept(cfg, m)
    ensures 4 <= |Line(cfg, m)| <= cfg.msgChars + 4
  {
    var e := Excerpt(cfg, m).value;
    assert Line(cfg, m) == e.0 + "：" + e.1;
    hide Excerpt;
  }

  lemma {:induction false} LineLengths(cfg: Config, ms: seq<Message>)
    requires forall m | m in ms :: Kept(cfg, m)
    ensures 4 * |ms| <= Chars(cfg, ms) <= |ms| * (cfg.msgChars + 4)
  {
    hide Excerpt, Line, Kept;
    if ms != [] {
      LineLengths(cfg, ms[1..]);
      LineLength(cfg, ms[0]);
      OneMore(|ms[1..]|, cfg.msgChars + 4);
    }
  }

  lemma OneMore(n: nat, each: nat)
    ensures (n + 1) * each == n * each + each
  {
  }

  lemma OverrunHasRoom(cfg: Config, row: Option<Row>, ms: seq<Message>)
    requires |Batch(cfg, ms, CoveredBy(row))| >= cfg.threshold && |Fed(cfg, row, ms)| > cfg.inputChars
    ensures RoomToOverrun(cfg)
  {
    hide Pairs, Chars, BuildMessagesText, Kept, Gather, OutsideWindow, CutAt, Excerpt, Line;
    var batch := Batch(cfg, ms, CoveredBy(row));
    hide Batch;
    TextLength(cfg, batch);
    LineLengths(cfg, batch);
    BatchWithinBudget(cfg, ms, CoveredBy(row));
    MostLines(|batch|, Chars(cfg, batch), cfg.msgChars, cfg.inputChars);
  }

  lemma BatchWithinBudget(cfg: Config, ms: seq<Message>, after: Option<nat>)
    ensures Chars(cfg, Batch(cfg, ms, after)) <= cfg.inputChars
    ensures Batch(cfg, ms, after) != [] ==> cfg.preserve > 0
  {
    var out := OutsideWindow(cfg, ms);
    hide Kept, Line, Chars;
    GatherWithinBudget(cfg, out[CutAt(out, after)..], 0);
  }

  lemma MostLines(n: nat, total: nat, msgChars: nat, inputChars: nat)
    requires 4 * n <= total <= n * (msgChars + 4) && total <= inputChars < total + LineBreaks(n)
    ensures 2 <= n <= inputChars / 4 && inputChars + 2 <= inputChars / 4 * (msgChars + 5)
  {
    var most := inputChars / 4;
    var each := msgChars + 5;
    assert n * (msgChars + 4) + n == n * each;
    assert most * each == n * each + (most - n) * each && (most - n) * each >= 0;
  }

  function Plain(id: nat, length: nat): Message {
    Message(id, User, false, seq(length, _ => 'x'), false)
  }

  lemma PlainLine(cfg: Config, id: nat, length: nat)
    requires 1 <= length <= cfg.msgChars + 1
    ensures Kept(cfg, Plain(id, length)) && |Line(cfg, Plain(id, length))| == length + 3
  {
    var m := Plain(id, length);
    assert !Text.IsBlank('x');
    Text.StripFixed(m.text);
    assert Text.Strip(m.text) == m.text;
    hide Text.Strip, Text.IsBlank;
  }

  /** `k` messages whose lines have `total` characters together. */
  lemma {:induction false} LinesOf(cfg: Config, k: nat, total: nat) returns (ms: seq<Message>)
    requires 4 * k <= total <= k * (cfg.msgChars + 4)
    ensures |ms| == k && (forall i | 0 <= i < k :: ms[i].id == k - i)
    ensures (forall m | m in ms :: Kept(cfg, m)) && Chars(cfg, ms) == total
  {
    hide Excerpt, Line;
    if k == 0 {
      ms := [];
    } else {
      assert k * (cfg.msgChars + 4) == (k - 1) * (cfg.msgChars + 4) + (cfg.msgChars + 4);
      assert (k - 1) * (cfg.msgChars + 4) >= 4 * (k - 1);
      var length := Min(cfg.msgChars + 4, total - 4 * (k - 1));
      var rest := LinesOf(cfg, k - 1, total - length);
      PlainLine(cfg, k, length - 3);
      ms := [Plain(k, length - 3)] + rest;
      assert ms[1..] == rest;
    }
  }

  lemma {:induction false} GatherAll(cfg: Config, ms: seq<Message>, used: nat)
    requires (forall m | m in ms :: Kept(cfg, m)) && used + Chars(cfg, ms) <= cfg.inputChars
    ensures Gather(cfg, ms, used) == ms
  {
    hide Excerpt, Line;
    if ms != [] {
      GatherAll(cfg, ms[1..], used + |Line(cfg, ms[0])|);
    }
  }

  lemma RoomOverruns(cfg: Config)
    requires RoomToOverrun(cfg)
    ensures !FedWithinBudget(cfg)
  {
    hide Kept, Line, Chars, Gather, Pairs, BuildMessagesText, Batch;
    var k := cfg.inputChars / 4;
    var total := LongestTotal(k, cfg.msgChars, cfg.inputChars);
    var batch := LinesOf(cfg, k, total);
    var ms := WithNewest(cfg, batch);
    GatherAll(cfg, batch, 0);
    TextLength(cfg, batch);
    WholeBatch(cfg, ms, batch);
    assert |Fed(cfg, None, ms)| > cfg.inputChars;
  }

  lemma LongestTotal(k: nat, msgChars: nat, inputChars: nat) returns (total: nat)
    requires k >= 2 && 4 * k <= inputChars && inputChars + 2 <= k * (msgChars + 5)
    ensures 4 * k <= total <= k * (msgChars + 4) && total <= inputChars < total + k - 1
  {
    var each := msgChars + 4;
    assert k * (msgChars + 5) == k * each + k;
    assert k * each == k * msgChars + 4 * k && k * msgChars >= 0;
    total := Min(inputChars, k * each);
  }

  /** The recent window after the batch. */
  lemma WithNewest(cfg: Config, batch: seq<Message>) returns (ms: seq<Message>)
    requires forall i | 0 <= i < |batch| :: batch[i].id == |batch| - i
    ensures |ms| == |batch| + cfg.preserve && ms[..|batch|] == batch && Distinct(ms)
  {
    var newest := seq(cfg.preserve, i requires 0 <= i => Plain(|batch| + 1 + i, 1));
    assert forall i | 0 <= i < |newest| :: newest[i] == Plain(|batch| + 1 + i, 1);
    ms := batch + newest;
    forall i | 0 <= i < |ms| ensures ms[i].id == if i < |batch| then |batch| - i else i + 1 {
      assert i >= |batch| ==> ms[i] == newest[i - |batch|];
    }
  }

  lemma WholeBatch(cfg: Config, ms: seq<Message>, batch: seq<Message>)
    requires cfg.preserve > 0 && |ms| == |batch| + cfg.preserve && ms[..|batch|] == batch
    requires (forall m | m in batch :: Kept(cfg, m)) && Gather(cfg, batch, 0) == batch
    ensures Batch(cfg, ms, CoveredBy(None)) == batch
  {
    assert batch[0..] == batch;
    hide Gather, Excerpt;
    assert |batch| > 0 || OutsideWindow(cfg, ms) == batch;
  }

  /** Two lines fit a budget of 10 characters to the last one, and are fed as a text of 11. */
  lemma TwoLinesOverrun()
    ensures var cfg := Config(1, 10, 1, 2); var ms := [Plain(1, 2), Plain(2, 2), Plain(3, 2)];
      Batch(cfg, ms, None) == ms[..2] && |Fed(cfg, None, ms)| == 11
  {
    hide Plain, Kept, Line, Gather, Pairs, Batch, BuildMessagesText;
    var cfg := Config(1, 10, 1, 2);
    var ms := [Plain(1, 2), Plain(2, 2), Plain(3, 2)];
    var batch := [Plain(1, 2), Plain(2, 2)];
    PlainLine(cfg, 1, 2);
    PlainLine(cfg, 2, 2);
    assert ms[..2] == batch && batch[1..] == [Plain(2, 2)] && batch[1..][1..] == [];
    assert Chars(cfg, batch[1..]) == 5 && Chars(cfg, batch) == 10;
    GatherAll(cfg, batch, 0);
    WholeBatch(cfg, ms, batch);
    TextLength(cfg, batch);
  }

  /** Exactly which settings keep every text fed within `inputChars`. */
  lemma FedWithinBudgetIff(cfg: Config)
    ensures FedWithinBudget(cfg) <==> !RoomToOverrun(cfg)
  {
    if RoomToOverrun(cfg) {
      RoomOverruns(cfg);
    } else {
      hide Batch, Fed, RoomToOverrun;
      forall row, ms | Distinct(ms) && |Batch(cfg, ms, CoveredBy(row))| >= cfg.threshold
        ensures |Fed(cfg, row, ms)| <= cfg.inputChars
      {
        if |Fed(cfg, row, ms)| > cfg.inputChars {
          OverrunHasRoom(cfg, row, ms);
        }
      }
    }
  }

  // ---- progress ----

  /** The dialogue past the first `n` messages and outside the `preserve` newest. */
  function Waiting(cfg: Config, ms: seq<Message>, n: nat): seq<Message>
    requires n == 0 || n <= |ms| - cfg.preserve
  {
    if |ms| <= cfg.preserve then [] else Dialogue(cfg, ms[..|ms| - cfg.preserve][n..])
  }

  predicate RoomForThreshold(cfg: Config) {
    cfg.threshold * (cfg.msgChars + 4) <= cfg.inputChars
  }

  /**
   With a non-empty recent window, room for `threshold` lines, and `threshold` messages waiting, one
   run with a working summariser covers at least `threshold` more. Its lines have at most `inputChars`
   characters together; the text it feeds has the line breaks between them as well.
   */
  lemma RunMakesProgress(cfg: Config, row: Option<Row>, ms: seq<Message>, done: seq<Message>, n: nat, d: Digest)
    requires Covers(cfg, row, ms, done, n) && Distinct(ms) && cfg.preserve > 0
    requires RoomForThreshold(cfg) && |Waiting(cfg, ms, n)| >= cfg.threshold
    ensures CountOf(AfterRun(cfg, row, ms, Some(d))) >= CountOf(row) + cfg.threshold
    ensures var batch := Batch(cfg, ms, CoveredBy(row));
      && Chars(cfg, batch) <= cfg.inputChars
      && |Fed(cfg, row, ms)| == Chars(cfg, batch) + LineBreaks(|batch|)
  {
    TextLength(cfg, Batch(cfg, ms, CoveredBy(row)));
    var out := OutsideWindow(cfg, ms);
    var cut := CutAt(out, CoveredBy(row));
    assert cut == n by {
      if n > 0 {
        assert out[n - 1] == ms[n - 1];
        assert out[cut - 1] == ms[cut - 1];
      }
    }
    if |ms| > cfg.preserve {
      assert Waiting(cfg, ms, n) == Dialogue(cfg, out[cut..]);
    }
    GatherTakesEnough(cfg, out[cut..], 0, cfg.threshold);
    GatherWithinBudget(cfg, out[cut..], 0);
  }

  /** Every run makes progress that has `threshold` messages waiting. */
  ghost predicate AlwaysProgresses(cfg: Config) {
    forall row, ms, done, n: nat, d ::
      Covers(cfg, row, ms, done, n) && Distinct(ms) && |Waiting(cfg, ms, n)| >= cfg.threshold ==>
        CountOf(AfterRun(cfg, row, ms, Some(d))) >= CountOf(row) + cfg.threshold
  }

  function Chat(n: nat): (ms: seq<Message>)
    ensures |ms| == n && Distinct(ms)
  {
    seq(n, i requires 0 <= i < n => Message(i, User, false, "hello", false))
  }

  lemma {:induction false} AllDialogue(cfg: Config, ms: seq<Message>)
    requires forall m | m in ms :: Kept(cfg, m)
    ensures Dialogue(cfg, ms) == ms
  {
    if ms != [] {
      AllDialogue(cfg, ms[1..]);
    }
  }

  lemma PlainIsKept(cfg: Config, m: Message)
    requires m.role.User? && !m.failed && m.text != "" && Text.Strip(m.text) == m.text
    ensures Kept(cfg, m)
  {
  }

  lemma ChatIsDialogue(cfg: Config, n: nat)
    ensures Dialogue(cfg, Chat(n)) == Chat(n)
  {
    Text.StripFixed("hello");
    hide Excerpt, Text.Strip, Text.IsBlank, Dialogue;
    forall m | m in Chat(n) ensures Kept(cfg, m) {
      assert m.text == "hello";
      PlainIsKept(cfg, m);
    }
    AllDialogue(cfg, Chat(n));
  }

  lemma ChatWaits(cfg: Config, d: Digest)
    requires cfg.preserve == 0 && cfg.threshold > 0
    ensures var ms := Chat(cfg.threshold);
      && Covers(cfg, None, ms, [], 0) && |Waiting(cfg, ms, 0)| == cfg.threshold
      && CountOf(AfterRun(cfg, None, ms, Some(d))) == 0
  {
    var ms := Chat(cfg.threshold);
    ChatIsDialogue(cfg, cfg.threshold);
    assert ms[..|ms|][0..] == ms;
    assert OutsideWindow(cfg, ms) == [];
  }

  /** With `preserve` 0 no run over any messages stores a batch, and with a positive threshold none changes the row. */
  lemma {:induction false} NothingWithoutWindow(cfg: Config, row: Option<Row>, visits: seq<Visit>)
    requires cfg.preserve == 0
    ensures Stored(cfg, row, visits) == []
    ensures cfg.threshold > 0 ==> AfterVisits(cfg, row, visits) == row
    decreases visits
  {
    if visits != [] {
      var v := visits[0];
      assert OutsideWindow(cfg, v.ms) == [] && Batch(cfg, v.ms, CoveredBy(row)) == [];
      hide Batch;
      NothingWithoutWindow(cfg, AfterRun(cfg, row, v.ms, v.digest), visits[1..]);
    }
  }

  /**
   The progress promise needs the recent window: with room for a positive threshold, progress is
   guaranteed exactly when `preserve` is not 0.
   */
  lemma ProgressIff(cfg: Config)
    requires RoomForThreshold(cfg) && cfg.threshold > 0
    ensures AlwaysProgresses(cfg) <==> cfg.preserve > 0
  {
    if cfg.preserve > 0 {
      forall row, ms, done, n: nat, d
        | Covers(cfg, row, ms, done, n) && Distinct(ms) && |Waiting(cfg, ms, n)| >= cfg.threshold
        ensures CountOf(AfterRun(cfg, row, ms, Some(d))) >= CountOf(row) + cfg.threshold
      {
        RunMakesProgress(cfg, row, ms, done, n, d);
      }
    } else {
      hide Covers, Waiting, AfterRun;
      ChatWaits(cfg, Digest("", 0));
    }
  }

  // ---- the methods ----

  /** The search for the cursor. */
  method DropCovered(ms: seq<Message>, after: nat) returns (rest: seq<Message>)
    ensures rest == ms[CutAt(ms, Some(after))..]
  {
    var cut := 0;
    var i := 0;
    while i < |ms|
      invariant i <= |ms| && cut == 0
      invariant forall k | 0 <= k < i :: ms[k].id != after
    {
      if ms[i].id == after {
        cut := i + 1;
        break;
      }
      i := i + 1;
    }
    rest := ms[cut..];
  }

  /** The accumulation of a transcript within the input budget. */
  method TakeWithinBudget(cfg: Config, ms: seq<Message>, after: Option<nat>)
    returns (transcript: seq<(string, string)>, lastId: Option<nat>)
    ensures transcript == Pairs(cfg, Gather(cfg, ms, 0)) && lastId == LastId(Gather(cfg, ms, 0), after)
  {
    hide Excerpt;
    transcript, lastId := [], after;
    var totalChars := 0;
    ghost var taken: seq<Message> := [];
    var j := 0;
    while j < |ms|
      invariant j <= |ms| && totalChars >= 0
      invariant forall m | m in taken :: Kept(cfg, m)
      invariant taken + Gather(cfg, ms[j..], totalChars) == Gather(cfg, ms, 0)
      invariant transcript == Pairs(cfg, taken) && lastId == LastId(taken, after)
    {
      var msg := ms[j];
      assert ms[j..][0] == msg && ms[j..][1..] == ms[j + 1..];
      j := j + 1;
      var pair := Excerpt(cfg, msg);
      if pair.None? {
        continue;
      }
      var line := pair.value.0 + "：" + pair.value.1;
      if totalChars + |line| > cfg.inputChars {
        assert taken + [] == taken;
        return;
      }
      assert taken + ([msg] + Gather(cfg, ms[j..], totalChars + |line|))
             == taken + [msg] + Gather(cfg, ms[j..], totalChars + |line|);
      PairsSnoc(cfg, taken, msg);
      transcript := transcript + [pair.value];
      totalChars := totalChars + |line|;
      taken := taken + [msg];
      lastId := Some(msg.id);
    }
    assert ms[j..] == [];
    assert taken + [] == taken;
  }

  lemma {:induction false} PairsSnoc(cfg: Config, ms: seq<Message>, m: Message)
    requires Kept(cfg, m) && forall k | k in ms :: Kept(cfg, k)
    ensures Pairs(cfg, ms + [m]) == Pairs(cfg, ms) + [Excerpt(cfg, m).value]
  {
    hide Excerpt;
    if ms != [] {
      PairsSnoc(cfg, ms[1..], m);
      assert (ms + [m])[1..] == ms[1..] + [m];
    }
  }

  lemma EmptyBatch(cfg: Config, after: Option<nat>)
    ensures Batch(cfg, [], after) == []
  {
  }

  method LoadTranscript(cfg: Config, ms: seq<Message>, after: Option<nat>)
    returns (transcript: seq<(string, string)>, lastId: Option<nat>, count: nat)
    ensures var batch := Batch(cfg, ms, after);
      && transcript == Pairs(cfg, batch) && count == |batch|
      && lastId == if ms == [] then None else LastId(batch, after)
  {
    if |ms| == 0 {
      return [], None, 0;
    }
    var toSummarise := if |ms| > cfg.preserve && cfg.preserve > 0 then ms[..|ms| - cfg.preserve] else [];
    if after.Some? {
      toSummarise := DropCovered(toSummarise, after.value);
    }
    transcript, lastId := TakeWithinBudget(cfg, toSummarise, after);
    count := |transcript|;
    PairsLength(cfg, Batch(cfg, ms, after));
  }

  lemma {:induction false} PairsLength(cfg: Config, ms: seq<Message>)
    requires forall k | k in ms :: Kept(cfg, k)
    ensures |Pairs(cfg, ms)| == |ms|
  {
    hide Excerpt;
    if ms != [] {
      PairsLength(cfg, ms[1..]);
    }
  }

  /** The stored row of one conversation, as `handle_conversation_summary` updates it. */
  class SummaryStore {
    const cfg: Config
    var row: Option<Row>

    constructor (cfg: Config)
      ensures this.cfg == cfg && row == None
    {
      this.cfg := cfg;
      row := None;
    }

    /** `summarise` stands for the language model: any function of the text, or a failure. */
    method HandleConversationSummary(ms: seq<Message>, summarise: string -> Option<Digest>)
      modifies this
      ensures var text := BuildMessagesText(Pairs(cfg, Batch(cfg, ms, CoveredBy(old(row)))));
        row == AfterRun(cfg, old(row), ms, summarise(text))
    {
      hide Batch, Pairs, BuildMessagesText;
      if ms == [] { EmptyBatch(cfg, CoveredBy(row)); }
      var after := if row.Some? then row.value.covered else None;
      var transcript, lastId, count := LoadTranscript(cfg, ms, after);
      if count < cfg.threshold {
        return;
      }
      var result := summarise(BuildMessagesText(transcript));
      if result.None? {
        return;
      }
      if row.Some? {
        var merged := if row.value.summary != "" then row.value.summary + ADDENDUM + result.value.summary
                      else result.value.summary;
        row := Some(row.value.(summary := merged, covered := lastId, count := row.value.count + count,
                               tokens := result.value.tokens + row.value.tokens));
      } else {
        row := Some(Row(result.value.summary, lastId, count, result.value.tokens));
      }
    }
  }
}
