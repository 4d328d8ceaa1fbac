/** The versioned file store of one conversation, with contents kept inline in the database. */
module FileStore {
  import opened Prelude
  import opened Text
  import Paths

  const RETAINED := 10

  /** A file row; its identity is its position in the table. `createdBy` is absent for a user's upload. */
  datatype Row = Row(name: string, content: string, createdBy: Option<string>, version: nat)

  datatype Snapshot = Snapshot(file: nat, num: nat, content: string, author: Option<string>)

  datatype Store = Store(rows: seq<Row>, snaps: set<Snapshot>)

  /** The row a call answers with, or the error of a lookup that finds several rows. */
  datatype Result = Saved(file: nat) | MultipleResults

  // ---- lookup by name ----

  datatype Found = Absent | One(at: nat) | Many

  function Lookup(rows: seq<Row>, name: string): (r: Found)
    ensures r.Absent? <==> forall i :: 0 <= i < |rows| ==> rows[i].name != name
    ensures r.One? ==> r.at < |rows| && rows[r.at].name == name
    ensures r.One? ==> forall i :: 0 <= i < |rows| && i != r.at ==> rows[i].name != name
    ensures r.Many? ==> exists i, j :: 0 <= i < j < |rows| && rows[i].name == name && rows[j].name == name
  {
    if rows == [] then Absent
    else
      var front := rows[..|rows| - 1];
      var earlier := Lookup(front, name);
      if rows[|rows| - 1].name != name then
        assert forall i :: 0 <= i < |front| ==> rows[i] == front[i];
        earlier
      else
        assert rows[|rows| - 1].name == name;
        match earlier
        case Absent => One(|rows| - 1)
        case One(i) => assert rows[i] == front[i]; Many
        case Many => Many
  }

  // ---- the name of an edited copy ----

  function LastDot(name: string): (r: Option<nat>)
    ensures r.Some? ==> r.value < |name| && name[r.value] == '.'
  {
    if name == "" then None
    else if name[|name| - 1] == '.' then Some(|name| - 1)
    else LastDot(name[..|name| - 1])
  }

  function EditedName(name: string): (r: string)
    ensures r != name
  {
    match LastDot(name)
    case None => name + "_edited"
    case Some(i) => name[..i] + "_edited" + name[i..]
  }

  // ---- one call ----

  function Newer(snaps: set<Snapshot>, file: nat, num: nat): set<nat> {
    set x | x in snaps && x.file == file && x.num > num :: x.num
  }

  /** The committed snapshots of a file beyond its ten newest. */
  function Outdated(snaps: set<Snapshot>, file: nat): set<Snapshot> {
    set x | x in snaps && x.file == file && |Newer(snaps, file, x.num)| >= RETAINED
  }

  /** A new version of the row at `i`; the replaced content is kept unless it was empty. */
  function Updated(s: Store, i: nat, content: string, agent: Option<string>): Store
    requires i < |s.rows|
  {
    var row := s.rows[i];
    var snaps :=
      if row.content == "" then s.snaps
      else s.snaps - Outdated(s.snaps, i) + {Snapshot(i, row.version, row.content, agent)};
    Store(s.rows[i := row.(content := content, version := row.version + 1)], snaps)
  }

  function Added(s: Store, name: string, content: string, agent: Option<string>): Store {
    s.(rows := s.rows + [Row(name, content, agent, 1)])
  }

  /** A user's upload that an agent writes. */
  predicate Protected(row: Row, agent: Option<string>) {
    row.createdBy.None? && agent.Some?
  }

  function Save(s: Store, name: string, content: string, agent: Option<string>): (Store, Result) {
    match Lookup(s.rows, name)
    case Many => (s, MultipleResults)
    case Absent => (Added(s, name, if Strip(content) == "" then "" else content, agent), Saved(|s.rows|))
    case One(i) =>
      var row := s.rows[i];
      if Strip(content) == "" then (s, Saved(i))
      else if Strip(row.content) == Strip(content) then (s, Saved(i))
      else if Protected(row, agent) then (Added(s, EditedName(name), content, agent), Saved(|s.rows|))
      else (Updated(s, i, content, agent), Saved(i))
  }

  // ---- what one call may change ----

  /** An agent's write leaves every user-uploaded row as it is. */
  lemma AgentSparesUploads(s: Store, name: string, content: string, agent: Option<string>, i: nat)
    requires agent.Some? && i < |s.rows| && s.rows[i].createdBy.None?
    ensures i < |Save(s, name, content, agent).0.rows| && Save(s, name, content, agent).0.rows[i] == s.rows[i]
  {
    hide Lookup, Strip, EditedName, Outdated;
  }

  /** Which write makes a new version of the row at `i`. */
  predicate Replaces(s: Store, name: string, content: string, agent: Option<string>, i: nat) {
    && Lookup(s.rows, name) == One(i)
    && i < |s.rows|
    && Strip(content) != ""
    && Strip(s.rows[i].content) != Strip(content)
    && !Protected(s.rows[i], agent)
  }

  /** Which write makes an edited copy. */
  predicate Copies(s: Store, name: string, content: string, agent: Option<string>) {
    && Lookup(s.rows, name).One?
    && Strip(content) != ""
    && Strip(s.rows[Lookup(s.rows, name).at].content) != Strip(content)
    && Protected(s.rows[Lookup(s.rows, name).at], agent)
  }

  // ---- what a call answers, from the names and contents of the rows ----

  ghost predicate Taken(rows: seq<Row>, name: string) {
    exists i :: 0 <= i < |rows| && rows[i].name == name
  }

  ghost predicate OnlyOne(rows: seq<Row>, name: string, i: nat) {
    i < |rows| && rows[i].name == name && forall j :: 0 <= j < |rows| && j != i ==> rows[j].name != name
  }

  ghost predicate Ambiguous(rows: seq<Row>, name: string) {
    exists i, j :: 0 <= i < j < |rows| && rows[i].name == name && rows[j].name == name
  }

  /** The call fails exactly if several rows have the name, and then changes nothing. */
  lemma FailsIffAmbiguous(s: Store, name: string, content: string, agent: Option<string>)
    ensures Save(s, name, content, agent).1.MultipleResults? <==> Ambiguous(s.rows, name)
    ensures Ambiguous(s.rows, name) ==> Save(s, name, content, agent).0 == s
  {
    hide Strip, EditedName, Outdated;
  }

  /** A name no row has: exactly one row is added, with that name, at version 1, and answered. */
  lemma NewNameIsAdded(s: Store, name: string, content: string, agent: Option<string>)
    requires !Taken(s.rows, name)
    ensures var (s', r) := Save(s, name, content, agent);
      && s'.rows == s.rows + [Row(name, if AllBlank(content) then "" else content, agent, 1)]
      && r == Saved(|s.rows|) && s'.snaps == s.snaps
  {
    StripBlank(content);
    hide Strip, EditedName, Outdated, AllBlank;
    assert Lookup(s.rows, name).Absent?;
  }

  /**
   The only row of its name: a blank or unchanged content answers it as it is; an agent's change of an
   upload adds and answers a copy; any other change makes the next version of it, and answers it.
   */
  lemma OnlyRowIsAnswered(s: Store, name: string, content: string, agent: Option<string>, i: nat)
    requires OnlyOne(s.rows, name, i)
    ensures var (s', r) := Save(s, name, content, agent); var row := s.rows[i];
      if AllBlank(content) || Strip(row.content) == Strip(content) then s' == s && r == Saved(i)
      else if row.createdBy.None? && agent.Some? then
        s' == s.(rows := s.rows + [Row(EditedName(name), content, agent, 1)]) && r == Saved(|s.rows|)
      else s'.rows == s.rows[i := Row(name, content, row.createdBy, row.version + 1)] && r == Saved(i)
  {
    StripBlank(content);
    hide Strip, EditedName, Outdated, AllBlank;
    assert Lookup(s.rows, name) == One(i);
  }

  /**
   The snapshots: a new version of a row that was not empty adds one, of what the row held and by the
   agent who replaced it, and takes away exactly those with ten newer ones; nothing else touches them.
   */
  lemma SnapshotMade(s: Store, name: string, content: string, agent: Option<string>, x: Snapshot)
    ensures var s' := Save(s, name, content, agent).0;
      if exists i: nat :: Replaces(s, name, content, agent, i) && s.rows[i].content != "" then
        var i := Lookup(s.rows, name).at;
        x in s'.snaps <==> || x == Snapshot(i, s.rows[i].version, s.rows[i].content, agent)
                           || (x in s.snaps && (x.file != i || |Newer(s.snaps, i, x.num)| < 10))
      else s'.snaps == s.snaps
  {
    hide Strip, EditedName, Lookup;
  }

  /** A version grows by one exactly for an effective change, and otherwise the row stays as it is. */
  lemma OneVersionPerChange(s: Store, name: string, content: string, agent: Option<string>, i: nat)
    requires i < |s.rows|
    ensures var rows := Save(s, name, content, agent).0.rows;
      && |s.rows| <= |rows|
      && rows[i] == (if Replaces(s, name, content, agent, i)
                     then Row(name, content, s.rows[i].createdBy, s.rows[i].version + 1) else s.rows[i])
  {
    hide Strip, EditedName, Outdated;
  }

  /**
   What the answered row holds: the written content, up to blanks around it; but a blank content
   leaves an existing file as it is, and starts a new one empty.
   */
  lemma AnswerHoldsContent(s: Store, name: string, content: string, agent: Option<string>)
    ensures var (s', r) := Save(s, name, content, agent);
      r.Saved? ==>
        && r.file < |s'.rows|
        && (Strip(content) != "" ==> Strip(s'.rows[r.file].content) == Strip(content))
        && (Strip(content) == "" ==> s'.rows[r.file].content == if r.file < |s.rows| then s.rows[r.file].content else "")
        && (r.file < |s.rows| ==> s'.rows[r.file].createdBy == s.rows[r.file].createdBy)
        && (r.file >= |s.rows| ==> s'.rows[r.file].createdBy == agent && s'.rows[r.file].version == 1)
  {
    hide Strip, EditedName, Outdated;
  }

  /** Repeating a write changes nothing, except for exactly the writes that make an edited copy. */
  lemma RepeatChangesNothingIff(s: Store, name: string, content: string, agent: Option<string>)
    ensures var s' := Save(s, name, content, agent).0;
      Save(s', name, content, agent).0 == s' <==> !Copies(s, name, content, agent)
  {
    hide Strip, EditedName, Outdated, Lookup;
    var s' := Save(s, name, content, agent).0;
    var again := Save(s', name, content, agent).0;
    match Lookup(s.rows, name)
    case Many =>
    case Absent =>
      assert s'.rows[|s.rows|].name == name;
      assert Lookup(s'.rows, name) == One(|s.rows|);
      StripEmpty();
    case One(i) =>
      if Copies(s, name, content, agent) {
        assert s'.rows[i] == s.rows[i] && Lookup(s'.rows, name) == One(i);
        assert |again.rows| > |s'.rows|;
      } else if Replaces(s, name, content, agent, i) {
        assert s'.rows[i].name == name;
        assert Lookup(s'.rows, name) == One(i);
      }
  }

  lemma StripEmpty()
    ensures Strip("") == ""
  {
  }

  /** The suffix goes before the last dot, or to the end of a name without one. */
  lemma EditedNameIs(stem: string, suffix: string)
    requires '.' !in suffix
    ensures EditedName(stem + "." + suffix) == stem + "_edited." + suffix
    ensures EditedName(suffix) == suffix + "_edited"
  {
    NoDot("", suffix);
    assert "" + suffix == suffix;
    LastDotIs(stem, suffix);
    var name := stem + "." + suffix;
    assert name[..|stem|] == stem && name[|stem|..] == "." + suffix;
  }

  lemma {:induction false} LastDotIs(stem: string, suffix: string)
    requires '.' !in suffix
    ensures LastDot(stem + "." + suffix) == Some(|stem|)
  {
    var name := stem + "." + suffix;
    if suffix != "" {
      assert name[..|name| - 1] == stem + "." + suffix[..|suffix| - 1];
      LastDotIs(stem, suffix[..|suffix| - 1]);
    }
  }

  /** The name without the seven characters before its last dot, or at its end. */
  function OriginalName(edited: string): string
    requires |edited| >= 7
  {
    match LastDot(edited)
    case None => edited[..|edited| - 7]
    case Some(i) => if i >= 7 then edited[..i - 7] + edited[i..] else edited
  }

  /** The original's name can be read off its copy, so copies of different files have different names. */
  lemma OriginalNameRecovered(name: string)
    ensures |EditedName(name)| >= 7 && OriginalName(EditedName(name)) == name
  {
    hide LastDot;
    EditedDot(name);
  }

  /** The last dot moves with the suffix. */
  lemma EditedDot(name: string)
    ensures LastDot(EditedName(name)) == if LastDot(name).None? then None else Some(LastDot(name).value + 7)
  {
    hide LastDot;
    if LastDot(name).None? {
      NoDot(name, "_edited");
    } else {
      var i := LastDot(name).value;
      DotWithin(name);
      assert |name[..i] + "_edited"| == i + 7;
      DotOfSuffix(name[..i] + "_edited", name[i..]);
    }
  }

  lemma {:induction false} DotWithin(name: string)
    requires LastDot(name).Some?
    ensures LastDot(name[LastDot(name).value..]) == Some(0)
  {
    if name[|name| - 1] == '.' {
      assert name[|name| - 1..] == ".";
    } else {
      var front := name[..|name| - 1];
      DotWithin(front);
      var i := LastDot(front).value;
      assert name[i..][..|name| - i - 1] == front[i..];
    }
  }

  lemma {:induction false} DotOfSuffix(a: string, b: string)
    requires LastDot(b).Some?
    ensures LastDot(a + b) == Some(|a| + LastDot(b).value)
  {
    if b[|b| - 1] != '.' {
      DotOfSuffix(a, b[..|b| - 1]);
      assert (a + b)[..|a + b| - 1] == a + b[..|b| - 1];
    }
  }

  lemma {:induction false} NoDot(a: string, b: string)
    requires LastDot(a).None? && '.' !in b
    ensures LastDot(a + b).None?
  {
    if b == "" {
      assert a + b == a;
    } else {
      NoDot(a, b[..|b| - 1]);
      assert (a + b)[..|a + b| - 1] == a + b[..|b| - 1];
    }
  }

  /** A copy makes its name ambiguous exactly when a file of that name is there already. */
  lemma CopyBlocksNameIff(s: Store, name: string, content: string, agent: Option<string>)
    requires Copies(s, name, content, agent)
    ensures Lookup(Save(s, name, content, agent).0.rows, EditedName(name)).Many?
            <==> !Lookup(s.rows, EditedName(name)).Absent?
  {
    hide Strip, EditedName, Outdated;
    var s' := Save(s, name, content, agent).0;
    assert s'.rows[..|s.rows|] == s.rows;
  }

  /** Every later write under an ambiguous name fails and changes nothing, and the name stays ambiguous. */
  lemma AmbiguousForever(s: Store, name: string, content: string, agent: Option<string>, other: string)
    requires Lookup(s.rows, other).Many?
    ensures Lookup(Save(s, name, content, agent).0.rows, other).Many?
    ensures Save(s, other, content, agent) == (s, MultipleResults)
  {
    hide Strip, EditedName, Outdated, Lookup;
    var s' := Save(s, name, content, agent).0;
    var i, j :| 0 <= i < j < |s.rows| && s.rows[i].name == other && s.rows[j].name == other;
    assert s'.rows[i].name == other && s'.rows[j].name == other;
  }

  // ---- what holds over every run ----

  /** `h[i][v - 1]` is the content row `i` had at version `v`, as noted by an observer of the rows. */
  type History = seq<seq<string>>

  function Noted(h: History, i: nat): seq<string> {
    if i < |h| then h[i] else []
  }

  /** The observer writes down a row's content whenever its version number has grown. */
  function Observe(h: History, rows: seq<Row>): (r: History)
    ensures |r| == |rows|
    ensures forall i :: 0 <= i < |rows| ==>
      r[i] == if rows[i].version <= |Noted(h, i)| then Noted(h, i) else Noted(h, i) + [rows[i].content]
  {
    seq(|rows|, i requires 0 <= i < |rows| =>
      if rows[i].version <= |Noted(h, i)| then Noted(h, i) else Noted(h, i) + [rows[i].content])
  }

  ghost predicate RowsNoted(rows: seq<Row>, h: History) {
    && |h| == |rows|
    && forall i :: 0 <= i < |rows| ==>
        |h[i]| == rows[i].version && h[i] != [] && h[i][|h[i]| - 1] == rows[i].content
  }

  /** Every snapshot holds, unemptied, exactly the content its row had at that number. */
  ghost predicate SnapshotsTrue(snaps: set<Snapshot>, h: History) {
    forall x :: x in snaps ==>
      x.file < |h| && 1 <= x.num < |h[x.file]| && x.content == h[x.file][x.num - 1] != ""
  }

  ghost predicate NumbersUnique(snaps: set<Snapshot>) {
    forall x, y :: x in snaps && y in snaps && x.file == y.file && x.num == y.num ==> x == y
  }

  predicate FullAt(c: seq<string>, v: nat) {
    1 <= v <= |c| && c[v - 1] != ""
  }

  /** The prior versions after `v` of a row with history `c` that were not empty. */
  function NonEmptyAfter(c: seq<string>, v: nat): set<nat> {
    set u: nat | v < u < |c| && FullAt(c, u)
  }

  ghost predicate Has(snaps: set<Snapshot>, file: nat, num: nat) {
    exists x :: x in snaps && x.file == file && x.num == num
  }

  /** The ten newest non-empty prior versions of every row are retained. */
  ghost predicate Retained(snaps: set<Snapshot>, h: History) {
    forall i: nat, v: nat :: i < |h| && 1 <= v < |h[i]| && h[i][v - 1] != "" && |NonEmptyAfter(h[i], v)| < RETAINED
      ==> Has(snaps, i, v)
  }

  /** No row has more than eleven snapshots. */
  ghost predicate Bounded(snaps: set<Snapshot>) {
    forall i: nat :: |Newer(snaps, i, 0)| <= RETAINED + 1
  }

  ghost predicate Inv(s: Store, h: History) {
    && RowsNoted(s.rows, h)
    && SnapshotsTrue(s.snaps, h)
    && NumbersUnique(s.snaps)
    && Retained(s.snaps, h)
    && Bounded(s.snaps)
  }

  datatype Write = Write(name: string, content: string, agent: Option<string>)

  ghost function Run(s: Store, h: History, ws: seq<Write>): (Store, History)
    decreases ws
  {
    if ws == [] then (s, h)
    else
      var s' := Save(s, ws[0].name, ws[0].content, ws[0].agent).0;
      Run(s', Observe(h, s'.rows), ws[1..])
  }

  /** Snapshots stay true, retained and bounded over any sequence of writes. */
  lemma {:induction false} RunKeepsInv(s: Store, h: History, ws: seq<Write>)
    requires Inv(s, h)
    ensures Inv(Run(s, h, ws).0, Run(s, h, ws).1)
    decreases ws
  {
    hide Inv, Save, Observe;
    if ws != [] {
      var w := ws[0];
      SaveKeepsInv(s, h, w.name, w.content, w.agent);
      RunKeepsInv(Save(s, w.name, w.content, w.agent).0, Observe(h, Save(s, w.name, w.content, w.agent).0.rows), ws[1..]);
    }
  }

  /** Over a run of agents' writes no user-uploaded row changes. */
  lemma {:induction false} RunSparesUploads(s: Store, h: History, ws: seq<Write>, i: nat)
    requires i < |s.rows| && s.rows[i].createdBy.None?
    requires forall k :: 0 <= k < |ws| ==> ws[k].agent.Some?
    ensures i < |Run(s, h, ws).0.rows| && Run(s, h, ws).0.rows[i] == s.rows[i]
    decreases ws
  {
    hide Save, Observe;
    if ws != [] {
      var w := ws[0];
      assert w.agent.Some?;
      assert forall k :: 0 <= k < |ws[1..]| ==> ws[1..][k] == ws[k + 1];
      AgentSparesUploads(s, w.name, w.content, w.agent, i);
      RunSparesUploads(Save(s, w.name, w.content, w.agent).0, Observe(h, Save(s, w.name, w.content, w.agent).0.rows), ws[1..], i);
    }
  }

  /** Uploads and scaffolding alone satisfy the invariant. */
  lemma FirstVersionsAreInv(rows: seq<Row>)
    requires forall i :: 0 <= i < |rows| ==> rows[i].version == 1
    ensures Inv(Store(rows, {}), Observe([], rows))
  {
    forall i: nat ensures Newer({}, i, 0) == {} {
    }
  }

  /**
   From uploads and scaffolding on, after any sequence of writes: every snapshot holds the content its row
   had at that number, the ten newest non-empty versions of each row are stored, and at most eleven are.
   */
  lemma SnapshotsHold(rows: seq<Row>, ws: seq<Write>)
    requires forall i :: 0 <= i < |rows| ==> rows[i].version == 1
    ensures var (s, h) := Run(Store(rows, {}), Observe([], rows), ws);
      && RowsNoted(s.rows, h) && SnapshotsTrue(s.snaps, h) && Retained(s.snaps, h)
      && forall i: nat :: |Newer(s.snaps, i, 0)| <= 11
  {
    hide Run, Observe, RowsNoted, SnapshotsTrue, NumbersUnique, Retained;
    FirstVersionsAreInv(rows);
    RunKeepsInv(Store(rows, {}), Observe([], rows), ws);
  }

  lemma SaveKeepsInv(s: Store, h: History, name: string, content: string, agent: Option<string>)
    requires Inv(s, h)
    ensures Inv(Save(s, name, content, agent).0, Observe(h, Save(s, name, content, agent).0.rows))
  {
    hide Strip, EditedName, Lookup, Updated, Added, Inv, Observe;
    SameKeepsInv(s, h);
    forall n: string, c: string { AddedKeepsInv(s, h, n, c, agent); }
    match Lookup(s.rows, name)
    case One(i) => UpdatedKeepsInv(s, h, i, content, agent);
    case _ =>
  }

  lemma SameKeepsInv(s: Store, h: History)
    requires Inv(s, h)
    ensures Inv(s, Observe(h, s.rows))
  {
    assert Observe(h, s.rows) == h;
  }

  lemma AddedKeepsInv(s: Store, h: History, name: string, content: string, agent: Option<string>)
    requires Inv(s, h)
    ensures Inv(Added(s, name, content, agent), Observe(h, Added(s, name, content, agent).rows))
  {
    hide Bounded, NumbersUnique, NonEmptyAfter, Has;
    var h' := Observe(h, Added(s, name, content, agent).rows);
    assert h'[|h|] == [] + [content] == [content];
    assert h' == h + [[content]];
  }

  lemma UpdatedKeepsInv(s: Store, h: History, i: nat, content: string, agent: Option<string>)
    requires Inv(s, h) && i < |s.rows|
    ensures Inv(Updated(s, i, content, agent), Observe(h, Updated(s, i, content, agent).rows))
  {
    hide SnapshotsTrue, Retained, Bounded, NumbersUnique, Outdated;
    var row := s.rows[i];
    var h' := h[i := h[i] + [content]];
    assert Observe(h, Updated(s, i, content, agent).rows) == h';
    if row.content == "" {
      EmptyReplaced(s.snaps, h, i, content);
    } else {
      var x := Snapshot(i, row.version, row.content, agent);
      PrunedStaysTrue(s.snaps, h, i, content, x);
      PrunedStaysRetained(s.snaps, h, i, content, x);
      PrunedStaysBounded(s.snaps, i, x);
    }
  }

  /** Replacing an empty content needs no snapshot. */
  lemma EmptyReplaced(snaps: set<Snapshot>, h: History, i: nat, content: string)
    requires i < |h| && h[i] != [] && h[i][|h[i]| - 1] == "" && SnapshotsTrue(snaps, h) && Retained(snaps, h)
    ensures SnapshotsTrue(snaps, h[i := h[i] + [content]]) && Retained(snaps, h[i := h[i] + [content]])
  {
    hide NonEmptyAfter, Has;
    var h' := h[i := h[i] + [content]];
    forall f: nat, v: nat | f < |h'| && 1 <= v < |h'[f]| && h'[f][v - 1] != "" && |NonEmptyAfter(h'[f], v)| < RETAINED
      ensures Has(snaps, f, v)
    {
      if f == i {
        NonEmptyOfMore(h[i], content, v);
        assert v < |h[i]|;
      }
    }
  }

  lemma NonEmptyOfMore(c: seq<string>, content: string, v: nat)
    requires c != []
    ensures NonEmptyAfter(c + [content], v)
            == NonEmptyAfter(c, v) + if c[|c| - 1] != "" && v < |c| then {|c|} else {}
  {
  }

  lemma PrunedStaysTrue(snaps: set<Snapshot>, h: History, i: nat, content: string, x: Snapshot)
    requires i < |h| && h[i] != [] && SnapshotsTrue(snaps, h) && NumbersUnique(snaps)
    requires x.file == i && x.num == |h[i]| && x.content == h[i][|h[i]| - 1] != ""
    ensures SnapshotsTrue(snaps - Outdated(snaps, i) + {x}, h[i := h[i] + [content]])
    ensures NumbersUnique(snaps - Outdated(snaps, i) + {x})
  {
    hide Outdated;
  }

  lemma PrunedStaysRetained(snaps: set<Snapshot>, h: History, i: nat, content: string, x: Snapshot)
    requires i < |h| && h[i] != [] && SnapshotsTrue(snaps, h) && Retained(snaps, h)
    requires x.file == i && x.num == |h[i]| && x.content == h[i][|h[i]| - 1] != ""
    ensures Retained(snaps - Outdated(snaps, i) + {x}, h[i := h[i] + [content]])
  {
    hide NonEmptyAfter, Outdated, SnapshotsTrue;
    var h' := h[i := h[i] + [content]];
    var after := snaps - Outdated(snaps, i) + {x};
    forall f: nat, v: nat | f < |h'| && 1 <= v < |h'[f]| && h'[f][v - 1] != "" && |NonEmptyAfter(h'[f], v)| < RETAINED
      ensures Has(after, f, v)
    {
      if f == i && v == |h[i]| {
        assert x in after;
      } else {
        NonEmptyOfMore(h[i], content, v);
        assert f == i ==> |NonEmptyAfter(h[i], v)| <= |NonEmptyAfter(h'[i], v)| by {
          if f == i { SubsetSize(NonEmptyAfter(h[i], v), NonEmptyAfter(h'[i], v)); }
        }
        assert Has(snaps, f, v);
        var y :| y in snaps && y.file == f && y.num == v;
        NotOutdated(snaps, h, i, y);
        assert y in after;
      }
    }
  }

  /** A snapshot with fewer than ten non-empty versions after it is not among the outdated ones. */
  lemma NotOutdated(snaps: set<Snapshot>, h: History, i: nat, y: Snapshot)
    requires i < |h| && SnapshotsTrue(snaps, h) && y in snaps
    requires y.file == i ==> |NonEmptyAfter(h[i], y.num)| < RETAINED
    ensures y !in Outdated(snaps, i)
  {
    if y.file == i {
      assert Newer(snaps, i, y.num) <= NonEmptyAfter(h[i], y.num);
      SubsetSize(Newer(snaps, i, y.num), NonEmptyAfter(h[i], y.num));
    }
  }

  lemma PrunedStaysBounded(snaps: set<Snapshot>, i: nat, x: Snapshot)
    requires Bounded(snaps) && x.file == i
    ensures Bounded(snaps - Outdated(snaps, i) + {x})
  {
    var left := snaps - Outdated(snaps, i);
    forall f: nat ensures |Newer(left + {x}, f, 0)| <= RETAINED + 1 {
      if f == i {
        FewLeft(snaps, i);
        assert Newer(left + {x}, i, 0) <= Newer(left, i, 0) + {x.num};
        SubsetSize(Newer(left + {x}, i, 0), Newer(left, i, 0) + {x.num});
      } else {
        assert Newer(left + {x}, f, 0) == Newer(snaps, f, 0);
      }
    }
  }

  /** At most ten snapshots have fewer than ten newer ones. */
  lemma FewLeft(snaps: set<Snapshot>, i: nat)
    ensures |Newer(snaps - Outdated(snaps, i), i, 0)| <= RETAINED
  {
    var left := snaps - Outdated(snaps, i);
    var nums := Newer(left, i, 0);
    if nums != {} {
      var least := Least(nums);
      var x :| x in left && x.file == i && x.num == least;
      assert |Newer(snaps, i, least)| < RETAINED;
      assert nums - {least} <= Newer(snaps, i, least);
      SubsetSize(nums - {least}, Newer(snaps, i, least));
    }
  }

  lemma {:induction false} Least(s: set<nat>) returns (m: nat)
    requires s != {}
    ensures m in s && forall x :: x in s ==> m <= x
    decreases s
  {
    m :| m in s;
    if s != {m} {
      var rest := Least(s - {m});
      assert forall x :: x in s ==> x == m || x in s - {m};
      if rest < m { m := rest; }
    }
  }

  // ---- the store ----

  class WorkspaceStore {
    var rows: seq<Row>
    var snaps: set<Snapshot>

    function State(): Store
      reads this
    {
      Store(rows, snaps)
    }

    constructor ()
      ensures State() == Store([], {})
    {
      rows := [];
      snaps := {};
    }

    method SaveFile(path: string, content: string, agent: Option<string>) returns (r: Result)
      modifies this
      ensures (State(), r) == old(Save(State(), Paths.SafeRelative(path), content, agent))
    {
      hide Strip, Lookup, EditedName, Outdated;
      var name := Paths.SafeRelativePath(path);
      var text := content;
      if Strip(content) == "" {
        var existing := Lookup(rows, name);
        if existing.Many? {
          return MultipleResults;
        }
        if existing.One? {
          return Saved(existing.at);
        }
        text := "";
      }
      var found := Lookup(rows, name);
      if found.Many? {
        return MultipleResults;
      }
      if found.One? && rows[found.at].createdBy.None? && agent.Some? {
        if Strip(rows[found.at].content) == Strip(text) {
          return Saved(found.at);
        }
        rows := rows + [Row(EditedName(name), text, agent, 1)];
        return Saved(|rows| - 1);
      }
      if found.Absent? {
        rows := rows + [Row(name, text, agent, 1)];
        return Saved(|rows| - 1);
      }
      var f := found.at;
      var oldContent := rows[f].content;
      if oldContent != "" && Strip(oldContent) == Strip(text) {
        return Saved(f);
      }
      StripEmpty();
      if oldContent != "" {
        Snap(f, oldContent, agent);
      }
      rows := rows[f := rows[f].(content := text, version := rows[f].version + 1)];
      r := Saved(f);
    }

    /** Adds the snapshot; the query for outdated ones sees only the committed rows, not this one. */
    method Snap(f: nat, oldContent: string, agent: Option<string>)
      requires f < |rows|
      modifies this`snaps
      ensures snaps == old(snaps) - Outdated(old(snaps), f) + {Snapshot(f, rows[f].version, oldContent, agent)}
    {
      ghost var was := snaps;
      var oldVersions := Outdated(snaps, f);
      var todo := oldVersions;
      while todo != {}
        invariant todo <= oldVersions && snaps == was - (oldVersions - todo)
        decreases |todo|
      {
        var v :| v in todo;
        snaps := snaps - {v};
        todo := todo - {v};
      }
      snaps := snaps + {Snapshot(f, rows[f].version, oldContent, agent)};
    }
  }
}
