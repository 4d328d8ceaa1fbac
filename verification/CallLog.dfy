/** Aggregation of a turn's tool and usage events into one record per call. */
module CallLog {
  import opened Prelude

  /** Instants are microseconds; titles and kinds may be missing. An empty status means none was sent. */
  datatype Event =
    | Tool(title: Option<string>, sentStatus: string, kind: Option<string>, id: Option<string>, at: int)
    | Usage(tokensIn: int, tokensOut: int, at: int)

  /** `tool_call_id`, or the text `title:{title}:{seq}`; a missing title is shown as `None`. */
  datatype Key = ById(id: string) | ByTitle(shown: string, seqNo: nat)

  datatype Rec = Rec(key: Key, title: Option<string>, kind: Option<string>, status: string,
                     started: int, ended: Option<int>, duration: Option<nat>)

  datatype ModelCall = ModelCall(tokensIn: int, tokensOut: int, started: Option<int>, ended: int, duration: Option<nat>)

  /** What `records()` reports. */
  datatype Report =
    | ToolReport(name: Option<string>, kind: Option<string>, status: string, started: int, ended: Option<int>, duration: Option<nat>)
    | ModelReport(call: ModelCall)

  predicate Terminal(status: string) {
    status == "completed" || status == "failed" || status == "error" || status == "cancelled"
  }

  function StatusOf(e: Event): string
    requires e.Tool?
  {
    if e.sentStatus == "" then "completed" else e.sentStatus
  }

  predicate Truthy(s: Option<string>) {
    s.Some? && s.value != ""
  }

  /** Whole milliseconds from `start` to `end`, never negative. */
  function Ms(start: int, end: int): (r: nat)
    ensures if end <= start then r == 0 else 1000 * r <= end - start < 1000 * (r + 1)
  {
    if end <= start then 0 else (end - start) / 1000
  }

  function Shown(title: Option<string>): string {
    if title.Some? then title.value else "None"
  }

  // ---- the collector as a state machine ----

  datatype State = State(tools: seq<Rec>, seqs: map<Option<string>, nat>, calls: seq<ModelCall>, last: Option<int>)

  /** The youngest record of this title that is not terminal. */
  function InFlight(tools: seq<Rec>, title: Option<string>): (r: Option<nat>)
    ensures r.Some? ==> r.value < |tools| && tools[r.value].title == title && !Terminal(tools[r.value].status)
    ensures r.Some? ==> forall k :: r.value < k < |tools| ==> tools[k].title != title || Terminal(tools[k].status)
    ensures r.None? ==> forall k :: 0 <= k < |tools| ==> tools[k].title != title || Terminal(tools[k].status)
  {
    if tools == [] then None
    else
      var n := |tools| - 1;
      if tools[n].title == title && !Terminal(tools[n].status) then Some(n) else InFlight(tools[..n], title)
  }

  lemma InFlightStep(tools: seq<Rec>, title: Option<string>, k: nat)
    requires 0 < k <= |tools|
    ensures InFlight(tools[..k], title)
            == if tools[k - 1].title == title && !Terminal(tools[k - 1].status) then Some(k - 1)
               else InFlight(tools[..k - 1], title)
  {
    assert tools[..k][..k - 1] == tools[..k - 1];
  }

  function SeqOf(seqs: map<Option<string>, nat>, title: Option<string>): nat {
    if title in seqs then seqs[title] else 0
  }

  function KeyFor(s: State, e: Event): (Key, map<Option<string>, nat>)
    requires e.Tool?
  {
    if Truthy(e.id) then (ById(e.id.value), s.seqs) else TitleKey(s.tools, s.seqs, e.title)
  }

  /** The key of the title's record in flight, or the next new key of the title. */
  function TitleKey(tools: seq<Rec>, seqs: map<Option<string>, nat>, title: Option<string>): (Key, map<Option<string>, nat>) {
    var at := InFlight(tools, title);
    if at.Some? then (tools[at.value].key, seqs)
    else (ByTitle(Shown(title), SeqOf(seqs, title)), seqs[title := SeqOf(seqs, title) + 1])
  }

  function FindKey(tools: seq<Rec>, key: Key): (r: Option<nat>)
    ensures r.Some? ==> r.value < |tools| && tools[r.value].key == key
    ensures r.None? ==> forall k :: 0 <= k < |tools| ==> tools[k].key != key
  {
    if tools == [] then None
    else if tools[|tools| - 1].key == key then Some(|tools| - 1)
    else FindKey(tools[..|tools| - 1], key)
  }

  function NewRec(key: Key, e: Event): Rec
    requires e.Tool?
  {
    var done := Terminal(StatusOf(e));
    Rec(key, e.title, e.kind, StatusOf(e), e.at, if done then Some(e.at) else None, if done then Some(Ms(e.at, e.at)) else None)
  }

  function Advance(r: Rec, e: Event): Rec
    requires e.Tool?
  {
    var done := Terminal(StatusOf(e));
    Rec(r.key, if Truthy(e.title) then e.title else r.title, if Truthy(e.kind) then e.kind else r.kind, StatusOf(e),
        r.started, if done then Some(e.at) else r.ended, if done then Some(Ms(r.started, e.at)) else r.duration)
  }

  function Step(s: State, turnStart: Option<int>, e: Event): State {
    match e
    case Usage(tokensIn, tokensOut, at) =>
      var start := if s.last.Some? then s.last else turnStart;
      var call := ModelCall(tokensIn, tokensOut, start, at, if start.Some? then Some(Ms(start.value, at)) else None);
      s.(calls := s.calls + [call], last := Some(at))
    case Tool(_, _, _, _, at) =>
      var (key, seqs) := KeyFor(s, e);
      var found := FindKey(s.tools, key);
      var tools := if found.None? then s.tools + [NewRec(key, e)]
                   else s.tools[found.value := Advance(s.tools[found.value], e)];
      State(tools, seqs, s.calls, Some(at))
  }

  function Run(turnStart: Option<int>, log: seq<Event>): State {
    if log == [] then State([], map[], [], turnStart)
    else Step(Run(turnStart, log[..|log| - 1]), turnStart, log[|log| - 1])
  }

  // ---- the specification: each title's events split after every terminal status ----

  predicate Titled(log: seq<Event>) {
    forall i :: 0 <= i < |log| ==> log[i].Tool? && !Truthy(log[i].id)
  }

  /** The start of the run of `title` that is still open after `log`. */
  function Open(log: seq<Event>, title: Option<string>): (r: Option<nat>)
    requires Titled(log)
    ensures r.Some? ==> r.value < |log|
  {
    if log == [] then None
    else
      var front, e := log[..|log| - 1], log[|log| - 1];
      if e.title != title then Open(front, title)
      else if Terminal(StatusOf(e)) then None
      else if Open(front, title).Some? then Open(front, title) else Some(|log| - 1)
  }

  /** The events that start a run, in order. */
  function Starts(log: seq<Event>): (r: seq<nat>)
    requires Titled(log)
    ensures forall k :: 0 <= k < |r| ==> r[k] < |log|
  {
    if log == [] then []
    else
      var front, e := log[..|log| - 1], log[|log| - 1];
      if Open(front, e.title).None? then Starts(front) + [|log| - 1] else Starts(front)
  }

  /** The last event so far of the run that starts at `i`. */
  function LastOfRun(log: seq<Event>, i: nat): (r: nat)
    requires Titled(log) && i < |log|
    ensures i <= r < |log|
  {
    if i == |log| - 1 then i
    else
      var front, e := log[..|log| - 1], log[|log| - 1];
      var l := LastOfRun(front, i);
      if e.title == log[i].title && !Terminal(StatusOf(log[l])) then |log| - 1 else l
  }

  /** The kind last given in the run. */
  function KindOfRun(log: seq<Event>, i: nat): Option<string>
    requires Titled(log) && i < |log|
  {
    if i == |log| - 1 then log[i].kind
    else
      var front, e := log[..|log| - 1], log[|log| - 1];
      if LastOfRun(log, i) == |log| - 1 && Truthy(e.kind) then e.kind else KindOfRun(front, i)
  }

  /** The report of a run: first-seen start, terminal end, and the time between them. */
  function ReportOf(log: seq<Event>, i: nat): Report
    requires Titled(log) && i < |log|
  {
    var l := log[LastOfRun(log, i)];
    var done := Terminal(StatusOf(l));
    ToolReport(log[i].title, KindOfRun(log, i), StatusOf(l), log[i].at,
               if done then Some(l.at) else None, if done then Some(Ms(log[i].at, l.at)) else None)
  }

  /** `LastOfRun` is the first terminal event of the title from `i` on, or the title's last event so far. */
  lemma {:induction false} LastOfRunMeaning(log: seq<Event>, i: nat)
    requires Titled(log) && i < |log|
    ensures var l := LastOfRun(log, i);
      && log[l].title == log[i].title
      && (forall k :: i <= k < l && log[k].title == log[i].title ==> !Terminal(StatusOf(log[k])))
      && (!Terminal(StatusOf(log[l])) ==> forall k :: l < k < |log| ==> log[k].title != log[i].title)
  {
    hide Terminal, StatusOf;
    if i < |log| - 1 {
      LastOfRunMeaning(log[..|log| - 1], i);
    }
  }

  function LastOf(log: seq<Event>, title: Option<string>): (r: Option<nat>)
    requires Titled(log)
    ensures r.Some? ==> r.value < |log| && log[r.value].title == title
    ensures r.Some? ==> forall k :: r.value < k < |log| ==> log[k].title != title
    ensures r.None? ==> forall k :: 0 <= k < |log| ==> log[k].title != title
  {
    if log == [] then None
    else if log[|log| - 1].title == title then Some(|log| - 1)
    else LastOf(log[..|log| - 1], title)
  }

  /** A run is open after `log` exactly when the title's last event is not terminal. */
  lemma {:induction false} OpenMeaning(log: seq<Event>, title: Option<string>)
    requires Titled(log)
    ensures Open(log, title).Some? <==>
      LastOf(log, title).Some? && !Terminal(StatusOf(log[LastOf(log, title).value]))
  {
    hide Terminal, StatusOf;
    if log != [] { OpenMeaning(log[..|log| - 1], title); }
  }

  // ---- the collector refines the specification ----

  /** A run is unfinished exactly when it is the open run of its title. */
  lemma {:induction false} UnfinishedIsOpen(log: seq<Event>, k: nat)
    requires Titled(log) && k < |Starts(log)|
    ensures var i := Starts(log)[k];
      !Terminal(StatusOf(log[LastOfRun(log, i)])) <==> Open(log, log[i].title) == Some(i)
  {
    var front, e := log[..|log| - 1], log[|log| - 1];
    if k < |Starts(front)| {
      UnfinishedIsOpen(front, k);
      var i := Starts(front)[k];
      assert Starts(log)[k] == i && log[i] == front[i] && log[LastOfRun(front, i)] == front[LastOfRun(front, i)];
    }
  }

  lemma {:induction false} OpenIsStart(log: seq<Event>, title: Option<string>)
    requires Titled(log) && Open(log, title).Some?
    ensures Open(log, title).value in Starts(log) && log[Open(log, title).value].title == title
  {
    var front, e := log[..|log| - 1], log[|log| - 1];
    if Open(front, title).Some? {
      OpenIsStart(front, title);
    }
  }

  lemma {:induction false} StartsDistinct(log: seq<Event>)
    requires Titled(log)
    ensures forall a, b :: 0 <= a < b < |Starts(log)| ==> Starts(log)[a] < Starts(log)[b]
  {
    if log != [] { StartsDistinct(log[..|log| - 1]); }
  }

  function ReportRec(r: Rec): Report {
    ToolReport(r.title, r.kind, r.status, r.started, r.ended, r.duration)
  }

  /** The collector's records are the specified ones, keyed by title and a number below the title's count. */
  ghost predicate Matches(s: State, log: seq<Event>)
    requires Titled(log)
  {
    Faithful(s.tools, log) && Keyed(s.tools, s.seqs)
  }

  ghost predicate Faithful(tools: seq<Rec>, log: seq<Event>)
    requires Titled(log)
  {
    && |tools| == |Starts(log)|
    && forall k :: 0 <= k < |tools| ==> ReportRec(tools[k]) == ReportOf(log, Starts(log)[k])
  }

  ghost predicate Keyed(tools: seq<Rec>, seqs: map<Option<string>, nat>) {
    && (forall k :: 0 <= k < |tools| ==>
          tools[k].key.ByTitle? && tools[k].key.shown == Shown(tools[k].title)
          && tools[k].key.seqNo < SeqOf(seqs, tools[k].title))
    && (forall a, b :: 0 <= a < b < |tools| ==> tools[a].key != tools[b].key)
    && (forall t :: t in seqs && seqs[t] > 0 ==>
          exists k :: 0 <= k < |tools| && tools[k].title == t && tools[k].key == ByTitle(Shown(t), 0))
  }

  /** A title missing in one event and spelled "None" in another: their keys read the same. */
  ghost predicate Collides(log: seq<Event>) {
    && (exists i :: 0 <= i < |log| && log[i].Tool? && log[i].title == None)
    && (exists i :: 0 <= i < |log| && log[i].Tool? && log[i].title == Some("None"))
  }

  lemma JoinsOpenRun(s: State, log: seq<Event>, e: Event, turnStart: Option<int>)
    requires Titled(log) && e.Tool? && !Truthy(e.id) && Matches(s, log) && Open(log, e.title).Some?
    ensures Titled(log + [e]) && Matches(Step(s, turnStart, e), log + [e])
  {
    hide Terminal, StatusOf, Ms, Shown, KindOfRun, Keyed, Faithful, Starts, Open, Advance;
    OpenIsStart(log, e.title);
    var k :| 0 <= k < |Starts(log)| && Starts(log)[k] == Open(log, e.title).value;
    TheOpenRecord(s, log, e, k);
    AdvancedIsFaithful(s.tools, log, e, k);
    AdvancedIsKeyed(s.tools, s.seqs, e, k);
  }

  /** The event finds the record of its title's open run. */
  lemma TheOpenRecord(s: State, log: seq<Event>, e: Event, k: nat)
    requires Titled(log) && e.Tool? && Matches(s, log) && k < |Starts(log)|
    requires Open(log, e.title) == Some(Starts(log)[k])
    ensures |s.tools| == |Starts(log)| && s.tools[k].title == e.title
    ensures InFlight(s.tools, e.title) == Some(k) && FindKey(s.tools, s.tools[k].key) == Some(k)
  {
    hide Terminal, StatusOf, Ms, Shown, KindOfRun, Starts, LastOfRun, Open, InFlight, FindKey;
    UnfinishedIsOpen(log, k);
    OnlyOpenInFlight(s, log, e.title, k);
    assert ReportRec(s.tools[k]) == ReportOf(log, Starts(log)[k]);
  }

  lemma AdvancedIsFaithful(tools: seq<Rec>, log: seq<Event>, e: Event, k: nat)
    requires Titled(log) && e.Tool? && !Truthy(e.id) && Faithful(tools, log) && k < |Starts(log)|
    requires Open(log, e.title) == Some(Starts(log)[k])
    ensures Titled(log + [e]) && Faithful(tools[k := Advance(tools[k], e)], log + [e])
  {
    var more := log + [e];
    assert more[..|log|] == log;
    assert Starts(more) == Starts(log);
    hide Terminal, StatusOf, Ms, KindOfRun, Starts, LastOfRun, Open, Advance, ReportOf;
    OpenIsStart(log, e.title);
    UnfinishedIsOpen(log, k);
    forall j | 0 <= j < |tools|
      ensures ReportRec(tools[k := Advance(tools[k], e)][j]) == ReportOf(more, Starts(more)[j])
    {
      RunGrows(log, e, j, k);
      if j == k { AdvanceReports(tools[k], log, e, Starts(log)[k]); }
    }
  }

  lemma AdvancedIsKeyed(tools: seq<Rec>, seqs: map<Option<string>, nat>, e: Event, k: nat)
    requires e.Tool? && Keyed(tools, seqs) && k < |tools| && tools[k].title == e.title
    ensures Keyed(tools[k := Advance(tools[k], e)], seqs)
  {
    hide Terminal, StatusOf, Ms, Shown;
    var tools' := tools[k := Advance(tools[k], e)];
    assert forall j :: 0 <= j < |tools| ==> tools'[j].key == tools[j].key && tools'[j].title == tools[j].title;
  }

  /** The records in flight with this title are just the one of the open run. */
  lemma OnlyOpenInFlight(s: State, log: seq<Event>, title: Option<string>, k: nat)
    requires Titled(log) && Matches(s, log) && k < |Starts(log)|
    requires Open(log, title) == Some(Starts(log)[k])
    ensures forall j :: 0 <= j < |s.tools| && s.tools[j].title == title && !Terminal(s.tools[j].status) ==> j == k
    ensures log[Starts(log)[k]].title == title
  {
    hide Terminal, StatusOf, Ms, Shown, KindOfRun, Starts, LastOfRun;
    StartsDistinct(log);
    OpenIsStart(log, title);
    forall j | 0 <= j < |s.tools| && s.tools[j].title == title && !Terminal(s.tools[j].status) ensures j == k {
      assert ReportRec(s.tools[j]) == ReportOf(log, Starts(log)[j]);
      UnfinishedIsOpen(log, j);
    }
  }

  /** One more event of an open run's title moves the end of that run and of no other. */
  lemma RunGrows(log: seq<Event>, e: Event, j: nat, k: nat)
    requires Titled(log) && e.Tool? && !Truthy(e.id) && j < |Starts(log)| && k < |Starts(log)|
    requires Open(log, e.title) == Some(Starts(log)[k]) && log[Starts(log)[k]].title == e.title
    ensures Titled(log + [e])
    ensures var more := log + [e];
      && LastOfRun(more, Starts(log)[j]) == (if j == k then |log| else LastOfRun(log, Starts(log)[j]))
      && (j != k ==> ReportOf(more, Starts(log)[j]) == ReportOf(log, Starts(log)[j]))
  {
    hide Terminal, StatusOf, Ms, Open, Starts;
    var more := log + [e];
    assert more[..|log|] == log;
    StartsDistinct(log);
    UnfinishedIsOpen(log, j);
    UnfinishedIsOpen(log, k);
  }

  lemma AdvanceReports(r: Rec, log: seq<Event>, e: Event, i: nat)
    requires Titled(log) && e.Tool? && !Truthy(e.id) && i < |log| && log[i].title == e.title
    requires ReportRec(r) == ReportOf(log, i) && !Terminal(StatusOf(log[LastOfRun(log, i)]))
    ensures Titled(log + [e]) && ReportRec(Advance(r, e)) == ReportOf(log + [e], i)
  {
    hide Terminal, StatusOf, Ms;
    var more := log + [e];
    assert more[..|log|] == log;
    assert LastOfRun(more, i) == |log|;
  }

  lemma StartsNewRun(s: State, log: seq<Event>, e: Event, turnStart: Option<int>)
    requires Titled(log) && e.Tool? && !Truthy(e.id) && Matches(s, log) && Open(log, e.title).None?
    requires !Collides(log + [e])
    ensures Titled(log + [e]) && Matches(Step(s, turnStart, e), log + [e])
  {
    hide Terminal, StatusOf, Ms, Faithful, Keyed, Starts, Open, Collides, NewRec;
    NothingInFlight(s, log, e.title);
    FreshKey(s, log, e);
    var key := ByTitle(Shown(e.title), SeqOf(s.seqs, e.title));
    assert FindKey(s.tools, key).None?;
    NewIsFaithful(s.tools, log, e, key);
    NewIsKeyed(s.tools, s.seqs, e);
  }

  lemma FreshKey(s: State, log: seq<Event>, e: Event)
    requires Titled(log) && e.Tool? && Matches(s, log) && !Collides(log + [e])
    ensures forall k :: 0 <= k < |s.tools| ==> s.tools[k].key != ByTitle(Shown(e.title), SeqOf(s.seqs, e.title))
  {
    hide Terminal, StatusOf, Ms, Starts, Collides, KindOfRun, LastOfRun;
    forall k | 0 <= k < |s.tools|
      ensures s.tools[k].key != ByTitle(Shown(e.title), SeqOf(s.seqs, e.title))
    {
      assert ReportRec(s.tools[k]) == ReportOf(log, Starts(log)[k]);
      SameShownSameTitle(log, e, Starts(log)[k]);
    }
  }

  lemma NewIsFaithful(tools: seq<Rec>, log: seq<Event>, e: Event, key: Key)
    requires Titled(log) && e.Tool? && !Truthy(e.id) && Faithful(tools, log) && Open(log, e.title).None?
    ensures Titled(log + [e]) && Faithful(tools + [NewRec(key, e)], log + [e])
  {
    hide Terminal, StatusOf, Ms;
    var more := log + [e];
    assert more[..|log|] == log;
    assert Starts(more) == Starts(log) + [|log|];
    forall j | 0 <= j < |tools| ensures ReportOf(more, Starts(more)[j]) == ReportOf(log, Starts(log)[j]) {
      RunStays(log, e, j);
    }
  }

  lemma RunStays(log: seq<Event>, e: Event, j: nat)
    requires Titled(log) && e.Tool? && !Truthy(e.id) && Open(log, e.title).None? && j < |Starts(log)|
    ensures Titled(log + [e]) && ReportOf(log + [e], Starts(log)[j]) == ReportOf(log, Starts(log)[j])
  {
    hide Terminal, StatusOf, Ms, Starts, Open;
    var more := log + [e];
    assert more[..|log|] == log;
    UnfinishedIsOpen(log, j);
  }

  lemma NewIsKeyed(tools: seq<Rec>, seqs: map<Option<string>, nat>, e: Event)
    requires e.Tool? && Keyed(tools, seqs)
    requires forall k :: 0 <= k < |tools| ==> tools[k].key != ByTitle(Shown(e.title), SeqOf(seqs, e.title))
    ensures Keyed(tools + [NewRec(ByTitle(Shown(e.title), SeqOf(seqs, e.title)), e)],
                  seqs[e.title := SeqOf(seqs, e.title) + 1])
  {
    hide Terminal, StatusOf, Ms;
    var tools' := tools + [NewRec(ByTitle(Shown(e.title), SeqOf(seqs, e.title)), e)];
    var seqs' := seqs[e.title := SeqOf(seqs, e.title) + 1];
    forall t | t in seqs' && seqs'[t] > 0
      ensures exists k :: 0 <= k < |tools'| && tools'[k].title == t && tools'[k].key == ByTitle(Shown(t), 0)
    {
      if t == e.title && SeqOf(seqs, t) == 0 {
        assert tools'[|tools|].key == ByTitle(Shown(t), 0);
      } else {
        var k :| 0 <= k < |tools| && tools[k].title == t && tools[k].key == ByTitle(Shown(t), 0);
        assert tools'[k] == tools[k];
      }
    }
  }

  lemma NothingInFlight(s: State, log: seq<Event>, title: Option<string>)
    requires Titled(log) && Matches(s, log) && Open(log, title).None?
    ensures InFlight(s.tools, title).None?
  {
    hide Terminal, StatusOf, Ms, Shown, KindOfRun, Starts, LastOfRun, Open;
    forall j | 0 <= j < |s.tools| ensures s.tools[j].title != title || Terminal(s.tools[j].status) {
      assert ReportRec(s.tools[j]) == ReportOf(log, Starts(log)[j]);
      UnfinishedIsOpen(log, j);
    }
  }

  lemma SameShownSameTitle(log: seq<Event>, e: Event, i: nat)
    requires e.Tool? && i < |log| && log[i].Tool? && !Collides(log + [e])
    ensures Shown(log[i].title) == Shown(e.title) ==> log[i].title == e.title
  {
    var more := log + [e];
    assert more[i] == log[i] && more[|log|] == e;
  }

  /** Without the colliding pair of titles, the collector keeps exactly the specified records. */
  lemma {:induction false} CollectorMatches(turnStart: Option<int>, log: seq<Event>)
    requires Titled(log) && !Collides(log)
    ensures Matches(Run(turnStart, log), log)
  {
    if log != [] {
      var front, e := log[..|log| - 1], log[|log| - 1];
      assert log == front + [e];
      PrefixCollides(front, log);
      CollectorMatches(turnStart, front);
      hide Matches, Step, Open, Starts;
      if Open(front, e.title).Some? {
        JoinsOpenRun(Run(turnStart, front), front, e, turnStart);
      } else {
        StartsNewRun(Run(turnStart, front), front, e, turnStart);
      }
    }
  }

  lemma PrefixCollides(front: seq<Event>, log: seq<Event>)
    requires front <= log
    ensures Collides(front) ==> Collides(log)
  {
    assert forall i :: 0 <= i < |front| ==> front[i] == log[i];
  }

  function ToolReports(tools: seq<Rec>): seq<Report> {
    seq(|tools|, k requires 0 <= k < |tools| => ReportRec(tools[k]))
  }

  function SpecReports(log: seq<Event>): seq<Report>
    requires Titled(log)
  {
    seq(|Starts(log)|, k requires 0 <= k < |Starts(log)| => ReportOf(log, Starts(log)[k]))
  }

  /** The collector agrees with the specification at every prefix exactly when no titles collide. */
  lemma RecordsMatchIff(turnStart: Option<int>, log: seq<Event>)
    requires Titled(log)
    ensures (forall n :: 0 <= n <= |log| ==> ToolReports(Run(turnStart, log[..n]).tools) == SpecReports(log[..n]))
            <==> !Collides(log)
  {
    hide Run, Starts, ReportOf, Collides;
    if !Collides(log) {
      forall n | 0 <= n <= |log| ensures ToolReports(Run(turnStart, log[..n]).tools) == SpecReports(log[..n]) {
        PrefixCollides(log[..n], log);
        CollectorMatches(turnStart, log[..n]);
      }
    } else {
      var n := FirstCollision(log);
      assert log[..n] + [log[n]] == log[..n + 1];
      CollisionLosesRecord(turnStart, log[..n], log[n]);
      CollectorMatches(turnStart, log[..n]);
      assert |ToolReports(Run(turnStart, log[..n + 1]).tools)| != |SpecReports(log[..n + 1])|;
    }
  }

  lemma {:induction false} FirstCollision(log: seq<Event>) returns (n: nat)
    requires Collides(log)
    ensures n < |log| && !Collides(log[..n]) && Collides(log[..n + 1])
  {
    var front := log[..|log| - 1];
    if Collides(front) {
      n := FirstCollision(front);
      assert front[..n] == log[..n] && front[..n + 1] == log[..n + 1];
    } else {
      n := |log| - 1;
      assert log[..n + 1] == log;
    }
  }

  /** At the first collision the new run joins the record of the other title instead of having its own. */
  lemma CollisionLosesRecord(turnStart: Option<int>, log: seq<Event>, e: Event)
    requires Titled(log) && e.Tool? && !Truthy(e.id) && !Collides(log) && Collides(log + [e])
    ensures Titled(log + [e]) && |Run(turnStart, log + [e]).tools| == |Run(turnStart, log).tools|
    ensures |Starts(log + [e])| == |Starts(log)| + 1
  {
    hide Starts, Run, Matches, Step, Open, Collides;
    CollidingTitles(log, e);
    NotOpen(log, e.title);
    OneMoreStart(log, e);
    RunStep(turnStart, log, e);
    CollectorMatches(turnStart, log);
    var other := if e.title.None? then Some("None") else None;
    var i :| 0 <= i < |log| && log[i].Tool? && log[i].title == other;
    HasSeq(turnStart, log, i);
    var s := Run(turnStart, log);
    NothingInFlight(s, log, e.title);
    NoSeq(s, log, e.title);
    KeyIsTaken(s, turnStart, e, other);
  }

  lemma OneMoreStart(log: seq<Event>, e: Event)
    requires Titled(log) && e.Tool? && !Truthy(e.id) && Open(log, e.title).None?
    ensures Titled(log + [e]) && |Starts(log + [e])| == |Starts(log)| + 1
  {
    assert (log + [e])[..|log|] == log;
  }

  lemma KeyIsTaken(s: State, turnStart: Option<int>, e: Event, other: Option<string>)
    requires e.Tool? && !Truthy(e.id) && InFlight(s.tools, e.title).None? && SeqOf(s.seqs, e.title) == 0
    requires Shown(other) == Shown(e.title)
    requires exists k :: 0 <= k < |s.tools| && s.tools[k].key == ByTitle(Shown(other), 0)
    ensures |Step(s, turnStart, e).tools| == |s.tools|
  {
    hide InFlight, FindKey, Advance, NewRec, Shown, SeqOf;
    assert FindKey(s.tools, ByTitle(Shown(e.title), 0)).Some?;
  }

  lemma CollidingTitles(log: seq<Event>, e: Event)
    requires e.Tool? && !Collides(log) && Collides(log + [e])
    ensures e.title == None || e.title == Some("None")
    ensures forall i :: 0 <= i < |log| && log[i].Tool? ==> log[i].title != e.title
    ensures exists i :: 0 <= i < |log| && log[i].Tool? && log[i].title == if e.title.None? then Some("None") else None
  {
    var more := log + [e];
    var i :| 0 <= i < |more| && more[i].Tool? && more[i].title == None;
    var j :| 0 <= j < |more| && more[j].Tool? && more[j].title == Some("None");
    if i < |log| { assert log[i].title == None; }
    if j < |log| { assert log[j].title == Some("None"); }
  }

  lemma {:induction false} NotOpen(log: seq<Event>, title: Option<string>)
    requires Titled(log) && forall i :: 0 <= i < |log| ==> log[i].title != title
    ensures Open(log, title).None?
  {
    if log != [] { NotOpen(log[..|log| - 1], title); }
  }

  lemma NoSeq(s: State, log: seq<Event>, title: Option<string>)
    requires Titled(log) && Matches(s, log) && forall i :: 0 <= i < |log| ==> log[i].title != title
    ensures SeqOf(s.seqs, title) == 0
  {
    hide Terminal, StatusOf, Ms, Shown, KindOfRun, Open, LastOfRun, Starts;
    forall k | 0 <= k < |s.tools| ensures s.tools[k].title != title {
      assert ReportRec(s.tools[k]) == ReportOf(log, Starts(log)[k]);
    }
  }

  lemma {:induction false} HasSeq(turnStart: Option<int>, log: seq<Event>, i: nat)
    requires Titled(log) && !Collides(log) && i < |log|
    ensures exists k :: 0 <= k < |Run(turnStart, log).tools| && Run(turnStart, log).tools[k].key == ByTitle(Shown(log[i].title), 0)
  {
    CollectorMatches(turnStart, log);
    StartedOnce(log, i);
    var s := Run(turnStart, log);
    var k :| 0 <= k < |Starts(log)| && log[Starts(log)[k]].title == log[i].title;
    assert ReportRec(s.tools[k]) == ReportOf(log, Starts(log)[k]);
    assert SeqOf(s.seqs, log[i].title) > 0;
  }

  lemma {:induction false} StartedOnce(log: seq<Event>, i: nat)
    requires Titled(log) && i < |log|
    ensures exists k :: 0 <= k < |Starts(log)| && log[Starts(log)[k]].title == log[i].title
  {
    var front := log[..|log| - 1];
    if i < |log| - 1 {
      StartedOnce(front, i);
      var k :| 0 <= k < |Starts(front)| && front[Starts(front)[k]].title == log[i].title;
      assert Starts(log)[k] == Starts(front)[k];
    } else if Open(front, log[i].title).Some? {
      OpenIsStart(front, log[i].title);
      var k :| 0 <= k < |Starts(front)| && Starts(front)[k] == Open(front, log[i].title).value;
      assert Starts(log)[k] == Starts(front)[k];
    } else {
      assert Starts(log)[|Starts(front)|] == i;
    }
  }

  // ---- never two in flight with one title? ----

  /** No two records in flight have the same title. */
  predicate DistinctInFlight(tools: seq<Rec>) {
    forall a, b :: 0 <= a < b < |tools| && !Terminal(tools[a].status) && !Terminal(tools[b].status) ==>
      tools[a].title != tools[b].title
  }

  /** Without the colliding pair of titles there are never two records in flight with one title. */
  lemma NeverTwoInFlight(turnStart: Option<int>, log: seq<Event>)
    requires Titled(log) && !Collides(log)
    ensures DistinctInFlight(Run(turnStart, log).tools)
  {
    hide Run, Collides, Terminal, StatusOf, Ms, KindOfRun, Open, LastOfRun, Keyed, Starts;
    CollectorMatches(turnStart, log);
    StartsDistinct(log);
    var tools := Run(turnStart, log).tools;
    forall a, b | 0 <= a < b < |tools| && !Terminal(tools[a].status) && !Terminal(tools[b].status)
      ensures tools[a].title != tools[b].title
    {
      assert ReportRec(tools[a]) == ReportOf(log, Starts(log)[a]) && ReportRec(tools[b]) == ReportOf(log, Starts(log)[b]);
      UnfinishedIsOpen(log, a);
      UnfinishedIsOpen(log, b);
    }
  }

  /** With both titles there can be: the untitled event takes over a finished record titled "None" beside a running one. */
  lemma TwoInFlight()
    ensures var log := [Tool(Some("None"), "completed", None, None, 0), Tool(Some("None"), "running", None, None, 1),
                        Tool(None, "running", None, None, 2)];
      Titled(log) && !DistinctInFlight(Run(None, log).tools)
  {
    var e0, e1, e2 := Tool(Some("None"), "completed", None, None, 0), Tool(Some("None"), "running", None, None, 1),
                      Tool(None, "running", None, None, 2);
    var k0, k1 := ByTitle("None", 0), ByTitle("None", 1);
    var r0 := Rec(k0, Some("None"), None, "completed", 0, Some(0), Some(0));
    var r1 := Rec(k1, Some("None"), None, "running", 1, None, None);
    hide *;
    FirstRecord(r0, e0);
    SecondRecord(r0, r1, e1);
    FirstAdvanced(r0, r1, e2);
    NothingRun(None);
    RunStep(None, [], e0);
    RunStep(None, [e0], e1);
    RunStep(None, [e0, e1], e2);
    assert [] + [e0] == [e0] && [e0] + [e1] == [e0, e1] && [e0, e1] + [e2] == [e0, e1, e2];
    TwoRunning(r0, r1);
    AllTitled(e0, e1, e2);
  }

  lemma AllTitled(a: Event, b: Event, c: Event)
    requires a.Tool? && b.Tool? && c.Tool? && a.id.None? && b.id.None? && c.id.None?
    ensures Titled([a, b, c])
  {
  }

  lemma TwoRunning(r0: Rec, r1: Rec)
    requires r0.title == r1.title && r1.status == "running"
    ensures !DistinctInFlight([r0.(status := "running"), r1])
  {
    var tools := [r0.(status := "running"), r1];
    assert !Terminal(tools[0].status) && !Terminal(tools[1].status) && tools[0].title == tools[1].title;
  }

  lemma FirstRecord(r0: Rec, e: Event)
    requires r0 == Rec(ByTitle("None", 0), Some("None"), None, "completed", 0, Some(0), Some(0))
    requires e == Tool(Some("None"), "completed", None, None, 0)
    ensures Step(State([], map[], [], None), None, e) == State([r0], map[Some("None") := 1], [], Some(0))
  {
    assert InFlight([], Some("None")).None? && FindKey([], r0.key).None?;
    assert NewRec(r0.key, e) == r0;
  }

  lemma SecondRecord(r0: Rec, r1: Rec, e: Event)
    requires r0 == Rec(ByTitle("None", 0), Some("None"), None, "completed", 0, Some(0), Some(0))
    requires r1 == Rec(ByTitle("None", 1), Some("None"), None, "running", 1, None, None)
    requires e == Tool(Some("None"), "running", None, None, 1)
    ensures Step(State([r0], map[Some("None") := 1], [], Some(0)), None, e)
            == State([r0, r1], map[Some("None") := 2], [], Some(1))
  {
    hide InFlight, FindKey;
    assert InFlight([r0], Some("None")).None? && FindKey([r0], r1.key).None?;
    assert map[Some("None") := 1][Some("None") := 2] == map[Some("None") := 2];
    assert NewRec(r1.key, e) == r1;
  }

  lemma FirstAdvanced(r0: Rec, r1: Rec, e: Event)
    requires r0 == Rec(ByTitle("None", 0), Some("None"), None, "completed", 0, Some(0), Some(0))
    requires r1 == Rec(ByTitle("None", 1), Some("None"), None, "running", 1, None, None)
    requires e == Tool(None, "running", None, None, 2)
    ensures Step(State([r0, r1], map[Some("None") := 2], [], Some(1)), None, e).tools == [r0.(status := "running"), r1]
  {
    hide InFlight, FindKey;
    var tools := [r0, r1];
    assert InFlight(tools, None).None? && tools[0].key == ByTitle("None", 0) && FindKey(tools, ByTitle("None", 0)) == Some(0);
    assert Advance(r0, e) == r0.(status := "running");
    assert tools[0 := r0.(status := "running")] == [r0.(status := "running"), r1];
  }

  /**
   The guard of the failing branch, as a caller can read it off the collector before the call: the event
   has no title, is not terminal, and finds no untitled record in flight; the record it then takes over
   by its key shares its title with another record in flight.
   */
  predicate TakesOver(s: State, e: Event) {
    && e.Tool? && e.title.None? && !Terminal(StatusOf(e)) && InFlight(s.tools, None).None?
    && FindKey(s.tools, ByTitle("None", SeqOf(s.seqs, None))).Some?
    && var k := FindKey(s.tools, ByTitle("None", SeqOf(s.seqs, None))).value;
       exists j :: 0 <= j < |s.tools| && j != k && !Terminal(s.tools[j].status) && s.tools[j].title == s.tools[k].title
  }

  /** Keys are unique, and a key shows its record's title. */
  predicate KeysShow(tools: seq<Rec>) {
    && (forall a, b :: 0 <= a < b < |tools| ==> tools[a].key != tools[b].key)
    && (forall k :: 0 <= k < |tools| ==> tools[k].key.ByTitle? && tools[k].key.shown == Shown(tools[k].title))
  }

  lemma StepKeepsKeys(s: State, e: Event, turnStart: Option<int>)
    requires KeysShow(s.tools) && e.Tool? && !Truthy(e.id)
    ensures KeysShow(Step(s, turnStart, e).tools)
  {
    hide Terminal, StatusOf, Ms;
    var key := TitleKey(s.tools, s.seqs, e.title).0;
    assert key.ByTitle? && key.shown == Shown(e.title);
    var found := FindKey(s.tools, key);
    if found.Some? {
      var tools' := Step(s, turnStart, e).tools;
      assert forall j :: 0 <= j < |s.tools| && j != found.value ==> tools'[j] == s.tools[j];
    }
  }

  /** One event of a log without ids makes two records in flight share a title exactly when it takes one over. */
  lemma StepKeepsDistinctIff(s: State, e: Event, turnStart: Option<int>)
    requires KeysShow(s.tools) && DistinctInFlight(s.tools) && e.Tool? && !Truthy(e.id)
    ensures DistinctInFlight(Step(s, turnStart, e).tools) <==> !TakesOver(s, e)
  {
    hide Ms, StatusOf, Terminal;
    var at := InFlight(s.tools, e.title);
    var key := TitleKey(s.tools, s.seqs, e.title).0;
    var found := FindKey(s.tools, key);
    var tools' := Step(s, turnStart, e).tools;
    if at.Some? {
      assert found == at;
    } else if found.Some? {
      TakenOver(s, e, found.value, tools');
    }
  }

  /** No record of the event's title is in flight, and the event advances record `k`. */
  lemma TakenOver(s: State, e: Event, k: nat, tools': seq<Rec>)
    requires KeysShow(s.tools) && DistinctInFlight(s.tools) && e.Tool? && !Truthy(e.id) && InFlight(s.tools, e.title).None?
    requires FindKey(s.tools, ByTitle(Shown(e.title), SeqOf(s.seqs, e.title))) == Some(k)
    requires k < |s.tools| && tools' == s.tools[k := Advance(s.tools[k], e)]
    ensures DistinctInFlight(tools') <==> !TakesOver(s, e)
  {
    hide Ms, StatusOf, Terminal, InFlight, FindKey, SeqOf;
    assert tools'[k].title == if e.title.Some? then e.title else s.tools[k].title;
    if TakesOver(s, e) {
      var j :| 0 <= j < |s.tools| && j != k && !Terminal(s.tools[j].status) && s.tools[j].title == s.tools[k].title;
      assert tools'[j] == s.tools[j];
      assert !Terminal(tools'[k].status) && tools'[k].title == tools'[j].title;
    } else {
      forall j | 0 <= j < |tools'| && j != k && !Terminal(tools'[j].status) && !Terminal(tools'[k].status)
        ensures tools'[j].title != tools'[k].title
      {
        assert tools'[j] == s.tools[j];
      }
    }
  }

  lemma {:induction false} RunKeepsKeys(turnStart: Option<int>, log: seq<Event>)
    requires Titled(log)
    ensures KeysShow(Run(turnStart, log).tools)
  {
    hide Step, KeysShow;
    if log != [] {
      var front := log[..|log| - 1];
      RunKeepsKeys(turnStart, front);
      StepKeepsKeys(Run(turnStart, front), log[|log| - 1], turnStart);
    } else {
      assert KeysShow([]) by { NoKeys(); }
    }
  }

  lemma NoKeys()
    ensures KeysShow([]) && DistinctInFlight([])
  {
  }

  /** For every log without ids: no two records are ever in flight with one title exactly when no event takes one over. */
  lemma {:induction false} NeverTwoInFlightIff(turnStart: Option<int>, log: seq<Event>)
    requires Titled(log)
    ensures (forall n :: 0 <= n <= |log| ==> DistinctInFlight(Run(turnStart, log[..n]).tools))
            <==> forall n :: 0 <= n < |log| ==> !TakesOver(Run(turnStart, log[..n]), log[n])
  {
    hide Run, DistinctInFlight, TakesOver, KeysShow, Step;
    if log == [] {
      assert DistinctInFlight(Run(turnStart, []).tools) by { NothingRun(turnStart); }
      assert log[..0] == [];
    } else {
      var front, e := log[..|log| - 1], log[|log| - 1];
      NeverTwoInFlightIff(turnStart, front);
      assert forall n :: 0 <= n <= |front| ==> front[..n] == log[..n];
      assert log[..|log|] == front + [e];
      RunKeepsKeys(turnStart, front);
      RunStep(turnStart, front, e);
      if DistinctInFlight(Run(turnStart, front).tools) {
        StepKeepsDistinctIff(Run(turnStart, front), e, turnStart);
      }
      assert log[..|front|] == front;
    }
  }

  lemma NothingRun(turnStart: Option<int>)
    ensures Run(turnStart, []) == State([], map[], [], turnStart) && DistinctInFlight([])
  {
  }

  // ---- events of both kinds ----

  function ToolsOf(log: seq<Event>): seq<Event> {
    if log == [] then []
    else ToolsOf(log[..|log| - 1]) + if log[|log| - 1].Tool? then [log[|log| - 1]] else []
  }

  /** The model calls: each measured from the event before it, or from the start of the turn. */
  function CallsOf(turnStart: Option<int>, log: seq<Event>): seq<ModelCall> {
    if log == [] then []
    else
      var front, e := log[..|log| - 1], log[|log| - 1];
      var start := if front == [] then turnStart else Some(front[|front| - 1].at);
      CallsOf(turnStart, front)
        + if e.Tool? then []
          else [ModelCall(e.tokensIn, e.tokensOut, start, e.at, if start.Some? then Some(Ms(start.value, e.at)) else None)]
  }

  /** Usage events do not disturb the tool records. */
  lemma {:induction false} UsageIsIndependent(turnStart: Option<int>, log: seq<Event>)
    ensures Run(turnStart, log).tools == Run(turnStart, ToolsOf(log)).tools
    ensures Run(turnStart, log).seqs == Run(turnStart, ToolsOf(log)).seqs
  {
    if log != [] {
      var front, e := log[..|log| - 1], log[|log| - 1];
      UsageIsIndependent(turnStart, front);
      assert Run(turnStart, log) == Step(Run(turnStart, front), turnStart, e);
      if e.Usage? {
        assert ToolsOf(log) == ToolsOf(front) + [] == ToolsOf(front);
      } else {
        assert ToolsOf(log) == ToolsOf(front) + [e];
        RunStep(turnStart, ToolsOf(front), e);
        hide Step;
        StepOnTools(Run(turnStart, front), Run(turnStart, ToolsOf(front)), turnStart, e);
      }
    }
  }

  lemma RunStep(turnStart: Option<int>, log: seq<Event>, e: Event)
    ensures Run(turnStart, log + [e]) == Step(Run(turnStart, log), turnStart, e)
  {
    assert (log + [e])[..|log|] == log;
  }

  /** Model calls are measured from the event before them. */
  lemma {:induction false} CallsAreMeasured(turnStart: Option<int>, log: seq<Event>)
    ensures Run(turnStart, log).calls == CallsOf(turnStart, log)
    ensures Run(turnStart, log).last == if log == [] then turnStart else Some(log[|log| - 1].at)
  {
    hide KeyFor, FindKey, Advance, NewRec, Ms;
    if log != [] { CallsAreMeasured(turnStart, log[..|log| - 1]); }
  }

  lemma StepOnTools(s: State, u: State, turnStart: Option<int>, e: Event)
    requires e.Tool? && s.tools == u.tools && s.seqs == u.seqs
    ensures Step(s, turnStart, e).tools == Step(u, turnStart, e).tools
    ensures Step(s, turnStart, e).seqs == Step(u, turnStart, e).seqs
    ensures Step(s, turnStart, e).calls == s.calls
  {
    hide FindKey, InFlight, Advance, NewRec;
    assert KeyFor(s, e) == KeyFor(u, e);
  }

  function ModelReports(calls: seq<ModelCall>): seq<Report> {
    seq(|calls|, k requires 0 <= k < |calls| => ModelReport(calls[k]))
  }

  // ---- the collector ----

  class CallCollector {
    const turnStart: Option<int>
    var tools: seq<Rec>
    var titleSeq: map<Option<string>, nat>
    var modelCalls: seq<ModelCall>
    var lastEventAt: Option<int>

    function Value(): State
      reads this
    {
      State(tools, titleSeq, modelCalls, lastEventAt)
    }

    constructor (turnStart: Option<int>)
      ensures this.turnStart == turnStart && Value() == Run(turnStart, [])
    {
      this.turnStart := turnStart;
      tools, titleSeq, modelCalls := [], map[], [];
      lastEventAt := turnStart;
    }

    method OnToolCall(title: Option<string>, sentStatus: string, kind: Option<string>, id: Option<string>, now: int)
      modifies this
      ensures Value() == Step(old(Value()), turnStart, Tool(title, sentStatus, kind, id, now))
    {
      ghost var e := Tool(title, sentStatus, kind, id, now);
      var status := if sentStatus == "" then "completed" else sentStatus;
      var key;
      if id.Some? && id.value != "" {
        key := ById(id.value);
      } else {
        key := KeyForTitle(title);
      }
      var at := FindKey(tools, key);
      if at.None? {
        var rec := Rec(key, title, kind, status, now, None, None);
        if Terminal(status) {
          rec := rec.(ended := Some(now), duration := Some(Ms(now, now)));
        }
        tools := tools + [rec];
      } else {
        var rec := tools[at.value];
        if Truthy(title) {
          rec := rec.(title := title);
        }
        if Truthy(kind) {
          rec := rec.(kind := kind);
        }
        rec := rec.(status := status);
        if Terminal(status) {
          rec := rec.(ended := Some(now), duration := Some(Ms(rec.started, now)));
        }
        tools := tools[at.value := rec];
      }
      lastEventAt := Some(now);
    }

    method KeyForTitle(title: Option<string>) returns (key: Key)
      modifies this`titleSeq
      ensures (key, titleSeq) == old(TitleKey(tools, titleSeq, title))
    {
      hide Terminal, InFlight;
      var k := |tools|;
      assert tools[..k] == tools;
      while k > 0
        invariant 0 <= k <= |tools| && titleSeq == old(titleSeq)
        invariant InFlight(tools, title) == InFlight(tools[..k], title)
      {
        InFlightStep(tools, title, k);
        k := k - 1;
        if tools[k].title == title && !Terminal(tools[k].status) {
          return tools[k].key;
        }
      }
      assert tools[..k] == [] && InFlight(tools, title).None?;
      var n := SeqOf(titleSeq, title);
      titleSeq := titleSeq[title := n + 1];
      key := ByTitle(Shown(title), n);
    }

    method OnUsage(tokensIn: int, tokensOut: int, now: int)
      modifies this
      ensures Value() == Step(old(Value()), turnStart, Usage(tokensIn, tokensOut, now))
    {
      var start := if lastEventAt.Some? then lastEventAt else turnStart;
      var duration := if start.Some? then Some(Ms(start.value, now)) else None;
      modelCalls := modelCalls + [ModelCall(tokensIn, tokensOut, start, now, duration)];
      lastEventAt := Some(now);
    }

    /** The tool records in order of first sight, then the model calls. */
    method Records() returns (out: seq<Report>)
      ensures out == ToolReports(tools) + ModelReports(modelCalls)
    {
      out := [];
      for k := 0 to |tools|
        invariant out == ToolReports(tools[..k])
      {
        out := out + [ReportRec(tools[k])];
      }
      assert tools[..|tools|] == tools;
      out := out + ModelReports(modelCalls);
    }
  }
}
