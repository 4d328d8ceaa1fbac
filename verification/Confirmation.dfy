/**
 The confirmation handshake: a waiter subscribes, looks for an answer, and then polls its
 notifications; a responder stores an answer with a time to live and then publishes. Any number of
 waiters and responders interleave; one step is one Redis call and the code up to the next.
 */
module Confirmation {
  import opened Prelude

  /** Milliseconds an answer is kept. */
  const ANSWER_TTL: nat := 300_000

  datatype Topic = Topic(conv: string, req: string)

  datatype Outcome = Answer(choice: string) | TimedOut | Cancelled

  datatype WaitPc =
    | Subscribing
    | FirstLook
    | FirstTake(choice: string)
    | Polling                   // about to ask for the next notification
    | Looking                   // a notification was consumed
    | Taking(choice: string)
    | CancelCheck
    | Returned(outcome: Outcome)

  /** What a subscription delivers: its own confirmation first, then the published request ids. */
  datatype Note = Subscribed | Notify(req: string)

  datatype Waiter = Waiter(topic: Topic, timeout: nat, cancelCheck: bool, pc: WaitPc, deadline: nat, queue: seq<Note>)

  datatype RespondPc = ToStore | ToPublish | Told
  datatype Responder = Responder(topic: Topic, choice: string, pc: RespondPc)

  datatype Stored = Stored(choice: string, expiresAt: nat)

  datatype World = World(
    now: nat,
    answers: map<Topic, Stored>,
    waiters: map<nat, Waiter>,
    responders: map<nat, Responder>,
    cancelled: set<string>)

  datatype Step =
    | Tick(d: nat)
    | SetCancel(conv: string)
    | ClearCancel(conv: string)
    | Arrive(w: nat, waiter: Waiter)
    | Subscribe(w: nat)
    | LookFirst(w: nat)
    | TakeFirst(w: nat)
    | Poll(w: nat)
    | GiveUp(w: nat)
    | Look(w: nat)
    | Take(w: nat)
    | CheckCancel(w: nat)
    | Respond(r: nat, responder: Responder)
    | Store(r: nat)
    | Publish(r: nat)

  /** An answer for the topic is stored and has not expired. */
  predicate Present(s: World, t: Topic) {
    t in s.answers && s.now < s.answers[t].expiresAt
  }

  predicate Listening(pc: WaitPc) {
    !pc.Subscribing? && !pc.Returned?
  }

  /** In the `while` loop, not holding an unlooked-at notification. */
  predicate InLoop(pc: WaitPc) {
    pc.Polling? || pc.CancelCheck?
  }

  predicate WaiterAt(s: World, w: nat, pc: WaitPc) {
    w in s.waiters && s.waiters[w].pc == pc
  }

  predicate Enabled(s: World, st: Step) {
    match st
    case Tick(_) => true
    case SetCancel(_) => true
    case ClearCancel(_) => true
    case Arrive(w, waiter) => w !in s.waiters && waiter.pc.Subscribing?
    case Subscribe(w) => WaiterAt(s, w, Subscribing)
    case LookFirst(w) => WaiterAt(s, w, FirstLook)
    case TakeFirst(w) => w in s.waiters && s.waiters[w].pc.FirstTake?
    case Poll(w) => WaiterAt(s, w, Polling) && s.now < s.waiters[w].deadline
    case GiveUp(w) => WaiterAt(s, w, Polling) && s.now >= s.waiters[w].deadline
    case Look(w) => WaiterAt(s, w, Looking)
    case Take(w) => w in s.waiters && s.waiters[w].pc.Taking?
    case CheckCancel(w) => WaiterAt(s, w, CancelCheck)
    case Respond(r, responder) => r !in s.responders && responder.pc.ToStore?
    case Store(r) => r in s.responders && s.responders[r].pc.ToStore?
    case Publish(r) => r in s.responders && s.responders[r].pc.ToPublish?
  }

  function Goto(s: World, w: nat, pc: WaitPc): World
    requires w in s.waiters
  {
    s.(waiters := s.waiters[w := s.waiters[w].(pc := pc)])
  }

  /** GET of the waiter's key: go on with the answer, or to `otherwise`. */
  function LookUp(s: World, w: nat, otherwise: WaitPc, first: bool): World
    requires w in s.waiters
  {
    var t := s.waiters[w].topic;
    if !Present(s, t) then Goto(s, w, otherwise)
    else if first then Goto(s, w, FirstTake(s.answers[t].choice))
    else Goto(s, w, Taking(s.answers[t].choice))
  }

  /** DEL of the key, and return the answer read. */
  function TakeAnswer(s: World, w: nat, choice: string): World
    requires w in s.waiters
  {
    Goto(s, w, Returned(Answer(choice))).(answers := s.answers - {s.waiters[w].topic})
  }

  /** `get_message`: nothing, the ignored subscription notice, or a published request id. */
  function PollOnce(s: World, w: nat): World
    requires w in s.waiters
  {
    var me := s.waiters[w];
    if me.queue == [] then Goto(s, w, CancelCheck)
    else
      var pc := if me.queue[0].Notify? then Looking else CancelCheck;
      s.(waiters := s.waiters[w := me.(queue := me.queue[1..], pc := pc)])
  }

  function Notified(me: Waiter, t: Topic): Waiter {
    if Listening(me.pc) && me.topic.conv == t.conv then me.(queue := me.queue + [Notify(t.req)]) else me
  }

  function Next(s: World, st: Step): World
    requires Enabled(s, st)
  {
    match st
    case Tick(d) => s.(now := s.now + d)
    case SetCancel(conv) => s.(cancelled := s.cancelled + {conv})
    case ClearCancel(conv) => s.(cancelled := s.cancelled - {conv})
    case Arrive(w, waiter) => s.(waiters := s.waiters[w := waiter.(queue := [])])
    case Subscribe(w) => s.(waiters := s.waiters[w := s.waiters[w].(queue := [Subscribed], pc := FirstLook)])
    case LookFirst(w) =>
      LookUp(s.(waiters := s.waiters[w := s.waiters[w].(deadline := s.now + s.waiters[w].timeout)]), w, Polling, true)
    case TakeFirst(w) => TakeAnswer(s, w, s.waiters[w].pc.choice)
    case Poll(w) => PollOnce(s, w)
    case GiveUp(w) => Goto(s, w, Returned(TimedOut))
    case Look(w) => LookUp(s, w, CancelCheck, false)
    case Take(w) => TakeAnswer(s, w, s.waiters[w].pc.choice)
    case CheckCancel(w) =>
      if s.waiters[w].cancelCheck && s.waiters[w].topic.conv in s.cancelled then Goto(s, w, Returned(Cancelled))
      else Goto(s, w, Polling)
    case Respond(r, responder) => s.(responders := s.responders[r := responder])
    case Store(r) =>
      var me := s.responders[r];
      s.(answers := s.answers[me.topic := Stored(me.choice, s.now + ANSWER_TTL)],
         responders := s.responders[r := me.(pc := ToPublish)])
    case Publish(r) =>
      var me := s.responders[r];
      s.(waiters := map w | w in s.waiters :: Notified(s.waiters[w], me.topic),
         responders := s.responders[r := me.(pc := Told)])
  }

  // ---- no lost wakeup ----

  /** Some responder stored an answer for the topic and has not published yet. */
  ghost predicate Unpublished(responders: map<nat, Responder>, t: Topic) {
    exists r :: r in responders && responders[r].topic == t && responders[r].pc.ToPublish?
  }

  ghost predicate WillWake(s: World, me: Waiter) {
    InLoop(me.pc) && Present(s, me.topic) ==>
      Notify(me.topic.req) in me.queue || Unpublished(s.responders, me.topic)
  }

  /** A stored answer, and one a waiter has read, was given by a responder for that very topic. */
  ghost predicate Given(responders: map<nat, Responder>, t: Topic, choice: string) {
    exists r :: r in responders && responders[r].topic == t && responders[r].choice == choice
                && !responders[r].pc.ToStore?
  }

  ghost predicate HasGiven(s: World, me: Waiter) {
    && (me.pc.FirstTake? ==> Given(s.responders, me.topic, me.pc.choice))
    && (me.pc.Taking? ==> Given(s.responders, me.topic, me.pc.choice))
    && (me.pc.Returned? && me.pc.outcome.Answer? ==> Given(s.responders, me.topic, me.pc.outcome.choice))
  }

  ghost predicate Inv(s: World) {
    && (forall w | w in s.waiters :: WillWake(s, s.waiters[w]) && HasGiven(s, s.waiters[w]))
    && (forall t | t in s.answers :: Given(s.responders, t, s.answers[t].choice))
  }

  /** Responders only come and move on, so what was given stays given. */
  lemma GivenStays(responders: map<nat, Responder>, r: nat, me: Responder, t: Topic, choice: string)
    requires Given(responders, t, choice)
    requires r in responders ==> responders[r].topic == me.topic && responders[r].choice == me.choice && !me.pc.ToStore?
    ensures Given(responders[r := me], t, choice)
  {
    var g :| g in responders && responders[g].topic == t && responders[g].choice == choice && !responders[g].pc.ToStore?;
    assert g in responders[r := me];
  }

  /** A waiter's own step: everyone else, and the responders, are as before. */
  lemma WaiterMoves(s: World, s': World, w: nat)
    requires Inv(s) && w in s.waiters && w in s'.waiters
    requires s'.waiters == s.waiters[w := s'.waiters[w]] && s'.responders == s.responders && s'.now == s.now
    requires forall t | t in s'.answers :: t in s.answers && s'.answers[t] == s.answers[t]
    requires WillWake(s', s'.waiters[w]) && HasGiven(s', s'.waiters[w])
    ensures Inv(s')
  {
  }

  lemma LookUpKeepsInv(s: World, w: nat, otherwise: WaitPc, first: bool)
    requires Inv(s) && w in s.waiters && InLoop(otherwise)
    ensures Inv(LookUp(s, w, otherwise, first))
  {
    WaiterMoves(s, LookUp(s, w, otherwise, first), w);
  }

  lemma PollKeepsInv(s: World, w: nat)
    requires Inv(s) && Enabled(s, Poll(w))
    ensures Inv(PollOnce(s, w))
  {
    var me := s.waiters[w];
    if me.queue != [] {
      assert me.queue == [me.queue[0]] + me.queue[1..];
    }
    WaiterMoves(s, PollOnce(s, w), w);
  }

  lemma StoreKeepsInv(s: World, r: nat)
    requires Inv(s) && Enabled(s, Store(r))
    ensures Inv(Next(s, Store(r)))
  {
    var s' := Next(s, Store(r));
    var me := s.responders[r];
    assert s'.responders[r].pc.ToPublish? && s'.responders[r].topic == me.topic && s'.responders[r].choice == me.choice;
    forall t, choice | Given(s.responders, t, choice) ensures Given(s'.responders, t, choice) {
      GivenStays(s.responders, r, s'.responders[r], t, choice);
    }
    forall w | w in s'.waiters ensures WillWake(s', s'.waiters[w]) && HasGiven(s', s'.waiters[w]) {
      assert WillWake(s, s.waiters[w]) && HasGiven(s, s.waiters[w]);
      var t := s.waiters[w].topic;
      if t != me.topic && Unpublished(s.responders, t) {
        var q :| q in s.responders && s.responders[q].topic == t && s.responders[q].pc.ToPublish?;
        assert q in s'.responders && s'.responders[q] == s.responders[q];
      }
    }
  }

  lemma PublishKeepsInv(s: World, r: nat)
    requires Inv(s) && Enabled(s, Publish(r))
    ensures Inv(Next(s, Publish(r)))
  {
    var s' := Next(s, Publish(r));
    var me := s.responders[r];
    forall t, choice | Given(s.responders, t, choice) ensures Given(s'.responders, t, choice) {
      GivenStays(s.responders, r, s'.responders[r], t, choice);
    }
    forall w | w in s'.waiters ensures WillWake(s', s'.waiters[w]) && HasGiven(s', s'.waiters[w]) {
      assert WillWake(s, s.waiters[w]) && HasGiven(s, s.waiters[w]);
      var t := s.waiters[w].topic;
      if t == me.topic && InLoop(s.waiters[w].pc) {
        assert s'.waiters[w].queue[|s.waiters[w].queue|] == Notify(t.req);
      } else if Unpublished(s.responders, t) {
        var q :| q in s.responders && s.responders[q].topic == t && s.responders[q].pc.ToPublish?;
        assert q in s'.responders && (t == me.topic || s'.responders[q] == s.responders[q]);
      }
      if Notify(t.req) in s.waiters[w].queue {
        var k :| 0 <= k < |s.waiters[w].queue| && s.waiters[w].queue[k] == Notify(t.req);
        assert s'.waiters[w].queue[k] == Notify(t.req);
      }
    }
  }

  lemma RespondKeepsInv(s: World, r: nat, responder: Responder)
    requires Inv(s) && Enabled(s, Respond(r, responder))
    ensures Inv(Next(s, Respond(r, responder)))
  {
    var s' := Next(s, Respond(r, responder));
    forall t, choice | Given(s.responders, t, choice) ensures Given(s'.responders, t, choice) {
      GivenStays(s.responders, r, responder, t, choice);
    }
    forall t | Unpublished(s.responders, t) ensures Unpublished(s'.responders, t) {
      var q :| q in s.responders && s.responders[q].topic == t && s.responders[q].pc.ToPublish?;
      assert q in s'.responders && s'.responders[q] == s.responders[q];
    }
  }

  lemma StepKeepsInv(s: World, st: Step)
    requires Inv(s) && Enabled(s, st)
    ensures Inv(Next(s, st))
  {
    hide Given, Unpublished, PollOnce, LookUp, Notified;
    var s' := Next(s, st);
    match st {
      case Tick(_) =>
      case SetCancel(_) =>
      case ClearCancel(_) =>
      case Arrive(_, _) =>
      case Subscribe(w) => WaiterMoves(s, s', w);
      case LookFirst(w) =>
        var s1 := s.(waiters := s.waiters[w := s.waiters[w].(deadline := s.now + s.waiters[w].timeout)]);
        WaiterMoves(s, s1, w);
        LookUpKeepsInv(s1, w, Polling, true);
      case TakeFirst(w) => WaiterMoves(s, s', w);
      case Poll(w) => PollKeepsInv(s, w);
      case GiveUp(w) => WaiterMoves(s, s', w);
      case Look(w) => LookUpKeepsInv(s, w, CancelCheck, false);
      case Take(w) => WaiterMoves(s, s', w);
      case CheckCancel(w) => WaiterMoves(s, s', w);
      case Respond(r, responder) => RespondKeepsInv(s, r, responder);
      case Store(r) => StoreKeepsInv(s, r);
      case Publish(r) => PublishKeepsInv(s, r);
    }
  }

  ghost predicate CanRun(s: World, steps: seq<Step>)
    decreases steps
  {
    steps == [] || (Enabled(s, steps[0]) && CanRun(Next(s, steps[0]), steps[1..]))
  }

  ghost function After(s: World, steps: seq<Step>): World
    requires CanRun(s, steps)
    decreases steps
  {
    if steps == [] then s else After(Next(s, steps[0]), steps[1..])
  }

  ghost predicate Initial(s: World) {
    s.answers == map[] && s.waiters == map[] && s.responders == map[]
  }

  lemma {:induction false} RunKeepsInv(s: World, steps: seq<Step>)
    requires Inv(s) && CanRun(s, steps)
    ensures Inv(After(s, steps))
    decreases steps
  {
    if steps != [] {
      StepKeepsInv(s, steps[0]);
      RunKeepsInv(Next(s, steps[0]), steps[1..]);
    }
  }

  ghost predicate Reachable(s: World) {
    exists s0, steps :: Initial(s0) && CanRun(s0, steps) && After(s0, steps) == s
  }

  lemma ReachableInv(s: World)
    requires Reachable(s)
    ensures Inv(s)
  {
    var s0, steps :| Initial(s0) && CanRun(s0, steps) && After(s0, steps) == s;
    RunKeepsInv(s0, steps);
  }

  /**
   No lost wakeup: in every interleaving, while a waiter is in its loop and its answer is stored, a
   notification for it is queued or the responder has not yet published.
   */
  lemma NoLostWakeup(s: World, w: nat)
    requires Reachable(s) && w in s.waiters && InLoop(s.waiters[w].pc) && Present(s, s.waiters[w].topic)
    ensures Notify(s.waiters[w].topic.req) in s.waiters[w].queue || Unpublished(s.responders, s.waiters[w].topic)
  {
    ReachableInv(s);
  }

  /** A waiter only ever returns an answer some responder stored for its own request. */
  lemma ReturnsGivenAnswer(s: World, w: nat, choice: string)
    requires Reachable(s) && WaiterAt(s, w, Returned(Answer(choice)))
    ensures Given(s.responders, s.waiters[w].topic, choice)
  {
    ReachableInv(s);
  }

  /** The steps of waiter `w` alone. */
  predicate StepOf(st: Step, w: nat) {
    match st
    case Poll(v) => v == w
    case Look(v) => v == w
    case Take(v) => v == w
    case CheckCancel(v) => v == w
    case _ => false
  }

  /** The waiter is not told to stop: its deadline is ahead and its conversation is not cancelled. */
  predicate MayGoOn(s: World, w: nat)
    requires w in s.waiters
  {
    s.now < s.waiters[w].deadline && !(s.waiters[w].cancelCheck && s.waiters[w].topic.conv in s.cancelled)
  }

  /**
   From any polling waiter with a published, stored answer, its own next polls return that answer and
   remove the key, whatever other notifications are queued ahead of it.
   */
  lemma {:induction false} PollsReturnAnswer(s: World, w: nat) returns (steps: seq<Step>)
    requires WaiterAt(s, w, Polling) && MayGoOn(s, w) && Present(s, s.waiters[w].topic)
    requires exists k :: 0 <= k < |s.waiters[w].queue| && s.waiters[w].queue[k].Notify?
    ensures CanRun(s, steps) && (forall i | 0 <= i < |steps| :: StepOf(steps[i], w))
    ensures |steps| <= 2 * |s.waiters[w].queue| + 1
    ensures var s' := After(s, steps);
      && WaiterAt(s', w, Returned(Answer(s.answers[s.waiters[w].topic].choice)))
      && s.waiters[w].topic !in s'.answers
    decreases |s.waiters[w].queue|
  {
    var me := s.waiters[w];
    var s1 := Next(s, Poll(w));
    if me.queue[0].Notify? {
      var s2 := Next(s1, Look(w));
      var s3 := Next(s2, Take(w));
      steps := [Poll(w), Look(w), Take(w)];
      RunThree(s, Poll(w), Look(w), Take(w));
    } else {
      var s2 := Next(s1, CheckCancel(w));
      var k :| 0 <= k < |me.queue| && me.queue[k].Notify?;
      assert s2.waiters[w].queue[k - 1] == me.queue[k];
      var rest := PollsReturnAnswer(s2, w);
      steps := [Poll(w), CheckCancel(w)] + rest;
      RunTwoThen(s, Poll(w), CheckCancel(w), rest);
    }
  }

  lemma RunThree(s: World, a: Step, b: Step, c: Step)
    requires Enabled(s, a) && Enabled(Next(s, a), b) && Enabled(Next(Next(s, a), b), c)
    ensures CanRun(s, [a, b, c]) && After(s, [a, b, c]) == Next(Next(Next(s, a), b), c)
  {
    var s1 := Next(s, a);
    var s2 := Next(s1, b);
    assert [a, b, c][1..] == [b, c] && [b, c][1..] == [c] && [c][1..] == [];
    assert CanRun(s2, [c]) && After(s2, [c]) == Next(s2, c);
    assert CanRun(s1, [b, c]) && After(s1, [b, c]) == Next(s2, c);
  }

  lemma RunTwoThen(s: World, a: Step, b: Step, rest: seq<Step>)
    requires Enabled(s, a) && Enabled(Next(s, a), b) && CanRun(Next(Next(s, a), b), rest)
    ensures CanRun(s, [a, b] + rest) && After(s, [a, b] + rest) == After(Next(Next(s, a), b), rest)
  {
    var s1 := Next(s, a);
    assert ([a, b] + rest)[1..] == [b] + rest && ([b] + rest)[1..] == rest;
    assert CanRun(s1, [b] + rest) && After(s1, [b] + rest) == After(Next(s1, b), rest);
  }

  // ---- how a wait begins and ends ----

  /** An answer that is there before the wait is returned after the first look, and its key removed. */
  lemma EarlyAnswerReturns(s: World, w: nat)
    requires WaiterAt(s, w, Subscribing) && Present(s, s.waiters[w].topic)
    ensures var steps := [Subscribe(w), LookFirst(w), TakeFirst(w)]; var t := s.waiters[w].topic;
      && CanRun(s, steps)
      && WaiterAt(After(s, steps), w, Returned(Answer(s.answers[t].choice)))
      && After(s, steps).answers == s.answers - {t}
  {
    RunThree(s, Subscribe(w), LookFirst(w), TakeFirst(w));
  }

  /** Otherwise the wait polls, with its whole timeout before it, and hears every answer published from then on. */
  lemma WaitBegins(s: World, w: nat)
    requires WaiterAt(s, w, Subscribing) && !Present(s, s.waiters[w].topic)
    ensures Enabled(s, Subscribe(w)) && Enabled(Next(s, Subscribe(w)), LookFirst(w))
    ensures var s' := Next(Next(s, Subscribe(w)), LookFirst(w));
      && WaiterAt(s', w, Polling) && s'.waiters[w].queue == [Subscribed]
      && s'.waiters[w].deadline == s.now + s.waiters[w].timeout && s'.waiters[w].topic == s.waiters[w].topic
      && s'.answers == s.answers && s'.now == s.now
  {
  }

  /** A polling waiter goes on before its deadline, and gives up from then on: never both, never neither. */
  lemma TimesOutIff(s: World, w: nat)
    requires WaiterAt(s, w, Polling)
    ensures Enabled(s, GiveUp(w)) <==> s.now >= s.waiters[w].deadline
    ensures Enabled(s, Poll(w)) <==> s.now < s.waiters[w].deadline
    ensures Enabled(s, GiveUp(w)) ==> WaiterAt(Next(s, GiveUp(w)), w, Returned(TimedOut)) && Next(s, GiveUp(w)).answers == s.answers
  {
  }

  /** One turn of the loop without a notification ends the wait exactly if it watches a flag that is set. */
  lemma CancelledIff(s: World, w: nat)
    requires WaiterAt(s, w, Polling) && s.now < s.waiters[w].deadline
    requires s.waiters[w].queue == [] || s.waiters[w].queue[0] == Subscribed
    ensures Enabled(s, Poll(w)) && Enabled(Next(s, Poll(w)), CheckCancel(w))
    ensures var s' := Next(Next(s, Poll(w)), CheckCancel(w)); var me := s.waiters[w];
      && WaiterAt(s', w, if me.cancelCheck && me.topic.conv in s.cancelled then Returned(Cancelled) else Polling)
      && s'.answers == s.answers && |s'.waiters[w].queue| == if me.queue == [] then 0 else |me.queue| - 1
  {
  }

  /** A notification whose answer is gone leaves the waiter in its loop, unless it is cancelled. */
  lemma StaleNoteGoesOn(s: World, w: nat)
    requires WaiterAt(s, w, Looking) && !Present(s, s.waiters[w].topic)
    ensures Enabled(s, Look(w)) && WaiterAt(Next(s, Look(w)), w, CancelCheck) && Next(s, Look(w)).answers == s.answers
  {
  }

  /** An answer can be read for five minutes from when it was stored, unless somebody reads it or stores another. */
  lemma AnswerLives(s: World, r: nat, d: nat)
    requires r in s.responders && s.responders[r].pc.ToStore?
    ensures Enabled(s, Store(r))
    ensures var s' := Next(s, Store(r)); var t := s.responders[r].topic;
      && t in s'.answers && s'.answers[t].choice == s.responders[r].choice
      && (Present(Next(s', Tick(d)), t) <==> d < 300_000)
  {
  }

  /** The whole handshake: a responder answers a polling waiter, whose own next steps return that very choice. */
  lemma AnsweredWaiterReturns(s: World, w: nat, r: nat) returns (steps: seq<Step>)
    requires WaiterAt(s, w, Polling) && MayGoOn(s, w)
    requires r in s.responders && s.responders[r].pc.ToStore? && s.responders[r].topic == s.waiters[w].topic
    ensures CanRun(s, [Store(r), Publish(r)] + steps) && forall i | 0 <= i < |steps| :: StepOf(steps[i], w)
    ensures var s' := After(s, [Store(r), Publish(r)] + steps);
      && WaiterAt(s', w, Returned(Answer(s.responders[r].choice)))
      && s.waiters[w].topic !in s'.answers
  {
    var s1 := Next(s, Store(r));
    var s2 := Next(s1, Publish(r));
    var n := |s.waiters[w].queue|;
    assert s2.waiters[w] == s.waiters[w].(queue := s.waiters[w].queue + [Notify(s.waiters[w].topic.req)]);
    assert s2.waiters[w].queue[n].Notify?;
    steps := PollsReturnAnswer(s2, w);
    RunTwoThen(s, Store(r), Publish(r), steps);
  }
}
