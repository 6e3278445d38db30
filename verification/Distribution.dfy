/** Publishers, the one-message stream, and the subscribers that rebuild their indexes from it. */
module Distribution {
  import opened GoText
  import opened Sources
  import opened Registry

  /**
   * One message ever stored, with the number of messages its publisher had seen when it
   * compared; None when that read failed. The k-th publication has sequence number k + 1, and
   * the stream keeps only the last one.
   */
  datatype Publication = Publication(sources: seq<RawSource>, seen: Option<nat>)

  datatype Attempt = Fetched(sources: seq<RawSource>) | Compared(sources: seq<RawSource>, seen: Option<nat>)

  /**
   * A running process and the name of its durable consumer, which other processes may share.
   * The inbox, the message in the handler and the handled list are its own; ackedBefore is what
   * its name had acknowledged when it started, and taken what another process of that name has
   * acknowledged since without its having been sent here.
   */
  datatype Subscriber = Subscriber(
    durable: Text,
    admin: set<Text>,
    fixed: seq<RawSource>,
    controls: Controls,
    inbox: seq<nat>,
    handling: Option<nat>,
    handled: seq<nat>,
    ackedBefore: set<nat>,
    taken: set<nat>)

  /** The stream's messages, publications under way, what each durable name has acknowledged, and the processes. */
  datatype State = State(
    published: seq<Publication>,
    attempts: map<nat, Attempt>,
    acked: map<Text, set<nat>>,
    subscribers: seq<Subscriber>)

  datatype Step =
    | Fetch(publisher: nat, sources: seq<RawSource>)
    | Compare(publisher: nat, read: bool)
    | Publish(publisher: nat, stored: bool)
    | Join(durable: Text, admin: set<Text>, fixed: seq<RawSource>)
    | Deliver(subscriber: nat)
    | Handle(subscriber: nat)
    | Ack(subscriber: nat, arrives: bool)
    | Restart(subscriber: nat)

  const INIT: State := State([], map[], map[], [])

  function Data(sources: seq<RawSource>): seq<WireSource> {
    EncodeSources(sources)
  }

  function Acked(s: State, durable: Text): set<nat> {
    if durable in s.acked then s.acked[durable] else {}
  }

  function Joined(durable: Text, admin: set<Text>, fixed: seq<RawSource>, acked: set<nat>): Subscriber {
    Subscriber(durable, admin, fixed, Build(admin, fixed), [], None, [], acked, {})
  }

  /** What an acknowledgement means for a process: the message will not be sent to it any more. */
  function Notice(sub: Subscriber, durable: Text, n: nat): Subscriber {
    if sub.durable == durable && n !in sub.handled + sub.inbox then sub.(taken := sub.taken + {n}) else sub
  }

  function AckStep(s: State, durable: Text, n: nat): State {
    s.(acked := s.acked[durable := Acked(s, durable) + {n}],
       subscribers := seq(|s.subscribers|, j requires 0 <= j < |s.subscribers| => Notice(s.subscribers[j], durable, n)))
  }

  function Update(s: State, i: nat, sub: Subscriber): State
    requires i < |s.subscribers|
  {
    s.(subscribers := s.subscribers[i := sub])
  }

  function CompareStep(s: State, p: nat, sources: seq<RawSource>, read: bool): State {
    var n := |s.published|;
    if read && n > 0 && Data(s.published[n - 1].sources) == Data(sources) then s.(attempts := s.attempts - {p})
    else s.(attempts := s.attempts[p := Compared(sources, if read then Some(n) else None)])
  }

  /** The indexes after a message, decoded as RefreshControls decodes it. */
  function Refresh(parse: Parser, sub: Subscriber, data: seq<WireSource>): Controls {
    match DecodeSources(parse, data)
    case None => sub.controls
    case Some(sources) => Build(sub.admin, sub.fixed + sources)
  }

  function HandleStep(parse: Parser, s: State, sub: Subscriber): Subscriber
    requires sub.inbox != []
  {
    var n := sub.inbox[0];
    var taken := sub.(inbox := sub.inbox[1..], handling := Some(n), handled := sub.handled + [n]);
    if 1 <= n <= |s.published| then taken.(controls := Refresh(parse, sub, Data(s.published[n - 1].sources))) else taken
  }

  /** The stream's one message is delivered, or delivered again, as long as it is not acknowledged. */
  predicate Deliverable(s: State, sub: Subscriber) {
    |s.published| > 0 && |s.published| !in Acked(s, sub.durable)
  }

  /** A step that is not enabled changes nothing. */
  function Next(parse: Parser, s: State, step: Step): State {
    match step
    case Fetch(p, sources) =>
      if p !in s.attempts && forall i :: 0 <= i < |sources| ==> Parsed(parse, sources[i])
      then s.(attempts := s.attempts[p := Fetched(sources)]) else s
    case Compare(p, read) =>
      if p in s.attempts && s.attempts[p].Fetched? then CompareStep(s, p, s.attempts[p].sources, read) else s
    case Publish(p, stored) =>
      if p !in s.attempts || !s.attempts[p].Compared? then s
      else
        var done := s.(attempts := s.attempts - {p});
        if stored then done.(published := s.published + [Publication(s.attempts[p].sources, s.attempts[p].seen)]) else done
    case Join(durable, admin, fixed) =>
      s.(subscribers := s.subscribers + [Joined(durable, admin, fixed, Acked(s, durable))])
    case Deliver(i) =>
      if i < |s.subscribers| && Deliverable(s, s.subscribers[i])
      then Update(s, i, s.subscribers[i].(inbox := s.subscribers[i].inbox + [|s.published|])) else s
    case Handle(i) =>
      if i < |s.subscribers| && s.subscribers[i].handling.None? && s.subscribers[i].inbox != []
      then Update(s, i, HandleStep(parse, s, s.subscribers[i])) else s
    case Ack(i, arrives) =>
      if i < |s.subscribers| && s.subscribers[i].handling.Some? then
        var sub := s.subscribers[i];
        var s1 := Update(s, i, sub.(handling := None));
        if arrives then AckStep(s1, sub.durable, sub.handling.value) else s1
      else s
    case Restart(i) =>
      if i < |s.subscribers| then
        var sub := s.subscribers[i];
        Update(s, i, Joined(sub.durable, sub.admin, sub.fixed, Acked(s, sub.durable)))
      else s
  }

  function Run(parse: Parser, s: State, steps: seq<Step>): State
    decreases |steps|
  {
    if steps == [] then s else Run(parse, Next(parse, s, steps[0]), steps[1..])
  }

  // Invariants

  predicate Sorted(ns: seq<nat>) {
    forall i, j :: 0 <= i < j < |ns| ==> ns[i] <= ns[j]
  }

  /** What the newest handled message says, without the flag it cannot carry. */
  function Newest(published: seq<Publication>, handled: seq<nat>): seq<RawSource> {
    if handled == [] then []
    else
      var n := handled[|handled| - 1];
      if 1 <= n <= |published| then EraseNoAuth(published[n - 1].sources) else []
  }

  /** The messages that a process can no longer be sent. */
  function Barred(sub: Subscriber): set<nat> {
    sub.ackedBefore + sub.taken
  }

  ghost predicate SubscriberOK(published: seq<Publication>, acked: set<nat>, sub: Subscriber) {
    && Sorted(sub.handled + sub.inbox)
    && (forall n :: n in sub.handled + sub.inbox ==> 1 <= n <= |published| && n !in Barred(sub))
    && (sub.handling.Some? ==> sub.handled != [] && sub.handling.value == sub.handled[|sub.handled| - 1])
    && Barred(sub) <= acked
    && (forall n :: n in acked ==> 1 <= n <= |published| && (n in Barred(sub) || n in sub.handled + sub.inbox))
    && (|published| in sub.ackedBefore ==> sub.handled == [] && sub.inbox == [])
    && sub.controls == Build(sub.admin, sub.fixed + Newest(published, sub.handled))
  }

  ghost predicate OK(s: State, sub: Subscriber) {
    SubscriberOK(s.published, Acked(s, sub.durable), sub)
  }

  /** The comparison a publication went through found other data in the message it saw. */
  predicate Differs(published: seq<Publication>, sources: seq<RawSource>, seen: Option<nat>) {
    seen.Some? ==>
      && seen.value <= |published|
      && (seen.value > 0 ==> Data(published[seen.value - 1].sources) != Data(sources))
  }

  ghost predicate Invariant(parse: Parser, s: State) {
    && (forall k :: 0 <= k < |s.published| ==>
          && (forall i :: 0 <= i < |s.published[k].sources| ==> Parsed(parse, s.published[k].sources[i]))
          && Differs(s.published[..k], s.published[k].sources, s.published[k].seen))
    && (forall p :: p in s.attempts ==>
          && (forall i :: 0 <= i < |s.attempts[p].sources| ==> Parsed(parse, s.attempts[p].sources[i]))
          && (s.attempts[p].Compared? ==> Differs(s.published, s.attempts[p].sources, s.attempts[p].seen)))
    && (forall d, n :: d in s.acked && n in s.acked[d] ==> 1 <= n <= |s.published|)
    && (forall i :: 0 <= i < |s.subscribers| ==> OK(s, s.subscribers[i]))
  }

  lemma PublishKeepsSubscriber(published: seq<Publication>, acked: set<nat>, sub: Subscriber, p: Publication)
    requires SubscriberOK(published, acked, sub)
    ensures SubscriberOK(published + [p], acked, sub)
  {
    if sub.handled != [] {
      var n := sub.handled[|sub.handled| - 1];
      assert n in sub.handled + sub.inbox;
    }
  }

  lemma DeliverKeeps(s: State, sub: Subscriber)
    requires OK(s, sub) && Deliverable(s, sub)
    ensures OK(s, sub.(inbox := sub.inbox + [|s.published|]))
  {
    var all := sub.handled + sub.inbox;
    assert sub.handled + (sub.inbox + [|s.published|]) == all + [|s.published|];
    assert forall i :: 0 <= i < |all| ==> all[i] in all;
  }

  lemma HandledControls(parse: Parser, s: State, sub: Subscriber)
    requires Invariant(parse, s) && sub.inbox != [] && 1 <= sub.inbox[0] <= |s.published|
    ensures var sub' := HandleStep(parse, s, sub);
            sub'.controls == Build(sub.admin, sub.fixed + Newest(s.published, sub'.handled))
  {
    var n := sub.inbox[0];
    var sources := s.published[n - 1].sources;
    PublishedSourcesDecode(parse, sources);
    assert Refresh(parse, sub, Data(sources)) == Build(sub.admin, sub.fixed + EraseNoAuth(sources));
    assert Newest(s.published, sub.handled + [n]) == EraseNoAuth(sources);
  }

  lemma TakeKeeps(published: seq<Publication>, acked: set<nat>, sub: Subscriber, controls: Controls)
    requires SubscriberOK(published, acked, sub) && sub.inbox != []
    requires controls == Build(sub.admin, sub.fixed + Newest(published, sub.handled + [sub.inbox[0]]))
    ensures SubscriberOK(published, acked, sub.(inbox := sub.inbox[1..], handling := Some(sub.inbox[0]),
                                                handled := sub.handled + [sub.inbox[0]], controls := controls))
  {
    var handled := sub.handled + [sub.inbox[0]];
    assert handled + sub.inbox[1..] == sub.handled + sub.inbox;
    assert handled != [] && handled[|handled| - 1] == sub.inbox[0];
    assert |published| in sub.ackedBefore ==> sub.inbox == [];
  }

  lemma HandleKeeps(parse: Parser, s: State, sub: Subscriber)
    requires Invariant(parse, s) && OK(s, sub) && sub.inbox != []
    ensures OK(s, HandleStep(parse, s, sub))
  {
    assert sub.inbox[0] in sub.handled + sub.inbox;
    HandledControls(parse, s, sub);
    TakeKeeps(s.published, Acked(s, sub.durable), sub, HandleStep(parse, s, sub).controls);
  }

  /** An acknowledgement of a message sent to some process of the name suits every process of it. */
  lemma NoticeKeeps(published: seq<Publication>, acked: set<nat>, sub: Subscriber, n: nat)
    requires SubscriberOK(published, acked, sub) && 1 <= n <= |published|
    ensures SubscriberOK(published, acked + {n}, Notice(sub, sub.durable, n))
  {
  }

  lemma AckKeeps(parse: Parser, s: State, durable: Text, n: nat)
    requires Invariant(parse, s) && 1 <= n <= |s.published|
    ensures Invariant(parse, AckStep(s, durable, n))
  {
    var s' := AckStep(s, durable, n);
    forall j | 0 <= j < |s'.subscribers|
      ensures OK(s', s'.subscribers[j])
    {
      var sub := s.subscribers[j];
      assert OK(s, sub);
      if sub.durable == durable {
        NoticeKeeps(s.published, Acked(s, durable), sub, n);
      }
    }
  }

  lemma JoinedOK(s: State, durable: Text, admin: set<Text>, fixed: seq<RawSource>)
    requires forall n :: n in Acked(s, durable) ==> 1 <= n <= |s.published|
    ensures OK(s, Joined(durable, admin, fixed, Acked(s, durable)))
  {
    assert fixed + [] == fixed;
  }

  lemma UpdateKeeps(parse: Parser, s: State, i: nat, sub: Subscriber)
    requires Invariant(parse, s) && i < |s.subscribers| && OK(s, sub)
    ensures Invariant(parse, Update(s, i, sub))
  {
    var s' := Update(s, i, sub);
    forall j | 0 <= j < |s'.subscribers|
      ensures OK(s', s'.subscribers[j])
    {
      var it := if j == i then sub else s.subscribers[j];
      assert OK(s, it) && s'.published == s.published && s'.acked == s.acked;
    }
  }

  lemma {:induction false} PublishKeeps(parse: Parser, s: State, p: nat)
    requires Invariant(parse, s) && p in s.attempts && s.attempts[p].Compared?
    ensures Invariant(parse, Next(parse, s, Publish(p, true)))
  {
    var s' := Next(parse, s, Publish(p, true));
    var it := Publication(s.attempts[p].sources, s.attempts[p].seen);
    forall k | 0 <= k < |s'.published|
      ensures Differs(s'.published[..k], s'.published[k].sources, s'.published[k].seen)
    {
      assert s'.published[..k] == s.published[..k];
    }
    forall i | 0 <= i < |s'.subscribers|
      ensures OK(s', s'.subscribers[i])
    {
      assert OK(s, s.subscribers[i]);
      PublishKeepsSubscriber(s.published, Acked(s, s.subscribers[i].durable), s.subscribers[i], it);
    }
  }

  lemma JoinKeeps(parse: Parser, s: State, durable: Text, admin: set<Text>, fixed: seq<RawSource>)
    requires Invariant(parse, s)
    ensures Invariant(parse, Next(parse, s, Join(durable, admin, fixed)))
  {
    var s' := Next(parse, s, Join(durable, admin, fixed));
    JoinedOK(s, durable, admin, fixed);
    forall i | 0 <= i < |s'.subscribers|
      ensures OK(s', s'.subscribers[i])
    {
      if i < |s.subscribers| {
        assert OK(s, s.subscribers[i]);
      }
    }
  }

  lemma PublisherKeeps(parse: Parser, s: State, step: Step)
    requires Invariant(parse, s) && (step.Fetch? || step.Compare? || (step.Publish? && !step.stored))
    ensures Invariant(parse, Next(parse, s, step))
  {
    match step
    case Fetch(p, sources) =>
      if Next(parse, s, step) != s {
        AttemptsKeep(parse, s, s.attempts[p := Fetched(sources)]);
      }
    case Compare(p, read) =>
      if p in s.attempts && s.attempts[p].Fetched? {
        AttemptsKeep(parse, s, s.attempts - {p});
        AttemptsKeep(parse, s, s.attempts[p := Compared(s.attempts[p].sources, if read then Some(|s.published|) else None)]);
      }
    case Publish(p, _) => AttemptsKeep(parse, s, s.attempts - {p});
  }

  predicate AttemptOK(parse: Parser, s: State, a: Attempt) {
    (forall i :: 0 <= i < |a.sources| ==> Parsed(parse, a.sources[i])) && (a.Compared? ==> Differs(s.published, a.sources, a.seen))
  }

  /** Only the attempts change, and each of them is in order. */
  lemma AttemptsKeep(parse: Parser, s: State, attempts: map<nat, Attempt>)
    requires Invariant(parse, s)
    ensures (forall p :: p in attempts ==> AttemptOK(parse, s, attempts[p])) ==> Invariant(parse, s.(attempts := attempts))
    ensures forall p :: p in s.attempts ==> AttemptOK(parse, s, s.attempts[p])
  {
    forall i | 0 <= i < |s.subscribers|
      ensures OK(s.(attempts := attempts), s.subscribers[i])
    {
      assert OK(s, s.subscribers[i]);
    }
  }

  /** A step of one process of its own: a delivery, a handling, an acknowledgement or a restart. */
  lemma ProcessKeeps(parse: Parser, s: State, step: Step)
    requires Invariant(parse, s) && (step.Deliver? || step.Handle? || step.Ack? || step.Restart?)
    requires step.subscriber < |s.subscribers|
    ensures Invariant(parse, Next(parse, s, step))
  {
    var i := step.subscriber;
    var sub := s.subscribers[i];
    assert OK(s, sub);
    match step
    case Deliver(_) =>
      if Deliverable(s, sub) {
        DeliverKeeps(s, sub);
        UpdateKeeps(parse, s, i, sub.(inbox := sub.inbox + [|s.published|]));
      }
    case Handle(_) =>
      if sub.handling.None? && sub.inbox != [] {
        HandleKeeps(parse, s, sub);
        UpdateKeeps(parse, s, i, HandleStep(parse, s, sub));
      }
    case Ack(_, arrives) =>
      if sub.handling.Some? {
        assert sub.handling.value in sub.handled + sub.inbox;
        var s1 := Update(s, i, sub.(handling := None));
        UpdateKeeps(parse, s, i, sub.(handling := None));
        AckKeeps(parse, s1, sub.durable, sub.handling.value);
      }
    case Restart(_) =>
      JoinedOK(s, sub.durable, sub.admin, sub.fixed);
      UpdateKeeps(parse, s, i, Joined(sub.durable, sub.admin, sub.fixed, Acked(s, sub.durable)));
  }

  lemma NextKeeps(parse: Parser, s: State, step: Step)
    requires Invariant(parse, s)
    ensures Invariant(parse, Next(parse, s, step))
  {
    match step
    case Join(durable, admin, fixed) => JoinKeeps(parse, s, durable, admin, fixed);
    case Publish(p, stored) =>
      if stored && p in s.attempts && s.attempts[p].Compared? {
        PublishKeeps(parse, s, p);
      } else if !stored {
        PublisherKeeps(parse, s, step);
      }
    case Fetch(_, _) => PublisherKeeps(parse, s, step);
    case Compare(_, _) => PublisherKeeps(parse, s, step);
    case _ =>
      if step.subscriber < |s.subscribers| {
        ProcessKeeps(parse, s, step);
      }
  }

  lemma {:induction false} RunKeeps(parse: Parser, s: State, steps: seq<Step>)
    requires Invariant(parse, s)
    ensures Invariant(parse, Run(parse, s, steps))
    decreases |steps|
  {
    if steps != [] {
      NextKeeps(parse, s, steps[0]);
      RunKeeps(parse, Next(parse, s, steps[0]), steps[1..]);
    }
  }

  // What holds in every run

  ghost predicate Reachable(parse: Parser, s: State) {
    exists steps :: Run(parse, INIT, steps) == s
  }

  lemma ReachableKeeps(parse: Parser, s: State)
    requires Reachable(parse, s)
    ensures Invariant(parse, s)
  {
    var steps :| Run(parse, INIT, steps) == s;
    RunKeeps(parse, INIT, steps);
  }

  lemma SortedPrefix(handled: seq<nat>, inbox: seq<nat>)
    requires Sorted(handled + inbox)
    ensures Sorted(handled)
  {
    forall a, b | 0 <= a < b < |handled|
      ensures handled[a] <= handled[b]
    {
      assert (handled + inbox)[a] <= (handled + inbox)[b];
    }
  }

  /**
   * Safety: in every run, each subscriber's indexes are those of its own sources followed by
   * the newest message it has handled, without any NoAuth flag, and the sequence numbers it
   * handles never decrease, however often messages are delivered again.
   */
  lemma Safety(parse: Parser, s: State, i: nat)
    requires Reachable(parse, s) && i < |s.subscribers|
    ensures var sub := s.subscribers[i];
            && Sorted(sub.handled)
            && (forall n :: n in sub.handled ==> 1 <= n <= |s.published|)
            && sub.controls == Build(sub.admin, sub.fixed + Newest(s.published, sub.handled))
  {
    ReachableKeeps(parse, s);
    var sub := s.subscribers[i];
    assert OK(s, sub);
    SortedPrefix(sub.handled, sub.inbox);
    forall n | n in sub.handled
      ensures 1 <= n <= |s.published|
    {
      assert n in sub.handled + sub.inbox;
    }
  }

  /** Nothing is left to deliver, to handle or to acknowledge. */
  predicate Drained(s: State, sub: Subscriber) {
    sub.inbox == [] && sub.handling.None? && !Deliverable(s, sub)
  }

  /**
   * Convergence: a drained subscriber has the indexes of the last published message, except
   * exactly when its durable name acknowledged that message before it started or through another
   * process. In the first case it has only its own sources, in the second those of an older
   * message, if it has handled any.
   */
  lemma Convergence(parse: Parser, s: State, i: nat)
    requires Reachable(parse, s) && i < |s.subscribers|
    requires Drained(s, s.subscribers[i])
    requires |s.published| > 0
    ensures var sub, last := s.subscribers[i], |s.published|;
            && (last in sub.handled <==> last !in Barred(sub))
            && (last in sub.handled ==> sub.controls == Build(sub.admin, sub.fixed + EraseNoAuth(s.published[last - 1].sources)))
            && (last in sub.ackedBefore ==> sub.controls == Build(sub.admin, sub.fixed))
            && (last in sub.taken ==> sub.controls == Build(sub.admin, sub.fixed + Newest(s.published, sub.handled))
                                      && forall n :: n in sub.handled ==> n < last)
  {
    ReachableKeeps(parse, s);
    var sub, last := s.subscribers[i], |s.published|;
    assert OK(s, sub);
    DrainedControls(s.published, Acked(s, sub.durable), sub);
  }

  lemma DrainedControls(published: seq<Publication>, acked: set<nat>, sub: Subscriber)
    requires SubscriberOK(published, acked, sub) && |published| in acked && sub.inbox == []
    ensures |published| in sub.handled <==> |published| !in Barred(sub)
    ensures |published| in sub.handled ==> Newest(published, sub.handled) == EraseNoAuth(published[|published| - 1].sources)
    ensures |published| in sub.ackedBefore ==> sub.controls == Build(sub.admin, sub.fixed)
    ensures |published| in sub.taken ==> forall n :: n in sub.handled ==> n < |published|
  {
    assert sub.handled + sub.inbox == sub.handled;
    assert sub.fixed + [] == sub.fixed;
    if |published| in sub.handled {
      NewestIsLast(published, acked, sub);
    }
  }

  /** What an up-to-date subscriber has handled last is the last message published, if any. */
  lemma DrainedNewest(parse: Parser, s: State, i: nat)
    requires Reachable(parse, s) && i < |s.subscribers| && Drained(s, s.subscribers[i])
    requires |s.published| !in Barred(s.subscribers[i])
    ensures Newest(s.published, s.subscribers[i].handled)
            == if s.published == [] then [] else EraseNoAuth(s.published[|s.published| - 1].sources)
  {
    ReachableKeeps(parse, s);
    var sub := s.subscribers[i];
    assert OK(s, sub);
    assert sub.handled + sub.inbox == sub.handled;
    NewestIsLast(s.published, Acked(s, sub.durable), sub);
  }

  lemma NewestIsLast(published: seq<Publication>, acked: set<nat>, sub: Subscriber)
    requires SubscriberOK(published, acked, sub)
    requires published == [] || |published| in sub.handled
    ensures Newest(published, sub.handled) == if published == [] then [] else EraseNoAuth(published[|published| - 1].sources)
  {
    HandledWasPublished(published, acked, sub);
    if published != [] {
      HandledLast(published, acked, sub);
    }
  }

  lemma HandledLast(published: seq<Publication>, acked: set<nat>, sub: Subscriber)
    requires SubscriberOK(published, acked, sub) && |published| in sub.handled
    ensures sub.handled[|sub.handled| - 1] == |published|
  {
    var last := |published|;
    var k :| 0 <= k < |sub.handled| && sub.handled[k] == last;
    SortedPrefix(sub.handled, sub.inbox);
    assert sub.handled[|sub.handled| - 1] in sub.handled + sub.inbox;
  }

  /** Drained services that are up to date, with the same own sources and hosts, agree on everything. */
  lemma DrainedAgree(parse: Parser, s: State, i: nat, j: nat)
    requires Reachable(parse, s) && i < |s.subscribers| && j < |s.subscribers|
    requires var a, b := s.subscribers[i], s.subscribers[j];
             && Drained(s, a) && Drained(s, b) && a.admin == b.admin && a.fixed == b.fixed
             && |s.published| !in Barred(a) && |s.published| !in Barred(b)
    ensures s.subscribers[i].controls == s.subscribers[j].controls
  {
    Safety(parse, s, i);
    Safety(parse, s, j);
    DrainedNewest(parse, s, i);
    DrainedNewest(parse, s, j);
  }

  lemma HandledWasPublished(published: seq<Publication>, acked: set<nat>, sub: Subscriber)
    requires SubscriberOK(published, acked, sub)
    ensures sub.handled != [] ==> |published| > 0
  {
    if sub.handled != [] {
      assert sub.handled[0] in sub.handled + sub.inbox;
    }
  }

  /** From any state a subscriber can be drained by its own deliveries and acknowledgements alone. */
  lemma {:induction false} CanDrain(parse: Parser, s: State, i: nat) returns (steps: seq<Step>)
    requires i < |s.subscribers|
    ensures forall k :: 0 <= k < |steps| ==> steps[k] == Deliver(i) || steps[k] == Handle(i) || steps[k] == Ack(i, true)
    ensures var s' := Run(parse, s, steps);
            s'.published == s.published && |s'.subscribers| == |s.subscribers| && Drained(s', s'.subscribers[i])
    decreases 2 * |s.subscribers[i].inbox| + if s.subscribers[i].handling.Some? then 1 else 0
  {
    var sub := s.subscribers[i];
    if sub.handling.Some? || sub.inbox != [] {
      var step := if sub.handling.Some? then Ack(i, true) else Handle(i);
      var rest := CanDrain(parse, Next(parse, s, step), i);
      steps := [step] + rest;
      assert steps[1..] == rest;
    } else if Deliverable(s, sub) {
      steps := [Deliver(i), Handle(i), Ack(i, true)];
      DrainOne(parse, s, i);
    } else {
      steps := [];
    }
  }

  lemma DrainOne(parse: Parser, s: State, i: nat)
    requires i < |s.subscribers| && Deliverable(s, s.subscribers[i])
    requires s.subscribers[i].handling.None? && s.subscribers[i].inbox == []
    ensures var s' := Run(parse, s, [Deliver(i), Handle(i), Ack(i, true)]);
            s'.published == s.published && |s'.subscribers| == |s.subscribers| && Drained(s', s'.subscribers[i])
  {
    var steps := [Deliver(i), Handle(i), Ack(i, true)];
    var s1 := Next(parse, s, Deliver(i));
    var s2 := Next(parse, s1, Handle(i));
    var s3 := Next(parse, s2, Ack(i, true));
    assert s2.subscribers[i].handling == Some(|s.published|) && s2.subscribers[i].inbox == [];
    assert s2.published == s.published;
    assert steps[1..] == [Handle(i), Ack(i, true)] && steps[1..][1..] == [Ack(i, true)] && steps[1..][1..][1..] == [];
    assert Run(parse, s, steps) == Run(parse, s1, steps[1..]);
    assert Run(parse, s1, steps[1..]) == Run(parse, s2, steps[1..][1..]);
    assert Run(parse, s2, steps[1..][1..]) == Run(parse, s3, steps[1..][1..][1..]);
  }

  /**
   * Two processes of one durable name share its messages: when one handles and acknowledges the
   * current message before it is sent to the other, the other is drained without it.
   */
  lemma SharedNameSplits(parse: Parser, s: State, i: nat, j: nat)
    requires Reachable(parse, s) && i < |s.subscribers| && j < |s.subscribers| && i != j
    requires var a, b := s.subscribers[i], s.subscribers[j];
             && a.durable == b.durable && Deliverable(s, a)
             && a.inbox == [] && a.handling.None? && b.inbox == [] && b.handling.None? && |s.published| !in b.handled
    ensures var s' := Run(parse, s, [Deliver(i), Handle(i), Ack(i, true)]);
            && |s'.subscribers| == |s.subscribers| && s'.published == s.published
            && Drained(s', s'.subscribers[i]) && |s.published| in s'.subscribers[i].handled
            && Drained(s', s'.subscribers[j]) && |s.published| in s'.subscribers[j].taken
            && s'.subscribers[j].controls == s.subscribers[j].controls
  {
    DrainOne(parse, s, i);
    var s1 := Next(parse, s, Deliver(i));
    var s2 := Next(parse, s1, Handle(i));
    var s3 := Next(parse, s2, Ack(i, true));
    ThreeSteps(parse, s, Deliver(i), Handle(i), Ack(i, true), []);
    assert [Deliver(i), Handle(i), Ack(i, true)] + [] == [Deliver(i), Handle(i), Ack(i, true)];
    assert s2.subscribers[j] == s.subscribers[j] && s2.subscribers[i].handling == Some(|s.published|);
    assert |s.published| in s2.subscribers[i].handled;
  }

  lemma AckedBeforeStep(parse: Parser, s: State, i: nat, n: nat, step: Step)
    requires i < |s.subscribers| && n in s.subscribers[i].ackedBefore
    requires s.subscribers[i].ackedBefore <= Acked(s, s.subscribers[i].durable)
    ensures var s' := Next(parse, s, step);
            && i < |s'.subscribers| && n in s'.subscribers[i].ackedBefore
            && s'.subscribers[i].admin == s.subscribers[i].admin && s'.subscribers[i].fixed == s.subscribers[i].fixed
  {
  }

  /** What one durable name had acknowledged before its process started stays so. */
  lemma {:induction false} AckedBeforeStays(parse: Parser, s: State, i: nat, n: nat, steps: seq<Step>)
    requires Invariant(parse, s) && i < |s.subscribers| && n in s.subscribers[i].ackedBefore
    ensures var s' := Run(parse, s, steps);
            && Invariant(parse, s') && i < |s'.subscribers| && n in s'.subscribers[i].ackedBefore
            && s'.subscribers[i].admin == s.subscribers[i].admin && s'.subscribers[i].fixed == s.subscribers[i].fixed
    decreases |steps|
  {
    if steps != [] {
      NextKeeps(parse, s, steps[0]);
      assert OK(s, s.subscribers[i]);
      AckedBeforeStep(parse, s, i, n, steps[0]);
      AckedBeforeStays(parse, Next(parse, s, steps[0]), i, n, steps[1..]);
    }
  }

  /**
   * A process restarted after its durable name acknowledged the stream's message has none of
   * the published routes, and whatever happens it gets none until another message is published.
   */
  lemma RestartLosesRoutes(parse: Parser, s: State, i: nat, steps: seq<Step>)
    requires Reachable(parse, s) && i < |s.subscribers| && |s.published| in Acked(s, s.subscribers[i].durable)
    ensures var s' := Run(parse, Next(parse, s, Restart(i)), steps);
            && i < |s'.subscribers|
            && (|s'.published| == |s.published| ==>
                  s'.subscribers[i].controls == Build(s.subscribers[i].admin, s.subscribers[i].fixed))
  {
    ReachableKeeps(parse, s);
    NextKeeps(parse, s, Restart(i));
    AckedBeforeStays(parse, Next(parse, s, Restart(i)), i, |s.published|, steps);
    var s' := Run(parse, Next(parse, s, Restart(i)), steps);
    assert OK(s', s'.subscribers[i]);
    assert s'.subscribers[i].fixed + [] == s'.subscribers[i].fixed;
  }

  // Publishing a change

  lemma {:induction false} RunTwice(parse: Parser, s: State, xs: seq<Step>, ys: seq<Step>)
    ensures Run(parse, s, xs + ys) == Run(parse, Run(parse, s, xs), ys)
    decreases |xs|
  {
    if xs == [] {
      assert xs + ys == ys;
    } else {
      var all, next := xs + ys, Next(parse, s, xs[0]);
      assert all[0] == xs[0] && all[1..] == xs[1..] + ys;
      RunTwice(parse, next, xs[1..], ys);
      assert Run(parse, s, xs) == Run(parse, next, xs[1..]);
    }
  }

  lemma ReachesFurther(parse: Parser, s: State, steps: seq<Step>)
    requires Reachable(parse, s)
    ensures Reachable(parse, Run(parse, s, steps))
  {
    var before :| Run(parse, INIT, before) == s;
    RunTwice(parse, INIT, before, steps);
  }

  /** The stream does not hold exactly what these sources are published as. */
  predicate Changed(s: State, sources: seq<RawSource>) {
    s.published == [] || EncodeSources(s.published[|s.published| - 1].sources) != EncodeSources(sources)
  }

  /** The steps of a publisher that nothing interrupts. */
  function Attempted(p: nat, sources: seq<RawSource>, read: bool, stored: bool): seq<Step> {
    [Fetch(p, sources), Compare(p, read), Publish(p, stored)]
  }

  /**
   * A publisher that is not interrupted publishes its sources exactly when the stream takes the
   * message and the comparison did not find that it already holds the same data: its read failed,
   * the stream is empty, or its message has other data. Else it publishes nothing; either way
   * the subscribers are as they were.
   */
  lemma {:induction false} ChangePublished(parse: Parser, s: State, p: nat, sources: seq<RawSource>, read: bool, stored: bool)
    requires p !in s.attempts && forall i :: 0 <= i < |sources| ==> Parsed(parse, sources[i])
    ensures var s' := Run(parse, s, Attempted(p, sources, read, stored));
            && s'.subscribers == s.subscribers && s'.acked == s.acked && s'.attempts == s.attempts
            && (stored && (!read || Changed(s, sources)) <==> s'.published != s.published)
            && (stored && (!read || Changed(s, sources)) ==>
                  s'.published == s.published + [Publication(sources, if read then Some(|s.published|) else None)])
  {
    ThreeSteps(parse, s, Fetch(p, sources), Compare(p, read), Publish(p, stored), []);
    assert Attempted(p, sources, read, stored) + [] == Attempted(p, sources, read, stored);
    var s1 := Next(parse, s, Fetch(p, sources));
    assert s1.attempts - {p} == s.attempts;
    var s2 := Next(parse, s1, Compare(p, read));
    if !read || Changed(s, sources) {
      assert s2.attempts == s1.attempts[p := Compared(sources, if read then Some(|s.published|) else None)];
      assert s2.attempts - {p} == s.attempts;
    } else {
      assert s2.attempts == s.attempts;
      assert Next(parse, s2, Publish(p, stored)) == s2;
    }
  }

  /** A message whose acknowledgement is lost is sent again, and handled a second time. */
  lemma LostAckRepeats(parse: Parser, s: State, i: nat)
    requires i < |s.subscribers| && s.subscribers[i].inbox == [] && s.subscribers[i].handling.Some?
    requires Deliverable(s, s.subscribers[i])
    ensures var s' := Run(parse, s, [Ack(i, false), Deliver(i), Handle(i)]);
            && |s'.subscribers| == |s.subscribers| && s'.acked == s.acked
            && s'.subscribers[i].handled == s.subscribers[i].handled + [|s.published|]
  {
    var s1 := Next(parse, s, Ack(i, false));
    var s2 := Next(parse, s1, Deliver(i));
    ThreeSteps(parse, s, Ack(i, false), Deliver(i), Handle(i), []);
    assert [Ack(i, false), Deliver(i), Handle(i)] + [] == [Ack(i, false), Deliver(i), Handle(i)];
    assert s2.subscribers[i].inbox == [|s.published|];
  }

  /** The steps of a process of its own, each acknowledgement arriving. */
  predicate OwnSteps(i: nat, steps: seq<Step>) {
    forall k :: 0 <= k < |steps| ==> steps[k] == Deliver(i) || steps[k] == Handle(i) || steps[k] == Ack(i, true)
  }

  /** The process keeps its configuration and is barred from the same messages. */
  predicate Stands(sub: Subscriber, sub': Subscriber) {
    sub'.admin == sub.admin && sub'.fixed == sub.fixed && Barred(sub') == Barred(sub)
  }

  lemma OwnAck(parse: Parser, s: State, i: nat)
    requires i < |s.subscribers| && OK(s, s.subscribers[i])
    ensures var s' := Next(parse, s, Ack(i, true));
            |s'.subscribers| == |s.subscribers| && s'.published == s.published && Stands(s.subscribers[i], s'.subscribers[i])
  {
    var sub := s.subscribers[i];
    if sub.handling.Some? {
      var n := sub.handling.value;
      assert sub.handled[|sub.handled| - 1] in sub.handled + sub.inbox;
      assert Notice(sub.(handling := None), sub.durable, n) == sub.(handling := None);
    }
  }

  lemma OwnStep(parse: Parser, s: State, i: nat, step: Step)
    requires i < |s.subscribers| && OK(s, s.subscribers[i])
    requires step == Deliver(i) || step == Handle(i) || step == Ack(i, true)
    ensures var s' := Next(parse, s, step);
            |s'.subscribers| == |s.subscribers| && s'.published == s.published && Stands(s.subscribers[i], s'.subscribers[i])
  {
    if step.Ack? {
      OwnAck(parse, s, i);
    }
  }

  lemma {:induction false} OwnRun(parse: Parser, s: State, i: nat, steps: seq<Step>)
    requires Invariant(parse, s) && i < |s.subscribers| && OwnSteps(i, steps)
    ensures var s' := Run(parse, s, steps);
            |s'.subscribers| == |s.subscribers| && s'.published == s.published && Stands(s.subscribers[i], s'.subscribers[i])
    decreases |steps|
  {
    if steps != [] {
      assert OK(s, s.subscribers[i]);
      OwnStep(parse, s, i, steps[0]);
      NextKeeps(parse, s, steps[0]);
      assert forall k :: 0 <= k < |steps| - 1 ==> steps[1..][k] == steps[k + 1];
      OwnRun(parse, Next(parse, s, steps[0]), i, steps[1..]);
    }
  }

  /**
   * And so a change arrives: once it is published, a process that starts under a new durable name
   * needs only its own steps to be drained, and then holds the build of the changed sources.
   */
  lemma {:induction false} ChangeArrives(parse: Parser, s: State, p: nat, sources: seq<RawSource>, durable: Text,
                                         admin: set<Text>, fixed: seq<RawSource>)
    returns (steps: seq<Step>)
    requires Reachable(parse, s) && p !in s.attempts && Changed(s, sources) && Acked(s, durable) == {}
    requires forall i :: 0 <= i < |sources| ==> Parsed(parse, sources[i])
    ensures OwnSteps(|s.subscribers|, steps)
    ensures var i := |s.subscribers|;
            var s' := Run(parse, Run(parse, s, Attempted(p, sources, true, true)), [Join(durable, admin, fixed)] + steps);
            && i < |s'.subscribers| && Drained(s', s'.subscribers[i])
            && s'.subscribers[i].controls == Build(admin, fixed + EraseNoAuth(sources))
  {
    var i := |s.subscribers|;
    var publish := Attempted(p, sources, true, true);
    ChangePublished(parse, s, p, sources, true, true);
    ReachesFurther(parse, s, publish);
    var s1 := Run(parse, s, publish);
    var s2 := Next(parse, s1, Join(durable, admin, fixed));
    assert Run(parse, s1, [Join(durable, admin, fixed)]) == s2 by {
      assert [Join(durable, admin, fixed)][1..] == [];
    }
    ReachesFurther(parse, s1, [Join(durable, admin, fixed)]);
    assert s2.subscribers[i] == Joined(durable, admin, fixed, {});
    steps := CanDrain(parse, s2, i);
    RunTwice(parse, s1, [Join(durable, admin, fixed)], steps);
    ReachableKeeps(parse, s2);
    OwnRun(parse, s2, i, steps);
    ReachesFurther(parse, s2, steps);
    Convergence(parse, Run(parse, s2, steps), i);
  }

  /**
   * Comparing before publishing keeps out repeats: a message equal to the one before it comes
   * only from a publisher whose read failed, or that was overtaken between its comparison and
   * its publication.
   */
  lemma RepeatNeedsRace(parse: Parser, s: State, k: nat)
    requires Reachable(parse, s) && 0 < k < |s.published|
    ensures var ps := s.published;
            Data(ps[k].sources) == Data(ps[k - 1].sources) ==> ps[k].seen.None? || ps[k].seen.value < k
  {
    ReachableKeeps(parse, s);
    var ps := s.published;
    assert Differs(ps[..k], ps[k].sources, ps[k].seen);
  }

  /** One cause occurs: two publishers compare before either publishes. */
  lemma RaceRepeats(parse: Parser, sources: seq<RawSource>)
    requires forall i :: 0 <= i < |sources| ==> Parsed(parse, sources[i])
    ensures var compare := [Fetch(0, sources), Fetch(1, sources), Compare(0, true)];
            var publish := [Compare(1, true), Publish(0, true), Publish(1, true)];
            Run(parse, INIT, compare + publish) == State([Publication(sources, Some(0)), Publication(sources, Some(0))], map[], map[], [])
  {
    var publish := [Compare(1, true), Publish(0, true), Publish(1, true)];
    var s := State([], map[0 := Compared(sources, Some(0)), 1 := Fetched(sources)], map[], []);
    ThreeSteps(parse, INIT, Fetch(0, sources), Fetch(1, sources), Compare(0, true), publish);
    var s1 := Next(parse, Next(parse, INIT, Fetch(0, sources)), Fetch(1, sources));
    assert Next(parse, s1, Compare(0, true)) == s;
    ThreeSteps(parse, s, Compare(1, true), Publish(0, true), Publish(1, true), []);
    assert publish + [] == publish;
    var s2 := State([], map[0 := Compared(sources, Some(0)), 1 := Compared(sources, Some(0))], map[], []);
    assert Next(parse, s, Compare(1, true)) == s2;
    assert s2.attempts - {0} == map[1 := Compared(sources, Some(0))];
    assert Next(parse, s2, Publish(0, true)).attempts - {1} == map[];
  }

  /** The other occurs too: a publisher alone repeats its message when its read fails. */
  lemma FailedReadRepeats(parse: Parser, sources: seq<RawSource>)
    requires forall i :: 0 <= i < |sources| ==> Parsed(parse, sources[i])
    ensures var first := [Fetch(0, sources), Compare(0, true), Publish(0, true)];
            var again := [Fetch(0, sources), Compare(0, false), Publish(0, true)];
            Run(parse, INIT, first + again) == State([Publication(sources, Some(0)), Publication(sources, None)], map[], map[], [])
  {
    var again := [Fetch(0, sources), Compare(0, false), Publish(0, true)];
    var once := State([Publication(sources, Some(0))], map[], map[], []);
    ThreeSteps(parse, INIT, Fetch(0, sources), Compare(0, true), Publish(0, true), again);
    var s1 := Next(parse, Next(parse, INIT, Fetch(0, sources)), Compare(0, true));
    assert s1.attempts - {0} == map[];
    assert Next(parse, s1, Publish(0, true)) == once;
    ThreeSteps(parse, once, Fetch(0, sources), Compare(0, false), Publish(0, true), []);
    assert again + [] == again;
    var s2 := Next(parse, Next(parse, once, Fetch(0, sources)), Compare(0, false));
    assert s2.attempts - {0} == map[];
  }

  lemma ThreeSteps(parse: Parser, s: State, a: Step, b: Step, c: Step, rest: seq<Step>)
    ensures Run(parse, s, [a, b, c] + rest) == Run(parse, Next(parse, Next(parse, Next(parse, s, a), b), c), rest)
  {
    var all := [a, b, c] + rest;
    assert all[1..] == [b, c] + rest && ([b, c] + rest)[1..] == [c] + rest && ([c] + rest)[1..] == rest;
    assert Run(parse, s, all) == Run(parse, Next(parse, s, a), [b, c] + rest);
    assert Run(parse, Next(parse, s, a), [b, c] + rest) == Run(parse, Next(parse, Next(parse, s, a), b), [c] + rest);
  }

  /**
   * In every run both indexes hold the same ids, each bound to its own, and a route skips
   * authorisation only when one of the subscriber's own sources with its id is flagged.
   */
  lemma SubscriberIndexes(parse: Parser, s: State, i: nat, id: Text)
    requires Reachable(parse, s) && i < |s.subscribers|
    ensures var sub := s.subscribers[i];
            var c := sub.controls;
            && (id in c.auth <==> id in c.proxy)
            && (id in c.auth ==> c.auth[id].id == id)
            && (id in c.proxy && c.proxy[id].noAuth ==>
                  exists k :: 0 <= k < |sub.fixed| && sub.fixed[k].id == id && sub.fixed[k].noAuth)
  {
    Safety(parse, s, i);
    var sub := s.subscribers[i];
    var dynamic := Newest(s.published, sub.handled);
    BuildIndexes(sub.admin, sub.fixed + dynamic, id);
    LastWithConcat(sub.fixed, dynamic, id);
  }
}
