/** Text deltas are gathered per message and posted together. A flush drains under the
    lock and posts after giving it back, so other threads may get in between. */
module Coalescer {
  import opened Numerals

  datatype Input = DeltaIn(id: nat, text: string) | EventIn(thread: nat, event: string)

  datatype Segment = Segment(id: nat, text: string)

  /** What was handed to the screen. A delta names the drained segment it carries, an
      event its place among the inputs. */
  datatype Post = Delta(id: nat, text: string, serial: nat) | Event(event: string, at: nat)

  /** A flush on its way: drained segments from `next` up to `end` are still to be
      posted, then the event, if the flush was for one. */
  datatype Flight = Flight(next: nat, end: nat, after: Option<nat>)

  datatype State = State(
    pending: map<nat, string>,
    flights: map<nat, Flight>,       // by thread
    posted: seq<Post>,
    log: seq<Input>,                 // everything dispatched; kept for the statements
    drained: seq<Segment>)           // everything drained; kept for the statements

  const INIT := State(map[], map[], [], [], [])

  datatype Action =
    | DispatchDelta(id: nat, text: string)
    | DispatchEvent(thread: nat, event: string, order: seq<nat>)
    | TimedFlush(thread: nat, order: seq<nat>)
    | PostNext(thread: nat)
    | FinishFlush(thread: nat)

  function Held(pending: map<nat, string>, id: nat): string {
    if id in pending then pending[id] else ""
  }

  function Joined(pending: map<nat, string>, id: nat, text: string): map<nat, string> {
    pending[id := Held(pending, id) + text]
  }

  predicate Distinct(order: seq<nat>) {
    forall i, j :: 0 <= i < j < |order| ==> order[i] != order[j]
  }

  /** `order` lists the messages with pending text, each once. */
  predicate Lists(order: seq<nat>, pending: map<nat, string>) {
    && (forall i :: 0 <= i < |order| ==> order[i] in pending)
    && (forall id :: id in pending ==> id in order)
    && Distinct(order)
  }

  function Segments(order: seq<nat>, pending: map<nat, string>): seq<Segment> {
    if order == [] then [] else [Segment(order[0], Held(pending, order[0]))] + Segments(order[1..], pending)
  }

  predicate Enabled(s: State, a: Action) {
    match a
    case DispatchDelta(_, _) => true
    case DispatchEvent(t, _, order) => t !in s.flights && Lists(order, s.pending)
    case TimedFlush(t, order) => t !in s.flights && Lists(order, s.pending)
    case PostNext(t) => t in s.flights && s.flights[t].next < s.flights[t].end <= |s.drained|
    case FinishFlush(t) => t in s.flights && s.flights[t].next >= s.flights[t].end
  }

  function Drain(s: State, t: nat, order: seq<nat>, after: Option<nat>): State {
    var drained := s.drained + Segments(order, s.pending);
    s.(pending := map[], drained := drained, flights := s.flights[t := Flight(|s.drained|, |drained|, after)])
  }

  ghost function Apply(s: State, a: Action): State
    requires Enabled(s, a)
  {
    match a
    case DispatchDelta(id, text) => s.(pending := Joined(s.pending, id, text), log := s.log + [DeltaIn(id, text)])
    case DispatchEvent(t, event, order) => Drain(s, t, order, Some(|s.log|)).(log := s.log + [EventIn(t, event)])
    case TimedFlush(t, order) => Drain(s, t, order, None)
    case PostNext(t) =>
      var n := s.flights[t].next;
      s.(posted := s.posted + [Delta(s.drained[n].id, s.drained[n].text, n)],
         flights := s.flights[t := s.flights[t].(next := n + 1)])
    case FinishFlush(t) =>
      var at := s.flights[t].after;
      s.(posted := if at.Some? && at.value < |s.log| && s.log[at.value].EventIn?
                   then s.posted + [Event(s.log[at.value].event, at.value)] else s.posted,
         flights := s.flights - {t})
  }

  ghost predicate Possible(s: State, trace: seq<Action>)
    decreases |trace|
  {
    trace == [] || (Enabled(s, trace[0]) && Possible(Apply(s, trace[0]), trace[1..]))
  }

  ghost function After(s: State, trace: seq<Action>): State
    requires Possible(s, trace)
    decreases |trace|
  {
    if trace == [] then s else After(Apply(s, trace[0]), trace[1..])
  }

  // ---------- texts of one message ----------

  function DispatchedText(log: seq<Input>, id: nat): string {
    if log == [] then ""
    else
      var e := log[|log| - 1];
      DispatchedText(log[..|log| - 1], id) + (if e.DeltaIn? && e.id == id then e.text else "")
  }

  function DrainedText(drained: seq<Segment>, id: nat): string {
    if drained == [] then ""
    else
      var e := drained[|drained| - 1];
      DrainedText(drained[..|drained| - 1], id) + (if e.id == id then e.text else "")
  }

  function PostedText(posted: seq<Post>, id: nat): string {
    if posted == [] then ""
    else
      var e := posted[|posted| - 1];
      PostedText(posted[..|posted| - 1], id) + (if e.Delta? && e.id == id then e.text else "")
  }

  lemma DispatchedAppend(log: seq<Input>, e: Input, id: nat)
    ensures DispatchedText(log + [e], id) == DispatchedText(log, id) + (if e.DeltaIn? && e.id == id then e.text else "")
  {
    assert (log + [e])[..|log|] == log;
  }

  lemma DrainedAppend(drained: seq<Segment>, e: Segment, id: nat)
    ensures DrainedText(drained + [e], id) == DrainedText(drained, id) + (if e.id == id then e.text else "")
  {
    assert (drained + [e])[..|drained|] == drained;
  }

  lemma PostedAppend(posted: seq<Post>, e: Post, id: nat)
    ensures PostedText(posted + [e], id) == PostedText(posted, id) + (if e.Delta? && e.id == id then e.text else "")
  {
    assert (posted + [e])[..|posted|] == posted;
  }

  lemma SegmentsCons(order: seq<nat>, pending: map<nat, string>, drained: seq<Segment>)
    requires order != []
    ensures var first := Segment(order[0], Held(pending, order[0]));
            drained + Segments(order, pending) == (drained + [first]) + Segments(order[1..], pending)
  {
    var first, rest := Segment(order[0], Held(pending, order[0])), Segments(order[1..], pending);
    assert Segments(order, pending) == [first] + rest;
    hide Segments;
    assert drained + ([first] + rest) == (drained + [first]) + rest;
  }

  lemma FirstIsNotAgain(order: seq<nat>, id: nat)
    requires order != [] && Distinct(order)
    ensures Distinct(order[1..]) && order[0] !in order[1..]
    ensures id in order <==> id == order[0] || id in order[1..]
  {
    assert order == [order[0]] + order[1..];
  }

  lemma NoMoreText(x: string)
    ensures x + "" == x
  {}

  /** A drain takes each message's pending text exactly once. */
  lemma {:induction false} SegmentsText(drained: seq<Segment>, order: seq<nat>, pending: map<nat, string>, id: nat)
    requires Distinct(order)
    ensures DrainedText(drained + Segments(order, pending), id)
         == DrainedText(drained, id) + (if id in order then Held(pending, id) else "")
    decreases |order|
  {
    if order == [] {
      assert drained + [] == drained;
      NoMoreText(DrainedText(drained, id));
    } else {
      hide Segments, DrainedText, Distinct, Held;
      var first := Segment(order[0], Held(pending, order[0]));
      var more := drained + [first];
      FirstIsNotAgain(order, id);
      SegmentsCons(order, pending, drained);
      SegmentsText(more, order[1..], pending, id);
      DrainedAppend(drained, first, id);
      NoMoreText(DrainedText(drained, id));
      NoMoreText(DrainedText(more, id));
    }
  }

  lemma DrainTakesAll(s: State, t: nat, order: seq<nat>, after: Option<nat>, id: nat)
    requires Lists(order, s.pending)
    ensures DrainedText(Drain(s, t, order, after).drained, id) == DrainedText(s.drained, id) + Held(s.pending, id)
  {
    SegmentsText(s.drained, order, s.pending, id);
  }

  // ---------- conservation, however flushes interleave ----------

  /** Drained text, in drain order, followed by pending text is what was dispatched. */
  ghost predicate TextOk(s: State) {
    forall id :: DrainedText(s.drained, id) + Held(s.pending, id) == DispatchedText(s.log, id)
  }

  predicate Carries(s: State, p: Post)
    requires p.Delta?
  {
    p.serial < |s.drained| && s.drained[p.serial] == Segment(p.id, p.text)
  }

  predicate InFlight(f: Flight, n: nat) {
    f.next <= n < f.end
  }

  ghost predicate Flying(s: State, n: nat) {
    exists t :: t in s.flights && InFlight(s.flights[t], n)
  }

  ghost predicate Landed(s: State, n: nat) {
    exists i :: 0 <= i < |s.posted| && s.posted[i].Delta? && s.posted[i].serial == n
  }

  predicate Apart(f: Flight, g: Flight) {
    f.end <= g.next || g.end <= f.next
  }

  /** Every drained segment is in one flight or was posted once, as it was drained. */
  ghost predicate SegmentsOk(s: State) {
    && (forall i :: 0 <= i < |s.posted| && s.posted[i].Delta? ==> Carries(s, s.posted[i]))
    && (forall i, j :: 0 <= i < j < |s.posted| && s.posted[i].Delta? && s.posted[j].Delta? ==>
          s.posted[i].serial != s.posted[j].serial)
    && (forall t :: t in s.flights ==> s.flights[t].next <= s.flights[t].end <= |s.drained|)
    && (forall t, u :: t in s.flights && u in s.flights && t != u ==> Apart(s.flights[t], s.flights[u]))
    && (forall n :: 0 <= n < |s.drained| ==> Flying(s, n) || Landed(s, n))
    && (forall i, t :: 0 <= i < |s.posted| && s.posted[i].Delta? && t in s.flights ==>
          !InFlight(s.flights[t], s.posted[i].serial))
  }

  lemma TextKept(s: State, a: Action)
    requires TextOk(s) && Enabled(s, a)
    ensures TextOk(Apply(s, a))
  {
    hide DrainedText, DispatchedText, Segments;
    var s' := Apply(s, a);
    forall id
      ensures DrainedText(s'.drained, id) + Held(s'.pending, id) == DispatchedText(s'.log, id)
    {
      assert DrainedText(s.drained, id) + Held(s.pending, id) == DispatchedText(s.log, id);
      match a
      case DispatchDelta(k, text) => DispatchedAppend(s.log, DeltaIn(k, text), id);
      case DispatchEvent(t, event, order) =>
        DispatchedAppend(s.log, EventIn(t, event), id);
        DrainTakesAll(s, t, order, Some(|s.log|), id);
      case TimedFlush(t, order) => DrainTakesAll(s, t, order, None, id);
      case _ =>
    }
  }

  lemma DrainedSomewhere(s: State, t: nat, order: seq<nat>, after: Option<nat>, n: nat)
    requires SegmentsOk(s) && t !in s.flights && n < |Drain(s, t, order, after).drained|
    ensures Flying(Drain(s, t, order, after), n) || Landed(Drain(s, t, order, after), n)
  {
    hide Segments;
    var s' := Drain(s, t, order, after);
    if n >= |s.drained| {
      assert InFlight(s'.flights[t], n);
    } else if Flying(s, n) {
      var u :| u in s.flights && InFlight(s.flights[u], n);
      assert InFlight(s'.flights[u], n);
    } else {
      var i :| 0 <= i < |s.posted| && s.posted[i].Delta? && s.posted[i].serial == n;
      assert s'.posted[i].serial == n;
    }
  }

  lemma NewFlightIsApart(s: State, t: nat, order: seq<nat>, after: Option<nat>)
    requires SegmentsOk(s) && t !in s.flights
    ensures var s' := Drain(s, t, order, after);
            && (forall u :: u in s'.flights ==> s'.flights[u].next <= s'.flights[u].end <= |s'.drained|)
            && (forall u, v :: u in s'.flights && v in s'.flights && u != v ==> Apart(s'.flights[u], s'.flights[v]))
  {
    hide Segments, Flying, Landed, Carries, InFlight;
  }

  lemma DrainKeepsPosts(s: State, t: nat, order: seq<nat>, after: Option<nat>)
    requires SegmentsOk(s) && t !in s.flights
    ensures var s' := Drain(s, t, order, after);
            && (forall i :: 0 <= i < |s'.posted| && s'.posted[i].Delta? ==> Carries(s', s'.posted[i]))
            && (forall i, u :: 0 <= i < |s'.posted| && s'.posted[i].Delta? && u in s'.flights ==>
                  !InFlight(s'.flights[u], s'.posted[i].serial))
  {
    hide Segments, Flying, Landed, Apart;
    var s' := Drain(s, t, order, after);
    forall i | 0 <= i < |s'.posted| && s'.posted[i].Delta?
      ensures Carries(s', s'.posted[i])
    {
      assert Carries(s, s.posted[i]);
    }
  }

  lemma DrainKeepsSegments(s: State, t: nat, order: seq<nat>, after: Option<nat>)
    requires SegmentsOk(s) && t !in s.flights
    ensures SegmentsOk(Drain(s, t, order, after))
  {
    hide Segments, Flying, Landed, Carries, InFlight, Apart;
    var s' := Drain(s, t, order, after);
    NewFlightIsApart(s, t, order, after);
    DrainKeepsPosts(s, t, order, after);
    forall n | 0 <= n < |s'.drained|
      ensures Flying(s', n) || Landed(s', n)
    {
      DrainedSomewhere(s, t, order, after, n);
    }
  }

  lemma PostKeepsSegments(s: State, t: nat)
    requires SegmentsOk(s) && Enabled(s, PostNext(t))
    ensures SegmentsOk(Apply(s, PostNext(t)))
  {
    var s', k := Apply(s, PostNext(t)), s.flights[t].next;
    assert InFlight(s.flights[t], k);
    forall n | 0 <= n < |s'.drained|
      ensures Flying(s', n) || Landed(s', n)
    {
      if n == k {
        assert s'.posted[|s.posted|].serial == n;
      } else if Flying(s, n) {
        var u :| u in s.flights && InFlight(s.flights[u], n);
        assert InFlight(s'.flights[u], n);
      } else {
        var i :| 0 <= i < |s.posted| && s.posted[i].Delta? && s.posted[i].serial == n;
        assert s'.posted[i].serial == n;
      }
    }
    forall i | 0 <= i < |s'.posted| && s'.posted[i].Delta?
      ensures Carries(s', s'.posted[i])
    {
      assert i < |s.posted| ==> Carries(s, s.posted[i]);
    }
    forall u | u in s'.flights && u != t
      ensures Apart(s'.flights[u], s'.flights[t]) && !InFlight(s'.flights[u], k)
    {
      assert Apart(s.flights[u], s.flights[t]);
    }
  }

  lemma FinishKeepsSegments(s: State, t: nat)
    requires SegmentsOk(s) && Enabled(s, FinishFlush(t))
    ensures SegmentsOk(Apply(s, FinishFlush(t)))
  {
    var s' := Apply(s, FinishFlush(t));
    forall n | 0 <= n < |s'.drained|
      ensures Flying(s', n) || Landed(s', n)
    {
      if Flying(s, n) {
        var u :| u in s.flights && InFlight(s.flights[u], n);
        assert u in s'.flights && InFlight(s'.flights[u], n);
      } else {
        var i :| 0 <= i < |s.posted| && s.posted[i].Delta? && s.posted[i].serial == n;
        assert s'.posted[i].serial == n;
      }
    }
    forall i | 0 <= i < |s'.posted| && s'.posted[i].Delta?
      ensures Carries(s', s'.posted[i])
    {
      assert Carries(s, s.posted[i]);
    }
  }

  lemma SegmentsKept(s: State, a: Action)
    requires SegmentsOk(s) && Enabled(s, a)
    ensures SegmentsOk(Apply(s, a))
  {
    match a
    case DispatchDelta(id, text) => SameSegments(s, Apply(s, a));
    case DispatchEvent(t, event, order) =>
      DrainKeepsSegments(s, t, order, Some(|s.log|));
      SameSegments(Drain(s, t, order, Some(|s.log|)), Apply(s, a));
    case TimedFlush(t, order) => DrainKeepsSegments(s, t, order, None);
    case PostNext(t) => PostKeepsSegments(s, t);
    case FinishFlush(t) => FinishKeepsSegments(s, t);
  }

  lemma SameSegments(s: State, s': State)
    requires SegmentsOk(s) && s'.posted == s.posted && s'.flights == s.flights && s'.drained == s.drained
    ensures SegmentsOk(s')
  {
    forall n | 0 <= n < |s'.drained|
      ensures Flying(s', n) || Landed(s', n)
    {
      assert Flying(s, n) || Landed(s, n);
    }
    forall i | 0 <= i < |s'.posted| && s'.posted[i].Delta?
      ensures Carries(s', s'.posted[i])
    {
      assert Carries(s, s.posted[i]);
    }
  }

  /** Over every interleaving of dispatches and split flushes, no text is lost,
      duplicated or moved to another message. */
  lemma {:induction false} TextIsConserved(s: State, trace: seq<Action>)
    requires TextOk(s) && SegmentsOk(s) && Possible(s, trace)
    ensures TextOk(After(s, trace)) && SegmentsOk(After(s, trace))
    decreases |trace|
  {
    hide TextOk, SegmentsOk, Enabled, Apply;
    if trace == [] {
    } else {
      TextKept(s, trace[0]);
      SegmentsKept(s, trace[0]);
      TextIsConserved(Apply(s, trace[0]), trace[1..]);
    }
  }

  // ---------- events, however flushes interleave ----------

  predicate IsEvent(log: seq<Input>, at: nat, event: string) {
    at < |log| && log[at].EventIn? && log[at].event == event
  }

  /** The thread that dispatched input `at`. */
  function ThreadOf(log: seq<Input>, at: nat): Option<nat> {
    if at < |log| && log[at].EventIn? then Some(log[at].thread) else None
  }

  /** Thread `t` dispatched the event at `n` and has not posted it yet. */
  predicate Waits(s: State, t: nat, n: nat) {
    t in s.flights && s.flights[t].after == Some(n)
  }

  ghost predicate Shown(s: State, n: nat) {
    exists i :: 0 <= i < |s.posted| && ShownAt(s, i, n)
  }

  predicate ShownAt(s: State, i: nat, n: nat)
    requires i < |s.posted|
  {
    s.posted[i].Event? && s.posted[i].at == n
  }

  /** Post `i` is an event that thread `t` dispatched. */
  predicate ShownBy(s: State, i: nat, t: nat)
    requires i < |s.posted|
  {
    s.posted[i].Event? && ThreadOf(s.log, s.posted[i].at) == Some(t)
  }

  ghost predicate PostedFromLog(s: State) {
    forall i :: 0 <= i < |s.posted| && s.posted[i].Event? ==> IsEvent(s.log, s.posted[i].at, s.posted[i].event)
  }

  ghost predicate WaitersKnown(s: State) {
    forall t: nat, n: nat :: Waits(s, t, n) ==> ThreadOf(s.log, n) == Some(t)
  }

  ghost predicate NoEventLost(s: State) {
    forall n :: 0 <= n < |s.log| && s.log[n].EventIn? ==> Waits(s, s.log[n].thread, n) || Shown(s, n)
  }

  ghost predicate ThreadsInOrder(s: State) {
    forall t: nat, i, j :: 0 <= i < j < |s.posted| && ShownBy(s, i, t) && ShownBy(s, j, t) ==>
      s.posted[i].at < s.posted[j].at
  }

  ghost predicate WaitersComeLast(s: State) {
    forall t: nat, n: nat, i :: 0 <= i < |s.posted| && ShownBy(s, i, t) && Waits(s, t, n) ==> s.posted[i].at < n
  }

  /** Every dispatched event is with the thread that dispatched it or was posted, once;
      and what a thread posted it posted in the order it dispatched it. */
  ghost predicate EventsOk(s: State) {
    PostedFromLog(s) && WaitersKnown(s) && NoEventLost(s) && ThreadsInOrder(s) && WaitersComeLast(s)
  }

  lemma InitIsConserved()
    ensures TextOk(INIT) && SegmentsOk(INIT) && EventsOk(INIT)
  {}

  /** Nothing about events changes but that text comes in or goes out. */
  ghost predicate TextOnly(s: State, s': State) {
    && (s'.log == s.log || exists e: Input :: e.DeltaIn? && s'.log == s.log + [e])
    && (s'.posted == s.posted || exists p: Post :: p.Delta? && s'.posted == s.posted + [p])
    && forall t: nat, n: nat :: Waits(s', t, n) <==> Waits(s, t, n)
  }

  /** Thread `t` dispatches an event. */
  ghost predicate EventIsIn(s: State, s': State, t: nat) {
    && s'.posted == s.posted
    && (exists event :: s'.log == s.log + [EventIn(t, event)])
    && (forall n: nat :: !Waits(s, t, n))
    && forall u: nat, n: nat :: Waits(s', u, n) <==> Waits(s, u, n) || (u == t && n == |s.log|)
  }

  /** Thread `t` posts the event at `n`. */
  ghost predicate EventIsOut(s: State, s': State, t: nat, n: nat) {
    && s'.log == s.log && Waits(s, t, n)
    && (exists event :: IsEvent(s.log, n, event) && s'.posted == s.posted + [Event(event, n)])
    && (forall u: nat, m: nat :: Waits(s', u, m) <==> Waits(s, u, m) && u != t)
  }

  /** What is known of a post stays known as the log grows. */
  lemma SameThreads(s: State, s': State, i: nat, t: nat)
    requires i < |s.posted| && s.posted <= s'.posted && s.log <= s'.log && PostedFromLog(s)
    ensures ShownBy(s', i, t) <==> ShownBy(s, i, t)
  {
    assert s.posted[i].Event? ==> IsEvent(s.log, s.posted[i].at, s.posted[i].event);
  }

  lemma ShownStays(s: State, s': State, n: nat)
    requires Shown(s, n) && s.posted <= s'.posted
    ensures Shown(s', n)
  {
    var i :| 0 <= i < |s.posted| && ShownAt(s, i, n);
    assert ShownAt(s', i, n);
  }

  lemma TextKeepsEvents(s: State, s': State)
    requires EventsOk(s) && TextOnly(s, s')
    ensures EventsOk(s')
  {
    hide ShownBy, ThreadOf, Shown;
    assert WaitersKnown(s') by {
      forall t: nat, n: nat | Waits(s', t, n)
        ensures ThreadOf(s'.log, n) == Some(t)
      {
        GrownLog(s, s', n);
      }
    }
    forall t: nat, i | 0 <= i < |s'.posted|
      ensures i < |s.posted| ==> (ShownBy(s', i, t) <==> ShownBy(s, i, t))
      ensures i >= |s.posted| ==> !ShownBy(s', i, t)
    {
      if i < |s.posted| {
        SameThreads(s, s', i, t);
      } else {
        DeltasAreNotShown(s', i, t);
      }
    }
    forall n | 0 <= n < |s'.log| && s'.log[n].EventIn?
      ensures Waits(s', s'.log[n].thread, n) || Shown(s', n)
    {
      if Shown(s, n) {
        ShownStays(s, s', n);
      }
    }
  }

  lemma GrownLog(s: State, s': State, n: nat)
    requires s.log <= s'.log && ThreadOf(s.log, n).Some?
    ensures ThreadOf(s'.log, n) == ThreadOf(s.log, n)
  {}

  lemma DeltasAreNotShown(s: State, i: nat, t: nat)
    requires i < |s.posted| && s.posted[i].Delta?
    ensures !ShownBy(s, i, t)
  {}

  lemma EventInKeepsEvents(s: State, s': State, t: nat)
    requires EventsOk(s) && EventIsIn(s, s', t)
    ensures EventsOk(s')
  {
    hide ShownBy, ThreadOf, Shown;
    forall u: nat, n: nat | Waits(s', u, n)
      ensures ThreadOf(s'.log, n) == Some(u)
    {
      if Waits(s, u, n) {
        GrownLog(s, s', n);
      } else {
        LastOfLog(s'.log);
      }
    }
    forall u: nat, i | 0 <= i < |s.posted|
      ensures ShownBy(s', i, u) <==> ShownBy(s, i, u)
      ensures s.posted[i].Event? ==> s.posted[i].at < |s.log|
    {
      SameThreads(s, s', i, u);
      assert s.posted[i].Event? ==> IsEvent(s.log, s.posted[i].at, s.posted[i].event);
    }
    ShownAreEvents(s');
    forall n | 0 <= n < |s'.log| && s'.log[n].EventIn?
      ensures Waits(s', s'.log[n].thread, n) || Shown(s', n)
    {
      if n < |s.log| && Shown(s, n) {
        ShownStays(s, s', n);
      }
    }
  }

  lemma LastOfLog(log: seq<Input>)
    requires log != [] && log[|log| - 1].EventIn?
    ensures ThreadOf(log, |log| - 1) == Some(log[|log| - 1].thread)
  {}

  lemma ShownAreEvents(s: State)
    ensures forall t: nat, i :: 0 <= i < |s.posted| && ShownBy(s, i, t) ==> s.posted[i].Event?
  {}

  lemma EventOutKeepsEvents(s: State, s': State, t: nat, n: nat)
    requires EventsOk(s) && EventIsOut(s, s', t, n)
    ensures EventsOk(s')
  {
    hide ShownBy, ThreadOf, Shown;
    forall u: nat, i | 0 <= i < |s'.posted|
      ensures i < |s.posted| ==> (ShownBy(s', i, u) <==> ShownBy(s, i, u))
      ensures i == |s.posted| ==> (ShownBy(s', i, u) <==> u == t)
    {
      if i < |s.posted| {
        SameThreads(s, s', i, u);
      } else {
        LastShown(s', n, t, u);
      }
    }
    forall m | 0 <= m < |s'.log| && s'.log[m].EventIn?
      ensures Waits(s', s'.log[m].thread, m) || Shown(s', m)
    {
      if Shown(s, m) {
        ShownStays(s, s', m);
      } else if m == n {
        assert ShownAt(s', |s.posted|, n);
        ShownIs(s', |s.posted|, n);
      } else {
        OneEventWaits(s, s.log[m].thread, m, t, n);
      }
    }
  }

  lemma LastShown(s: State, n: nat, t: nat, u: nat)
    requires s.posted != [] && ShownAt(s, |s.posted| - 1, n) && ThreadOf(s.log, n) == Some(t)
    ensures ShownBy(s, |s.posted| - 1, u) <==> u == t
  {}

  lemma ShownIs(s: State, i: nat, n: nat)
    requires i < |s.posted| && ShownAt(s, i, n)
    ensures Shown(s, n)
  {}

  lemma OneEventWaits(s: State, u: nat, m: nat, t: nat, n: nat)
    requires Waits(s, u, m) && Waits(s, t, n) && m != n
    ensures u != t
  {}

  lemma EventsKept(s: State, a: Action)
    requires EventsOk(s) && Enabled(s, a)
    ensures EventsOk(Apply(s, a))
  {
    hide EventsOk, Lists, Segments;
    var s' := Apply(s, a);
    match a
    case DispatchDelta(id, text) =>
      assert s'.log == s.log + [DeltaIn(id, text)] && DeltaIn(id, text).DeltaIn?;
      TextKeepsEvents(s, s');
    case DispatchEvent(t, event, order) =>
      assert s'.log == s.log + [EventIn(t, event)];
      EventInKeepsEvents(s, s', t);
    case TimedFlush(t, order) => TextKeepsEvents(s, s');
    case PostNext(t) =>
      var n := s.flights[t].next;
      var p := Delta(s.drained[n].id, s.drained[n].text, n);
      assert p.Delta? && s'.posted == s.posted + [p];
      TextKeepsEvents(s, s');
    case FinishFlush(t) => FinishKeepsEvents(s, t);
  }

  lemma FinishKeepsEvents(s: State, t: nat)
    requires EventsOk(s) && Enabled(s, FinishFlush(t))
    ensures EventsOk(Apply(s, FinishFlush(t)))
  {
    var s', at := Apply(s, FinishFlush(t)), s.flights[t].after;
    if at.Some? {
      assert Waits(s, t, at.value);
      assert ThreadOf(s.log, at.value) == Some(t);
      hide EventsOk;
      var event := s.log[at.value].event;
      assert IsEvent(s.log, at.value, event) && s'.posted == s.posted + [Event(event, at.value)];
      EventOutKeepsEvents(s, s', t, at.value);
    } else {
      hide EventsOk;
      TextKeepsEvents(s, s');
    }
  }

  lemma {:induction false} EventsAlwaysOk(s: State, trace: seq<Action>)
    requires EventsOk(s) && Possible(s, trace)
    ensures EventsOk(After(s, trace))
    decreases |trace|
  {
    hide EventsOk, Enabled, Apply;
    if trace == [] {
    } else {
      EventsKept(s, trace[0]);
      EventsAlwaysOk(Apply(s, trace[0]), trace[1..]);
    }
  }

  /** Over every interleaving: an event that was dispatched is in exactly one place, with
      its thread or posted once; and the events of one thread are posted in the order it
      dispatched them. */
  lemma EventsArePostedOnceInOrder(trace: seq<Action>)
    requires Possible(INIT, trace)
    ensures var s := After(INIT, trace);
            && (forall n :: 0 <= n < |s.log| && s.log[n].EventIn? ==> (Waits(s, s.log[n].thread, n) <==> !Shown(s, n)))
            && (forall i, j :: 0 <= i < j < |s.posted| && s.posted[i].Event? && s.posted[j].Event? ==>
                  s.posted[i].at != s.posted[j].at)
            && (forall i :: 0 <= i < |s.posted| && s.posted[i].Event? ==> IsEvent(s.log, s.posted[i].at, s.posted[i].event))
            && ThreadsInOrder(s)
  {
    hide Possible, After;
    InitIsConserved();
    EventsAlwaysOk(INIT, trace);
    var s := After(INIT, trace);
    forall i | 0 <= i < |s.posted| && s.posted[i].Event?
      ensures ThreadOf(s.log, s.posted[i].at).Some? && ShownBy(s, i, ThreadOf(s.log, s.posted[i].at).value)
    {
      assert IsEvent(s.log, s.posted[i].at, s.posted[i].event);
    }
  }

  // ---------- text and events, however flushes interleave ----------

  /** The segments up to the end of an event's flush hold the text dispatched before it. */
  ghost predicate FlightHolds(s: State, t: nat, id: nat) {
    t in s.flights && s.flights[t].after.Some? ==>
      && s.flights[t].end <= |s.drained| && s.flights[t].after.value <= |s.log|
      && DrainedText(s.drained[..s.flights[t].end], id) == DispatchedText(s.log[..s.flights[t].after.value], id)
  }

  lemma GrowthKeepsFlight(s: State, s': State, t: nat, id: nat)
    requires FlightHolds(s, t, id) && s.drained <= s'.drained && s.log <= s'.log
    requires t in s'.flights ==> t in s.flights && s'.flights[t].end == s.flights[t].end && s'.flights[t].after == s.flights[t].after
    ensures FlightHolds(s', t, id)
  {
    if t in s'.flights && s.flights[t].after.Some? {
      var end, at := s.flights[t].end, s.flights[t].after.value;
      assert s'.drained[..end] == s.drained[..end] && s'.log[..at] == s.log[..at];
    }
  }

  lemma FlightKept(s: State, a: Action, t: nat, id: nat)
    requires TextOk(s) && FlightHolds(s, t, id) && Enabled(s, a)
    ensures FlightHolds(Apply(s, a), t, id)
  {
    hide DrainedText, DispatchedText, Segments;
    var s' := Apply(s, a);
    if a.DispatchEvent? && a.thread == t {
      assert DrainedText(s.drained, id) + Held(s.pending, id) == DispatchedText(s.log, id);
      DrainTakesAll(s, t, a.order, Some(|s.log|), id);
      assert s'.drained[..|s'.drained|] == s'.drained && s'.log[..|s.log|] == s.log;
    } else if a.TimedFlush? && a.thread == t {
      assert s'.flights[t].after.None?;
    } else {
      hide FlightHolds;
      GrowthKeepsFlight(s, s', t, id);
    }
  }

  lemma {:induction false} FlightAlwaysHolds(s: State, trace: seq<Action>, t: nat, id: nat)
    requires TextOk(s) && SegmentsOk(s) && FlightHolds(s, t, id) && Possible(s, trace)
    ensures FlightHolds(After(s, trace), t, id)
    decreases |trace|
  {
    hide TextOk, SegmentsOk, FlightHolds, Enabled, Apply;
    if trace == [] {
    } else {
      TextKept(s, trace[0]);
      SegmentsKept(s, trace[0]);
      FlightKept(s, trace[0], t, id);
      FlightAlwaysHolds(Apply(s, trace[0]), trace[1..], t, id);
    }
  }

  /** Another flush still has text to post that was drained before `end`. */
  ghost predicate EarlierUnderWay(s: State, end: nat) {
    exists u :: u in s.flights && s.flights[u].next < s.flights[u].end && s.flights[u].next < end
  }

  lemma AllLandedExactly(s: State, end: nat)
    requires SegmentsOk(s) && end <= |s.drained|
    ensures (forall n :: 0 <= n < end ==> Landed(s, n)) <==> !EarlierUnderWay(s, end)
  {
    if u :| u in s.flights && s.flights[u].next < s.flights[u].end && s.flights[u].next < end {
      assert InFlight(s.flights[u], s.flights[u].next);
      assert !Landed(s, s.flights[u].next);
    }
    if !EarlierUnderWay(s, end) {
      forall n | 0 <= n < end
        ensures Landed(s, n)
      {
        assert Flying(s, n) || Landed(s, n);
      }
    }
  }

  /** Over every interleaving, when a piece of text is posted: all text drained before it
      is posted already exactly when no other flush that drained earlier is still under way. */
  lemma TextTrailsTextExactly(trace: seq<Action>, t: nat)
    requires Possible(INIT, trace) && Enabled(After(INIT, trace), PostNext(t))
    ensures var s := After(INIT, trace);
            var n := s.flights[t].next;
            && n < |s.drained|
            && Apply(s, PostNext(t)).posted == s.posted + [Delta(s.drained[n].id, s.drained[n].text, n)]
            && ((forall i :: 0 <= i < n ==> Landed(s, i)) <==> !EarlierUnderWay(s, n))
  {
    hide Possible, After;
    InitIsConserved();
    TextIsConserved(INIT, trace);
    var s := After(INIT, trace);
    AllLandedExactly(s, s.flights[t].next);
  }

  /** Over every interleaving, when an event is posted: the text dispatched before it is
      that of the segments drained up to its own flush, and all of them are posted before
      it exactly when no other flush that drained earlier is still under way. */
  lemma EventsTrailTextExactly(trace: seq<Action>, t: nat, id: nat)
    requires Possible(INIT, trace) && Enabled(After(INIT, trace), FinishFlush(t))
    requires After(INIT, trace).flights[t].after.Some?
    ensures var s := After(INIT, trace);
            var end, at := s.flights[t].end, s.flights[t].after.value;
            && end <= |s.drained| && at < |s.log| && s.log[at].EventIn?
            && DrainedText(s.drained[..end], id) == DispatchedText(s.log[..at], id)
            && ((forall n :: 0 <= n < end ==> Landed(s, n)) <==> !EarlierUnderWay(s, end))
  {
    hide Possible, After, DrainedText, DispatchedText, NoEventLost, ThreadsInOrder, WaitersComeLast, PostedFromLog;
    InitIsConserved();
    TextIsConserved(INIT, trace);
    EventsAlwaysOk(INIT, trace);
    FlightAlwaysHolds(INIT, trace, t, id);
    var s := After(INIT, trace);
    assert Waits(s, t, s.flights[t].after.value);
    AllLandedExactly(s, s.flights[t].end);
  }

  // ---------- order, when flushes are atomic ----------

  /** The step does not get in between a flush that is on its way. */
  predicate Undisturbed(s: State, a: Action) {
    s.flights == map[] || a.PostNext? || a.FinishFlush?
  }

  ghost predicate PossibleAtomic(s: State, trace: seq<Action>)
    decreases |trace|
  {
    trace == [] || (Enabled(s, trace[0]) && Undisturbed(s, trace[0]) && PossibleAtomic(Apply(s, trace[0]), trace[1..]))
  }

  lemma {:induction false} AtomicIsPossible(s: State, trace: seq<Action>)
    requires PossibleAtomic(s, trace)
    ensures Possible(s, trace)
    decreases |trace|
  {
    hide Enabled, Apply;
    if trace == [] {
    } else {
      AtomicIsPossible(Apply(s, trace[0]), trace[1..]);
    }
  }

  /** All text dispatched before the event at `at` was posted before position `p`. */
  ghost predicate TextBefore(s: State, p: nat, at: nat)
    requires p <= |s.posted| && at <= |s.log|
  {
    forall id :: PostedText(s.posted[..p], id) == DispatchedText(s.log[..at], id)
  }

  ghost predicate EventsInOrder(s: State) {
    forall p :: 0 <= p < |s.posted| && s.posted[p].Event? ==>
      && IsEvent(s.log, s.posted[p].at, s.posted[p].event)
      && TextBefore(s, p, s.posted[p].at)
  }

  /** With at most one flush on its way, posted text is drained text up to its next segment. */
  ghost predicate InStep(s: State, n: nat) {
    n <= |s.drained| && forall id :: PostedText(s.posted, id) == DrainedText(s.drained[..n], id)
  }

  ghost predicate AtomicOk(s: State) {
    && (s.flights == map[] ==> InStep(s, |s.drained|))
    && (forall t, u :: t in s.flights && u in s.flights ==> t == u)
    && (forall t :: t in s.flights ==>
          && s.pending == map[] && s.flights[t].end == |s.drained| && InStep(s, s.flights[t].next)
          && (s.flights[t].after.Some? ==>
                && s.flights[t].after.value < |s.log| && s.log[s.flights[t].after.value].EventIn?
                && DeltaFree(s.log[s.flights[t].after.value..])))
    && EventsInOrder(s)
  }

  predicate DeltaFree(log: seq<Input>) {
    forall i :: 0 <= i < |log| ==> !log[i].DeltaIn?
  }

  lemma {:induction false} DeltaFreeAddsNothing(log: seq<Input>, at: nat, id: nat)
    requires at <= |log| && DeltaFree(log[at..])
    ensures DispatchedText(log[..at], id) == DispatchedText(log, id)
    decreases |log|
  {
    if at == |log| {
      assert log[..at] == log;
    } else {
      var init := log[..|log| - 1];
      assert log[at..][|log| - 1 - at] == log[|log| - 1];
      assert init[at..] == log[at..][..|log| - 1 - at] && init[..at] == log[..at];
      DeltaFreeAddsNothing(init, at, id);
    }
  }

  lemma EventsStay(s: State, s': State)
    requires EventsInOrder(s) && s.posted <= s'.posted && s.log <= s'.log
    requires forall p :: |s.posted| <= p < |s'.posted| ==> !s'.posted[p].Event?
    ensures EventsInOrder(s')
  {
    hide PostedText, DispatchedText;
    forall p | 0 <= p < |s'.posted| && s'.posted[p].Event?
      ensures && IsEvent(s'.log, s'.posted[p].at, s'.posted[p].event)
              && TextBefore(s', p, s'.posted[p].at)
    {
      assert s'.posted[p] == s.posted[p] && TextBefore(s, p, s.posted[p].at);
      assert s'.posted[..p] == s.posted[..p] && s'.log[..s.posted[p].at] == s.log[..s.posted[p].at];
    }
  }

  lemma AtomicDispatch(s: State, id: nat, text: string)
    requires AtomicOk(s) && s.flights == map[]
    ensures AtomicOk(Apply(s, DispatchDelta(id, text)))
  {
    hide PostedText, DispatchedText, DrainedText;
    EventsStay(s, Apply(s, DispatchDelta(id, text)));
  }

  lemma AtomicDrain(s: State, t: nat, order: seq<nat>, after: Option<nat>, log: seq<Input>)
    requires AtomicOk(s) && s.flights == map[] && s.log <= log
    requires after.Some? ==> after.value < |log| && log[after.value].EventIn? && DeltaFree(log[after.value..])
    ensures AtomicOk(Drain(s, t, order, after).(log := log))
  {
    hide PostedText, DispatchedText, DrainedText, Segments;
    var s' := Drain(s, t, order, after).(log := log);
    assert s'.drained[..|s.drained|] == s.drained[..|s.drained|];
    assert InStep(s', |s.drained|);
    assert t in s'.flights && s'.flights != map[];
    EventsStay(s, s');
  }

  lemma AtomicPost(s: State, t: nat)
    requires AtomicOk(s) && Enabled(s, PostNext(t))
    ensures AtomicOk(Apply(s, PostNext(t)))
  {
    hide DispatchedText, DrainedText, PostedText;
    var s', n := Apply(s, PostNext(t)), s.flights[t].next;
    forall id
      ensures PostedText(s'.posted, id) == DrainedText(s'.drained[..n + 1], id)
    {
      assert s.drained[..n + 1] == s.drained[..n] + [s.drained[n]];
      PostedAppend(s.posted, Delta(s.drained[n].id, s.drained[n].text, n), id);
      DrainedAppend(s.drained[..n], s.drained[n], id);
    }
    assert InStep(s', n + 1);
    EventsStay(s, s');
    hide EventsInOrder, InStep, DeltaFree;
  }

  lemma AtomicFinish(s: State, t: nat)
    requires AtomicOk(s) && TextOk(s) && Enabled(s, FinishFlush(t))
    ensures AtomicOk(Apply(s, FinishFlush(t)))
  {
    hide DispatchedText, DrainedText, PostedText;
    var s', n := Apply(s, FinishFlush(t)), |s.drained|;
    var at := s.flights[t].after;
    assert s.flights[t].next == n && s.drained[..n] == s.drained;
    assert s'.flights == map[];
    if at.Some? {
      var e := Event(s.log[at.value].event, at.value);
      forall id
        ensures PostedText(s'.posted, id) == PostedText(s.posted, id) == DispatchedText(s.log[..at.value], id)
      {
        PostedAppend(s.posted, e, id);
        DeltaFreeAddsNothing(s.log, at.value, id);
        assert DrainedText(s.drained, id) + Held(s.pending, id) == DispatchedText(s.log, id);
      }
      assert s'.posted[..|s.posted|] == s.posted;
      EventsThenOne(s, s', e);
    } else {
      EventsStay(s, s');
    }
  }

  lemma EventsThenOne(s: State, s': State, e: Post)
    requires EventsInOrder(s) && s'.posted == s.posted + [e] && s'.log == s.log
    requires e.Event? && IsEvent(s.log, e.at, e.event)
    requires forall id :: PostedText(s.posted, id) == DispatchedText(s.log[..e.at], id)
    ensures EventsInOrder(s')
  {
    hide PostedText, DispatchedText;
    forall p | 0 <= p < |s'.posted| && s'.posted[p].Event?
      ensures && IsEvent(s'.log, s'.posted[p].at, s'.posted[p].event)
              && TextBefore(s', p, s'.posted[p].at)
    {
      if p < |s.posted| {
        assert s'.posted[p] == s.posted[p] && TextBefore(s, p, s.posted[p].at);
        assert s'.posted[..p] == s.posted[..p];
      } else {
        assert s'.posted[..p] == s.posted;
      }
    }
  }

  lemma AtomicKept(s: State, a: Action)
    requires AtomicOk(s) && TextOk(s) && Enabled(s, a) && Undisturbed(s, a)
    ensures AtomicOk(Apply(s, a)) && TextOk(Apply(s, a))
  {
    TextKept(s, a);
    hide AtomicOk, TextOk;
    match a
    case DispatchDelta(id, text) => AtomicDispatch(s, id, text);
    case DispatchEvent(t, event, order) => AtomicDrain(s, t, order, Some(|s.log|), s.log + [EventIn(t, event)]);
    case TimedFlush(t, order) => AtomicDrain(s, t, order, None, s.log);
    case PostNext(t) => AtomicPost(s, t);
    case FinishFlush(t) => AtomicFinish(s, t);
  }

  lemma {:induction false} AtomicAlways(s: State, trace: seq<Action>)
    requires AtomicOk(s) && TextOk(s) && PossibleAtomic(s, trace)
    ensures Possible(s, trace) && AtomicOk(After(s, trace)) && TextOk(After(s, trace))
    decreases |trace|
  {
    hide AtomicOk, TextOk, Enabled, Apply;
    AtomicIsPossible(s, trace);
    if trace == [] {
    } else {
      AtomicKept(s, trace[0]);
      AtomicAlways(Apply(s, trace[0]), trace[1..]);
    }
  }

  /** With atomic flushes, posted text followed by pending text is what was dispatched,
      in order, whenever no flush is on its way; and every event comes behind exactly
      the text dispatched before it. */
  lemma AtomicFlushesKeepOrder(trace: seq<Action>, id: nat)
    requires PossibleAtomic(INIT, trace)
    ensures Possible(INIT, trace)
    ensures var s := After(INIT, trace);
            && (s.flights == map[] ==> PostedText(s.posted, id) + Held(s.pending, id) == DispatchedText(s.log, id))
            && EventsInOrder(s)
  {
    InitIsConserved();
    assert AtomicOk(INIT) by {
      assert INIT.drained[..0] == [];
    }
    AtomicAlways(INIT, trace);
    var s := After(INIT, trace);
    hide DispatchedText, DrainedText, PostedText, Possible, After;
    assert s.drained[..|s.drained|] == s.drained;
    assert DrainedText(s.drained, id) + Held(s.pending, id) == DispatchedText(s.log, id);
  }

  // ---------- split flushes can overtake each other ----------

  /** The timer drains one piece, an event's flush drains and posts the next, and then
      the timer posts its own: the reader sees the pieces swapped, the first one even
      behind the event. */
  lemma SplitFlushesReorder(id: nat, a: string, b: string, event: string)
    ensures var trace := [DispatchDelta(id, a), TimedFlush(0, [id]), DispatchDelta(id, b)]
                         + [DispatchEvent(1, event, [id]), PostNext(1), FinishFlush(1), PostNext(0), FinishFlush(0)];
            && Possible(INIT, trace)
            && After(INIT, trace).posted == [Delta(id, b, 1), Event(event, 2), Delta(id, a, 0)]
            && After(INIT, trace).pending == map[] && After(INIT, trace).flights == map[]
  {
    FirstDrains(id, a, b);
    ThenOvertakes(id, a, b, event);
    hide Apply, Enabled;
    var rest := [DispatchEvent(1, event, [id]), PostNext(1), FinishFlush(1), PostNext(0), FinishFlush(0)];
    var s2 := Apply(Apply(INIT, DispatchDelta(id, a)), TimedFlush(0, [id]));
    Prepend(s2, DispatchDelta(id, b), rest);
    Prepend(Apply(INIT, DispatchDelta(id, a)), TimedFlush(0, [id]), [DispatchDelta(id, b)] + rest);
    Prepend(INIT, DispatchDelta(id, a), [TimedFlush(0, [id])] + ([DispatchDelta(id, b)] + rest));
    assert [DispatchDelta(id, a)] + ([TimedFlush(0, [id])] + ([DispatchDelta(id, b)] + rest))
        == [DispatchDelta(id, a), TimedFlush(0, [id]), DispatchDelta(id, b)] + rest;
  }

  lemma Prepend(s: State, a: Action, rest: seq<Action>)
    requires Enabled(s, a) && Possible(Apply(s, a), rest)
    ensures Possible(s, [a] + rest) && After(s, [a] + rest) == After(Apply(s, a), rest)
  {
    hide Enabled, Apply;
    assert ([a] + rest)[1..] == rest;
  }

  lemma OneSegment(id: nat, pending: map<nat, string>)
    requires pending.Keys == {id}
    ensures Lists([id], pending) && Segments([id], pending) == [Segment(id, pending[id])]
  {
    assert [id][1..] == [];
  }

  function BothDispatched(id: nat, a: string, b: string): State {
    State(map[id := b], map[0 := Flight(0, 1, None)], [], [DeltaIn(id, a), DeltaIn(id, b)], [Segment(id, a)])
  }

  lemma FirstDrains(id: nat, a: string, b: string)
    ensures Enabled(INIT, DispatchDelta(id, a))
    ensures var s1 := Apply(INIT, DispatchDelta(id, a));
            && Enabled(s1, TimedFlush(0, [id]))
            && Enabled(Apply(s1, TimedFlush(0, [id])), DispatchDelta(id, b))
            && Apply(Apply(s1, TimedFlush(0, [id])), DispatchDelta(id, b)) == BothDispatched(id, a, b)
  {
    assert "" + a == a && "" + b == b;
    var s1 := State(map[id := a], map[], [], [DeltaIn(id, a)], []);
    assert Apply(INIT, DispatchDelta(id, a)) == s1;
    OneSegment(id, s1.pending);
    assert Apply(s1, TimedFlush(0, [id])) == State(map[], map[0 := Flight(0, 1, None)], [], [DeltaIn(id, a)], [Segment(id, a)]);
  }

  lemma ThenOvertakes(id: nat, a: string, b: string, event: string)
    ensures var s3 := BothDispatched(id, a, b);
            var rest := [DispatchEvent(1, event, [id]), PostNext(1), FinishFlush(1), PostNext(0), FinishFlush(0)];
            && Possible(s3, rest)
            && After(s3, rest).posted == [Delta(id, b, 1), Event(event, 2), Delta(id, a, 0)]
            && After(s3, rest).pending == map[] && After(s3, rest).flights == map[]
  {
    var s3 := BothDispatched(id, a, b);
    OneSegment(id, s3.pending);
    var s4 := State(map[], map[0 := Flight(0, 1, None), 1 := Flight(1, 2, Some(2))], [],
                    [DeltaIn(id, a), DeltaIn(id, b), EventIn(1, event)], [Segment(id, a), Segment(id, b)]);
    assert Apply(s3, DispatchEvent(1, event, [id])) == s4;
    LastPosts(s4, id, a, b, event);
    hide Apply, Enabled;
    var last := [PostNext(1), FinishFlush(1), PostNext(0), FinishFlush(0)];
    Prepend(s3, DispatchEvent(1, event, [id]), last);
    assert [DispatchEvent(1, event, [id])] + last
        == [DispatchEvent(1, event, [id]), PostNext(1), FinishFlush(1), PostNext(0), FinishFlush(0)];
  }

  lemma LastPosts(s4: State, id: nat, a: string, b: string, event: string)
    requires s4 == State(map[], map[0 := Flight(0, 1, None), 1 := Flight(1, 2, Some(2))], [],
                         [DeltaIn(id, a), DeltaIn(id, b), EventIn(1, event)], [Segment(id, a), Segment(id, b)])
    ensures Enabled(s4, DispatchDelta(id, a)) && Possible(s4, [PostNext(1), FinishFlush(1), PostNext(0), FinishFlush(0)])
    ensures var s8 := After(s4, [PostNext(1), FinishFlush(1), PostNext(0), FinishFlush(0)]);
            && s8.posted == [Delta(id, b, 1), Event(event, 2), Delta(id, a, 0)]
            && s8.pending == map[] && s8.flights == map[]
  {
    var s5 := s4.(posted := [Delta(id, b, 1)], flights := map[0 := Flight(0, 1, None), 1 := Flight(2, 2, Some(2))]);
    assert Apply(s4, PostNext(1)) == s5;
    var s6 := s5.(posted := [Delta(id, b, 1), Event(event, 2)], flights := map[0 := Flight(0, 1, None)]);
    assert Apply(s5, FinishFlush(1)) == s6;
    var s7 := s6.(posted := [Delta(id, b, 1), Event(event, 2), Delta(id, a, 0)], flights := map[0 := Flight(1, 1, None)]);
    assert Apply(s6, PostNext(0)) == s7;
    var s8 := s7.(flights := map[]);
    assert Apply(s7, FinishFlush(0)) == s8;
    hide Apply;
    assert Possible(s8, []) && After(s8, []) == s8;
    Prepend(s7, FinishFlush(0), []);
    Prepend(s6, PostNext(0), [FinishFlush(0)] + []);
    Prepend(s5, FinishFlush(1), [PostNext(0)] + ([FinishFlush(0)] + []));
    Prepend(s4, PostNext(1), [FinishFlush(1)] + ([PostNext(0)] + ([FinishFlush(0)] + [])));
    assert [PostNext(1)] + ([FinishFlush(1)] + ([PostNext(0)] + ([FinishFlush(0)] + [])))
        == [PostNext(1), FinishFlush(1), PostNext(0), FinishFlush(0)];
  }

  // ---------- as it runs ----------

  predicate IsOf(a: Action, t: nat) {
    match a
    case DispatchDelta(_, _) => false
    case DispatchEvent(u, _, _) => u == t
    case TimedFlush(u, _) => u == t
    case PostNext(u) => u == t
    case FinishFlush(u) => u == t
  }

  /** What steps of other threads leave of a flush of thread `t`. */
  predicate Untouched(s: State, s': State, t: nat) {
    && (t in s'.flights <==> t in s.flights)
    && (t in s.flights ==> s'.flights[t] == s.flights[t])
    && s.posted <= s'.posted && s.log <= s'.log && s.drained <= s'.drained
  }

  lemma OthersLeaveFlights(s: State, a: Action, t: nat)
    requires Enabled(s, a) && !IsOf(a, t)
    ensures Untouched(s, Apply(s, a), t)
  {
    hide Segments, Lists;
  }

  lemma OneMore(trace: seq<Action>, s: State, a: Action)
    requires Possible(INIT, trace) && After(INIT, trace) == s && Enabled(s, a)
    ensures Possible(INIT, trace + [a]) && After(INIT, trace + [a]) == Apply(s, a)
  {
    hide Enabled, Apply;
    assert Possible(Apply(s, a), []) && After(Apply(s, a), []) == Apply(s, a);
    Prepend(s, a, []);
    assert [a] + [] == [a];
    TraceConcat(INIT, trace, [a]);
  }

  lemma {:induction false} TraceConcat(s: State, t: seq<Action>, u: seq<Action>)
    requires Possible(s, t) && Possible(After(s, t), u)
    ensures Possible(s, t + u) && After(s, t + u) == After(After(s, t), u)
    decreases |t|
  {
    hide Enabled, Apply;
    if t == [] {
      assert t + u == u;
    } else {
      assert (t + u)[1..] == t[1..] + u;
      TraceConcat(Apply(s, t[0]), t[1..], u);
    }
  }

  lemma LandedStays(s: State, s': State, n: nat)
    requires Landed(s, n) && s.posted <= s'.posted
    ensures Landed(s', n)
  {
    var i :| 0 <= i < |s.posted| && s.posted[i].Delta? && s.posted[i].serial == n;
    assert s'.posted[i].serial == n;
  }

  ghost predicate AllLanded(s: State, from: nat, to: nat) {
    forall n :: from <= n < to ==> Landed(s, n)
  }

  lemma AllLandedStays(s: State, s': State, from: nat, to: nat)
    requires AllLanded(s, from, to) && s.posted <= s'.posted
    ensures AllLanded(s', from, to)
  {
    hide Landed;
    forall n | from <= n < to
      ensures Landed(s', n)
    {
      LandedStays(s, s', n);
    }
  }

  lemma OneMoreLanded(s: State, t: nat, from: nat)
    requires Enabled(s, PostNext(t)) && from <= s.flights[t].next && AllLanded(s, from, s.flights[t].next)
    ensures AllLanded(Apply(s, PostNext(t)), from, s.flights[t].next + 1)
  {
    var s', next := Apply(s, PostNext(t)), s.flights[t].next;
    AllLandedStays(s, s', from, next);
    assert s'.posted[|s.posted|].Delta? && s'.posted[|s.posted|].serial == next;
    assert Landed(s', next);
    hide Landed;
  }

  function DrainStep(thread: nat, event: Option<string>, order: seq<nat>): Action {
    if event.Some? then DispatchEvent(thread, event.value, order) else TimedFlush(thread, order)
  }

  class StreamingCoalescer {
    var pendingDeltas: map<nat, string>
    var flushNow: bool
    var flights: map<nat, Flight>        // what each flushing thread has in hand
    var screen: seq<Post>
    var log: seq<Input>                  // kept for the statements
    var drained: seq<Segment>            // kept for the statements
    var others: seq<seq<Action>>         // what other threads do where they get in
    ghost var trace: seq<Action>         // every step taken so far

    ghost function View(): State
      reads this
    {
      State(pendingDeltas, flights, screen, log, drained)
    }

    /** The state is the one the steps so far lead to. */
    ghost predicate Valid()
      reads this
    {
      Possible(INIT, trace) && After(INIT, trace) == View()
    }

    constructor (others: seq<seq<Action>>)
      ensures Valid() && View() == INIT && trace == [] && this.others == others
    {
      pendingDeltas, flushNow, flights, screen, log, drained := map[], false, map[], [], [], [];
      this.others := others;
      trace := [];
    }

    ghost method Log(s: State, a: Action)
      requires Possible(INIT, trace) && After(INIT, trace) == s && Enabled(s, a) && View() == Apply(s, a)
      modifies `trace
      ensures Valid() && trace == old(trace) + [a]
    {
      hide Possible, After, Enabled, Apply;
      OneMore(trace, s, a);
      trace := trace + [a];
    }

    // ---------- the sections ----------

    method KeepDelta(id: nat, text: string)
      requires Valid()
      modifies `pendingDeltas, `log, `trace
      ensures Valid() && View() == Apply(old(View()), DispatchDelta(id, text))
      ensures trace == old(trace) + [DispatchDelta(id, text)]
    {
      hide Possible, After;
      ghost var s := View();
      if id in pendingDeltas {
        pendingDeltas := pendingDeltas[id := pendingDeltas[id] + text];
      } else {
        pendingDeltas := pendingDeltas[id := text];
        assert "" + text == text;
      }
      log := log + [DeltaIn(id, text)];
      Log(s, DispatchDelta(id, text));
    }

    /** Everything pending is moved out under the lock, for the timer or for an event. */
    method DrainPending(thread: nat, event: Option<string>, order: seq<nat>)
      requires Valid() && thread !in flights && Lists(order, pendingDeltas)
      modifies `pendingDeltas, `flights, `log, `drained, `trace
      ensures Valid() && View() == Apply(old(View()), DrainStep(thread, event, order))
      ensures trace == old(trace) + [DrainStep(thread, event, order)]
    {
      hide Possible, After, Lists;
      ghost var s := View();
      var first := |drained|;
      drained := drained + Segments(order, pendingDeltas);
      pendingDeltas := map[];
      flights := flights[thread := Flight(first, |drained|, if event.Some? then Some(|log|) else None)];
      if event.Some? {
        log := log + [EventIn(thread, event.value)];
      }
      Log(s, DrainStep(thread, event, order));
    }

    method PostDelta(thread: nat)
      requires Valid() && Enabled(View(), PostNext(thread))
      modifies `screen, `flights, `trace
      ensures Valid() && View() == Apply(old(View()), PostNext(thread))
      ensures trace == old(trace) + [PostNext(thread)]
    {
      hide Possible, After;
      ghost var s := View();
      var n := flights[thread].next;
      screen := screen + [Delta(drained[n].id, drained[n].text, n)];
      flights := flights[thread := flights[thread].(next := n + 1)];
      Log(s, PostNext(thread));
    }

    method EndFlush(thread: nat)
      requires Valid() && Enabled(View(), FinishFlush(thread))
      modifies `screen, `flights, `trace
      ensures Valid() && View() == Apply(old(View()), FinishFlush(thread))
      ensures trace == old(trace) + [FinishFlush(thread)]
    {
      hide Possible, After;
      ghost var s := View();
      var at := flights[thread].after;
      if at.Some? && at.value < |log| && log[at.value].EventIn? {
        screen := screen + [Event(log[at.value].event, at.value)];
      }
      flights := flights - {thread};
      Log(s, FinishFlush(thread));
    }

    // ---------- the other threads ----------

    /** One step of another thread; a step out of turn is skipped. */
    method OtherStep(a: Action, ghost thread: nat)
      requires Valid() && !IsOf(a, thread)
      modifies `pendingDeltas, `flights, `screen, `log, `drained, `trace
      ensures Valid() && old(trace) <= trace && Untouched(old(View()), View(), thread)
      ensures View() == if Enabled(old(View()), a) then Apply(old(View()), a) else old(View())
    {
      hide Possible, After, Apply, Lists;
      ghost var s := View();
      if Enabled(s, a) {
        OthersLeaveFlights(s, a, thread);
      }
      match a
      case DispatchDelta(id, text) => KeepDelta(id, text);
      case DispatchEvent(t, event, order) =>
        if t !in flights && Lists(order, pendingDeltas) {
          DrainPending(t, Some(event), order);
        }
      case TimedFlush(t, order) =>
        if t !in flights && Lists(order, pendingDeltas) {
          DrainPending(t, None, order);
        }
      case PostNext(t) =>
        if t in flights && flights[t].next < flights[t].end <= |drained| {
          PostDelta(t);
        }
      case FinishFlush(t) =>
        if t in flights && flights[t].next >= flights[t].end {
          EndFlush(t);
        }
    }

    /** The lock is free: other threads get in. */
    method Yield(thread: nat)
      requires Valid()
      modifies this
      ensures Valid() && old(trace) <= trace && Untouched(old(View()), View(), thread)
      ensures flushNow == old(flushNow)
    {
      hide Possible, After, Enabled, Apply;
      if others == [] {
        return;
      }
      var turn := others[0];
      others := others[1..];
      for i := 0 to |turn|
        invariant Valid() && old(trace) <= trace && Untouched(old(View()), View(), thread)
        invariant flushNow == old(flushNow)
      {
        if !IsOf(turn[i], thread) {
          OtherStep(turn[i], thread);
        }
      }
    }

    // ---------- the operations ----------

    /** The messages with pending text, in whatever order the map gives them. */
    method ListPending() returns (order: seq<nat>)
      ensures Lists(order, pendingDeltas)
    {
      order := [];
      var rest := pendingDeltas.Keys;
      while rest != {}
        invariant rest <= pendingDeltas.Keys
        invariant forall i :: 0 <= i < |order| ==> order[i] in pendingDeltas && order[i] !in rest
        invariant forall id :: id in pendingDeltas && id !in rest ==> id in order
        invariant Distinct(order)
        decreases rest
      {
        var id :| id in rest;
        order := order + [id];
        rest := rest - {id};
      }
    }

    /** Drains under the lock, then posts segment by segment without it. However others
        get in, everything that was pending is posted when it returns. */
    method FlushLocked(thread: nat, event: Option<string>)
      requires Valid() && thread !in flights
      modifies this
      ensures Valid() && old(trace) <= trace && flushNow == old(flushNow)
      ensures old(screen) <= screen && old(drained) <= drained
      ensures if event.Some? then old(log) + [EventIn(thread, event.value)] <= log else old(log) <= log
      ensures thread in flights && |old(drained)| <= flights[thread].end <= |drained|
      ensures flights[thread].next == flights[thread].end
      ensures flights[thread].after == if event.Some? then Some(|old(log)|) else None
      ensures forall id :: DrainedText(drained[..flights[thread].end], id)
                        == DrainedText(old(drained), id) + Held(old(pendingDeltas), id)
      ensures AllLanded(View(), |old(drained)|, flights[thread].end)
    {
      hide Possible, After, Segments, Lists, DrainedText, Landed;
      ghost var before := View();
      var order := ListPending();
      forall id
        ensures DrainedText(drained + Segments(order, pendingDeltas), id) == DrainedText(drained, id) + Held(pendingDeltas, id)
      {
        DrainTakesAll(View(), thread, order, None, id);
      }
      DrainPending(thread, event, order);
      ghost var all := drained;
      var end := flights[thread].end;
      hide Enabled, Apply, Drain;
      Yield(thread);
      while flights[thread].next < end
        invariant Valid() && old(trace) <= trace && flushNow == old(flushNow)
        invariant before.posted <= screen && all <= drained && |before.drained| <= end == |all|
        invariant if event.Some? then before.log + [EventIn(thread, event.value)] <= log else before.log <= log
        invariant thread in flights && |before.drained| <= flights[thread].next <= end == flights[thread].end
        invariant flights[thread].after == if event.Some? then Some(|before.log|) else None
        invariant AllLanded(View(), |before.drained|, flights[thread].next)
        decreases end - flights[thread].next
      {
        PostAndYield(thread, |before.drained|);
      }
      assert drained[..end] == all;
    }

    /** One segment goes out, and others get in. */
    method PostAndYield(thread: nat, ghost first: nat)
      requires Valid() && Enabled(View(), PostNext(thread))
      requires first <= flights[thread].next && AllLanded(View(), first, flights[thread].next)
      modifies this
      ensures Valid() && old(trace) <= trace && flushNow == old(flushNow)
      ensures old(screen) <= screen && old(drained) <= drained && old(log) <= log
      ensures thread in flights && flights[thread] == old(flights[thread]).(next := old(flights[thread].next) + 1)
      ensures AllLanded(View(), first, flights[thread].next)
    {
      hide Possible, After, AllLanded;
      OneMoreLanded(View(), thread, first);
      PostDelta(thread);
      ghost var s := View();
      Yield(thread);
      AllLandedStays(s, View(), first, flights[thread].next);
    }

    /** A delta is kept back. Any other event goes out behind everything that was pending
        when it came, whatever others do meanwhile. */
    method Dispatch(thread: nat, input: Input)
      requires Valid() && thread !in flights
      requires input.EventIn? ==> input.thread == thread
      modifies this
      ensures Valid() && old(trace) <= trace && thread !in flights && old(drained) <= drained
      ensures old(log) + [input] <= log
      ensures input.DeltaIn? ==> View() == Apply(old(View()), DispatchDelta(input.id, input.text))
      ensures input.EventIn? ==>
                && screen != [] && screen[|screen| - 1] == Event(input.event, |old(log)|)
                && exists end :: |old(drained)| <= end <= |drained| && AllLanded(View(), |old(drained)|, end)
                     && forall id :: DrainedText(drained[..end], id)
                                  == DrainedText(old(drained), id) + Held(old(pendingDeltas), id)
    {
      hide Possible, After, DrainedText, AllLanded;
      match input
      case DeltaIn(id, text) => KeepDelta(id, text);
      case EventIn(_, event) =>
        FlushLocked(thread, Some(event));
        ghost var s, end := View(), flights[thread].end;
        EndFlush(thread);
        AllLandedStays(s, View(), |old(drained)|, end);
    }

    /** One round of the worker that flushes on a timer or when told to. */
    method FlushTick(thread: nat)
      requires Valid() && thread !in flights
      modifies this
      ensures Valid() && old(trace) <= trace && thread !in flights && !flushNow
      ensures old(log) <= log && old(drained) <= drained
      ensures exists end :: |old(drained)| <= end <= |drained| && AllLanded(View(), |old(drained)|, end)
                && forall id :: DrainedText(drained[..end], id)
                             == DrainedText(old(drained), id) + Held(old(pendingDeltas), id)
    {
      hide Possible, After, DrainedText, AllLanded;
      flushNow := false;
      FlushLocked(thread, None);
      ghost var s, end := View(), flights[thread].end;
      EndFlush(thread);
      AllLandedStays(s, View(), |old(drained)|, end);
    }
  }
}
