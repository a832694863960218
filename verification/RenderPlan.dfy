/** The transcript's data and the order in which it is drawn. */
module RenderPlan {
  import opened ChatTypes

  datatype Sender = UserSender | AgentSender

  datatype Segment =
    | TextSegment(text: string)
    | ToolSegment(id: nat, block: string, status: Status)

  /** `createdAt` is the time stamp the message got when it was made. */
  datatype Entry = Entry(
    id: nat,
    sender: Sender,
    segments: seq<Segment>,
    status: Status,
    roleLabel: string,
    createdAt: int)

  datatype Notice = Notice(id: nat, notice: string, createdAt: int, repeat: nat)

  datatype Kind = UserItem | AgentItem | NoticeItem

  datatype Item = Item(kind: Kind, index: nat)

  function ItemOf(ms: seq<Entry>, i: nat): Item
    requires i < |ms|
  {
    Item(if ms[i].sender.AgentSender? then AgentItem else UserItem, i)
  }

  /** The plan for what is left from message `mi` and notice `ni` on. */
  function Plan(ms: seq<Entry>, ns: seq<Notice>, mi: nat, ni: nat): seq<Item>
    requires mi <= |ms| && ni <= |ns|
    decreases |ms| - mi + |ns| - ni
  {
    if mi == |ms| && ni == |ns| then []
    else if mi == |ms| || (ni < |ns| && ns[ni].createdAt < ms[mi].createdAt) then
      [Item(NoticeItem, ni)] + Plan(ms, ns, mi, ni + 1)
    else [ItemOf(ms, mi)] + Plan(ms, ns, mi + 1, ni)
  }

  function PlanOf(ms: seq<Entry>, ns: seq<Notice>): seq<Item> {
    Plan(ms, ns, 0, 0)
  }

  /** `plan` contains every message from `mi` on, as the user's or the agent's, and every
      notice from `ni` on, exactly once each and in order. */
  predicate Complete(plan: seq<Item>, ms: seq<Entry>, ns: seq<Notice>, mi: nat, ni: nat)
    decreases |plan|
  {
    if plan == [] then mi == |ms| && ni == |ns|
    else if plan[0].kind.NoticeItem? then
      ni < |ns| && plan[0].index == ni && Complete(plan[1..], ms, ns, mi, ni + 1)
    else
      && mi < |ms| && plan[0].index == mi && (plan[0].kind.AgentItem? <==> ms[mi].sender.AgentSender?)
      && Complete(plan[1..], ms, ns, mi + 1, ni)
  }

  predicate InRange(item: Item, ms: seq<Entry>, ns: seq<Notice>) {
    if item.kind.NoticeItem? then item.index < |ns| else item.index < |ms|
  }

  function Time(item: Item, ms: seq<Entry>, ns: seq<Notice>): int
    requires InRange(item, ms, ns)
  {
    if item.kind.NoticeItem? then ns[item.index].createdAt else ms[item.index].createdAt
  }

  /** `a` may be drawn before `b`: earlier, or at the same instant unless that puts a
      notice before a message. */
  predicate Precedes(a: Item, b: Item, ms: seq<Entry>, ns: seq<Notice>)
    requires InRange(a, ms, ns) && InRange(b, ms, ns)
  {
    || Time(a, ms, ns) < Time(b, ms, ns)
    || (Time(a, ms, ns) == Time(b, ms, ns) && !(a.kind.NoticeItem? && !b.kind.NoticeItem?))
  }

  ghost predicate Ordered(plan: seq<Item>, ms: seq<Entry>, ns: seq<Notice>) {
    && (forall i :: 0 <= i < |plan| ==> InRange(plan[i], ms, ns))
    && forall i, j :: 0 <= i < j < |plan| ==> Precedes(plan[i], plan[j], ms, ns)
  }

  ghost predicate MessagesSorted(ms: seq<Entry>) {
    forall i, j :: 0 <= i < j < |ms| ==> ms[i].createdAt <= ms[j].createdAt
  }

  ghost predicate NoticesSorted(ns: seq<Notice>) {
    forall i, j :: 0 <= i < j < |ns| ==> ns[i].createdAt <= ns[j].createdAt
  }

  /** The plan contains everything exactly once, in order, sorted or not. */
  lemma {:induction false} PlanIsComplete(ms: seq<Entry>, ns: seq<Notice>, mi: nat, ni: nat)
    requires mi <= |ms| && ni <= |ns|
    ensures Complete(Plan(ms, ns, mi, ni), ms, ns, mi, ni)
    ensures |Plan(ms, ns, mi, ni)| == |ms| - mi + |ns| - ni
    decreases |ms| - mi + |ns| - ni
  {
    if mi == |ms| && ni == |ns| {
    } else if mi == |ms| || (ni < |ns| && ns[ni].createdAt < ms[mi].createdAt) {
      PlanIsComplete(ms, ns, mi, ni + 1);
    } else {
      PlanIsComplete(ms, ns, mi + 1, ni);
    }
  }

  /** What a complete plan may contain. */
  lemma {:induction false} CompleteItems(plan: seq<Item>, ms: seq<Entry>, ns: seq<Notice>, mi: nat, ni: nat)
    requires Complete(plan, ms, ns, mi, ni)
    ensures mi <= |ms| && ni <= |ns|
    ensures forall i :: 0 <= i < |plan| ==>
              InRange(plan[i], ms, ns) && plan[i].index >= (if plan[i].kind.NoticeItem? then ni else mi)
    decreases |plan|
  {
    if plan == [] {
    } else {
      if plan[0].kind.NoticeItem? {
        CompleteItems(plan[1..], ms, ns, mi, ni + 1);
      } else {
        CompleteItems(plan[1..], ms, ns, mi + 1, ni);
      }
      forall i | 0 < i < |plan|
        ensures InRange(plan[i], ms, ns) && plan[i].index >= (if plan[i].kind.NoticeItem? then ni else mi)
      {
        assert plan[i] == plan[1..][i - 1];
      }
    }
  }

  lemma OrderedCons(head: Item, tail: seq<Item>, ms: seq<Entry>, ns: seq<Notice>)
    requires Ordered(tail, ms, ns) && InRange(head, ms, ns)
    requires forall j :: 0 <= j < |tail| ==> Precedes(head, tail[j], ms, ns)
    ensures Ordered([head] + tail, ms, ns)
  {
    var plan := [head] + tail;
    forall i, j | 0 <= i < j < |plan|
      ensures InRange(plan[i], ms, ns) && InRange(plan[j], ms, ns) && Precedes(plan[i], plan[j], ms, ns)
    {
      assert plan[j] == tail[j - 1];
      if i > 0 {
        assert plan[i] == tail[i - 1];
      }
    }
  }

  /** Whatever is left after the two indices comes no earlier than what is there now. */
  lemma NothingLeftIsEarlier(rest: seq<Item>, ms: seq<Entry>, ns: seq<Notice>, mi: nat, ni: nat, t: int)
    requires MessagesSorted(ms) && NoticesSorted(ns) && Complete(rest, ms, ns, mi, ni)
    requires mi < |ms| ==> t <= ms[mi].createdAt
    requires ni < |ns| ==> t <= ns[ni].createdAt
    ensures forall j :: 0 <= j < |rest| ==>
              && InRange(rest[j], ms, ns) && t <= Time(rest[j], ms, ns)
              && (mi < |ms| && !rest[j].kind.NoticeItem? ==> ms[mi].createdAt <= Time(rest[j], ms, ns))
  {
    CompleteItems(rest, ms, ns, mi, ni);
  }

  /** With both inputs sorted, the plan is sorted too, messages first on ties. */
  lemma {:induction false} PlanIsOrdered(ms: seq<Entry>, ns: seq<Notice>, mi: nat, ni: nat)
    requires mi <= |ms| && ni <= |ns| && MessagesSorted(ms) && NoticesSorted(ns)
    ensures Ordered(Plan(ms, ns, mi, ni), ms, ns)
    decreases |ms| - mi + |ns| - ni
  {
    hide Complete;
    if mi == |ms| && ni == |ns| {
    } else if mi == |ms| || (ni < |ns| && ns[ni].createdAt < ms[mi].createdAt) {
      PlanIsOrdered(ms, ns, mi, ni + 1);
      PlanIsComplete(ms, ns, mi, ni + 1);
      var rest := Plan(ms, ns, mi, ni + 1);
      hide Plan, Ordered;
      NothingLeftIsEarlier(rest, ms, ns, mi, ni + 1, ns[ni].createdAt);
      OrderedCons(Item(NoticeItem, ni), rest, ms, ns);
    } else {
      PlanIsOrdered(ms, ns, mi + 1, ni);
      PlanIsComplete(ms, ns, mi + 1, ni);
      var rest := Plan(ms, ns, mi + 1, ni);
      hide Plan, Ordered;
      NothingLeftIsEarlier(rest, ms, ns, mi + 1, ni, ms[mi].createdAt);
      OrderedCons(ItemOf(ms, mi), rest, ms, ns);
    }
  }

  /** With both inputs sorted there is no other way to draw the transcript. */
  lemma {:induction false} PlanIsTheOnlyOne(plan: seq<Item>, ms: seq<Entry>, ns: seq<Notice>, mi: nat, ni: nat)
    requires MessagesSorted(ms) && NoticesSorted(ns)
    requires Complete(plan, ms, ns, mi, ni) && Ordered(plan, ms, ns)
    ensures mi <= |ms| && ni <= |ns| && plan == Plan(ms, ns, mi, ni)
    decreases |plan|
  {
    CompleteItems(plan, ms, ns, mi, ni);
    if plan == [] {
    } else {
      var tail := plan[1..];
      assert Ordered(tail, ms, ns) by {
        forall i, j | 0 <= i < j < |tail|
          ensures Precedes(tail[i], tail[j], ms, ns)
        {
          assert Precedes(plan[i + 1], plan[j + 1], ms, ns);
        }
      }
      if plan[0].kind.NoticeItem? {
        PlanIsTheOnlyOne(tail, ms, ns, mi, ni + 1);
        if mi < |ms| {
          Mentions(tail, ms, ns, mi, ni + 1, ItemOf(ms, mi));
        }
      } else {
        PlanIsTheOnlyOne(tail, ms, ns, mi + 1, ni);
        if ni < |ns| {
          Mentions(tail, ms, ns, mi + 1, ni, Item(NoticeItem, ni));
        }
      }
    }
  }

  /** A complete plan mentions the next message and the next notice. */
  lemma {:induction false} Mentions(plan: seq<Item>, ms: seq<Entry>, ns: seq<Notice>, mi: nat, ni: nat, item: Item)
    requires Complete(plan, ms, ns, mi, ni)
    requires (ni < |ns| && item == Item(NoticeItem, ni)) || (mi < |ms| && item == ItemOf(ms, mi))
    ensures exists i :: 0 <= i < |plan| && plan[i] == item
    decreases |plan|
  {
    if plan[0] == item {
    } else {
      if plan[0].kind.NoticeItem? {
        Mentions(plan[1..], ms, ns, mi, ni + 1, item);
      } else {
        Mentions(plan[1..], ms, ns, mi + 1, ni, item);
      }
      var i :| 0 <= i < |plan[1..]| && plan[1..][i] == item;
      assert plan[i + 1] == item;
    }
  }

  lemma Push(plan: seq<Item>, item: Item, rest: seq<Item>)
    ensures plan + ([item] + rest) == plan + [item] + rest
  {}

  lemma NoticeNext(ms: seq<Entry>, ns: seq<Notice>, mi: nat, ni: nat)
    requires mi <= |ms| && ni < |ns| && (mi == |ms| || ns[ni].createdAt < ms[mi].createdAt)
    ensures Plan(ms, ns, mi, ni) == [Item(NoticeItem, ni)] + Plan(ms, ns, mi, ni + 1)
  {}

  lemma MessageNext(ms: seq<Entry>, ns: seq<Notice>, mi: nat, ni: nat)
    requires mi < |ms| && ni <= |ns| && (ni == |ns| || ns[ni].createdAt >= ms[mi].createdAt)
    ensures Plan(ms, ns, mi, ni) == [ItemOf(ms, mi)] + Plan(ms, ns, mi + 1, ni)
  {}

  lemma NothingNext(ms: seq<Entry>, ns: seq<Notice>)
    ensures Plan(ms, ns, |ms|, |ns|) == []
  {}

  method BuildMessageRenderPlan(ms: seq<Entry>, ns: seq<Notice>) returns (plan: seq<Item>)
    ensures plan == PlanOf(ms, ns)
  {
    hide ItemOf, Plan;
    plan := [];
    var mi, ni := 0, 0;
    while mi < |ms| && ni < |ns|
      invariant mi <= |ms| && ni <= |ns|
      invariant plan + Plan(ms, ns, mi, ni) == PlanOf(ms, ns)
    {
      if ns[ni].createdAt < ms[mi].createdAt {
        NoticeNext(ms, ns, mi, ni);
        Push(plan, Item(NoticeItem, ni), Plan(ms, ns, mi, ni + 1));
        plan := plan + [Item(NoticeItem, ni)];
        ni := ni + 1;
      } else {
        MessageNext(ms, ns, mi, ni);
        Push(plan, ItemOf(ms, mi), Plan(ms, ns, mi + 1, ni));
        plan := plan + [ItemOf(ms, mi)];
        mi := mi + 1;
      }
    }
    while mi < |ms|
      invariant mi <= |ms| && (mi == |ms| || ni == |ns|) && ni <= |ns|
      invariant plan + Plan(ms, ns, mi, ni) == PlanOf(ms, ns)
    {
      MessageNext(ms, ns, mi, ni);
      Push(plan, ItemOf(ms, mi), Plan(ms, ns, mi + 1, ni));
      plan := plan + [ItemOf(ms, mi)];
      mi := mi + 1;
    }
    while ni < |ns|
      invariant mi == |ms| && ni <= |ns|
      invariant plan + Plan(ms, ns, mi, ni) == PlanOf(ms, ns)
    {
      NoticeNext(ms, ns, mi, ni);
      Push(plan, Item(NoticeItem, ni), Plan(ms, ns, mi, ni + 1));
      plan := plan + [Item(NoticeItem, ni)];
      ni := ni + 1;
    }
    NothingNext(ms, ns);
  }

  // ---------- what the plan depends on ----------

  predicate SameShape(a: Entry, b: Entry) {
    a.sender == b.sender && a.createdAt == b.createdAt
  }

  ghost predicate SameMessageShapes(ms: seq<Entry>, ms': seq<Entry>) {
    |ms| == |ms'| && forall i :: 0 <= i < |ms| ==> SameShape(ms[i], ms'[i])
  }

  ghost predicate SameNoticeTimes(ns: seq<Notice>, ns': seq<Notice>) {
    |ns| == |ns'| && forall i :: 0 <= i < |ns| ==> ns[i].createdAt == ns'[i].createdAt
  }

  lemma {:induction false} PlanDependsOnShapes(ms: seq<Entry>, ms': seq<Entry>, ns: seq<Notice>, ns': seq<Notice>, mi: nat, ni: nat)
    requires SameMessageShapes(ms, ms') && SameNoticeTimes(ns, ns') && mi <= |ms| && ni <= |ns|
    ensures Plan(ms', ns', mi, ni) == Plan(ms, ns, mi, ni)
    decreases |ms| - mi + |ns| - ni
  {
    if mi == |ms| && ni == |ns| {
    } else if mi == |ms| || (ni < |ns| && ns[ni].createdAt < ms[mi].createdAt) {
      PlanDependsOnShapes(ms, ms', ns, ns', mi, ni + 1);
    } else {
      assert SameShape(ms[mi], ms'[mi]);
      PlanDependsOnShapes(ms, ms', ns, ns', mi + 1, ni);
    }
  }
}
