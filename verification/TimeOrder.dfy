/** Shipment events and the stable ordering by time that both the summary and the detectors rely on. */
module TimeOrder {
  import opened Prelude
  import opened Shipments

  type LocationId = nat

  datatype EventKind =
    | Created
    | StatusChanged
    | PickedUp
    | ArrivedAtLocation
    | DepartedLocation
    | NoteAdded

  /** `note` stands for the description and the metadata. */
  datatype TimelineEvent = TimelineEvent(
    id: nat,
    kind: EventKind,
    status: Option<ShipmentStatus>,
    location: Option<LocationId>,
    occurredAt: int,
    note: string
  )

  predicate Ordered(s: seq<TimelineEvent>) {
    forall i, j :: 0 <= i < j < |s| ==> s[i].occurredAt <= s[j].occurredAt
  }

  predicate DistinctTimes(s: seq<TimelineEvent>) {
    forall i, j :: 0 <= i < j < |s| ==> s[i].occurredAt != s[j].occurredAt
  }

  /** The events of one moment, in the order in which they are listed. */
  function AtTime(s: seq<TimelineEvent>, t: int): seq<TimelineEvent> {
    if s == [] then []
    else
      var last := s[|s| - 1];
      AtTime(s[..|s| - 1], t) + if last.occurredAt == t then [last] else []
  }

  /** Puts an event behind all events that are not later. */
  function InsertByTime(s: seq<TimelineEvent>, e: TimelineEvent): seq<TimelineEvent> {
    if s == [] || s[|s| - 1].occurredAt <= e.occurredAt then s + [e]
    else InsertByTime(s[..|s| - 1], e) + [s[|s| - 1]]
  }

  /** `sorted(events, key=occurred_at)`. */
  function SortByTime(s: seq<TimelineEvent>): seq<TimelineEvent> {
    if s == [] then [] else InsertByTime(SortByTime(s[..|s| - 1]), s[|s| - 1])
  }

  ghost predicate SameMoments(a: seq<TimelineEvent>, b: seq<TimelineEvent>) {
    forall t :: AtTime(a, t) == AtTime(b, t)
  }

  /** What a stable sort by time is: ordered, with the events of each moment in their original order. */
  ghost predicate IsStableSort(s: seq<TimelineEvent>, r: seq<TimelineEvent>) {
    Ordered(r) && SameMoments(r, s)
  }

  lemma {:induction false} InsertByTimeAdds(s: seq<TimelineEvent>, e: TimelineEvent)
    ensures multiset(InsertByTime(s, e)) == multiset(s) + multiset{e}
    ensures forall x :: x in InsertByTime(s, e) ==> x == e || x in s
    ensures |InsertByTime(s, e)| == |s| + 1
  {
    if s != [] && s[|s| - 1].occurredAt > e.occurredAt {
      InsertByTimeAdds(s[..|s| - 1], e);
      assert s == s[..|s| - 1] + [s[|s| - 1]];
    }
  }

  lemma AppendKeepsOrdered(s: seq<TimelineEvent>, last: TimelineEvent)
    requires Ordered(s) && forall x :: x in s ==> x.occurredAt <= last.occurredAt
    ensures Ordered(s + [last])
  {
    var more := s + [last];
    forall i, j | 0 <= i < j < |more| ensures more[i].occurredAt <= more[j].occurredAt {
      assert s[i] in s;
    }
  }

  lemma {:induction false} InsertByTimeIsOrdered(s: seq<TimelineEvent>, e: TimelineEvent)
    requires Ordered(s)
    ensures Ordered(InsertByTime(s, e))
  {
    if s != [] {
      var front, last := s[..|s| - 1], s[|s| - 1];
      if last.occurredAt <= e.occurredAt {
        AppendKeepsOrdered(s, e);
      } else {
        InsertByTimeIsOrdered(front, e);
        InsertByTimeAdds(front, e);
        AppendKeepsOrdered(InsertByTime(front, e), last);
      }
    }
  }

  lemma {:induction false} InsertByTimeIsStable(s: seq<TimelineEvent>, e: TimelineEvent, t: int)
    ensures AtTime(InsertByTime(s, e), t) == AtTime(s, t) + if e.occurredAt == t then [e] else []
  {
    if s == [] || s[|s| - 1].occurredAt <= e.occurredAt {
      assert (s + [e])[..|s|] == s;
    } else {
      var front, last := s[..|s| - 1], s[|s| - 1];
      InsertByTimeIsStable(front, e, t);
      var r := InsertByTime(front, e);
      assert (r + [last])[..|r|] == r;
    }
  }

  lemma CountedFromTheEnd(s: seq<TimelineEvent>)
    requires s != []
    ensures multiset(s) == multiset(s[..|s| - 1]) + multiset{s[|s| - 1]}
  {
    assert s == s[..|s| - 1] + [s[|s| - 1]];
  }

  lemma {:induction false} SortPermutes(s: seq<TimelineEvent>)
    ensures multiset(SortByTime(s)) == multiset(s) && |SortByTime(s)| == |s|
  {
    if s != [] {
      var front, last := s[..|s| - 1], s[|s| - 1];
      SortPermutes(front);
      InsertByTimeAdds(SortByTime(front), last);
      CountedFromTheEnd(s);
    }
  }

  lemma {:induction false} SortIsOrdered(s: seq<TimelineEvent>)
    ensures Ordered(SortByTime(s))
  {
    if s != [] {
      SortIsOrdered(s[..|s| - 1]);
      InsertByTimeIsOrdered(SortByTime(s[..|s| - 1]), s[|s| - 1]);
    }
  }

  lemma {:induction false} SortKeepsMoments(s: seq<TimelineEvent>, t: int)
    ensures AtTime(SortByTime(s), t) == AtTime(s, t)
  {
    if s != [] {
      SortKeepsMoments(s[..|s| - 1], t);
      InsertByTimeIsStable(SortByTime(s[..|s| - 1]), s[|s| - 1], t);
    }
  }

  /** The sort is a stable one, and a permutation. */
  lemma SortIsStable(s: seq<TimelineEvent>)
    ensures IsStableSort(s, SortByTime(s))
    ensures multiset(SortByTime(s)) == multiset(s) && |SortByTime(s)| == |s|
  {
    SortPermutes(s);
    SortIsOrdered(s);
    forall t ensures AtTime(SortByTime(s), t) == AtTime(s, t) {
      SortKeepsMoments(s, t);
    }
  }

  lemma {:induction false} AtTimeFinds(s: seq<TimelineEvent>, t: int)
    ensures AtTime(s, t) != [] <==> exists i :: 0 <= i < |s| && s[i].occurredAt == t
    ensures forall x :: x in AtTime(s, t) <==> x in s && x.occurredAt == t
  {
    if s != [] {
      var front, last := s[..|s| - 1], s[|s| - 1];
      AtTimeFinds(front, t);
      assert s == front + [last];
      assert forall i :: 0 <= i < |front| ==> front[i] == s[i];
      if last.occurredAt == t {
        assert s[|s| - 1].occurredAt == t;
      }
    }
  }

  lemma LastMomentIsShared(a: seq<TimelineEvent>, b: seq<TimelineEvent>)
    requires Ordered(a) && Ordered(b) && SameMoments(a, b) && a != []
    ensures b != [] && a[|a| - 1] == b[|b| - 1]
  {
    var t := a[|a| - 1].occurredAt;
    assert AtTime(a, t) == AtTime(b, t);
    AtTimeFinds(b, t);
    var u := b[|b| - 1].occurredAt;
    assert AtTime(a, u) == AtTime(b, u);
    AtTimeFinds(a, u);
    assert t == u;
    assert AtTime(a, t)[|AtTime(a, t)| - 1] == a[|a| - 1];
  }

  lemma FrontsShareMoments(a: seq<TimelineEvent>, b: seq<TimelineEvent>)
    requires a != [] && b != [] && a[|a| - 1] == b[|b| - 1] && SameMoments(a, b)
    ensures SameMoments(a[..|a| - 1], b[..|b| - 1])
  {
    var frontA, frontB := a[..|a| - 1], b[..|b| - 1];
    forall t ensures AtTime(frontA, t) == AtTime(frontB, t) {
      var tail := if a[|a| - 1].occurredAt == t then [a[|a| - 1]] else [];
      assert AtTime(a, t) == AtTime(frontA, t) + tail && AtTime(b, t) == AtTime(frontB, t) + tail;
      assert AtTime(frontA, t) == AtTime(a, t)[..|AtTime(a, t)| - |tail|];
    }
  }

  /** There is only one stable sort of a list. */
  lemma {:induction false} StableSortIsUnique(a: seq<TimelineEvent>, b: seq<TimelineEvent>)
    requires Ordered(a) && Ordered(b) && SameMoments(a, b)
    ensures a == b
  {
    if a != [] {
      LastMomentIsShared(a, b);
      FrontsShareMoments(a, b);
      StableSortIsUnique(a[..|a| - 1], b[..|b| - 1]);
      assert a == a[..|a| - 1] + [a[|a| - 1]] && b == b[..|b| - 1] + [b[|b| - 1]];
    } else if b != [] {
      LastMomentIsShared(b, a);
    }
  }

  /** Sorting what is ordered already changes nothing, so sorting twice is sorting once. */
  lemma SortingOrderedIsIdentity(s: seq<TimelineEvent>)
    requires Ordered(s)
    ensures SortByTime(s) == s
  {
    SortIsStable(s);
    StableSortIsUnique(SortByTime(s), s);
  }

  lemma {:induction false} OneEventPerTime(s: seq<TimelineEvent>, t: int)
    requires DistinctTimes(s)
    ensures |AtTime(s, t)| <= 1
  {
    if s != [] {
      var front, last := s[..|s| - 1], s[|s| - 1];
      OneEventPerTime(front, t);
      if last.occurredAt == t {
        AtTimeFinds(front, t);
      }
    }
  }

  lemma DistinctTimesPermute(a: seq<TimelineEvent>, b: seq<TimelineEvent>)
    requires multiset(a) == multiset(b) && DistinctTimes(a)
    ensures DistinctTimes(b)
  {
    forall i, j | 0 <= i < j < |b| ensures b[i].occurredAt != b[j].occurredAt {
      if b[i].occurredAt == b[j].occurredAt {
        assert b == b[..i] + [b[i]] + b[i + 1..j] + [b[j]] + b[j + 1..];
        assert b[i] in multiset(a) && b[j] in multiset(a);
        var k, l :| 0 <= k < |a| && 0 <= l < |a| && a[k] == b[i] && a[l] == b[j];
        assert k == l;
        assert multiset(b)[b[i]] >= 2;
        AtMostOnce(a, k);
      }
    }
  }

  lemma AtMostOnce(a: seq<TimelineEvent>, k: nat)
    requires k < |a| && DistinctTimes(a)
    ensures multiset(a)[a[k]] == 1
  {
    assert a == a[..k] + [a[k]] + a[k + 1..];
    assert a[k] !in a[..k] && a[k] !in a[k + 1..];
  }

  lemma SameSingleton(a: seq<TimelineEvent>, b: seq<TimelineEvent>)
    requires |a| <= 1 && |b| <= 1 && forall x :: x in a <==> x in b
    ensures a == b
  {
    assert a != [] ==> a[0] in b;
    assert b != [] ==> b[0] in a;
  }

  lemma DistinctTimesShareMoments(a: seq<TimelineEvent>, b: seq<TimelineEvent>, t: int)
    requires multiset(a) == multiset(b) && DistinctTimes(a) && DistinctTimes(b)
    ensures AtTime(a, t) == AtTime(b, t)
  {
    OneEventPerTime(a, t);
    OneEventPerTime(b, t);
    forall x ensures x in AtTime(a, t) <==> x in AtTime(b, t) {
      AtTimeFinds(a, t);
      AtTimeFinds(b, t);
      assert x in multiset(a) <==> x in multiset(b);
    }
    SameSingleton(AtTime(a, t), AtTime(b, t));
  }

  /** When no two events share a moment, the order in which they were read does not matter. */
  lemma SortIgnoresInputOrder(a: seq<TimelineEvent>, b: seq<TimelineEvent>)
    requires multiset(a) == multiset(b) && DistinctTimes(a)
    ensures SortByTime(a) == SortByTime(b)
  {
    DistinctTimesPermute(a, b);
    SortIsStable(a);
    SortIsStable(b);
    forall t ensures AtTime(SortByTime(a), t) == AtTime(SortByTime(b), t) {
      DistinctTimesShareMoments(a, b, t);
    }
    StableSortIsUnique(SortByTime(a), SortByTime(b));
  }
}
