/** Context retrieval: the relevance threshold and the removal of duplicates from the search results. */
module Retrieval {
  import Text

  datatype Chunk = Chunk(id: string, document: string, content: string, index: nat)

  datatype Retrieved = Retrieved(chunk: Chunk, score: real)

  /** What of a content is compared. */
  type ContentKey = string -> string

  /** The service compares contents without regard to whitespace and case; case folding is left open. */
  function NormalKey(caseFold: string -> string): ContentKey {
    content => caseFold(Text.Normalize(content))
  }

  /** Two results clash when they are the same chunk or say the same. */
  predicate Clash(a: Retrieved, b: Retrieved, key: ContentKey) {
    a.chunk.id == b.chunk.id || key(a.chunk.content) == key(b.chunk.content)
  }

  lemma SameWordsSameKey(s: string, t: string, caseFold: string -> string)
    requires Text.Split(s) == Text.Split(t)
    ensures NormalKey(caseFold)(s) == NormalKey(caseFold)(t)
  {
    assert Text.Normalize(s) == Text.Normalize(t);
  }

  /** How much whitespace separates two parts of a content, or surrounds it, makes no difference to what is compared. */
  lemma SpacingIsIgnored(x: string, gap: string, other: string, y: string, caseFold: string -> string)
    requires Text.AllSpace(gap) && Text.AllSpace(other)
    ensures gap != "" && other != "" ==> NormalKey(caseFold)(x + gap + y) == NormalKey(caseFold)(x + other + y)
    ensures NormalKey(caseFold)(gap + x + other) == NormalKey(caseFold)(x)
  {
    if gap != "" && other != "" {
      Text.GapSeparates(x, gap, y);
      Text.GapSeparates(x, other, y);
      SameWordsSameKey(x + gap + y, x + other + y, caseFold);
    }
    Text.TrailingSpaceIsIgnored(gap + x, other);
    Text.LeadingSpaceIsIgnored(gap, x);
    SameWordsSameKey(gap + x + other, x, caseFold);
  }

  /**
   Results clash exactly when they are the same chunk or case folding makes their normalized contents alike; if their
   contents differ in anything but whitespace, case folding must have made two different texts alike.
   */
  lemma DifferentTextsClashOnlyByFolding(a: Retrieved, b: Retrieved, caseFold: string -> string)
    ensures var s, t := Text.Normalize(a.chunk.content), Text.Normalize(b.chunk.content);
            && (Clash(a, b, NormalKey(caseFold)) <==> a.chunk.id == b.chunk.id || caseFold(s) == caseFold(t))
            && (Text.Ink(a.chunk.content) != Text.Ink(b.chunk.content) ==> s != t)
  {
    Text.NormalizeKeepsInk(a.chunk.content);
    Text.NormalizeKeepsInk(b.chunk.content);
  }

  predicate ClashesWith(kept: seq<Retrieved>, r: Retrieved, key: ContentKey) {
    exists i :: 0 <= i < |kept| && Clash(kept[i], r, key)
  }

  /** Everything that is left without a limit: each result that clashes with nothing kept before it. */
  function Kept(items: seq<Retrieved>, key: ContentKey): seq<Retrieved> {
    if items == [] then []
    else
      var before, last := Kept(items[..|items| - 1], key), items[|items| - 1];
      if ClashesWith(before, last, key) then before else before + [last]
  }

  function AtLeastOne(limit: int): nat {
    if limit < 1 then 1 else limit
  }

  function FirstOf(items: seq<Retrieved>, n: nat): seq<Retrieved> {
    if |items| <= n then items else items[..n]
  }

  ghost predicate HasId(kept: seq<Retrieved>, id: string) {
    exists i :: 0 <= i < |kept| && kept[i].chunk.id == id
  }

  ghost predicate HasContent(kept: seq<Retrieved>, content: string, key: ContentKey) {
    exists i :: 0 <= i < |kept| && key(kept[i].chunk.content) == content
  }

  lemma ClashIsSeen(kept: seq<Retrieved>, r: Retrieved, key: ContentKey)
    ensures ClashesWith(kept, r, key) <==> HasId(kept, r.chunk.id) || HasContent(kept, key(r.chunk.content), key)
  {
    if i :| 0 <= i < |kept| && kept[i].chunk.id == r.chunk.id {
      assert Clash(kept[i], r, key);
    }
    if i :| 0 <= i < |kept| && key(kept[i].chunk.content) == key(r.chunk.content) {
      assert Clash(kept[i], r, key);
    }
  }

  lemma SeenGrows(kept: seq<Retrieved>, r: Retrieved, id: string, content: string, key: ContentKey)
    ensures HasId(kept + [r], id) <==> HasId(kept, id) || r.chunk.id == id
    ensures HasContent(kept + [r], content, key) <==> HasContent(kept, content, key) || key(r.chunk.content) == content
  {
    var more := kept + [r];
    assert more[|kept|] == r && forall i :: 0 <= i < |kept| ==> more[i] == kept[i];
  }

  lemma AllSeenGrow(kept: seq<Retrieved>, r: Retrieved, key: ContentKey)
    ensures forall id :: HasId(kept + [r], id) <==> HasId(kept, id) || r.chunk.id == id
    ensures forall text ::
              HasContent(kept + [r], text, key) <==> HasContent(kept, text, key) || key(r.chunk.content) == text
  {
    forall id ensures HasId(kept + [r], id) <==> HasId(kept, id) || r.chunk.id == id {
      SeenGrows(kept, r, id, "", key);
    }
    forall text
      ensures HasContent(kept + [r], text, key) <==> HasContent(kept, text, key) || key(r.chunk.content) == text
    {
      SeenGrows(kept, r, "", text, key);
    }
  }

  /** The service's loop, with its sets of seen ids and contents and its early exit. */
  method Deduplicate(items: seq<Retrieved>, limit: int, key: ContentKey) returns (unique: seq<Retrieved>)
    ensures unique == FirstOf(Kept(items, key), AtLeastOne(limit))
  {
    unique := [];
    var seenIds: set<string> := {};
    var seenContent: set<string> := {};
    var i := 0;
    while i < |items|
      invariant 0 <= i <= |items|
      invariant unique == Kept(items[..i], key) && (i > 0 ==> |unique| < AtLeastOne(limit))
      invariant forall id :: id in seenIds <==> HasId(unique, id)
      invariant forall content :: content in seenContent <==> HasContent(unique, content, key)
    {
      assert items[..i + 1][..i] == items[..i];
      var r := items[i];
      var content := key(r.chunk.content);
      ClashIsSeen(unique, r, key);
      if r.chunk.id !in seenIds && content !in seenContent {
        seenIds := seenIds + {r.chunk.id};
        seenContent := seenContent + {content};
        AllSeenGrow(unique, r, key);
        unique := unique + [r];
        if |unique| >= limit {
          KeptPrefix(items, i + 1, key);
          return;
        }
      }
      i := i + 1;
    }
    assert items[..i] == items;
  }

  // ---- what is kept ----

  /** What is kept of a beginning is a beginning of what is kept. */
  lemma {:induction false} KeptPrefix(items: seq<Retrieved>, n: nat, key: ContentKey)
    requires n <= |items|
    ensures Kept(items[..n], key) <= Kept(items, key)
  {
    if n == |items| {
      assert items[..n] == items;
    } else {
      assert items[..|items| - 1][..n] == items[..n];
      KeptPrefix(items[..|items| - 1], n, key);
    }
  }

  /** No chosen result among the first `n` clashes with `r`. */
  predicate IsNew(items: seq<Retrieved>, chosen: seq<bool>, n: nat, r: Retrieved, key: ContentKey)
    requires n <= |items| && |chosen| == |items|
  {
    forall j :: 0 <= j < n && chosen[j] ==> !Clash(items[j], r, key)
  }

  /** A choice of positions is greedy when a position is chosen exactly if it clashes with no chosen one before it. */
  predicate Greedy(items: seq<Retrieved>, chosen: seq<bool>, key: ContentKey) {
    && |chosen| == |items|
    && forall i :: 0 <= i < |items| ==> chosen[i] == IsNew(items, chosen, i, items[i], key)
  }

  function Pick(items: seq<Retrieved>, chosen: seq<bool>): seq<Retrieved>
    requires |chosen| == |items|
  {
    if items == [] then []
    else
      var n := |items| - 1;
      Pick(items[..n], chosen[..n]) + if chosen[n] then [items[n]] else []
  }

  lemma {:induction false} PickFinds(items: seq<Retrieved>, chosen: seq<bool>, r: Retrieved, key: ContentKey)
    requires |chosen| == |items|
    ensures ClashesWith(Pick(items, chosen), r, key)
            <==> exists j :: 0 <= j < |items| && chosen[j] && Clash(items[j], r, key)
  {
    if items != [] {
      var n := |items| - 1;
      var front, bits := items[..n], chosen[..n];
      PickFinds(front, bits, r, key);
      var picked := Pick(items, chosen);
      if ClashesWith(Pick(front, bits), r, key) {
        var i :| 0 <= i < |Pick(front, bits)| && Clash(Pick(front, bits)[i], r, key);
        assert Clash(picked[i], r, key);
        var j :| 0 <= j < n && bits[j] && Clash(front[j], r, key);
        assert chosen[j] && Clash(items[j], r, key);
      }
      if chosen[n] && Clash(items[n], r, key) {
        assert Clash(picked[|picked| - 1], r, key);
      }
      if i :| 0 <= i < |picked| && Clash(picked[i], r, key) {
        if i < |Pick(front, bits)| {
          assert Clash(Pick(front, bits)[i], r, key);
        }
      }
      if j :| 0 <= j < |items| && chosen[j] && Clash(items[j], r, key) {
        if j < n {
          assert bits[j] && Clash(front[j], r, key);
        }
      }
    }
  }

  lemma IsNewExtends(items: seq<Retrieved>, chosen: seq<bool>, last: Retrieved, bit: bool, n: nat, r: Retrieved,
                     key: ContentKey)
    requires n <= |items| && |chosen| == |items|
    ensures IsNew(items + [last], chosen + [bit], n, r, key) == IsNew(items, chosen, n, r, key)
  {
    assert forall j :: 0 <= j < n ==> (items + [last])[j] == items[j] && (chosen + [bit])[j] == chosen[j];
  }

  lemma GreedyExtends(items: seq<Retrieved>, chosen: seq<bool>, last: Retrieved, key: ContentKey)
    requires Greedy(items, chosen, key)
    ensures Greedy(items + [last], chosen + [IsNew(items, chosen, |items|, last, key)], key)
  {
    var bit := IsNew(items, chosen, |items|, last, key);
    var more, bits := items + [last], chosen + [bit];
    forall i | 0 <= i < |more| ensures bits[i] == IsNew(more, bits, i, more[i], key) {
      IsNewExtends(items, chosen, last, bit, i, more[i], key);
      if i < |items| {
        assert more[i] == items[i];
      }
    }
  }

  lemma PickAppend(items: seq<Retrieved>, chosen: seq<bool>, last: Retrieved, bit: bool)
    requires |chosen| == |items|
    ensures Pick(items + [last], chosen + [bit]) == Pick(items, chosen) + if bit then [last] else []
  {
    assert (items + [last])[..|items|] == items && (chosen + [bit])[..|items|] == chosen;
  }

  lemma NewIsKept(items: seq<Retrieved>, chosen: seq<bool>, last: Retrieved, key: ContentKey)
    requires |chosen| == |items| && Kept(items, key) == Pick(items, chosen)
    ensures ClashesWith(Kept(items, key), last, key) <==> !IsNew(items, chosen, |items|, last, key)
  {
    PickFinds(items, chosen, last, key);
  }

  /** What is kept are the positions of the greedy choice, in their order. */
  lemma {:induction false} KeptIsGreedy(items: seq<Retrieved>, key: ContentKey) returns (chosen: seq<bool>)
    ensures Greedy(items, chosen, key) && Kept(items, key) == Pick(items, chosen)
  {
    if items == [] {
      chosen := [];
    } else {
      var front, last := items[..|items| - 1], items[|items| - 1];
      var bits := KeptIsGreedy(front, key);
      NewIsKept(front, bits, last, key);
      GreedyExtends(front, bits, last, key);
      var bit := IsNew(front, bits, |front|, last, key);
      PickAppend(front, bits, last, bit);
      chosen := bits + [bit];
      assert front + [last] == items;
    }
  }

  /** There is only one greedy choice. */
  lemma GreedyIsUnique(items: seq<Retrieved>, a: seq<bool>, b: seq<bool>, key: ContentKey)
    requires Greedy(items, a, key) && Greedy(items, b, key)
    ensures a == b
  {
    forall i | 0 <= i < |items| ensures a[i] == b[i] {
      GreedyAgrees(items, a, b, i, key);
    }
  }

  lemma {:induction false} GreedyAgrees(items: seq<Retrieved>, a: seq<bool>, b: seq<bool>, i: nat, key: ContentKey)
    requires Greedy(items, a, key) && Greedy(items, b, key) && i < |items|
    ensures a[i] == b[i]
    decreases i
  {
    forall j: nat | j < i ensures a[j] == b[j] {
      GreedyAgrees(items, a, b, j, key);
    }
  }

  predicate ClashFree(items: seq<Retrieved>, key: ContentKey) {
    forall i, j :: 0 <= i < j < |items| ==> !Clash(items[i], items[j], key)
  }

  lemma {:induction false} KeptIsClashFree(items: seq<Retrieved>, key: ContentKey)
    ensures ClashFree(Kept(items, key), key)
  {
    if items != [] {
      KeptIsClashFree(items[..|items| - 1], key);
    }
  }

  lemma {:induction false} ClashFreeIsKept(items: seq<Retrieved>, key: ContentKey)
    requires ClashFree(items, key)
    ensures Kept(items, key) == items
  {
    if items != [] {
      var front, last := items[..|items| - 1], items[|items| - 1];
      forall i, j | 0 <= i < j < |front| ensures !Clash(front[i], front[j], key) {
        assert front[i] == items[i] && front[j] == items[j];
      }
      ClashFreeIsKept(front, key);
      forall i | 0 <= i < |front| ensures !Clash(front[i], last, key) {
        assert front[i] == items[i];
      }
      assert items == front + [last];
    }
  }

  /** A limit cuts a result after that many, and after one if it is smaller. */
  lemma LimitCuts(items: seq<Retrieved>, limit: int)
    ensures var cut := FirstOf(items, AtLeastOne(limit));
            && cut <= items && cut <= FirstOf(items, AtLeastOne(limit + 1))
            && (|cut| < |items| ==> |cut| == if limit >= 1 then limit else 1)
            && (items != [] ==> cut != [])
            && (limit >= 1 ==> |cut| <= limit)
  {
  }

  /**
   Removing duplicates a second time removes nothing, under whatever limit the first result was cut, and a smaller
   limit cuts the same result earlier.
   */
  lemma DeduplicationIsFinal(items: seq<Retrieved>, limit: int, key: ContentKey)
    ensures FirstOf(Kept(items, key), AtLeastOne(limit)) <= FirstOf(Kept(items, key), AtLeastOne(limit + 1))
    ensures Kept(FirstOf(Kept(items, key), AtLeastOne(limit)), key) == FirstOf(Kept(items, key), AtLeastOne(limit))
  {
    KeptIsClashFree(items, key);
    LimitCuts(Kept(items, key), limit);
    ClashFreeIsKept(FirstOf(Kept(items, key), AtLeastOne(limit)), key);
  }

  lemma {:induction false} KeptIsNoLonger(items: seq<Retrieved>, key: ContentKey)
    ensures |Kept(items, key)| <= |items|
    ensures forall r :: r in Kept(items, key) ==> r in items
  {
    if items != [] {
      KeptIsNoLonger(items[..|items| - 1], key);
    }
  }

  // ---- the service ----

  function Relevant(rows: seq<Retrieved>, minimum: real): seq<Retrieved> {
    if rows == [] then []
    else
      var last := rows[|rows| - 1];
      Relevant(rows[..|rows| - 1], minimum) + if last.score >= minimum then [last] else []
  }

  lemma {:induction false} RelevantIsPart(rows: seq<Retrieved>, minimum: real)
    ensures |Relevant(rows, minimum)| <= |rows|
    ensures forall r :: r in Relevant(rows, minimum) <==> r in rows && r.score >= minimum
  {
    if rows != [] {
      RelevantIsPart(rows[..|rows| - 1], minimum);
      assert rows == rows[..|rows| - 1] + [rows[|rows| - 1]];
    }
  }

  /** The service; `found` is what the vector store answers to a search with this limit. */
  method Execute(query: string, limit: int, minimum: real, found: seq<Retrieved>, caseFold: string -> string)
    returns (result: seq<Retrieved>)
    ensures Text.Strip(query) == "" || limit <= 0 ==> result == []
    ensures Text.Strip(query) != "" && limit > 0 ==>
              result == FirstOf(Kept(Relevant(found, minimum), NormalKey(caseFold)), limit)
  {
    if Text.Strip(query) == "" || limit <= 0 {
      return [];
    }
    result := Deduplicate(Relevant(found, minimum), limit, NormalKey(caseFold));
  }

  /**
   After a search of at most `limit` rows the early exit never costs a result: the answer is all relevant rows
   without duplicates, and each relevant row left out clashes with an answer.
   */
  lemma LimitDropsNothing(limit: int, minimum: real, found: seq<Retrieved>, key: ContentKey)
    requires limit > 0 && |found| <= limit
    ensures var answer := FirstOf(Kept(Relevant(found, minimum), key), limit);
            && answer == Kept(Relevant(found, minimum), key)
            && ClashFree(answer, key)
            && (forall r :: r in answer ==> r in found && r.score >= minimum)
            && (forall r :: r in found && r.score >= minimum ==> r in answer || ClashesWith(answer, r, key))
  {
    var relevant := Relevant(found, minimum);
    RelevantIsPart(found, minimum);
    KeptIsNoLonger(relevant, key);
    KeptIsClashFree(relevant, key);
    KeptCovers(relevant, key);
  }

  lemma {:induction false} KeptCovers(items: seq<Retrieved>, key: ContentKey)
    ensures forall r :: r in items ==> r in Kept(items, key) || ClashesWith(Kept(items, key), r, key)
  {
    if items != [] {
      var n := |items| - 1;
      KeptCovers(items[..n], key);
      assert items == items[..n] + [items[n]];
      var before, after := Kept(items[..n], key), Kept(items, key);
      forall r | r in items ensures r in after || ClashesWith(after, r, key) {
        if r in items[..n] && ClashesWith(before, r, key) {
          var i :| 0 <= i < |before| && Clash(before[i], r, key);
          assert Clash(after[i], r, key);
        }
      }
    }
  }
}
