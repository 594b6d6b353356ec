/**
 The notification window of `hermes-mcp-bridge/server.mjs`: what the phone replied is filtered by age, sorted
 newest first and cut at fifty, and the answer says whether it is complete. Clipping of texts is left out.
 */
module Notifications {
  import opened Common

  const MAX_NOTIFICATIONS: nat := 50

  /** A notification: its post time, and everything else about it. */
  datatype Item = Item(postTimeMs: real, body: nat)

  /** The phone's reply: the items it sent, the count it reported if that is a number, and whether it is connected. */
  datatype Reply = Reply(items: seq<Item>, count: Option<real>, connected: bool)

  predicate Descending(s: seq<Item>) {
    forall i, j :: 0 <= i < j < |s| ==> s[i].postTimeMs >= s[j].postTimeMs
  }

  /** The server's own test of the order: each item is at least as new as its successor. */
  predicate NeighboursDescend(s: seq<Item>) {
    forall i :: 0 < i < |s| ==> s[i - 1].postTimeMs >= s[i].postTimeMs
  }

  function Window(items: seq<Item>, cutoff: real): seq<Item> {
    if items == [] then []
    else
      var last := items[|items| - 1];
      if last.postTimeMs >= cutoff then Window(items[..|items| - 1], cutoff) + [last] else Window(items[..|items| - 1], cutoff)
  }

  /** One step of a stable sort, newest first: puts an item behind every one that is not older. */
  function Insert(sorted: seq<Item>, x: Item): seq<Item> {
    if sorted != [] && sorted[|sorted| - 1].postTimeMs < x.postTimeMs
    then Insert(sorted[..|sorted| - 1], x) + [sorted[|sorted| - 1]]
    else sorted + [x]
  }

  function SortNewestFirst(s: seq<Item>): seq<Item> {
    if s == [] then [] else Insert(SortNewestFirst(s[..|s| - 1]), s[|s| - 1])
  }

  function Recent(items: seq<Item>, cutoff: real): seq<Item> {
    var sorted := SortNewestFirst(Window(items, cutoff));
    sorted[..Min(|sorted|, MAX_NOTIFICATIONS)]
  }

  predicate BoundaryReached(items: seq<Item>, cutoff: real) {
    NeighboursDescend(items) && exists i :: 0 <= i < |items| && items[i].postTimeMs <= cutoff
  }

  predicate CountMatches(r: Reply) {
    r.count == Some(|r.items| as real)
  }

  predicate Complete(r: Reply, cutoff: real) {
    r.connected && (CountMatches(r) || BoundaryReached(r.items, cutoff)) && |Window(r.items, cutoff)| <= MAX_NOTIFICATIONS
  }

  // ----- the window -----

  lemma {:induction false} WindowMembers(items: seq<Item>, cutoff: real, x: Item)
    ensures multiset(Window(items, cutoff))[x] == if x.postTimeMs >= cutoff then multiset(items)[x] else 0
  {
    if items != [] {
      WindowMembers(items[..|items| - 1], cutoff, x);
      assert items == items[..|items| - 1] + [items[|items| - 1]];
    }
  }

  lemma {:induction false} InsertAdds(sorted: seq<Item>, x: Item)
    ensures multiset(Insert(sorted, x)) == multiset(sorted) + multiset{x}
    ensures |Insert(sorted, x)| == |sorted| + 1
  {
    if sorted != [] && sorted[|sorted| - 1].postTimeMs < x.postTimeMs {
      InsertAdds(sorted[..|sorted| - 1], x);
      assert sorted == sorted[..|sorted| - 1] + [sorted[|sorted| - 1]];
    }
  }

  lemma DescendingExtend(s: seq<Item>, last: Item)
    requires Descending(s) && forall i :: 0 <= i < |s| ==> s[i].postTimeMs >= last.postTimeMs
    ensures Descending(s + [last])
  {
  }

  lemma {:induction false} InsertSorts(sorted: seq<Item>, x: Item)
    requires Descending(sorted)
    ensures Descending(Insert(sorted, x))
  {
    if sorted != [] && sorted[|sorted| - 1].postTimeMs < x.postTimeMs {
      var last := sorted[|sorted| - 1];
      var front := sorted[..|sorted| - 1];
      InsertSorts(front, x);
      InsertAdds(front, x);
      var inserted := Insert(front, x);
      forall i | 0 <= i < |inserted| ensures inserted[i].postTimeMs >= last.postTimeMs {
        assert inserted[i] in multiset(inserted);
        assert inserted[i] == x || inserted[i] in front;
      }
      DescendingExtend(inserted, last);
    } else {
      DescendingExtend(sorted, x);
    }
  }

  lemma LastCounts(s: seq<Item>)
    requires s != []
    ensures multiset(s) == multiset(s[..|s| - 1]) + multiset{s[|s| - 1]}
  {
    assert s == s[..|s| - 1] + [s[|s| - 1]];
  }

  lemma {:induction false} SortSorts(s: seq<Item>)
    ensures Descending(SortNewestFirst(s))
    ensures multiset(SortNewestFirst(s)) == multiset(s)
    ensures |SortNewestFirst(s)| == |s|
  {
    if s != [] {
      SortSorts(s[..|s| - 1]);
      InsertSorts(SortNewestFirst(s[..|s| - 1]), s[|s| - 1]);
      InsertAdds(SortNewestFirst(s[..|s| - 1]), s[|s| - 1]);
      LastCounts(s);
    }
  }

  /** The items with one post time, in order. */
  function PostedAt(s: seq<Item>, timeMs: real): seq<Item> {
    if s == [] then []
    else
      var last := s[|s| - 1];
      PostedAt(s[..|s| - 1], timeMs) + (if last.postTimeMs == timeMs then [last] else [])
  }

  lemma PostedAtExtend(s: seq<Item>, last: Item, timeMs: real)
    ensures PostedAt(s + [last], timeMs) == PostedAt(s, timeMs) + (if last.postTimeMs == timeMs then [last] else [])
  {
    assert (s + [last])[..|s|] == s;
  }

  lemma {:induction false} InsertIsStable(sorted: seq<Item>, x: Item, timeMs: real)
    ensures PostedAt(Insert(sorted, x), timeMs) == PostedAt(sorted, timeMs) + (if x.postTimeMs == timeMs then [x] else [])
  {
    if sorted != [] && sorted[|sorted| - 1].postTimeMs < x.postTimeMs {
      var last := sorted[|sorted| - 1];
      var front := sorted[..|sorted| - 1];
      InsertIsStable(front, x, timeMs);
      PostedAtExtend(Insert(front, x), last, timeMs);
    } else {
      PostedAtExtend(sorted, x, timeMs);
    }
  }

  /** The sort is stable: notifications posted at the same time keep their order. */
  lemma {:induction false} SortIsStable(s: seq<Item>, timeMs: real)
    ensures PostedAt(SortNewestFirst(s), timeMs) == PostedAt(s, timeMs)
  {
    if s != [] {
      SortIsStable(s[..|s| - 1], timeMs);
      InsertIsStable(SortNewestFirst(s[..|s| - 1]), s[|s| - 1], timeMs);
    }
  }

  lemma {:induction false} WindowKeepsOrder(items: seq<Item>, cutoff: real, timeMs: real)
    ensures PostedAt(Window(items, cutoff), timeMs) == if timeMs >= cutoff then PostedAt(items, timeMs) else []
  {
    if items != [] {
      var last := items[|items| - 1];
      WindowKeepsOrder(items[..|items| - 1], cutoff, timeMs);
      PostedAtExtend(Window(items[..|items| - 1], cutoff), last, timeMs);
    }
  }

  /** So among the recent items, those of one time stand as the phone sent them. */
  lemma RecentKeepsOrder(items: seq<Item>, cutoff: real, timeMs: real)
    requires timeMs >= cutoff
    ensures PostedAt(Recent(items, cutoff) + LeftOut(items, cutoff), timeMs) == PostedAt(items, timeMs)
  {
    var sorted := SortNewestFirst(Window(items, cutoff));
    SortIsStable(Window(items, cutoff), timeMs);
    WindowKeepsOrder(items, cutoff, timeMs);
    assert Recent(items, cutoff) + LeftOut(items, cutoff) == sorted;
  }

  /** What the cut at fifty drops. */
  function LeftOut(items: seq<Item>, cutoff: real): seq<Item> {
    var sorted := SortNewestFirst(Window(items, cutoff));
    sorted[Min(|sorted|, MAX_NOTIFICATIONS)..]
  }

  lemma CutSplits(sorted: seq<Item>, n: nat)
    requires Descending(sorted) && n <= |sorted|
    ensures Descending(sorted[..n])
    ensures multiset(sorted[..n]) + multiset(sorted[n..]) == multiset(sorted)
    ensures forall i, j :: 0 <= i < n && 0 <= j < |sorted[n..]| ==> sorted[..n][i].postTimeMs >= sorted[n..][j].postTimeMs
  {
    assert sorted == sorted[..n] + sorted[n..];
  }

  /** For any reply: newest first, at most fifty, and together with what is left out, which is not newer, the whole window. */
  lemma RecentIsTheNewestOfTheWindow(items: seq<Item>, cutoff: real)
    ensures Descending(Recent(items, cutoff))
    ensures |Recent(items, cutoff)| == Min(|Window(items, cutoff)|, MAX_NOTIFICATIONS)
    ensures multiset(Recent(items, cutoff)) + multiset(LeftOut(items, cutoff)) == multiset(Window(items, cutoff))
    ensures forall i, j :: 0 <= i < |Recent(items, cutoff)| && 0 <= j < |LeftOut(items, cutoff)| ==>
              Recent(items, cutoff)[i].postTimeMs >= LeftOut(items, cutoff)[j].postTimeMs
  {
    var sorted := SortNewestFirst(Window(items, cutoff));
    SortSorts(Window(items, cutoff));
    CutSplits(sorted, Min(|sorted|, MAX_NOTIFICATIONS));
  }

  // ----- completeness -----

  lemma NeighboursMeanDescending(s: seq<Item>)
    ensures NeighboursDescend(s) <==> Descending(s)
  {
    if NeighboursDescend(s) {
      forall i, j | 0 <= i < j < |s| ensures s[i].postTimeMs >= s[j].postTimeMs {
        DescendsBetween(s, i, j);
      }
    }
  }

  lemma {:induction false} DescendsBetween(s: seq<Item>, i: nat, j: nat)
    requires NeighboursDescend(s) && i < j < |s|
    ensures s[i].postTimeMs >= s[j].postTimeMs
  {
    if i + 1 < j {
      DescendsBetween(s, i, j - 1);
    }
  }

  /** The phone lists its notifications newest first and replies with a prefix; the count it reports is the length of its list. */
  ghost predicate FaithfulReply(phone: seq<Item>, r: Reply) {
    Descending(phone) && r.items <= phone && r.count == Some(|phone| as real)
  }

  /** With a complete answer, an item the phone did not send is not newer than the cutoff. */
  lemma UnsentIsNotNewer(phone: seq<Item>, r: Reply, cutoff: real, i: nat)
    requires FaithfulReply(phone, r) && Complete(r, cutoff) && |r.items| <= i < |phone|
    ensures phone[i].postTimeMs <= cutoff
  {
    assert !CountMatches(r);
    var k :| 0 <= k < |r.items| && r.items[k].postTimeMs <= cutoff;
    assert phone[k] == r.items[k];
  }

  lemma {:induction false} WindowCounts(items: seq<Item>, cutoff: real)
    ensures |Window(items, cutoff)| == |set i | 0 <= i < |items| && items[i].postTimeMs >= cutoff|
  {
    if items != [] {
      var last := |items| - 1;
      WindowCounts(items[..last], cutoff);
      var before := set i | 0 <= i < last && items[..last][i].postTimeMs >= cutoff;
      var all := set i | 0 <= i < |items| && items[i].postTimeMs >= cutoff;
      assert all == before + (if items[last].postTimeMs >= cutoff then {last} else {});
    }
  }

  /**
   An answer is complete if and only if the phone is connected, the reply holds as many items as it counts or is newest
   first and reaches the cutoff, and no more than fifty items are recent.
   */
  lemma CompleteIff(r: Reply, cutoff: real)
    ensures Complete(r, cutoff) <==>
            && r.connected
            && (r.count == Some(|r.items| as real)
                || (Descending(r.items) && exists i :: 0 <= i < |r.items| && r.items[i].postTimeMs <= cutoff))
            && |set i | 0 <= i < |r.items| && r.items[i].postTimeMs >= cutoff| <= 50
  {
    WindowCounts(r.items, cutoff);
    NeighboursMeanDescending(r.items);
  }

  lemma CompleteDropsNothing(r: Reply, cutoff: real)
    requires Complete(r, cutoff)
    ensures multiset(Recent(r.items, cutoff)) == multiset(Window(r.items, cutoff))
  {
    var sorted := SortNewestFirst(Window(r.items, cutoff));
    SortSorts(Window(r.items, cutoff));
    assert sorted[..|sorted|] == sorted;
  }

  /** "complete" is sound: every notification of the phone strictly newer than the cutoff is in the answer, as often as on the phone. */
  lemma CompleteIsSound(phone: seq<Item>, r: Reply, cutoff: real)
    requires FaithfulReply(phone, r) && Complete(r, cutoff)
    ensures Descending(Recent(r.items, cutoff))
    ensures multiset(Recent(r.items, cutoff)) == multiset(Window(r.items, cutoff))
    ensures forall x: Item :: x.postTimeMs > cutoff ==> multiset(Recent(r.items, cutoff))[x] == multiset(phone)[x]
  {
    RecentIsTheNewestOfTheWindow(r.items, cutoff);
    CompleteDropsNothing(r, cutoff);
    forall x: Item | x.postTimeMs > cutoff ensures multiset(Recent(r.items, cutoff))[x] == multiset(phone)[x] {
      WindowMembers(r.items, cutoff, x);
      SentMembers(phone, r, cutoff, x);
    }
  }

  lemma SentMembers(phone: seq<Item>, r: Reply, cutoff: real, x: Item)
    requires FaithfulReply(phone, r) && Complete(r, cutoff) && x.postTimeMs > cutoff
    ensures multiset(phone)[x] == multiset(r.items)[x]
  {
    var rest := phone[|r.items|..];
    assert phone == r.items + rest;
    forall i | 0 <= i < |rest| ensures rest[i] != x {
      UnsentIsNotNewer(phone, r, cutoff, |r.items| + i);
    }
  }

  /** The items the phone kept back that lie exactly at the cutoff. */
  ghost predicate KeptBackAtCutoff(phone: seq<Item>, r: Reply, cutoff: real) {
    exists i :: |r.items| <= i < |phone| && phone[i].postTimeMs == cutoff
  }

  lemma NothingKeptBack(phone: seq<Item>, r: Reply, cutoff: real, x: Item)
    requires FaithfulReply(phone, r) && Complete(r, cutoff) && !KeptBackAtCutoff(phone, r, cutoff)
    ensures multiset(Window(r.items, cutoff))[x] == multiset(Window(phone, cutoff))[x]
  {
    WindowMembers(r.items, cutoff, x);
    WindowMembers(phone, cutoff, x);
    if x.postTimeMs >= cutoff {
      var rest := phone[|r.items|..];
      assert phone == r.items + rest;
      forall i | 0 <= i < |rest| ensures rest[i] != x {
        UnsentIsNotNewer(phone, r, cutoff, |r.items| + i);
        assert rest[i] == phone[|r.items| + i];
      }
    }
  }

  lemma SomethingKeptBack(phone: seq<Item>, r: Reply, cutoff: real) returns (x: Item)
    requires r.items <= phone && KeptBackAtCutoff(phone, r, cutoff)
    ensures multiset(Window(r.items, cutoff))[x] < multiset(Window(phone, cutoff))[x]
  {
    var i :| |r.items| <= i < |phone| && phone[i].postTimeMs == cutoff;
    var rest := phone[|r.items|..];
    x := phone[i];
    WindowMembers(r.items, cutoff, x);
    WindowMembers(phone, cutoff, x);
    assert phone == r.items + rest;
    assert rest[i - |r.items|] == x;
  }

  /** A complete answer lacks an item at the cutoff exactly when the phone kept one back. */
  lemma CompleteUnlessKeptBack(phone: seq<Item>, r: Reply, cutoff: real)
    requires FaithfulReply(phone, r) && Complete(r, cutoff)
    ensures multiset(Recent(r.items, cutoff)) == multiset(Window(phone, cutoff)) <==> !KeptBackAtCutoff(phone, r, cutoff)
  {
    CompleteDropsNothing(r, cutoff);
    if KeptBackAtCutoff(phone, r, cutoff) {
      var x := SomethingKeptBack(phone, r, cutoff);
    } else {
      forall x: Item ensures multiset(Window(r.items, cutoff))[x] == multiset(Window(phone, cutoff))[x] {
        NothingKeptBack(phone, r, cutoff, x);
      }
    }
  }

  /** What the server can see in a reply: it has everything, or it reaches strictly behind the cutoff. */
  predicate CoversCutoff(r: Reply, cutoff: real) {
    CountMatches(r) || exists i :: 0 <= i < |r.items| && r.items[i].postTimeMs < cutoff
  }

  lemma CoveredKeepsNothingBack(phone: seq<Item>, r: Reply, cutoff: real)
    requires FaithfulReply(phone, r) && CoversCutoff(r, cutoff)
    ensures !KeptBackAtCutoff(phone, r, cutoff)
  {
    if !CountMatches(r) {
      var i :| 0 <= i < |r.items| && r.items[i].postTimeMs < cutoff;
      assert phone[i] == r.items[i];
    }
  }

  /** A list the phone may have when its reply does not cover the cutoff: what it kept back was posted just then. */
  lemma UncoveredMayKeepBack(r: Reply, cutoff: real, count: nat) returns (phone: seq<Item>)
    requires Complete(r, cutoff) && !CoversCutoff(r, cutoff) && r.count == Some(count as real) && |r.items| <= count
    ensures FaithfulReply(phone, r) && KeptBackAtCutoff(phone, r, cutoff)
  {
    NeighboursMeanDescending(r.items);
    phone := r.items + seq(count - |r.items|, _ => Item(cutoff, 0));
    assert phone[|r.items|].postTimeMs == cutoff;
  }

  /** Whatever list the phone has, a complete answer to this reply holds all of its items from the cutoff on. */
  ghost predicate CutoffGuaranteed(r: Reply, cutoff: real) {
    forall phone :: FaithfulReply(phone, r) ==> multiset(Recent(r.items, cutoff)) == multiset(Window(phone, cutoff))
  }

  /**
   That is so if and only if the reply's count matches or one of its items is strictly older than the cutoff; for
   any count that a list beginning with these items can have.
   */
  lemma CompleteAtTheCutoffIff(r: Reply, cutoff: real, count: nat)
    requires Complete(r, cutoff) && r.count == Some(count as real) && |r.items| <= count
    ensures CutoffGuaranteed(r, cutoff) <==> CoversCutoff(r, cutoff)
  {
    if CoversCutoff(r, cutoff) {
      forall phone | FaithfulReply(phone, r) ensures multiset(Recent(r.items, cutoff)) == multiset(Window(phone, cutoff)) {
        CoveredKeepsNothingBack(phone, r, cutoff);
        CompleteUnlessKeptBack(phone, r, cutoff);
      }
    } else {
      var phone := UncoveredMayKeepBack(r, cutoff, count);
      CompleteUnlessKeptBack(phone, r, cutoff);
    }
  }

  /** Such a reply exists: the boundary is reached, the answer counts as complete, and an item at the cutoff is missing. */
  lemma CompleteCanMissTheCutoff() returns (phone: seq<Item>, r: Reply)
    ensures FaithfulReply(phone, r) && Complete(r, 5.0)
    ensures KeptBackAtCutoff(phone, r, 5.0)
    ensures multiset(Recent(r.items, 5.0)) != multiset(Window(phone, 5.0))
  {
    phone := [Item(9.0, 1), Item(5.0, 2), Item(5.0, 3)];
    r := Reply([Item(9.0, 1), Item(5.0, 2)], Some(3.0), true);
    assert phone == r.items + [Item(5.0, 3)];
    assert r.items[1].postTimeMs <= 5.0;
    assert phone[2].postTimeMs == 5.0;
    WindowLength(r.items, 5.0);
    CompleteUnlessKeptBack(phone, r, 5.0);
  }

  lemma {:induction false} WindowLength(items: seq<Item>, cutoff: real)
    ensures |Window(items, cutoff)| <= |items|
  {
    if items != [] {
      WindowLength(items[..|items| - 1], cutoff);
    }
  }
}
