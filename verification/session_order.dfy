/** The ordering of sessions for display. The history sidebar's comparator puts the live
    session first and otherwise orders by start time, newest first; the page's own
    comparator is the same one with no live session. `Array.prototype.sort` is stable,
    so sorting is modelled as a stable insertion sort. */
module SessionOrder {
  import opened ChatTypes

  /** Whether `s` is the session pinned to the top as the live one. */
  predicate IsPinned(live: Option<Id>, s: Session) {
    live.Some? && s.id == live.value
  }

  /** The comparator: negative when `a` goes before `b`, positive when after. */
  function Compare(live: Option<Id>, a: Session, b: Session): int {
    if IsPinned(live, a) && !IsPinned(live, b) then -1
    else if IsPinned(live, b) && !IsPinned(live, a) then 1
    else b.startTime - a.startTime
  }

  /** `a` may stand before `b`: the comparator does not ask for them to be swapped. */
  predicate InOrder(live: Option<Id>, a: Session, b: Session) {
    Compare(live, a, b) <= 0
  }

  predicate Sorted(live: Option<Id>, s: seq<Session>) {
    forall i, j :: 0 <= i < j < |s| ==> InOrder(live, s[i], s[j])
  }

  /** The comparator is a total preorder: any two sessions are comparable one way or the
      other, and the order is transitive. */
  lemma CompareIsTotalPreorder(live: Option<Id>, a: Session, b: Session, c: Session)
    ensures InOrder(live, a, b) || InOrder(live, b, a)
    ensures InOrder(live, a, b) && InOrder(live, b, c) ==> InOrder(live, a, c)
    ensures Compare(live, a, b) == -Compare(live, b, a)
  {
  }

  /** Inserts `x` before the first element it may stand before; since `x` is inserted
      ahead of every element it ties with, this is the step of a stable sort. */
  function Insert(live: Option<Id>, x: Session, s: seq<Session>): (r: seq<Session>)
    ensures multiset(r) == multiset(s) + multiset{x}
    ensures |r| == |s| + 1
    decreases |s|
  {
    if |s| == 0 then [x]
    else if InOrder(live, x, s[0]) then [x] + s
    else
      assert s == [s[0]] + s[1..];
      [s[0]] + Insert(live, x, s[1..])
  }

  /** Where `Insert` puts `x`: after every element that must precede it. */
  function InsertIndex(live: Option<Id>, x: Session, s: seq<Session>): (k: nat)
    ensures k <= |s|
    ensures forall i :: 0 <= i < k ==> !InOrder(live, x, s[i])
    ensures k < |s| ==> InOrder(live, x, s[k])
    decreases |s|
  {
    if |s| == 0 || InOrder(live, x, s[0]) then 0
    else 1 + InsertIndex(live, x, s[1..])
  }

  /** `Insert` splices `x` into `s` at `InsertIndex` and leaves every other element
      where it was, relative to the others. */
  lemma {:induction false} InsertSplices(live: Option<Id>, x: Session, s: seq<Session>)
    ensures var k := InsertIndex(live, x, s);
            Insert(live, x, s) == s[..k] + [x] + s[k..]
    decreases |s|
  {
    if |s| > 0 && !InOrder(live, x, s[0]) {
      var t := s[1..];
      InsertSplices(live, x, t);
      var k := InsertIndex(live, x, t);
      assert InsertIndex(live, x, s) == k + 1;
      assert Insert(live, x, s) == [s[0]] + Insert(live, x, t);
      assert s == [s[0]] + t;
      ConsSplice(s[0], t, x, k);
    }
  }

  /** Putting `a` in front of a splice is splicing one place further into `[a] + t`. */
  lemma ConsSplice<T>(a: T, t: seq<T>, x: T, k: nat)
    requires k <= |t|
    ensures [a] + (t[..k] + [x] + t[k..]) == ([a] + t)[..k + 1] + [x] + ([a] + t)[k + 1..]
  {
    assert ([a] + t)[..k + 1] == [a] + t[..k];
    assert ([a] + t)[k + 1..] == t[k..];
  }

  /** Inserting into a sorted sequence keeps it sorted. */
  lemma {:induction false} InsertKeepsSorted(live: Option<Id>, x: Session, s: seq<Session>)
    requires Sorted(live, s)
    ensures Sorted(live, Insert(live, x, s))
    decreases |s|
  {
    if |s| == 0 {
    } else if InOrder(live, x, s[0]) {
      var r := Insert(live, x, s);
      forall i, j | 0 <= i < j < |r| ensures InOrder(live, r[i], r[j]) {
        if i == 0 {
          CompareIsTotalPreorder(live, x, s[0], s[j - 1]);
        }
      }
    } else {
      var t := Insert(live, x, s[1..]);
      InsertKeepsSorted(live, x, s[1..]);
      var r := [s[0]] + t;
      forall j | 0 <= j < |t| ensures InOrder(live, s[0], t[j]) {
        assert t[j] in multiset(t);
        if t[j] == x {
          CompareIsTotalPreorder(live, x, s[0], x);
        } else {
          assert t[j] in multiset(s[1..]);
          var k :| 0 <= k < |s[1..]| && s[1..][k] == t[j];
          assert s[k + 1] == t[j];
        }
      }
      forall i, j | 0 <= i < j < |r| ensures InOrder(live, r[i], r[j]) {
        if i == 0 {
          assert r[j] == t[j - 1];
        } else {
          assert r[i] == t[i - 1] && r[j] == t[j - 1];
        }
      }
    }
  }

  /** The stable sort: the result is a permutation of the input, ordered by the
      comparator. */
  function Sort(live: Option<Id>, s: seq<Session>): (r: seq<Session>)
    ensures multiset(r) == multiset(s)
    ensures |r| == |s|
    ensures Sorted(live, r)
    decreases |s|
  {
    if |s| == 0 then []
    else
      assert s == [s[0]] + s[1..];
      var rest := Sort(live, s[1..]);
      InsertKeepsSorted(live, s[0], rest);
      Insert(live, s[0], rest)
  }

  /** Sorting a sequence that is already in order returns it unchanged: the stable sort
      never swaps two elements that tie. */
  lemma {:induction false} SortOfSortedIsIdentity(live: Option<Id>, s: seq<Session>)
    requires Sorted(live, s)
    ensures Sort(live, s) == s
    decreases |s|
  {
    if |s| > 0 {
      SortOfSortedIsIdentity(live, s[1..]);
      assert Sort(live, s[1..]) == s[1..];
      assert s == [s[0]] + s[1..];
    }
  }

  /** When one of the sessions is the live one, the sorted view starts with a live
      session. */
  lemma PinnedComesFirst(live: Option<Id>, s: seq<Session>, i: nat)
    requires i < |s| && IsPinned(live, s[i])
    ensures IsPinned(live, Sort(live, s)[0])
  {
    var r := Sort(live, s);
    assert s[i] in multiset(s);
    assert s[i] in multiset(r);
    var j :| 0 <= j < |r| && r[j] == s[i];
    if j > 0 {
      assert InOrder(live, r[0], r[j]);
    }
  }

  /** Live sessions form a prefix of the sorted view, and among the sessions that are
      both live or both not live the start times never increase. */
  lemma SortedViewOrder(live: Option<Id>, s: seq<Session>)
    ensures var r := Sort(live, s);
            forall i, j :: 0 <= i < j < |r| ==>
              (IsPinned(live, r[j]) ==> IsPinned(live, r[i]))
              && (IsPinned(live, r[i]) == IsPinned(live, r[j]) ==> r[i].startTime >= r[j].startTime)
  {
    var r := Sort(live, s);
    forall i, j | 0 <= i < j < |r|
      ensures IsPinned(live, r[j]) ==> IsPinned(live, r[i])
      ensures IsPinned(live, r[i]) == IsPinned(live, r[j]) ==> r[i].startTime >= r[j].startTime
    {
      assert InOrder(live, r[i], r[j]);
    }
  }
}
