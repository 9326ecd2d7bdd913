/** The page's edits of its session list: look a session up by id, append a message to
    the session with a given id, rename the temporary session to the server's id, and
    insert a new session. Every edit builds a new list; the page keeps the list sorted
    by start time, newest first. */
module SessionStore {
  import opened ChatTypes
  import opened SessionOrder

  /** The page's order: start time, newest first, with nothing pinned. */
  predicate NewestFirst(s: seq<Session>) {
    Sorted(None, s)
  }

  predicate HasId(s: seq<Session>, id: Id) {
    exists i :: 0 <= i < |s| && s[i].id == id
  }

  predicate UniqueIds(s: seq<Session>) {
    forall i, j :: 0 <= i < j < |s| ==> s[i].id != s[j].id
  }

  /** The position of the first session with the given id. */
  function IndexOf(s: seq<Session>, id: Id): (r: Option<nat>)
    ensures r.Some? ==> r.value < |s| && s[r.value].id == id
    ensures r.Some? ==> forall k :: 0 <= k < r.value ==> s[k].id != id
    ensures r.None? ==> !HasId(s, id)
    decreases |s|
  {
    if |s| == 0 then None
    else if s[0].id == id then Some(0)
    else
      match IndexOf(s[1..], id)
      case None =>
        assert forall k :: 1 <= k < |s| ==> s[k] == s[1..][k - 1];
        None
      case Some(k) => Some(k + 1)
  }

  /** `sessions.find(s => s.id === id)`: the first session with that id, if any. */
  function Find(s: seq<Session>, id: Id): (r: Option<Session>)
    ensures r.Some? <==> HasId(s, id)
    ensures r.Some? ==> r.value in s && r.value.id == id
    ensures UniqueIds(s) ==> forall i :: 0 <= i < |s| && s[i].id == id ==> r == Some(s[i])
  {
    match IndexOf(s, id)
    case Some(k) => Some(s[k])
    case None => None
  }

  /** The session with one more message at its end. */
  function WithMessage(x: Session, m: Message): (r: Session)
    ensures |r.messages| == |x.messages| + 1
    ensures r.messages[..|x.messages|] == x.messages && r.messages[|x.messages|] == m
    ensures r.(messages := x.messages) == x
  {
    x.(messages := x.messages + [m])
  }

  /** Appends `m` to every session whose id is `id` and leaves the others as they are. */
  function AppendWhere(s: seq<Session>, id: Id, m: Message): (r: seq<Session>)
    ensures |r| == |s|
    ensures forall i :: 0 <= i < |s| && s[i].id == id ==> r[i] == WithMessage(s[i], m)
    ensures forall i :: 0 <= i < |s| && s[i].id != id ==> r[i] == s[i]
    decreases |s|
  {
    if |s| == 0 then []
    else
      var rest := AppendWhere(s[1..], id, m);
      assert forall i :: 1 <= i < |s| ==> s[i] == s[1..][i - 1];
      [if s[0].id == id then WithMessage(s[0], m) else s[0]] + rest
  }

  /** Two lists whose start times agree position by position are in the page's order
      together or not at all. */
  lemma SameStartTimesSameOrder(a: seq<Session>, b: seq<Session>)
    requires |a| == |b|
    requires forall i :: 0 <= i < |a| ==> a[i].startTime == b[i].startTime
    requires NewestFirst(a)
    ensures NewestFirst(b)
  {
    forall i, j | 0 <= i < j < |b| ensures InOrder(None, b[i], b[j]) {
      assert InOrder(None, a[i], a[j]);
    }
  }

  /** Appending a message changes exactly the session with the given id (when ids are
      unique) and nothing else; without such a session the list is unchanged. */
  lemma AppendTouchesOnlyTarget(s: seq<Session>, id: Id, m: Message)
    requires UniqueIds(s)
    ensures IndexOf(s, id).Some? ==>
              var k := IndexOf(s, id).value; AppendWhere(s, id, m) == s[k := WithMessage(s[k], m)]
    ensures IndexOf(s, id).None? ==> AppendWhere(s, id, m) == s
  {
    var r := AppendWhere(s, id, m);
    match IndexOf(s, id)
    case Some(k) =>
      var e := s[k := WithMessage(s[k], m)];
      forall i | 0 <= i < |s| ensures r[i] == e[i] {
        if i != k {
          assert s[i].id != s[k].id by {
            if i < k { assert s[i].id != s[k].id; } else { assert s[k].id != s[i].id; }
          }
        }
      }
      assert r == e;
    case None =>
      assert r == s;
  }

  /** Appending a message keeps every session's id and start time, so the page's order
      and the uniqueness of ids survive it. */
  lemma AppendKeepsShape(s: seq<Session>, id: Id, m: Message)
    ensures var r := AppendWhere(s, id, m);
            && (forall i :: 0 <= i < |s| ==> r[i].id == s[i].id && r[i].startTime == s[i].startTime)
            && (UniqueIds(s) ==> UniqueIds(r))
            && (NewestFirst(s) ==> NewestFirst(r))
  {
    var r := AppendWhere(s, id, m);
    assert forall i :: 0 <= i < |s| ==> r[i].id == s[i].id && r[i].startTime == s[i].startTime;
    if NewestFirst(s) {
      SameStartTimesSameOrder(s, r);
    }
  }

  /** The session under its server id, with the region and language of the pending
      question; messages, start time and title are kept. */
  function Renamed(x: Session, newId: Id, region: RegionOrNone, language: Language): (r: Session)
    ensures r.messages == x.messages && r.startTime == x.startTime && r.title == x.title
    ensures r.id == newId && r.region == region && r.language == language
  {
    x.(id := newId, region := region, language := language)
  }

  /** Renames every session whose id is `oldId`; the others are left as they are. */
  function RenameWhere(s: seq<Session>, oldId: Id, newId: Id, region: RegionOrNone, language: Language)
    : (r: seq<Session>)
    ensures |r| == |s|
    ensures forall i :: 0 <= i < |s| && s[i].id == oldId ==> r[i] == Renamed(s[i], newId, region, language)
    ensures forall i :: 0 <= i < |s| && s[i].id != oldId ==> r[i] == s[i]
    decreases |s|
  {
    if |s| == 0 then []
    else
      var rest := RenameWhere(s[1..], oldId, newId, region, language);
      assert forall i :: 1 <= i < |s| ==> s[i] == s[1..][i - 1];
      [if s[0].id == oldId then Renamed(s[0], newId, region, language) else s[0]] + rest
  }

  /** The rename followed by the page's re-sort. */
  function RenameSession(s: seq<Session>, oldId: Id, newId: Id, region: RegionOrNone, language: Language)
    : (r: seq<Session>)
    ensures |r| == |s|
    ensures NewestFirst(r)
    ensures multiset(r) == multiset(RenameWhere(s, oldId, newId, region, language))
  {
    Sort(None, RenameWhere(s, oldId, newId, region, language))
  }

  /** On a list in the page's order the re-sort after a rename moves nothing: the
      result is the rename alone, and every session keeps its messages and start time. */
  lemma RenameInPlace(s: seq<Session>, oldId: Id, newId: Id, region: RegionOrNone, language: Language)
    requires NewestFirst(s)
    ensures var r := RenameSession(s, oldId, newId, region, language);
            && r == RenameWhere(s, oldId, newId, region, language)
            && (forall i :: 0 <= i < |s| ==> r[i].messages == s[i].messages && r[i].startTime == s[i].startTime)
  {
    var w := RenameWhere(s, oldId, newId, region, language);
    SameStartTimesSameOrder(s, w);
    SortOfSortedIsIdentity(None, w);
  }

  /** With unique ids, the rename changes exactly the session with the temporary id, in
      place; without such a session nothing changes; and a new id not yet in use keeps
      the ids unique. */
  lemma RenameTouchesOnlyTarget(s: seq<Session>, oldId: Id, newId: Id, region: RegionOrNone, language: Language)
    requires UniqueIds(s)
    ensures IndexOf(s, oldId).Some? ==>
              var k := IndexOf(s, oldId).value;
              RenameWhere(s, oldId, newId, region, language) == s[k := Renamed(s[k], newId, region, language)]
    ensures IndexOf(s, oldId).None? ==> RenameWhere(s, oldId, newId, region, language) == s
    ensures !HasId(s, newId) ==> UniqueIds(RenameWhere(s, oldId, newId, region, language))
  {
    var w := RenameWhere(s, oldId, newId, region, language);
    match IndexOf(s, oldId)
    case Some(k) =>
      var e := s[k := Renamed(s[k], newId, region, language)];
      forall i | 0 <= i < |s| ensures w[i] == e[i] {
        if i != k {
          assert s[i].id != s[k].id by {
            if i < k { assert s[i].id != s[k].id; } else { assert s[k].id != s[i].id; }
          }
        }
      }
      assert w == e;
      if !HasId(s, newId) {
        forall i, j | 0 <= i < j < |w| ensures w[i].id != w[j].id {
          if i == k { assert w[j] == s[j]; }
          else if j == k { assert w[i] == s[i]; }
          else { assert w[i] == s[i] && w[j] == s[j]; }
        }
      }
    case None =>
      assert w == s;
  }

  /** The new session added to the front, then the page's re-sort. */
  function InsertSession(s: seq<Session>, x: Session): (r: seq<Session>)
    ensures |r| == |s| + 1
    ensures NewestFirst(r)
    ensures multiset(r) == multiset(s) + multiset{x}
  {
    Sort(None, [x] + s)
  }

  /** On a list in the page's order, inserting splices the new session in at its place
      by start time and leaves the other sessions unchanged and in their order; a fresh
      id keeps the ids unique. */
  lemma InsertInPlace(s: seq<Session>, x: Session)
    requires NewestFirst(s)
    ensures var k := InsertIndex(None, x, s);
            InsertSession(s, x) == s[..k] + [x] + s[k..]
    ensures UniqueIds(s) && !HasId(s, x.id) ==> UniqueIds(InsertSession(s, x))
  {
    assert ([x] + s)[1..] == s;
    SortOfSortedIsIdentity(None, s);
    assert InsertSession(s, x) == Insert(None, x, s);
    InsertSplices(None, x, s);
    var k := InsertIndex(None, x, s);
    if UniqueIds(s) && !HasId(s, x.id) {
      SpliceKeepsUniqueIds(s, k, x);
    }
  }

  /** Putting a session with a new id anywhere into a list with unique ids keeps the ids
      unique. */
  lemma SpliceKeepsUniqueIds(s: seq<Session>, k: nat, x: Session)
    requires k <= |s| && UniqueIds(s) && !HasId(s, x.id)
    ensures UniqueIds(s[..k] + [x] + s[k..])
  {
    var r := s[..k] + [x] + s[k..];
    forall i, j | 0 <= i < j < |r| ensures r[i].id != r[j].id {
      if i < k && j < k {
      } else if i < k && j == k {
        assert r[i] == s[i];
      } else if i < k {
        assert r[i] == s[i] && r[j] == s[j - 1];
      } else if i == k {
        assert r[j] == s[j - 1];
      } else {
        assert r[i] == s[i - 1] && r[j] == s[j - 1];
      }
    }
  }

  /** Every session of a sorted view is one of the input's. */
  lemma SortedFrom(live: Option<Id>, s: seq<Session>, id: Id)
    ensures HasId(Sort(live, s), id) <==> HasId(s, id)
  {
    var r := Sort(live, s);
    if HasId(r, id) {
      var k :| 0 <= k < |r| && r[k].id == id;
      assert r[k] in multiset(s);
      assert r[k] in s;
    }
    if HasId(s, id) {
      var k :| 0 <= k < |s| && s[k].id == id;
      assert s[k] in multiset(r);
      assert s[k] in r;
    }
  }

  /** Sorting keeps the ids unique. */
  lemma {:induction false} SortKeepsUniqueIds(live: Option<Id>, s: seq<Session>)
    requires UniqueIds(s)
    ensures UniqueIds(Sort(live, s))
    decreases |s|
  {
    if |s| > 0 {
      var t := s[1..];
      assert UniqueIds(t) by {
        forall i, j | 0 <= i < j < |t| ensures t[i].id != t[j].id {
          assert t[i] == s[i + 1] && t[j] == s[j + 1];
        }
      }
      SortKeepsUniqueIds(live, t);
      var rest := Sort(live, t);
      SortedFrom(live, t, s[0].id);
      assert !HasId(t, s[0].id) by {
        forall k | 0 <= k < |t| ensures t[k].id != s[0].id {
          assert t[k] == s[k + 1];
        }
      }
      InsertSplices(live, s[0], rest);
      SpliceKeepsUniqueIds(rest, InsertIndex(live, s[0], rest), s[0]);
    }
  }
}
