/** The history sidebar: a sorted copy of the sessions, one row per session marking the
    live and the selected one, and a click that hands the row's id to the page. The
    component is a function of the sessions, the viewed id and the live id. */
module HistoryPanel {
  import opened ChatTypes
  import opened SessionOrder
  import opened SessionStore

  /** One history row: the id it selects, its caption, and the two markers. */
  datatype Row = Row(id: Id, caption: string, isLive: bool, isSelected: bool)

  /** An empty history, or the rows in display order. */
  datatype Panel = EmptyHistory | Rows(rows: seq<Row>)

  /** The row label: the title, or "Untitled Chat" for an empty title. */
  function Label(x: Session): (l: string)
    ensures l != []
    ensures x.title != [] ==> l == x.title
    ensures x.title == [] ==> l == "Untitled Chat"
  {
    if x.title != "" then x.title else "Untitled Chat"
  }

  function RowFor(x: Session, viewedId: Option<Id>, live: Option<Id>): Row {
    Row(x.id, Label(x), live == Some(x.id), viewedId == Some(x.id))
  }

  /** The sorted copy of the sessions the panel shows; the page's own list is left as it
      was. */
  function SortedSessions(sessions: seq<Session>, live: Option<Id>): (r: seq<Session>)
    ensures multiset(r) == multiset(sessions) && Sorted(live, r)
  {
    Sort(live, sessions)
  }

  function Render(sessions: seq<Session>, viewedId: Option<Id>, live: Option<Id>): Panel {
    var sorted := SortedSessions(sessions, live);
    if |sorted| == 0 then EmptyHistory
    else Rows(seq(|sorted|, i requires 0 <= i < |sorted| => RowFor(sorted[i], viewedId, live)))
  }

  /** Clicking row `i` hands that row's id to the page. */
  function Click(p: Panel, i: nat): Id
    requires p.Rows? && i < |p.rows|
  {
    p.rows[i].id
  }

  /** An empty list shows the empty state and no rows; otherwise there is one row per
      session, in the sorted order. Each row's click selects a session of the list, and
      an empty title reads "Untitled Chat". */
  lemma PanelRows(sessions: seq<Session>, viewedId: Option<Id>, live: Option<Id>)
    ensures var p := Render(sessions, viewedId, live);
            && (p.EmptyHistory? <==> |sessions| == 0)
            && (p.Rows? ==>
                  var sorted := SortedSessions(sessions, live);
                  && |p.rows| == |sessions|
                  && (forall i :: 0 <= i < |p.rows| ==>
                        p.rows[i].id == sorted[i].id
                        && HasId(sessions, Click(p, i))
                        && (sorted[i].title == [] ==> p.rows[i].caption == "Untitled Chat")))
  {
    var p := Render(sessions, viewedId, live);
    var sorted := SortedSessions(sessions, live);
    assert |sorted| == |sessions| by {
      assert |multiset(sorted)| == |multiset(sessions)|;
    }
    if p.Rows? {
      RowsFollowSorted(sessions, viewedId, live);
      forall i | 0 <= i < |p.rows| ensures HasId(sessions, Click(p, i)) {
        SortedFrom(live, sessions, sorted[i].id);
      }
    }
  }

  /** The rows run live first, and among rows that are both live or both not live the
      start times never increase. */
  lemma PanelOrder(sessions: seq<Session>, viewedId: Option<Id>, live: Option<Id>)
    ensures var p := Render(sessions, viewedId, live);
            p.Rows? ==>
              var sorted := SortedSessions(sessions, live);
              && (forall i, j :: 0 <= i < j < |p.rows| && p.rows[j].isLive ==> p.rows[i].isLive)
              && (forall i, j :: 0 <= i < j < |p.rows| && p.rows[i].isLive == p.rows[j].isLive ==>
                    sorted[i].startTime >= sorted[j].startTime)
  {
    RowsFollowSorted(sessions, viewedId, live);
    SortedViewOrder(live, sessions);
  }

  /** Row `i` is the row for the `i`-th session of the sorted copy. */
  lemma RowsFollowSorted(sessions: seq<Session>, viewedId: Option<Id>, live: Option<Id>)
    ensures var p := Render(sessions, viewedId, live);
            var sorted := SortedSessions(sessions, live);
            p.Rows? ==> |p.rows| == |sorted| && forall i :: 0 <= i < |p.rows| ==> p.rows[i] == RowFor(sorted[i], viewedId, live)
  {
  }

  /** When one of the sessions is live, the first row is live. */
  lemma LiveRowFirst(sessions: seq<Session>, viewedId: Option<Id>, live: Option<Id>)
    requires live.Some? && HasId(sessions, live.value)
    ensures var p := Render(sessions, viewedId, live);
            p.Rows? && p.rows[0].isLive
  {
    var k :| 0 <= k < |sessions| && sessions[k].id == live.value;
    PinnedComesFirst(live, sessions, k);
  }

  /** Live and selected are exact id matches, so with unique ids at most one row is live
      and at most one is selected. */
  lemma AtMostOneLiveOneSelected(sessions: seq<Session>, viewedId: Option<Id>, live: Option<Id>)
    requires UniqueIds(sessions)
    ensures var p := Render(sessions, viewedId, live);
            p.Rows? ==>
              && (forall i, j :: 0 <= i < j < |p.rows| ==> !(p.rows[i].isLive && p.rows[j].isLive))
              && (forall i, j :: 0 <= i < j < |p.rows| ==> !(p.rows[i].isSelected && p.rows[j].isSelected))
  {
    SortKeepsUniqueIds(live, sessions);
  }

  /** With no live session the panel keeps the page's order: for a list already newest
      first, the rows follow the list as it is. */
  lemma NoLiveSessionKeepsPageOrder(sessions: seq<Session>)
    requires NewestFirst(sessions)
    ensures SortedSessions(sessions, None) == sessions
  {
    SortOfSortedIsIdentity(None, sessions);
  }
}
