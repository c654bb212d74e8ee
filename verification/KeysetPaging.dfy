/** Keyset paging of the Admin dashboard: pages in (createdAt, id) descending order, over rows that
    come and go between the pages, and the text form of a position. */
module KeysetPaging {
  import opened Options

  datatype Row = Row(createdAt: string, id: string)

  /** The database's order of texts. */
  type Less = (string, string) -> bool

  ghost predicate IsTotalOrder(less: Less) {
    && (forall a, b :: less(a, b) ==> !less(b, a))
    && (forall a, b, c :: less(a, b) && less(b, c) ==> less(a, c))
    && (forall a, b :: a == b || less(a, b) || less(b, a))
  }

  predicate Below(less: Less, a: Row, b: Row) {
    less(a.createdAt, b.createdAt) || (a.createdAt == b.createdAt && less(a.id, b.id))
  }

  predicate IsBelow(less: Less, a: Row, cursor: Option<Row>) {
    cursor.None? || Below(less, a, cursor.value)
  }

  lemma BelowIsTotal(less: Less, a: Row, b: Row, c: Row)
    requires IsTotalOrder(less)
    ensures a == b || Below(less, a, b) || Below(less, b, a)
    ensures !(Below(less, a, b) && Below(less, b, a)) && !Below(less, a, a)
    ensures Below(less, a, b) && Below(less, b, c) ==> Below(less, a, c)
  {
  }

  predicate Descending(less: Less, rows: seq<Row>) {
    forall i, k :: 0 <= i < k < |rows| ==> Below(less, rows[k], rows[i])
  }

  // ----- one page -----

  /** What the query answers: the topmost rows below the cursor, descending, at most `count`. */
  ghost predicate IsSelection(less: Less, table: set<Row>, cursor: Option<Row>, count: nat, rows: seq<Row>) {
    && |rows| <= count
    && Descending(less, rows)
    && (forall i :: 0 <= i < |rows| ==> rows[i] in table && IsBelow(less, rows[i], cursor))
    && (forall r :: r in table && IsBelow(less, r, cursor) && r !in rows ==>
         |rows| == count && forall i :: 0 <= i < |rows| ==> Below(less, r, rows[i]))
  }

  datatype Page = Page(rows: seq<Row>, next: Option<Row>)

  function KeysetPage(rows: seq<Row>, limit: nat): Page {
    var pageRows := if |rows| <= limit then rows else rows[..limit];
    Page(pageRows, if |rows| > limit && pageRows != [] then Some(pageRows[|pageRows|-1]) else None)
  }

  lemma {:induction false} TopExists(less: Less, table: set<Row>) returns (top: Row)
    requires IsTotalOrder(less) && table != {}
    ensures top in table && forall r :: r in table && r != top ==> Below(less, r, top)
    decreases |table|
  {
    top :| top in table;
    var others := table - {top};
    assert forall r :: r in table && r != top ==> r in others;
    if others != {} {
      var other := TopExists(less, others);
      BelowIsTotal(less, top, other, top);
      if Below(less, top, other) {
        forall r | r in table && r != other ensures Below(less, r, other) { assert r == top || r in others; }
        top := other;
      } else {
        forall r | r in table && r != top ensures Below(less, r, top) {
          assert r in others;
          BelowIsTotal(less, r, other, top);
        }
      }
    }
  }

  /** The query has an answer on every table. */
  lemma {:induction false} SelectionExists(less: Less, table: set<Row>, cursor: Option<Row>, count: nat)
    returns (rows: seq<Row>)
    requires IsTotalOrder(less)
    ensures IsSelection(less, table, cursor, count, rows)
    decreases count
  {
    var below := set r | r in table && IsBelow(less, r, cursor);
    if count == 0 || below == {} {
      rows := [];
      assert forall r :: r in table && IsBelow(less, r, cursor) ==> r in below;
    } else {
      var top := TopExists(less, below);
      var rest := SelectionExists(less, table, Some(top), count - 1);
      rows := [top] + rest;
      forall r | r in table && IsBelow(less, r, cursor) && r !in rows
        ensures |rows| == count && forall i :: 0 <= i < |rows| ==> Below(less, r, rows[i])
      {
        assert r in below && r != top;
        assert r !in rest;
      }
      forall i | 0 <= i < |rows| ensures rows[i] in table && IsBelow(less, rows[i], cursor) {
        if i > 0 && cursor.Some? { BelowIsTotal(less, rows[i], top, cursor.value); }
      }
    }
  }

  // ----- following the cursor -----

  /** One request of a reader: the table as it is then, and what the query answers. */
  datatype Exchange = Exchange(table: set<Row>, rows: seq<Row>)

  /** A reader that starts below `cursor` and follows nextPosition while there is one; the table may be
      another at every page. */
  ghost predicate IsSession(less: Less, cursor: Option<Row>, limit: nat, xs: seq<Exchange>)
    decreases |xs|
  {
    xs != [] ==>
      && IsSelection(less, xs[0].table, cursor, limit + 1, xs[0].rows)
      && var next := KeysetPage(xs[0].rows, limit).next;
        if next.Some? then IsSession(less, next, limit, xs[1..]) else xs[1..] == []
  }

  function Emitted(limit: nat, xs: seq<Exchange>): seq<Row>
    decreases |xs|
  {
    if xs == [] then [] else KeysetPage(xs[0].rows, limit).rows + Emitted(limit, xs[1..])
  }

  /** The last page of the session has no next position. */
  predicate IsFinished(limit: nat, xs: seq<Exchange>) {
    xs != [] && KeysetPage(xs[|xs|-1].rows, limit).next.None?
  }

  /** A page holds the rows above its next position, and everything else lies below that. */
  lemma PageSplits(less: Less, table: set<Row>, cursor: Option<Row>, limit: nat, rows: seq<Row>, r: Row)
    requires IsTotalOrder(less) && limit >= 1 && IsSelection(less, table, cursor, limit + 1, rows)
    requires r in table && IsBelow(less, r, cursor) && r !in KeysetPage(rows, limit).rows
    ensures KeysetPage(rows, limit).next.Some? && Below(less, r, KeysetPage(rows, limit).next.value)
  {
    var page := KeysetPage(rows, limit);
    if r in rows {
      assert forall i :: 0 <= i < |page.rows| ==> rows[i] == page.rows[i] && page.rows[i] in page.rows;
      var i :| 0 <= i < |rows| && rows[i] == r;
      assert i == limit && page.next == Some(rows[limit-1]);
    } else {
      assert |rows| == limit + 1 && page.next == Some(rows[limit-1]);
    }
  }

  lemma {:induction false} EmittedAreBelow(less: Less, cursor: Option<Row>, limit: nat, xs: seq<Exchange>)
    requires IsTotalOrder(less) && limit >= 1 && IsSession(less, cursor, limit, xs)
    ensures forall i :: 0 <= i < |Emitted(limit, xs)| ==> IsBelow(less, Emitted(limit, xs)[i], cursor)
    ensures Descending(less, Emitted(limit, xs))
    decreases |xs|
  {
    if xs != [] {
      var page := KeysetPage(xs[0].rows, limit);
      var rest := Emitted(limit, xs[1..]);
      if page.next.Some? {
        EmittedAreBelow(less, page.next, limit, xs[1..]);
        forall i, k | 0 <= i < |page.rows| && 0 <= k < |rest| ensures Below(less, rest[k], page.rows[i]) {
          assert Below(less, rest[k], page.next.value);
          if i < |page.rows| - 1 { BelowIsTotal(less, rest[k], page.next.value, page.rows[i]); }
        }
        forall k | 0 <= k < |rest| ensures IsBelow(less, rest[k], cursor) {
          if cursor.Some? { BelowIsTotal(less, rest[k], page.next.value, cursor.value); }
        }
      }
    }
  }

  /** A session's rows are in strictly descending order, so none comes twice, and each was in the table
      when its page was read. */
  lemma {:induction false} EmittedWerePresent(less: Less, cursor: Option<Row>, limit: nat, xs: seq<Exchange>)
    requires IsSession(less, cursor, limit, xs)
    ensures forall r :: r in Emitted(limit, xs) ==> exists p :: 0 <= p < |xs| && r in xs[p].table
    decreases |xs|
  {
    if xs != [] {
      var page := KeysetPage(xs[0].rows, limit);
      if page.next.Some? { EmittedWerePresent(less, page.next, limit, xs[1..]); }
      forall r | r in Emitted(limit, xs) ensures exists p :: 0 <= p < |xs| && r in xs[p].table {
        if r in page.rows {
          var i :| 0 <= i < |page.rows| && page.rows[i] == r;
          assert xs[0].rows[i] in xs[0].table;
        } else {
          assert r in Emitted(limit, xs[1..]);
          var p :| 0 <= p < |xs[1..]| && r in xs[1..][p].table;
          assert r in xs[p+1].table;
        }
      }
    }
  }

  /** A finished session has shown every row below its start that was there throughout, exactly once,
      whatever was inserted or deleted between its pages. */
  lemma {:induction false} PresentRowsAreShownOnce(less: Less, cursor: Option<Row>, limit: nat, xs: seq<Exchange>,
                                                   r: Row)
    requires IsTotalOrder(less) && limit >= 1 && IsSession(less, cursor, limit, xs) && IsFinished(limit, xs)
    requires IsBelow(less, r, cursor) && forall p :: 0 <= p < |xs| ==> r in xs[p].table
    ensures r in Emitted(limit, xs)
    ensures var rows := Emitted(limit, xs);
      forall i, k :: 0 <= i < k < |rows| ==> !(rows[i] == r && rows[k] == r)
    decreases |xs|
  {
    var page := KeysetPage(xs[0].rows, limit);
    if r !in page.rows {
      PageSplits(less, xs[0].table, cursor, limit, xs[0].rows, r);
      if xs[1..] != [] {
        forall p | 0 <= p < |xs[1..]| ensures r in xs[1..][p].table { assert xs[1..][p] == xs[p+1]; }
        PresentRowsAreShownOnce(less, page.next, limit, xs[1..], r);
      }
    }
    EmittedAreBelow(less, cursor, limit, xs);
    BelowIsTotal(less, r, r, r);
  }

  lemma OneMorePage(pages: int, limit: nat)
    ensures (pages + 1) * limit == pages * limit + limit
  {
  }

  lemma {:induction false} EmittedCount(less: Less, cursor: Option<Row>, limit: nat, xs: seq<Exchange>)
    requires IsSession(less, cursor, limit, xs) && xs != [] && KeysetPage(xs[|xs|-1].rows, limit).next.Some?
    ensures |Emitted(limit, xs)| == |xs| * limit
    decreases |xs|
  {
    OneMorePage(|xs| - 1, limit);
    if xs[1..] != [] {
      assert xs[1..][|xs[1..]|-1] == xs[|xs|-1];
      EmittedCount(less, KeysetPage(xs[0].rows, limit).next, limit, xs[1..]);
      assert |KeysetPage(xs[0].rows, limit).rows| == limit;
    }
  }

  lemma {:induction false} DescendingFitsIn(less: Less, rows: seq<Row>, universe: set<Row>)
    requires IsTotalOrder(less) && Descending(less, rows) && forall r :: r in rows ==> r in universe
    ensures |rows| <= |universe|
    decreases |rows|
  {
    if rows != [] {
      BelowIsTotal(less, rows[0], rows[0], rows[0]);
      assert forall k :: 0 <= k < |rows[1..]| ==> rows[1..][k] == rows[k+1];
      DescendingFitsIn(less, rows[1..], universe - {rows[0]});
    }
  }

  /** Paging ends: with rows out of a finite universe, a session that still has a next position has not
      read more pages than the universe fills. */
  lemma PagingEnds(less: Less, cursor: Option<Row>, limit: nat, xs: seq<Exchange>, universe: set<Row>)
    requires IsTotalOrder(less) && limit >= 1 && IsSession(less, cursor, limit, xs)
    requires forall p :: 0 <= p < |xs| ==> xs[p].table <= universe
    ensures xs != [] && KeysetPage(xs[|xs|-1].rows, limit).next.Some? ==> |xs| * limit <= |universe|
  {
    if xs != [] && KeysetPage(xs[|xs|-1].rows, limit).next.Some? {
      EmittedAreBelow(less, cursor, limit, xs);
      EmittedWerePresent(less, cursor, limit, xs);
      EmittedCount(less, cursor, limit, xs);
      DescendingFitsIn(less, Emitted(limit, xs), universe);
    }
  }

  // ----- positions as text -----

  function Position(r: Row): string {
    r.createdAt + ("\t" + r.id)
  }

  function IndexOf(s: string, c: char): int {
    if s == [] then -1
    else if s[0] == c then 0
    else
      var rest := IndexOf(s[1..], c);
      if rest < 0 then -1 else rest + 1
  }

  function Cursor(position: string): Option<Row> {
    var separator := IndexOf(position, '\t');
    if separator <= 0 || separator >= |position| - 1 then None
    else Some(Row(position[..separator], position[separator+1..]))
  }

  lemma {:induction false} FirstTab(a: string, b: string)
    ensures (forall i :: 0 <= i < |a| ==> a[i] != '\t') ==> IndexOf(a + ("\t" + b), '\t') == |a|
    ensures (exists i :: 0 <= i < |a| && a[i] == '\t') ==> 0 <= IndexOf(a + ("\t" + b), '\t') < |a|
  {
    var s := a + ("\t" + b);
    if a == [] {
      assert s == "\t" + b;
    } else {
      assert s[1..] == a[1..] + ("\t" + b);
      FirstTab(a[1..], b);
      if a[0] != '\t' && exists i :: 0 <= i < |a| && a[i] == '\t' {
        var i :| 0 <= i < |a| && a[i] == '\t';
        assert a[1..][i-1] == '\t';
      }
    }
  }

  /** A position reads back as the row it was written for exactly when neither part is empty and the
      time has no tab; a tab in the id does no harm. */
  lemma PositionRoundTrip(r: Row)
    ensures Cursor(Position(r)) == Some(r) <==>
      r.createdAt != [] && r.id != [] && forall i :: 0 <= i < |r.createdAt| ==> r.createdAt[i] != '\t'
  {
    FirstTab(r.createdAt, r.id);
    var p := Position(r);
    assert p[..|r.createdAt|] == r.createdAt && p[|r.createdAt|+1..] == r.id;
  }
}
