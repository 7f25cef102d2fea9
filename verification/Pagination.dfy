/** Keyset pages by (created_at, id) descending, and the walks over them, while rows come and go. */
module Pagination {
  import opened Domain
  import opened Timecalc
  import opened Timestamps
  import opened Cursors

  datatype Row = Row(pos: Position, schedule: string, status: RunStatus, kind: TargetKind)

  /** ListRuns' optional conditions. */
  datatype Filter = Filter(schedule: Option<string>, status: Option<RunStatus>, kind: Option<TargetKind>)

  predicate Matches(r: Row, f: Filter) {
    && (f.schedule.Some? ==> r.schedule == f.schedule.value)
    && (f.status.Some? ==> r.status == f.status.value)
    && (f.kind.Some? ==> r.kind == f.kind.value)
  }

  // ---------------------------------------------------------------- order

  predicate Below(a: Position, b: Position) {
    a.created < b.created || (a.created == b.created && Before(a.id, b.id))
  }

  lemma {:induction false} BeforeTotal(a: string, b: string)
    ensures a == b || Before(a, b) || Before(b, a)
    ensures !(Before(a, b) && Before(b, a))
    decreases |a|
  {
    if a != "" && b != "" {
      BeforeTotal(a[1..], b[1..]);
      assert a == [a[0]] + a[1..] && b == [b[0]] + b[1..];
    }
  }

  lemma {:induction false} BeforeTransitive(a: string, b: string, c: string)
    requires Before(a, b) && Before(b, c)
    ensures Before(a, c)
    decreases |a|
  {
    if a != "" && a[0] == b[0] == c[0] {
      BeforeTransitive(a[1..], b[1..], c[1..]);
    }
  }

  lemma BelowTotal(a: Position, b: Position)
    ensures a == b || Below(a, b) || Below(b, a)
    ensures !(Below(a, b) && Below(b, a))
    ensures !Below(a, a)
  {
    BeforeTotal(a.id, b.id);
    BeforeSelf(a.id);
  }

  lemma BelowTransitive(a: Position, b: Position, c: Position)
    requires Below(a, b) && Below(b, c)
    ensures Below(a, c)
  {
    if a.created == b.created == c.created { BeforeTransitive(a.id, b.id, c.id); }
  }

  // ---------------------------------------------------------------- sorted listings

  /** The primary key makes positions unique. */
  predicate Keyed(t: set<Row>) {
    forall a, b | a in t && b in t && a.pos == b.pos :: a == b
  }

  predicate Descending(items: seq<Row>) {
    forall i, j | 0 <= i < j < |items| :: Below(items[j].pos, items[i].pos)
  }

  function Elements(items: seq<Row>): set<Row> { set r | r in items }

  predicate TopOf(r: Row, t: set<Row>) {
    r in t && forall o | o in t && o != r :: Below(o.pos, r.pos)
  }

  lemma {:induction false} TopExists(t: set<Row>) returns (top: Row)
    requires Keyed(t) && t != {}
    ensures TopOf(top, t)
    decreases |t|
  {
    top :| top in t;
    if t != {top} {
      var rest := TopExists(t - {top});
      BelowTotal(rest.pos, top.pos);
      if Below(top.pos, rest.pos) {
        top := rest;
      } else {
        forall o | o in t && o != top && o != rest ensures Below(o.pos, top.pos) {
          BelowTransitive(o.pos, rest.pos, top.pos);
        }
      }
    }
  }

  /** ORDER BY created_at DESC, id DESC. */
  ghost predicate SortedListing(items: seq<Row>, t: set<Row>) { Descending(items) && Elements(items) == t }

  lemma HeadIsTop(items: seq<Row>, t: set<Row>)
    requires SortedListing(items, t) && items != []
    ensures TopOf(items[0], t) && SortedListing(items[1..], t - {items[0]})
  {
    forall o | o in t && o != items[0] ensures Below(o.pos, items[0].pos) {
      var i :| 0 <= i < |items| && items[i] == o;
      assert i > 0;
    }
    forall r ensures r in items[1..] <==> r in t && r != items[0] {
      if r in items[1..] {
        var i :| 1 <= i < |items| && items[i] == r;
        BelowTotal(r.pos, items[0].pos);
      }
      if r in t && r != items[0] {
        var i :| 0 <= i < |items| && items[i] == r;
        assert items[1..][i - 1] == r;
      }
    }
    assert Elements(items[1..]) == t - {items[0]};
  }

  lemma EmptyListing(items: seq<Row>)
    requires Elements(items) == {}
    ensures items == []
  {
    if items != [] { HeadIsElement(items); }
  }

  lemma HeadIsElement(items: seq<Row>)
    requires items != []
    ensures items[0] in Elements(items)
  {
  }

  /** A set has one sorted listing. */
  lemma {:induction false} ListingUnique(a: seq<Row>, b: seq<Row>, t: set<Row>)
    requires SortedListing(a, t) && SortedListing(b, t)
    ensures a == b
    decreases |a|
  {
    if a == [] {
      EmptyListing(b);
    } else {
      assert a[0] in t;
      assert b != [];
      HeadIsTop(a, t);
      HeadIsTop(b, t);
      BelowTotal(a[0].pos, b[0].pos);
      ListingUnique(a[1..], b[1..], t - {a[0]});
      assert a == [a[0]] + a[1..] && b == [b[0]] + b[1..];
    }
  }

  lemma {:induction false} ListingExists(t: set<Row>) returns (items: seq<Row>)
    requires Keyed(t)
    ensures SortedListing(items, t)
    decreases |t|
  {
    if t == {} {
      items := [];
    } else {
      var top := TopExists(t);
      var rest := ListingExists(t - {top});
      items := [top] + rest;
      PrependTop(top, rest, t);
    }
  }

  lemma PrependTop(top: Row, rest: seq<Row>, t: set<Row>)
    requires TopOf(top, t) && SortedListing(rest, t - {top})
    ensures SortedListing([top] + rest, t)
  {
    var items := [top] + rest;
    forall i, j | 0 <= i < j < |items| ensures Below(items[j].pos, items[i].pos) {
      if i == 0 {
        assert items[j] in Elements(rest);
      } else {
        assert items[i] == rest[i - 1] && items[j] == rest[j - 1];
      }
    }
    assert Elements(items) == {top} + Elements(rest);
  }

  /** The top rows of a listing followed by a listing of what lies below them. */
  lemma JoinListings(a: seq<Row>, b: seq<Row>, t: set<Row>, u: set<Row>)
    requires SortedListing(a, t) && SortedListing(b, u)
    requires forall x, y | x in t && y in u :: Below(y.pos, x.pos)
    ensures SortedListing(a + b, t + u)
  {
    var items := a + b;
    forall i, j | 0 <= i < j < |items| ensures Below(items[j].pos, items[i].pos) {
      if i < |a| <= j {
        assert items[i] in Elements(a) && items[j] in Elements(b);
      } else if j < |a| {
        assert items[i] == a[i] && items[j] == a[j];
      } else {
        assert items[i] == b[i - |a|] && items[j] == b[j - |a|];
      }
    }
    assert Elements(items) == Elements(a) + Elements(b);
  }

  // ---------------------------------------------------------------- one page

  function Eligible(t: set<Row>, f: Filter, cursor: Option<Position>): set<Row> {
    set r | r in t && Matches(r, f) && (cursor.Some? ==> Below(r.pos, cursor.value))
  }

  predicate AllAbove(items: seq<Row>, t: set<Row>) {
    forall x, y | x in items && y in t :: Below(y.pos, x.pos)
  }

  function Limit(limit: int): nat { if limit <= 0 then 50 else limit }

  /** The first rows below the cursor, and where they end if there are more. */
  ghost predicate IsPage(items: seq<Row>, next: Option<Position>, eligible: set<Row>, limit: nat) {
    && |items| <= limit
    && Elements(items) <= eligible
    && Descending(items)
    && AllAbove(items, eligible - Elements(items))
    && (next.None? <==> Elements(items) == eligible)
    && (next.Some? ==> |items| == limit && items != [] && next.value == items[|items| - 1].pos)
  }

  /** `a` comes after `b` in the listing: it is older, or as old with the lesser id. */
  predicate Older(a: Position, b: Position) {
    a.created < b.created || (a.created == b.created && Before(a.id, b.id))
  }

  /** A page in terms of the request: the newest rows that meet every condition given and lie beyond the cursor, newest
      first, at most the limit, fifty by default; it names where it ends exactly when more remain. */
  lemma PageMeans(rows: set<Row>, f: Filter, limit: int, cursor: Option<Position>, items: seq<Row>,
                  next: Option<Position>)
    requires IsPage(items, next, Eligible(rows, f, cursor), Limit(limit))
    ensures forall r | r in items ::
              && r in rows && (cursor.Some? ==> Older(r.pos, cursor.value))
              && (f.schedule.None? || f.schedule.value == r.schedule) && (f.status.None? || f.status.value == r.status)
              && (f.kind.None? || f.kind.value == r.kind)
    ensures forall i, j | 0 <= i < j < |items| :: Older(items[j].pos, items[i].pos)
    ensures |items| <= if limit <= 0 then 50 else limit
    ensures forall r | r in rows && r !in items && (cursor.Some? ==> Older(r.pos, cursor.value))
                       && (f.schedule.None? || f.schedule.value == r.schedule)
                       && (f.status.None? || f.status.value == r.status)
                       && (f.kind.None? || f.kind.value == r.kind) ::
              && next.Some? && |items| == (if limit <= 0 then 50 else limit)
              && forall x | x in items :: Older(r.pos, x.pos)
    ensures next.Some? ==>
              && items != [] && next.value == items[|items| - 1].pos
              && exists r ::
                   && r in rows && r !in items && Older(r.pos, next.value)
                   && (f.schedule.None? || f.schedule.value == r.schedule)
                   && (f.status.None? || f.status.value == r.status) && (f.kind.None? || f.kind.value == r.kind)
  {
    var eligible := Eligible(rows, f, cursor);
    forall r | r in items ensures r in rows && Matches(r, f) && (cursor.Some? ==> Below(r.pos, cursor.value)) {
      assert r in Elements(items) && r in eligible;
    }
    forall r | r in eligible && r !in items ensures r in eligible - Elements(items) { }
    if next.Some? {
      var r :| r in eligible && r !in Elements(items);
      assert r in eligible - Elements(items) && items[|items| - 1] in items;
    }
  }

  lemma AppendTop(items: seq<Row>, top: Row, t: set<Row>, all: set<Row>)
    requires Descending(items) && AllAbove(items, t) && TopOf(top, t) && Elements(items) == all - t && t <= all
    ensures Descending(items + [top]) && AllAbove(items + [top], t - {top})
            && Elements(items + [top]) == all - (t - {top})
  {
    var after := items + [top];
    forall i, j | 0 <= i < j < |after| ensures Below(after[j].pos, after[i].pos) {
      if j == |items| { assert items[i] in items; }
    }
    assert Elements(after) == Elements(items) + {top};
  }

  /** LIMIT limit + 1, then cut: the extra row only tells that there is more. */
  method ListPage(rows: set<Row>, f: Filter, limit: int, cursor: Option<Position>)
    returns (items: seq<Row>, next: Option<Position>)
    requires Keyed(rows)
    ensures IsPage(items, next, Eligible(rows, f, cursor), Limit(limit))
  {
    var n := Limit(limit);
    var eligible := Eligible(rows, f, cursor);
    var todo := eligible;
    items := [];
    while |items| < n + 1 && todo != {}
      invariant todo <= eligible && |items| <= n + 1
      invariant Descending(items) && AllAbove(items, todo) && Elements(items) == eligible - todo
      decreases |todo|
    {
      ghost var top := TopExists(todo);
      var r :| r in todo && forall o | o in todo && o != r :: Below(o.pos, r.pos);
      AppendTop(items, r, todo, eligible);
      items := items + [r];
      todo := todo - {r};
    }
    if |items| <= n {
      return items, None;
    }
    var last := items[n];
    CutPage(items, eligible, todo, n);
    items := items[..n];
    next := Some(items[n - 1].pos);
  }

  /** The position a request's cursor text names; the empty text asks for the first page. */
  function CursorOf(text: string, other: string -> Option<Time>): Option<Position> {
    if text == "" then None else DecodeCursor(text, other)
  }

  predicate Written(t: set<Row>) { forall r | r in t :: Representable(r.pos.created) }

  /** A list request as it comes and goes: with cursor texts. A cursor that cannot be read is refused. */
  method ListRows(rows: set<Row>, f: Filter, limit: int, cursor: string, other: string -> Option<Time>)
    returns (items: seq<Row>, next: string, ok: bool)
    requires Keyed(rows) && Written(rows)
    ensures ok <==> cursor == "" || DecodeCursor(cursor, other).Some?
    ensures !ok ==> items == [] && next == ""
    ensures ok ==>
              IsPage(items, CursorOf(next, other), Eligible(rows, f, CursorOf(cursor, other)), Limit(limit))
    ensures next != "" ==> CursorOf(next, other).Some? && Representable(CursorOf(next, other).value.created)
                           && next == EncodeCursor(CursorOf(next, other).value)
  {
    hide DecodeCursor, EncodeCursor, Keyed, Representable, IsPage;
    items, next, ok := [], "", true;
    var from: Option<Position> := None;
    if cursor != "" {
      from := DecodeCursor(cursor, other);
      if from.None? { return [], "", false; }
    }
    var last: Option<Position>;
    items, last := ListPage(rows, f, limit, from);
    if last.Some? {
      LastIsWritten(rows, f, from, items, last, Limit(limit));
      CursorRoundTrip(last.value, other);
      CursorsNamePositions(last.value, last.value);
      next := EncodeCursor(last.value);
    }
  }

  lemma LastIsWritten(rows: set<Row>, f: Filter, from: Option<Position>, items: seq<Row>, next: Option<Position>,
                      limit: nat)
    requires Written(rows) && next.Some? && IsPage(items, next, Eligible(rows, f, from), limit)
    ensures Representable(next.value.created)
  {
    hide Representable, Below, Matches;
    assert items[|items| - 1] in Elements(items);
  }

  lemma CutPage(items: seq<Row>, eligible: set<Row>, todo: set<Row>, n: nat)
    requires |items| == n + 1 && n > 0 && Descending(items) && AllAbove(items, todo)
             && Elements(items) == eligible - todo && todo <= eligible
    ensures IsPage(items[..n], Some(items[n - 1].pos), eligible, n)
  {
    var kept := items[..n];
    assert items == kept + [items[n]];
    assert Elements(items) == Elements(kept) + {items[n]};
    assert items[n] in items;
    forall x | x in kept ensures x in items && Below(items[n].pos, x.pos) {
      var i :| 0 <= i < n && items[i] == x;
    }
    BelowTotal(items[n].pos, items[n].pos);
    assert items[n] !in kept;
  }

  // ---------------------------------------------------------------- walks

  /** The table as the i-th page request finds it. */
  type Tables = nat -> set<Row>

  predicate Present(t: set<Row>, f: Filter, p: Position) { exists r | r in t :: r.pos == p && Matches(r, f) }

  predicate Returned(items: seq<Row>, p: Position) { exists r | r in items :: r.pos == p }

  predicate NotBelow(p: Position, cursor: Option<Position>) { cursor.Some? && !Below(p, cursor.value) }

  /** Rows of the universe that a walk at this cursor can still return. */
  function Remaining(universe: set<Row>, cursor: Option<Position>): set<Row> {
    set r | r in universe && (cursor.Some? ==> Below(r.pos, cursor.value))
  }

  /** Everything returned was there when its page was read. */
  ghost predicate Sourced(tables: Tables, f: Filter, page: nat, items: seq<Row>) {
    forall r | r in items :: exists i :: 0 <= i < page && r in tables(i) && Matches(r, f)
  }

  ghost predicate Throughout(tables: Tables, f: Filter, page: nat, p: Position) {
    forall i | 0 <= i < page :: Present(tables(i), f, p)
  }

  ghost predicate Still(tables: Tables, page: nat) {
    forall i | 0 <= i < page :: tables(i) == tables(0)
  }

  /** The walk so far: in order down to the cursor, nothing that stayed has been passed over. */
  ghost predicate WalkOk(tables: Tables, f: Filter, page: nat, items: seq<Row>, cursor: Option<Position>) {
    && Descending(items)
    && (cursor.None? ==> items == [])
    && (cursor.Some? ==> items != [] && items[|items| - 1].pos == cursor.value)
    && Sourced(tables, f, page, items)
    && (forall p | NotBelow(p, cursor) && Throughout(tables, f, page, p) :: Returned(items, p))
    && (Still(tables, page) ==> Elements(items) == Eligible(tables(0), f, None) - Eligible(tables(0), f, cursor))
  }

  /** The whole walk: strictly descending, so nothing twice; every row that stayed is there; on a table that
      stood still it is the sorted filtered table. */
  ghost predicate WalkDone(tables: Tables, f: Filter, pages: nat, items: seq<Row>) {
    && Descending(items)
    && Sourced(tables, f, pages, items)
    && (forall p | Throughout(tables, f, pages, p) :: Returned(items, p))
    && (Still(tables, pages) ==> SortedListing(items, Eligible(tables(0), f, None)))
  }

  lemma WalkDescends(items: seq<Row>, cursor: Option<Position>, got: seq<Row>, eligible: set<Row>)
    requires Descending(items) && (cursor.None? ==> items == []) && (cursor.Some? ==>
               items != [] && items[|items| - 1].pos == cursor.value)
    requires Descending(got) && Elements(got) <= eligible && (cursor.Some? ==>
               forall r | r in eligible :: Below(r.pos, cursor.value))
    ensures Descending(items + got)
  {
    forall x, y | x in Elements(items) && y in Elements(got) ensures Below(y.pos, x.pos) {
      var i :| 0 <= i < |items| && items[i] == x;
      if i < |items| - 1 { BelowTransitive(y.pos, cursor.value, x.pos); }
    }
    JoinListings(items, got, Elements(items), Elements(got));
  }

  lemma PageReturns(t: set<Row>, f: Filter, cursor: Option<Position>, got: seq<Row>, next: Option<Position>, limit: nat,
                    p: Position)
    requires IsPage(got, next, Eligible(t, f, cursor), limit) && Present(t, f, p) && !NotBelow(p, cursor)
    requires next.Some? ==> NotBelow(p, next)
    ensures Returned(got, p)
  {
    var r :| r in t && r.pos == p && Matches(r, f);
    assert r in Eligible(t, f, cursor);
    if next.Some? { assert got[|got| - 1] in got; }
    assert r in Elements(got);
  }

  lemma ReturnedSteps(tables: Tables, f: Filter, page: nat, items: seq<Row>, cursor: Option<Position>, got: seq<Row>,
                      next: Option<Position>, limit: nat, p: Position)
    requires WalkOk(tables, f, page, items, cursor) && IsPage(got, next, Eligible(tables(page), f, cursor), limit)
    requires Throughout(tables, f, page + 1, p) && (next.Some? ==> NotBelow(p, next))
    ensures Returned(items + got, p)
  {
    if NotBelow(p, cursor) {
      assert Throughout(tables, f, page, p);
      var r :| r in items && r.pos == p;
      assert r in items + got;
    } else {
      assert Present(tables(page), f, p);
      PageReturns(tables(page), f, cursor, got, next, limit, p);
      var r :| r in got && r.pos == p;
      assert r in items + got;
    }
  }

  /** A page takes exactly the top of what was eligible. */
  lemma PageTakes(t: set<Row>, f: Filter, cursor: Option<Position>, got: seq<Row>, next: Option<Position>, limit: nat)
    requires IsPage(got, next, Eligible(t, f, cursor), limit)
    ensures next.Some? ==> Eligible(t, f, next) == Eligible(t, f, cursor) - Elements(got) && (cursor.Some? ==>
              Below(next.value, cursor.value))
    ensures next.None? ==> Elements(got) == Eligible(t, f, cursor)
  {
    if next.Some? {
      var last := got[|got| - 1];
      assert last in got && last in Elements(got);
      forall r ensures r in Eligible(t, f, next) <==> r in Eligible(t, f, cursor) && r !in Elements(got) {
        if r in Elements(got) {
          var i :| 0 <= i < |got| && got[i] == r;
          BelowTotal(r.pos, last.pos);
        }
        if r in Eligible(t, f, next) && cursor.Some? { BelowTransitive(r.pos, last.pos, cursor.value); }
      }
    }
  }

  lemma StillTaken(all: set<Row>, before: set<Row>, after: set<Row>, items: seq<Row>, got: seq<Row>)
    requires before <= all && Elements(items) == all - before && Elements(got) <= before
             && after == before - Elements(got)
    ensures Elements(items + got) == all - after
  {
    assert Elements(items + got) == Elements(items) + Elements(got);
  }

  lemma SourcedSteps(tables: Tables, f: Filter, page: nat, items: seq<Row>, cursor: Option<Position>, got: seq<Row>)
    requires Sourced(tables, f, page, items) && Elements(got) <= Eligible(tables(page), f, cursor)
    ensures Sourced(tables, f, page + 1, items + got)
  {
    forall r | r in items + got ensures exists i :: 0 <= i < page + 1 && r in tables(i) && Matches(r, f) {
      if r in items {
        var i :| 0 <= i < page && r in tables(i) && Matches(r, f);
      } else {
        assert r in Elements(got);
        assert r in tables(page) && Matches(r, f);
      }
    }
  }

  lemma WalkStep(tables: Tables, f: Filter, page: nat, items: seq<Row>, cursor: Option<Position>, got: seq<Row>,
                 next: Option<Position>, limit: nat)
    requires WalkOk(tables, f, page, items, cursor) && IsPage(got, next, Eligible(tables(page), f, cursor), limit)
    ensures next.Some? ==> WalkOk(tables, f, page + 1, items + got, next) && (cursor.Some? ==>
              Below(next.value, cursor.value))
    ensures next.None? ==> WalkDone(tables, f, page + 1, items + got)
  {
    hide Below, Matches, Present, Returned, NotBelow;
    WalkDescends(items, cursor, got, Eligible(tables(page), f, cursor)) by { EligibleBelow(tables(page), f, cursor); }
    SourcedSteps(tables, f, page, items, cursor, got);
    PageTakes(tables(page), f, cursor, got, next, limit);
    forall p | Throughout(tables, f, page + 1, p) && (next.Some? ==> NotBelow(p, next))
      ensures Returned(items + got, p) {
      ReturnedSteps(tables, f, page, items, cursor, got, next, limit, p);
    }
    if Still(tables, page + 1) {
      assert tables(page) == tables(0);
      assert Still(tables, page) by { StillBefore(tables, page); }
      var after := if next.Some? then Eligible(tables(0), f, next) else {};
      EligibleShrinks(tables(0), f, cursor);
      StillTaken(Eligible(tables(0), f, None), Eligible(tables(0), f, cursor), after, items, got);
    }
    hide IsPage, Throughout, Still, Eligible, Sourced, Elements, Descending;
  }

  lemma StillBefore(tables: Tables, page: nat)
    requires Still(tables, page + 1)
    ensures Still(tables, page)
  {
  }

  lemma EligibleBelow(t: set<Row>, f: Filter, cursor: Option<Position>)
    ensures cursor.Some? ==> forall r | r in Eligible(t, f, cursor) :: Below(r.pos, cursor.value)
  {
  }

  lemma EligibleShrinks(t: set<Row>, f: Filter, cursor: Option<Position>)
    ensures Eligible(t, f, cursor) <= Eligible(t, f, None)
  {
  }

  lemma RemainingShrinks(universe: set<Row>, cursor: Option<Position>, next: Position, last: Row)
    requires last in universe && last.pos == next && (cursor.Some? ==> Below(next, cursor.value))
    ensures |Remaining(universe, Some(next))| < |Remaining(universe, cursor)|
  {
    BelowTotal(next, next);
    forall r | r in Remaining(universe, Some(next)) ensures r in Remaining(universe, cursor) {
      if cursor.Some? { BelowTransitive(r.pos, next, cursor.value); }
    }
    assert last in Remaining(universe, cursor) && last !in Remaining(universe, Some(next));
    SubsetCardinality(Remaining(universe, Some(next)), Remaining(universe, cursor) - {last});
  }

  /** A cursor text the walk has used before. */
  predicate Passed(text: string, at: Option<Position>, other: string -> Option<Time>) {
    var p := CursorOf(text, other);
    p.Some? && at.Some? && (p == at || Below(at.value, p.value))
  }

  /** exportScheduleManifest's loop, each request meeting its own state of the table. Over any finite set of
      rows that ever exist it ends, no cursor is refused, its repeated-cursor check never fires, and a row that
      stays is returned exactly once. */
  method ExportWalk(tables: Tables, f: Filter, limit: int, other: string -> Option<Time>, ghost universe: set<Row>)
    returns (items: seq<Row>, pages: nat, repeated: bool, ok: bool)
    requires forall i :: Keyed(tables(i)) && tables(i) <= universe
    requires Written(universe)
    ensures ok && !repeated
    ensures WalkDone(tables, f, pages, items)
  {
    hide Keyed, Below, WalkOk, WalkDone, IsPage, Remaining, DecodeCursor, EncodeCursor, Representable;
    items, pages, repeated, ok := [], 0, false, true;
    var cursor := "";
    var seen: set<string> := {};
    WalkStarts(tables, f);
    while true
      invariant cursor != "" ==> CursorOf(cursor, other).Some?
      invariant WalkOk(tables, f, pages, items, CursorOf(cursor, other))
      invariant forall s | s in seen :: Passed(s, CursorOf(cursor, other), other)
      invariant ok && !repeated
      decreases |Remaining(universe, CursorOf(cursor, other))|
    {
      ghost var at := CursorOf(cursor, other);
      var got, next;
      got, next, ok := ListRows(tables(pages), f, limit, cursor, other);
      ghost var to := CursorOf(next, other);
      WalkStep(tables, f, pages, items, at, got, to, Limit(limit));
      if to.Some? { PageEnd(got, to, tables(pages), f, at, Limit(limit), universe); }
      items := items + got;
      pages := pages + 1;
      if next == "" { return; }
      forall s | s in seen ensures s != next && Passed(s, to, other) {
        FurtherDown(to.value, at.value, CursorOf(s, other).value);
      }
      if next in seen {
        repeated := true;
        return;
      }
      cursor := next;
      seen := seen + {next};
    }
  }

  lemma FurtherDown(next: Position, cursor: Position, s: Position)
    requires Below(next, cursor) && (s == cursor || Below(cursor, s))
    ensures s != next && Below(next, s)
  {
    if s != cursor { BelowTransitive(next, cursor, s); }
    BelowTotal(next, s);
  }

  lemma PageEnd(got: seq<Row>, next: Option<Position>, t: set<Row>, f: Filter, cursor: Option<Position>, limit: nat,
                universe: set<Row>)
    requires next.Some? && IsPage(got, next, Eligible(t, f, cursor), limit) && t <= universe
    ensures |Remaining(universe, next)| < |Remaining(universe, cursor)|
  {
    var last := got[|got| - 1];
    assert last in Elements(got) && last in Eligible(t, f, cursor);
    RemainingShrinks(universe, cursor, next.value, last);
  }

  lemma WalkStarts(tables: Tables, f: Filter)
    ensures WalkOk(tables, f, 0, [], None)
  {
  }

  /** What a completed walk means for one position: a row that stayed for the whole walk
      appears at exactly one index. */
  lemma ReturnedExactlyOnce(tables: Tables, f: Filter, pages: nat, items: seq<Row>, p: Position) returns (k: nat)
    requires WalkDone(tables, f, pages, items) && Throughout(tables, f, pages, p)
    ensures k < |items| && items[k].pos == p
    ensures forall j | 0 <= j < |items| && items[j].pos == p :: j == k
  {
    assert Returned(items, p);
    var r :| r in items && r.pos == p;
    k :| 0 <= k < |items| && items[k] == r;
    BelowTotal(p, p);
  }

  /** On a table that does not change, the pages of any limit concatenate to its one sorted listing. */
  lemma PagesAreTheListing(tables: Tables, f: Filter, pages: nat, items: seq<Row>, listing: seq<Row>)
    requires WalkDone(tables, f, pages, items) && Still(tables, pages)
    requires SortedListing(listing, Eligible(tables(0), f, None))
    ensures items == listing
  {
    ListingUnique(items, listing, Eligible(tables(0), f, None));
  }
}
