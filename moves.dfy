/** Dropping a card on a column: `moveIssue` (src/App.js, lines 94-106). */
module Moves {
  import opened Seqs
  import opened Kanban

  /** `s.filter((i) => i.id !== id)` */
  function Without(s: seq<Issue>, id: int): (r: seq<Issue>)
    ensures |r| <= |s|
    ensures forall k :: 0 <= k < |r| ==> r[k].id != id
  {
    Filter(s, (x: Issue) => x.id != id)
  }

  /** Removing an identifier removes every entry that carries it and no other entry. */
  lemma {:induction false} WithoutCount(s: seq<Issue>, id: int, other: int)
    ensures CountId(Without(s, id), other) == if other == id then 0 else CountId(s, other)
  {
    if s != [] {
      WithoutCount(s[1..], id, other);
      CountIdAppend(if s[0].id != id then [s[0]] else [], Without(s[1..], id), other);
    }
  }

  /** An identifier that is absent leaves the column as it was. */
  lemma {:induction false} WithoutAbsent(s: seq<Issue>, id: int)
    requires CountId(s, id) == 0
    ensures Without(s, id) == s
  {
    if s != [] {
      WithoutAbsent(s[1..], id);
    }
  }

  lemma WithoutTwice(s: seq<Issue>, id: int, x: Issue)
    requires x.id == id
    ensures Without(Without(s, id) + [x], id) == Without(s, id)
  {
    FilterAppend(Without(s, id), [x], (y: Issue) => y.id != id);
    FilterIdempotent(s, (y: Issue) => y.id != id);
  }

  lemma WithoutIdempotent(s: seq<Issue>, id: int)
    ensures Without(Without(s, id), id) == Without(s, id)
  {
    FilterIdempotent(s, (y: Issue) => y.id != id);
  }

  /** The board after dropping `issue` on `dest`: every column loses the entries with the
      issue's identifier, and the destination column gets the issue at its end. */
  function Moved(b: Board, issue: Issue, dest: Column): (r: Board)
  {
    Board(Without(b.toDo, issue.id) + (if dest == ToDo then [issue] else []),
          Without(b.inProgress, issue.id) + (if dest == InProgress then [issue] else []),
          Without(b.done, issue.id) + (if dest == Done then [issue] else []))
  }

  /** Column `c` of the moved board, read through the key. */
  lemma MovedGet(b: Board, issue: Issue, dest: Column, c: Column)
    ensures Moved(b, issue, dest).Get(c) == Without(b.Get(c), issue.id) + (if c == dest then [issue] else [])
  {
  }

  /** The state updater passed to `setIssues`: copy the board object, replace each column
      (in key order) by its filtered copy, then push the issue onto the destination. The
      previous board is a value, so it is left as it was. */
  method UpdatedBoard(prev: Board, issue: Issue, newColumn: Column) returns (updated: Board)
    ensures updated == Moved(prev, issue, newColumn)
  {
    updated := prev;
    var k := 0;
    while k < |Columns|
      invariant 0 <= k <= |Columns|
      invariant forall j :: 0 <= j < k ==> updated.Get(Columns[j]) == Without(prev.Get(Columns[j]), issue.id)
      invariant forall j :: k <= j < |Columns| ==> updated.Get(Columns[j]) == prev.Get(Columns[j])
    {
      var col := Columns[k];
      updated := updated.Set(col, Without(updated.Get(col), issue.id));
      k := k + 1;
    }
    assert Columns[0] == ToDo && Columns[1] == InProgress && Columns[2] == Done;
    assert updated == Moved(prev, issue, newColumn).Set(newColumn, Without(prev.Get(newColumn), issue.id));
    updated := updated.Set(newColumn, updated.Get(newColumn) + [issue]);
  }

  /** The moved issue ends the destination column and is on the board exactly once,
      whatever column it was in before and even when it was on none. */
  lemma MovePlacement(b: Board, issue: Issue, dest: Column)
    ensures var r := Moved(b, issue, dest);
      |r.Get(dest)| > 0 && r.Get(dest)[|r.Get(dest)| - 1] == issue
    ensures BoardCount(Moved(b, issue, dest), issue.id) == 1
    ensures forall c :: c != dest ==> CountId(Moved(b, issue, dest).Get(c), issue.id) == 0
  {
    var r := Moved(b, issue, dest);
    forall c
      ensures CountId(r.Get(c), issue.id) == if c == dest then 1 else 0
    {
      WithoutCount(b.Get(c), issue.id, issue.id);
      CountIdAppend(Without(b.Get(c), issue.id), if c == dest then [issue] else [], issue.id);
    }
  }

  /** Column `c` of the moved board holds the other issues of column `c`, unchanged. */
  lemma MoveFrameColumn(b: Board, issue: Issue, dest: Column, c: Column)
    ensures Without(Moved(b, issue, dest).Get(c), issue.id) == Without(b.Get(c), issue.id)
  {
    MovedGet(b, issue, dest, c);
    if c == dest {
      WithoutTwice(b.Get(c), issue.id, issue);
      assert Moved(b, issue, dest).Get(c) == Without(b.Get(c), issue.id) + [issue];
    } else {
      WithoutIdempotent(b.Get(c), issue.id);
      assert Moved(b, issue, dest).Get(c) == Without(b.Get(c), issue.id);
    }
  }

  /** Column `c` of the moved board holds any other identifier as often as before. */
  lemma MoveCountColumn(b: Board, issue: Issue, dest: Column, c: Column, id: int)
    requires id != issue.id
    ensures CountId(Moved(b, issue, dest).Get(c), id) == CountId(b.Get(c), id)
  {
    MovedGet(b, issue, dest, c);
    WithoutCount(b.Get(c), issue.id, id);
    CountIdAppend(Without(b.Get(c), issue.id), if c == dest then [issue] else [], id);
  }

  /** Every other issue stays in its column, in its relative order, and as often as before. */
  lemma MoveFrame(b: Board, issue: Issue, dest: Column)
    ensures forall c :: Without(Moved(b, issue, dest).Get(c), issue.id) == Without(b.Get(c), issue.id)
    ensures forall id :: id != issue.id ==> BoardCount(Moved(b, issue, dest), id) == BoardCount(b, id)
  {
    forall c
      ensures Without(Moved(b, issue, dest).Get(c), issue.id) == Without(b.Get(c), issue.id)
    {
      MoveFrameColumn(b, issue, dest, c);
    }
    forall id | id != issue.id
      ensures BoardCount(Moved(b, issue, dest), id) == BoardCount(b, id)
    {
      MoveCountColumn(b, issue, dest, ToDo, id);
      MoveCountColumn(b, issue, dest, InProgress, id);
      MoveCountColumn(b, issue, dest, Done, id);
    }
  }

  /** Dropping the same issue on the same column twice in a row is dropping it once. */
  lemma MoveIdempotent(b: Board, issue: Issue, dest: Column)
    ensures Moved(Moved(b, issue, dest), issue, dest) == Moved(b, issue, dest)
  {
    var r := Moved(b, issue, dest);
    var r2 := Moved(r, issue, dest);
    forall c
      ensures r2.Get(c) == r.Get(c)
    {
      MovedGet(b, issue, dest, c);
      MovedGet(r, issue, dest, c);
      if c == dest {
        WithoutTwice(b.Get(c), issue.id, issue);
        assert r.Get(c) == Without(b.Get(c), issue.id) + [issue];
        assert r2.Get(c) == Without(r.Get(c), issue.id) + [issue];
      } else {
        WithoutIdempotent(b.Get(c), issue.id);
        assert r.Get(c) == Without(b.Get(c), issue.id);
        assert r2.Get(c) == Without(r.Get(c), issue.id);
      }
    }
    assert r2.Get(ToDo) == r.Get(ToDo) && r2.Get(InProgress) == r.Get(InProgress) && r2.Get(Done) == r.Get(Done);
  }

  /** A move keeps the board a partition: if every issue sat in one place before, every
      issue sits in one place after. */
  lemma MoveKeepsUnique(b: Board, issue: Issue, dest: Column)
    requires UniqueIds(b)
    ensures UniqueIds(Moved(b, issue, dest))
  {
    MovePlacement(b, issue, dest);
    MoveFrame(b, issue, dest);
    forall id ensures BoardCount(Moved(b, issue, dest), id) <= 1 {
      assert BoardCount(b, id) <= 1;
    }
  }

  /** Dropping an issue that is on no column is not a no-op: the push is unconditional, so
      it is appended to the destination and every column else is left as it was. */
  lemma MoveAbsent(b: Board, issue: Issue, dest: Column)
    requires BoardCount(b, issue.id) == 0
    ensures Moved(b, issue, dest) == b.Set(dest, b.Get(dest) + [issue])
  {
    WithoutAbsent(b.toDo, issue.id);
    WithoutAbsent(b.inProgress, issue.id);
    WithoutAbsent(b.done, issue.id);
  }
}
