/** The board's data and the classifier that `fetchIssues` runs on a freshly fetched
    issue list (src/App.js, lines 171-175). */
module Kanban {
  import opened Wrappers
  import opened Seqs

  /** One element of the GitHub issues payload, reduced to the fields the board reads. */
  datatype Issue = Issue(
    id: int,
    title: string,
    state: string,          // "open" or "closed" from GitHub; kept as the raw string
    hasAssignee: bool,      // the `assignee` field holds an object (it is not null)
    comments: nat,
    author: Option<string>, // `user?.login`
    createdAt: string)

  /** The three keys of the board object. */
  datatype Column = ToDo | InProgress | Done

  /** The keys in the order `Object.keys` lists them: the order of the initial literal. */
  const Columns: seq<Column> := [ToDo, InProgress, Done]

  /** The board object `{ ToDo: [...], InProgress: [...], Done: [...] }`. Every board the
      component builds (the initial literal, a spread copy, the classifier's literal) has
      exactly these three keys, so it is a record with one field per key. */
  datatype Board = Board(toDo: seq<Issue>, inProgress: seq<Issue>, done: seq<Issue>) {
    /** `board[c]` */
    function Get(c: Column): seq<Issue> {
      match c
      case ToDo => toDo
      case InProgress => inProgress
      case Done => done
    }

    /** `board[c] = s` */
    function Set(c: Column, s: seq<Issue>): (r: Board)
      ensures r.Get(c) == s
      ensures forall k :: k != c ==> r.Get(k) == Get(k)
    {
      match c
      case ToDo => this.(toDo := s)
      case InProgress => this.(inProgress := s)
      case Done => this.(done := s)
    }
  }

  /** The initial state `{ ToDo: [], InProgress: [], Done: [] }`. */
  const Empty: Board := Board([], [], [])

  // The three filter tests of the classifier.
  predicate IsToDo(i: Issue) { !i.hasAssignee && i.state == "open" }
  predicate IsInProgress(i: Issue) { i.hasAssignee && i.state == "open" }
  predicate IsDone(i: Issue) { i.state == "closed" }

  /** The board built from a fetched issue list: one filter of the whole list per column. */
  function Classify(issues: seq<Issue>): (b: Board)
    ensures forall c :: |b.Get(c)| <= |issues|
  {
    Board(Filter(issues, IsToDo), Filter(issues, IsInProgress), Filter(issues, IsDone))
  }

  /** The classification rule as a decision tree: the open/closed state is decided first,
      and only an open issue looks at its assignee. None: the issue goes nowhere. */
  function Placement(i: Issue): Option<Column> {
    if i.state == "closed" then Some(Done)
    else if i.state == "open" then Some(if i.hasAssignee then InProgress else ToDo)
    else None
  }

  /** The issue has one of the two states the classifier recognises. */
  predicate Tracked(i: Issue) {
    i.state == "open" || i.state == "closed"
  }

  /** Each column holds every issue whose placement is that column, as often as the
      list holds it, and nothing else. */
  lemma ClassifyByPlacement(issues: seq<Issue>, c: Column, x: Issue)
    ensures multiset(Classify(issues).Get(c))[x] == if Placement(x) == Some(c) then multiset(issues)[x] else 0
    ensures x in Classify(issues).Get(c) <==> x in issues && Placement(x) == Some(c)
  {
    match c
    case ToDo => FilterMultiplicity(issues, IsToDo, x);
    case InProgress => FilterMultiplicity(issues, IsInProgress, x);
    case Done => FilterMultiplicity(issues, IsDone, x);
  }

  /** A closed issue lands in Done even when it has an assignee; open issues are split
      by their assignee. */
  lemma ClassifyPrecedence(issues: seq<Issue>, x: Issue)
    requires x in issues
    ensures x.state == "closed" ==>
      x in Classify(issues).Get(Done) && x !in Classify(issues).Get(InProgress) && x !in Classify(issues).Get(ToDo)
    ensures x.state == "open" && !x.hasAssignee ==>
      x in Classify(issues).Get(ToDo) && x !in Classify(issues).Get(InProgress) && x !in Classify(issues).Get(Done)
    ensures x.state == "open" && x.hasAssignee ==>
      x in Classify(issues).Get(InProgress) && x !in Classify(issues).Get(ToDo) && x !in Classify(issues).Get(Done)
  {
    ClassifyByPlacement(issues, ToDo, x);
    ClassifyByPlacement(issues, InProgress, x);
    ClassifyByPlacement(issues, Done, x);
  }

  /** The three columns together hold exactly the open and closed issues of the list:
      none is lost, none is duplicated. */
  lemma ClassifyPartition(issues: seq<Issue>)
    ensures var b := Classify(issues);
      multiset(b.Get(ToDo)) + multiset(b.Get(InProgress)) + multiset(b.Get(Done)) == multiset(Filter(issues, Tracked))
    ensures var b := Classify(issues);
      |b.Get(ToDo)| + |b.Get(InProgress)| + |b.Get(Done)| == |Filter(issues, Tracked)|
  {
    var b := Classify(issues);
    var union := multiset(b.Get(ToDo)) + multiset(b.Get(InProgress)) + multiset(b.Get(Done));
    forall x
      ensures union[x] == multiset(Filter(issues, Tracked))[x]
    {
      ClassifyByPlacement(issues, ToDo, x);
      ClassifyByPlacement(issues, InProgress, x);
      ClassifyByPlacement(issues, Done, x);
      FilterMultiplicity(issues, Tracked, x);
    }
    assert union == multiset(Filter(issues, Tracked));
    assert |union| == |b.Get(ToDo)| + |b.Get(InProgress)| + |b.Get(Done)|;
  }

  /** When every issue is open or closed, the column lengths add up to the list's length
      and the columns together are a rearrangement of the list. */
  lemma ClassifyComplete(issues: seq<Issue>)
    requires forall k :: 0 <= k < |issues| ==> Tracked(issues[k])
    ensures var b := Classify(issues);
      multiset(b.Get(ToDo)) + multiset(b.Get(InProgress)) + multiset(b.Get(Done)) == multiset(issues)
    ensures var b := Classify(issues);
      |b.Get(ToDo)| + |b.Get(InProgress)| + |b.Get(Done)| == |issues|
  {
    ClassifyPartition(issues);
    FilterAllPass(issues, Tracked);
  }

  /** Each column lists its issues in the order the fetched list had them. */
  lemma ClassifyKeepsOrder(issues: seq<Issue>, c: Column)
    ensures IsSubsequence(Classify(issues).Get(c), issues)
  {
    match c
    case ToDo => FilterIsSubsequence(issues, IsToDo);
    case InProgress => FilterIsSubsequence(issues, IsInProgress);
    case Done => FilterIsSubsequence(issues, IsDone);
  }

  /** One unassigned open issue, one assigned open issue and one closed issue give one
      card per column. */
  lemma ClassifyExample(a: Issue, b: Issue, c: Issue)
    requires IsToDo(a) && IsInProgress(b) && IsDone(c)
    ensures Classify([a, b, c]) == Board([a], [b], [c])
  {
    assert [a, b, c][1..] == [b, c];
    assert [b, c][1..] == [c];
    assert Filter([c], IsToDo) == [] && Filter([c], IsInProgress) == [] && Filter([c], IsDone) == [c];
    assert Filter([b, c], IsToDo) == [] && Filter([b, c], IsInProgress) == [b] && Filter([b, c], IsDone) == [c];
    assert Filter([a, b, c], IsToDo) == [a];
    assert Filter([a, b, c], IsInProgress) == [b];
    assert Filter([a, b, c], IsDone) == [c];
  }

  /** Number of entries of `s` that carry the identifier `id`. */
  function CountId(s: seq<Issue>, id: int): nat {
    if s == [] then 0 else (if s[0].id == id then 1 else 0) + CountId(s[1..], id)
  }

  lemma {:induction false} CountIdAppend(s: seq<Issue>, t: seq<Issue>, id: int)
    ensures CountId(s + t, id) == CountId(s, id) + CountId(t, id)
  {
    if s == [] {
      assert s + t == t;
    } else {
      assert (s + t)[1..] == s[1..] + t;
      CountIdAppend(s[1..], t, id);
    }
  }

  /** Number of cards with identifier `id` on the whole board. */
  function BoardCount(b: Board, id: int): nat
  {
    CountId(b.Get(ToDo), id) + CountId(b.Get(InProgress), id) + CountId(b.Get(Done), id)
  }

  /** Every issue on the board sits in exactly one place. */
  ghost predicate UniqueIds(b: Board)
  {
    forall id :: BoardCount(b, id) <= 1
  }

  /** The classifier never puts an identifier on the board more often than the list has it. */
  lemma {:induction false} ClassifyCountId(issues: seq<Issue>, id: int)
    ensures BoardCount(Classify(issues), id) <= CountId(issues, id)
  {
    if issues != [] {
      ClassifyCountId(issues[1..], id);
      var b, b' := Classify(issues), Classify(issues[1..]);
      var x := issues[0];
      CountIdAppend(if IsToDo(x) then [x] else [], b'.Get(ToDo), id);
      CountIdAppend(if IsInProgress(x) then [x] else [], b'.Get(InProgress), id);
      CountIdAppend(if IsDone(x) then [x] else [], b'.Get(Done), id);
    }
  }

  /** A list without repeated identifiers gives a board on which every issue sits in
      exactly one place. */
  lemma ClassifyUnique(issues: seq<Issue>)
    requires forall id :: CountId(issues, id) <= 1
    ensures UniqueIds(Classify(issues))
  {
    forall id ensures BoardCount(Classify(issues), id) <= 1 {
      ClassifyCountId(issues, id);
    }
  }
}
