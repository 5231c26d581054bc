/** The state of the `IssueBoard` component (src/App.js, lines 145-181) and the card
    selection of `IssueCard` (lines 43-44): the typed URL, the board, the repository
    data, the selected card and the snapshot kept under the storage key "issues". */
module App {
  import opened Wrappers
  import opened Kanban
  import opened Moves
  import opened RepoRef

  /** The owner object of the repository response. */
  datatype Owner = Owner(login: string, htmlUrl: string)

  /** The decoded response of `GET /repos/{repo}`, reduced to the fields the header reads;
      a field the response lacks is None. */
  datatype Repo = Repo(fullName: Option<string>, htmlUrl: Option<string>, owner: Option<Owner>)

  /** The decoded response of `GET /repos/{repo}/issues`: a list of issues, or any other
      JSON value (an error object, for instance), on which `filter` throws. */
  datatype IssuesPayload = IssueList(issues: seq<Issue>) | NotAList

  /** What awaiting both requests gives: a rejection (a transport failure, or a body that
      is not JSON), or both decoded bodies. HTTP status codes are not looked at. */
  datatype FetchOutcome = Rejected | Resolved(repo: Repo, payload: IssuesPayload)

  /** How `fetchIssues` ends: without a toast, or with one of its two error toasts. */
  datatype Notice = Loaded | InvalidUrl | LoadFailed {
    function Toast(): Option<string> {
      match this
      case Loaded => None
      case InvalidUrl => Some("Invalid URL")
      case LoadFailed => Some("Failed to load issues")
    }
  }

  /** The two URLs requested for the repository reference `repo`. */
  function Endpoints(repo: string): seq<string> {
    ["https://api.github.com/repos/" + repo,
     "https://api.github.com/repos/" + repo + "/issues?per_page=100"]
  }

  /** `selectedCard === issue.id`: the card carries `data-active`, so it is highlighted. */
  predicate IsActive(selected: Option<int>, card: Issue) {
    selected == Some(card.id)
  }

  /** Number of highlighted cards in one column. */
  function CountActive(s: seq<Issue>, selected: Option<int>): nat {
    if s == [] then 0 else (if IsActive(selected, s[0]) then 1 else 0) + CountActive(s[1..], selected)
  }

  /** Number of highlighted cards on the whole board. */
  function ActiveCards(b: Board, selected: Option<int>): nat {
    CountActive(b.toDo, selected) + CountActive(b.inProgress, selected) + CountActive(b.done, selected)
  }

  /** The highlighted cards of a column are the cards that carry the selected identifier;
      with nothing selected, none is. */
  lemma {:induction false} CountActiveIsCountId(s: seq<Issue>, selected: Option<int>)
    ensures CountActive(s, selected) == if selected.Some? then CountId(s, selected.value) else 0
  {
    if s != [] {
      CountActiveIsCountId(s[1..], selected);
    }
  }

  /** On a board where every issue sits in one place, at most one card is highlighted, and
      exactly one when the selected issue is on the board. */
  lemma AtMostOneActive(b: Board, selected: Option<int>)
    requires UniqueIds(b)
    ensures ActiveCards(b, selected) <= 1
    ensures selected.Some? ==> ActiveCards(b, selected) == BoardCount(b, selected.value)
  {
    CountActiveIsCountId(b.toDo, selected);
    CountActiveIsCountId(b.inProgress, selected);
    CountActiveIsCountId(b.done, selected);
    if selected.Some? {
      assert BoardCount(b, selected.value) <= 1;
    }
  }

  class IssueBoard {
    var repoUrl: string
    var board: Board
    var repoData: Option<Repo>
    var selected: Option<int>
    /** The value stored under "issues"; None while nothing is stored. */
    var saved: Option<Board>

    /** What a reload would show: the stored snapshot, or the empty board. */
    function Persisted(): Board
      reads this
    {
      if saved.Some? then saved.value else Empty
    }

    /** The board on screen is the one a reload would show. */
    ghost predicate Synced()
      reads this
    {
      board == Persisted()
    }

    /** First render: the initial state of the four `useState` hooks, beside whatever the
        storage holds from an earlier session. */
    constructor (stored: Option<Board>)
      ensures repoUrl == "" && board == Empty && repoData == None && selected == None
      ensures saved == stored
    {
      repoUrl := "";
      board := Empty;
      repoData := None;
      selected := None;
      saved := stored;
    }

    /** The mount effect: a stored snapshot replaces the initial board. */
    method Load()
      modifies this
      ensures board == if old(saved).Some? then old(saved).value else old(board)
      ensures saved == old(saved) && repoUrl == old(repoUrl)
      ensures repoData == old(repoData) && selected == old(selected)
      ensures old(board) == Empty ==> Synced()
    {
      if saved.Some? {
        board := saved.value;
      }
    }

    /** Typing in the URL input. */
    method SetRepoUrl(url: string)
      modifies this
      ensures repoUrl == url
      ensures board == old(board) && saved == old(saved)
      ensures repoData == old(repoData) && selected == old(selected)
    {
      repoUrl := url;
    }

    /** Clicking a card: it becomes the selected one, whatever was selected before (a second
        click on the same card keeps it selected). */
    method SelectCard(id: int)
      modifies this
      ensures selected == Some(id)
      ensures repoUrl == old(repoUrl) && board == old(board) && saved == old(saved)
      ensures repoData == old(repoData)
    {
      selected := Some(id);
    }

    /** Dropping `issue` on the column `newColumn`: the board becomes the moved board and is
        written to storage. */
    method MoveIssue(issue: Issue, newColumn: Column)
      modifies this
      ensures board == Moved(old(board), issue, newColumn)
      ensures saved == Some(board) && Synced()
      ensures repoUrl == old(repoUrl) && repoData == old(repoData) && selected == old(selected)
    {
      var updated := UpdatedBoard(board, issue, newColumn);
      saved := Some(updated);
      board := updated;
    }

    /** "Load issues": extract the repository reference from the typed URL; without one,
        report "Invalid URL" and request nothing. Otherwise request the repository and its
        issues; `outcome` is what the two requests give. A rejection changes nothing. Both
        bodies decoded: the repository data is replaced first, and then an issue list is
        classified into the new board, which is stored; any other issue body makes the
        classification throw, leaving board and storage as they were. */
    method FetchIssues(outcome: FetchOutcome) returns (notice: Notice, requests: seq<string>)
      modifies this
      ensures repoUrl == old(repoUrl) && selected == old(selected)
      ensures ExtractRepo(repoUrl).None? ==>
        notice == InvalidUrl && requests == [] &&
        board == old(board) && saved == old(saved) && repoData == old(repoData)
      ensures ExtractRepo(repoUrl).Some? ==> requests == Endpoints(ExtractRepo(repoUrl).value)
      ensures ExtractRepo(repoUrl).Some? && outcome.Rejected? ==>
        notice == LoadFailed && board == old(board) && saved == old(saved) && repoData == old(repoData)
      ensures ExtractRepo(repoUrl).Some? && outcome.Resolved? && outcome.payload.NotAList? ==>
        notice == LoadFailed && repoData == Some(outcome.repo) &&
        board == old(board) && saved == old(saved)
      ensures ExtractRepo(repoUrl).Some? && outcome.Resolved? && outcome.payload.IssueList? ==>
        notice == Loaded && repoData == Some(outcome.repo) &&
        board == Classify(outcome.payload.issues) && saved == Some(board)
      ensures old(Synced()) ==> Synced()
    {
      var found := ExtractRepo(repoUrl);
      if found.None? {
        return InvalidUrl, [];
      }
      requests := Endpoints(found.value);
      match outcome
      case Rejected =>
        notice := LoadFailed;
      case Resolved(repo, payload) =>
        repoData := Some(repo);
        match payload
        case NotAList =>
          notice := LoadFailed;
        case IssueList(issues) =>
          var newIssues := Classify(issues);
          board := newIssues;
          saved := Some(newIssues);
          notice := Loaded;
    }
  }

  /** Reopening the page after any sequence of the operations above shows the same board:
      the stored snapshot is read back by the mount effect. */
  method Reopen(current: IssueBoard) returns (reopened: IssueBoard)
    requires current.Synced()
    ensures fresh(reopened)
    ensures reopened.board == current.board
  {
    reopened := new IssueBoard(current.saved);
    reopened.Load();
  }

  /** The component's test with an invalid URL: "Invalid URL", nothing requested. */
  method ScenarioInvalidUrl() {
    var app := new IssueBoard(None);
    app.Load();
    app.SetRepoUrl("invalid-url");
    ExtractInvalidExample(app.repoUrl);
    var notice, requests := app.FetchIssues(Rejected);
    assert notice.Toast() == Some("Invalid URL") && requests == [] && app.board == Empty;
  }

  /** The component's test with three fetched issues: two requests, one issue per column. */
  method ScenarioFetchThree() {
    var app := new IssueBoard(None);
    app.Load();
    var i1 := Issue(1, "Issue 1", "open", false, 1, Some("user1"), "2025-01-01T00:00:00Z");
    var i2 := Issue(2, "Issue 2", "open", true, 2, Some("user2"), "2025-01-02T00:00:00Z");
    var i3 := Issue(3, "Issue 3", "closed", false, 3, Some("user3"), "2025-01-03T00:00:00Z");
    var repo := Repo(Some("test/repo"), Some("https://github.com/test/repo"),
                     Some(Owner("testOwner", "https://github.com/testOwner")));
    app.SetRepoUrl("https://github.com/test/repo");
    ExtractExample(app.repoUrl);
    var notice, requests := app.FetchIssues(Resolved(repo, IssueList([i1, i2, i3])));
    ClassifyExample(i1, i2, i3);
    assert |requests| == 2 && notice == Loaded;
    assert app.board == Board([i1], [i2], [i3]) && app.saved == Some(app.board);
    assert app.repoData.value.fullName == Some("test/repo");
  }

  /** The component's selection test: after a click, the clicked card is the only one
      highlighted, and a second click keeps it so. */
  method ScenarioSelect() {
    var i1 := Issue(1, "Issue 1", "open", false, 1, Some("user1"), "2025-01-01T00:00:00Z");
    var app := new IssueBoard(Some(Board([i1], [], [])));
    app.Load();
    app.SelectCard(1);
    assert IsActive(app.selected, i1);
    assert CountActive([i1], app.selected) == 1;
    assert ActiveCards(app.board, app.selected) == 1;
    app.SelectCard(1);
    assert IsActive(app.selected, i1);
  }

  /** A stored board is shown on reopening; dragging the open unassigned issue onto Done
      twice moves it once, and the stored board follows. */
  method ScenarioMove() {
    var i1 := Issue(1, "Issue 1", "open", false, 1, Some("user1"), "2025-01-01T00:00:00Z");
    var i3 := Issue(3, "Issue 3", "closed", false, 3, Some("user3"), "2025-01-03T00:00:00Z");
    var app := new IssueBoard(Some(Board([i1], [], [i3])));
    app.Load();
    app.MoveIssue(i1, Done);
    assert app.board == Board([], [], [i3, i1]);
    app.MoveIssue(i1, Done);
    assert app.board == Board([], [], [i3, i1]) && app.saved == Some(app.board);
  }
}
