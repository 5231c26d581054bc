# IssueBoard, modelled in Dafny

This project models the core of `IssueBoard`, a single-page kanban board for the issues of a
GitHub repository (`src/App.js`). The user types a repository URL and presses "Load issues".
The component takes an `owner/name` reference out of the URL with a regular expression and
requests the repository and its first 100 issues. It then classifies the issues into three
columns, To Do, In Progress and Done, and keeps that board in browser storage under the key
"issues". Cards are dragged between columns, and a clicked card is highlighted. Each card
shows its column's label.

The model is split into these modules:

- `Seqs` (`seqs.dfy`) holds `Array.prototype.filter` as a function, with its laws:
  - multiplicity;
  - order;
  - concatenation;
  - idempotence.
- `Kanban` (`kanban.dfy`) holds:
  - the issue and the board, with the board as a record with one field per column key;
  - the classifier of `fetchIssues`;
  - its decision-tree reading (`Placement`) and the lemmas that connect the two.
- `Moves` (`moves.dfy`) holds `moveIssue`:
  - the state updater is a method with a loop over the three column keys;
  - it is proved equal to the function `Moved`;
  - lemmas give placement, frame, idempotence and preservation of "every issue in exactly one place".
- `RepoRef` (`repo_ref.dfy`) holds the URL match `/github.com\/(.*?\/.*?)$/` with its JavaScript semantics:
  - the leftmost match;
  - an unescaped `.`;
  - `.` matches one UTF-16 code unit, and never a line terminator;
  - `$` anchors at the end of the text.
- `Labels` (`labels.dfy`) holds the card's column label `columnKey.replace(/([A-Z])/g, " $1").trim()`.
- `App` (`issue_board.dfy`) holds the component state as the class `IssueBoard`:
  - fields: the typed URL, the board, the repository data, the selected card and the stored snapshot;
  - methods for the mount effect, typing, clicking, dropping and loading;
  - the highlight count of `data-active`;
  - client methods that replay the component's tests.

The network, storage and time are not executed. Instead:

- What the two requests produce is a parameter of `FetchIssues` (`FetchOutcome`), and the method returns the URLs it requests.
- The storage is the field `saved`, read by the constructor and `Load` and written by `MoveIssue` and `FetchIssues`.

Some behaviours of the code that a reader might not expect:

- **Moving an issue that is on no column is not a no-op.** The removal finds nothing, and the push is unconditional, so the issue is appended to the destination column (`Moves.MoveAbsent`).
- **Moving an issue to the same column twice is the same as moving it once.** The first move sends the issue to the tail of the destination, even when it was already in that column. A second identical move then changes nothing (`Moves.MoveIdempotent`).
- **Clicking a card does not toggle its highlight.** `setSelectedCard(issue.id)` always selects it, and a second click keeps it selected (`App.IssueBoard.SelectCard`). At most one card is highlighted while identifiers are unique (`App.AtMostOneActive`).
- **A failed load can still change the repository data.** When the issue body is not a list (a GitHub error object, for instance), the repository data has already been replaced when the classification throws. Only the board and storage stay as they were (`App.IssueBoard.FetchIssues`).
- **The URL check is looser than "contains owner/name".** The `.` between "github" and "com" matches any single code unit except a line terminator, and the reference is the whole rest of the text after "com/" once it holds a '/'. That rest may have more than two segments, or a query string.

## Model

| member | source | states |
|---|---|---|
| Kanban.Classify | src/App.js:171-175 | the board built from a fetched list: each column is the list filtered by its test (no assignee and open; assignee and open; closed), so no column is longer than the list |
| Kanban.Placement | src/App.js:172-174 | the column the three tests send an issue to, as a decision tree: closed → Done, open → InProgress with an assignee and ToDo without, any other state → none |
| Kanban.ClassifyByPlacement | src/App.js:171-175 | column c of the classified board holds each issue exactly as often as the fetched list does when its placement (closed → Done; open → InProgress with an assignee, ToDo without) is c, and never otherwise; membership both ways |
| Kanban.ClassifyPrecedence | src/App.js:172-174 | a closed issue is in Done and in no other column even with an assignee; an open unassigned issue is only in ToDo; an open assigned issue is only in InProgress |
| Kanban.ClassifyPartition | src/App.js:171-175 | the three columns together are, as a multiset, exactly the list's issues whose state is "open" or "closed", and their lengths add up to that count; issues with another state go nowhere |
| Kanban.ClassifyComplete | src/App.js:171-175 | when every issue is open or closed, the columns are a rearrangement of the list and their lengths sum to its length |
| Kanban.ClassifyKeepsOrder | src/App.js:172-174 | each column is a subsequence of the fetched list (relative order kept) |
| Kanban.ClassifyCountId | src/App.js:171-175 | no identifier is on the classified board more often than in the list |
| Kanban.ClassifyUnique | src/App.js:171-175 | a list without repeated identifiers gives a board where every issue sits in exactly one place |
| Kanban.ClassifyExample | src/App.test.js:56-84 | the test's open/unassigned, open/assigned and closed issues give one card per column |
| Moves.Without | src/App.js:98-100 | a column filtered by identifier: no longer than the column, and no entry carries the identifier |
| Moves.Moved | src/App.js:96-102 | the board after a drop: every column without the issue's identifier, the destination column with the issue appended |
| Moves.WithoutCount | src/App.js:98-100 | filtering a column by identifier removes every entry with that identifier and keeps every other entry as often as before |
| Moves.UpdatedBoard | src/App.js:95-102 | the loop over the keys followed by the push yields `Moved(prev, issue, newColumn)`: every column without the issue's identifier, the destination with the issue appended |
| Moves.MovePlacement | src/App.js:97-102 | after a move the issue is the last card of the destination, on the board exactly once, and in no other column |
| Moves.MoveFrame | src/App.js:97-101 | a move leaves every other issue in its column, in its order and with its count |
| Moves.MoveIdempotent | src/App.js:94-106 | repeating the same drop changes nothing |
| Moves.MoveKeepsUnique | src/App.js:94-106 | a move keeps "every issue in exactly one place" |
| Moves.MoveAbsent | src/App.js:102 | dropping an issue that is on no column appends it to the destination and changes nothing else |
| RepoRef.HostAt | src/App.js:158 | "github", one UTF-16 code unit that is not a line terminator, and "com/" start at the position |
| RepoRef.MatchesAt | src/App.js:158 | the whole pattern matches from the position: a host, then a rest up to the end of the text that holds a '/' and no line terminator |
| RepoRef.FirstMatch | src/App.js:158 | the result is the leftmost position where the pattern matches, or none when no position matches |
| RepoRef.ExtractRepo | src/App.js:158-160 | a reference exists exactly when the pattern matches somewhere; it contains a '/' and is a suffix of the URL |
| RepoRef.ExtractAtFirstHost | src/App.js:158-160 | on a one-line text, the first "github?com/" decides: the reference is everything after it if that holds a '/', else the URL is invalid |
| RepoRef.ExtractNoHost | src/App.js:158-159 | a text without "github?com/" is an invalid URL |
| RepoRef.ExtractGithubUrl | src/App.js:158-160 | "https://github.com/<path>" on one line gives `<path>` when it holds a '/', and is invalid otherwise |
| RepoRef.ExtractExample | src/App.test.js:92 | "https://github.com/test/repo" gives "test/repo" |
| RepoRef.ExtractAstralSeparator | src/App.js:158-159 | "github\U{1F600}com/a/b" is an invalid URL: the single `.` cannot take a character that is two code units |
| RepoRef.ExtractInvalidExample | src/App.test.js:33-37 | "invalid-url" is an invalid URL |
| Labels.SpaceBeforeCapitals | src/App.js:65 | `replace(/([A-Z])/g, " $1")`: each character copied in order, with a space in front of every capital |
| Labels.TrimStart | src/App.js:65 | the front part of `trim()`: leading JavaScript white space and line terminators removed |
| Labels.TrimEnd | src/App.js:65 | the back part of `trim()`: trailing JavaScript white space and line terminators removed |
| Labels.Trim | src/App.js:65 | `trim()`: both ends trimmed |
| Labels.Label | src/App.js:65 | the label of a card: the key with spaces before capitals, then trimmed |
| Labels.SpaceBeforeCapitalsKeepsText | src/App.js:65 | with spaces removed, the replacement's output and its input agree |
| Labels.SpaceBeforeCapitalsLength | src/App.js:65 | the output is longer than the input by exactly the number of capitals |
| Labels.SpaceBeforeCapitalsMarksCapitals | src/App.js:65 | every capital in the output comes right after a space |
| Labels.SpaceBeforeCapitalsOnlySpaces | src/App.js:65 | on a key without white space, the only white space in the output is plain spaces |
| Labels.TrimStartSpec | src/App.js:65 | trimming the front leaves a suffix that starts with a non-white-space character (or is empty) and drops only white space |
| Labels.TrimEndSpec | src/App.js:65 | trimming the end leaves a prefix that ends with a non-white-space character (or is empty) and drops only white space |
| Labels.LabelOfCapitalised | src/App.js:65 | for a key starting with a capital and not ending in white space, the label is the replacement without its leading space |
| Labels.LabelTwoWords | src/App.js:65 | a key made of two capitalised words is labelled with the two words separated by one space |
| Labels.LabelIsTitle | src/App.js:237-259 | the label of each column key ("ToDo", "InProgress", "Done") equals the column's title ("To Do", "In Progress", "Done") |
| Labels.LabelRoundTrip | src/App.js:65 | for a key without white space, removing the spaces from the label gives the key back |
| App.Endpoints | src/App.js:163-164 | the two URLs requested for a reference: the repository and its first 100 issues |
| App.IsActive | src/App.js:44 | a card carries `data-active` exactly when its identifier is the selected one |
| App.CountActive | src/App.js:44 | the number of highlighted cards in a column |
| App.ActiveCards | src/App.js:44 | the number of highlighted cards on the board |
| App.CountActiveIsCountId | src/App.js:44 | the highlighted cards of a column are exactly those whose identifier is the selected one; none while nothing is selected |
| App.AtMostOneActive | src/App.js:43-44 | on a board where every issue sits in one place, at most one card is highlighted, and the selected issue's card is when it is on the board |
| App.IssueBoard.constructor | src/App.js:146-149 | initial state: empty URL, empty board, no repository data, no selection, storage as left by an earlier session |
| App.IssueBoard.Load | src/App.js:151-154 | a stored snapshot replaces the board, nothing else changes; from the initial board this makes the board the one a reload shows |
| App.IssueBoard.SetRepoUrl | src/App.js:189 | typing replaces the URL and nothing else |
| App.IssueBoard.SelectCard | src/App.js:43 | a click selects the card whatever was selected before, and changes nothing else |
| App.IssueBoard.MoveIssue | src/App.js:94-106 | the board becomes `Moved(old board, issue, newColumn)` and the same board is stored; nothing else changes |
| App.IssueBoard.FetchIssues | src/App.js:156-181 | invalid URL: "Invalid URL", no request, no change; otherwise the two endpoint URLs are requested; rejection: "Failed to load issues", no change; a body that is not a list: repository data replaced, board and storage kept, "Failed to load issues"; an issue list: repository data replaced, board = classified list, stored; the screen keeps matching storage |
| App.Reopen | src/App.js:151-154 | reopening the page after any sequence of operations shows the same board |

## Left out

- Rendering is not modelled. That covers the MUI layout, the days-ago text (it reads the clock), the header's display condition (`repoData && repoData.html_url && repoData.owner`), colours and the drag opacity.
- The drag-and-drop mechanics of react-dnd are not modelled. A drop is modelled as its effect, the call of `moveIssue` with the dragged issue and the column key.
- `fetch`, `Promise.all` and `res.json()` are not modelled. Their result is the `FetchOutcome` parameter. HTTP status codes are ignored by the source as well.
- Overlapping loads and React's batching or ordering of state updates are not modelled. Each method runs to completion.
- JSON encoding and decoding of the stored snapshot are not modelled. The snapshot is kept as a board value. These cases are not captured:
  - a corrupted stored text, which makes `JSON.parse` throw in the mount effect;
  - a stored object that lacks a column key;
  - a storage quota failure on write.
- `App.IssueBoard.FetchIssues`: issue elements are decoded into `Issue` values, so a `null` element, on which `filter` throws at `i.assignee`, is not captured. An element whose `state` is not a string is the same as any state other than "open" or "closed": it goes to no column. A repository body that is `null` is treated like any other repository object.
- `Kanban.Issue`: `assignee` is reduced to whether it is truthy (`hasAssignee`), and `user?.login` to an optional author. Issue identifiers are unbounded integers.
- The toast library is not modelled. Its two messages are the `Notice` value that `FetchIssues` returns.
- `IssueBoard`'s `Column` component is only modelled through its `moveIssue`. Its `title` prop is the `Title` function.
