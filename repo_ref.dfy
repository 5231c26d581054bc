/** The repository reference taken from the URL typed into the input:
    `repoUrl.match(/github.com\/(.*?\/.*?)$/)` and its group 1 (src/App.js, lines 158-160).

    The pattern has no flags, so `$` matches only at the end of the text, and `.`
    (unescaped, also between "github" and "com") matches any one UTF-16 code unit except a
    line terminator. A match starting at `i` therefore needs "github", one such character
    and "com/" at `i`, and after them a rest that holds a '/' and no line terminator; group
    1 is that whole rest (the lazy quantifiers cannot stop early because of the `$`). The
    search takes the leftmost starting position that matches.

    Texts here are sequences of Unicode characters. A character outside the Basic
    Multilingual Plane is two code units in JavaScript, so the single `.` between "github"
    and "com" cannot stand for it; in the rest, `.*?` takes both units, so there it
    matches like any other character. */
module RepoRef {
  import opened Wrappers

  /** The characters JavaScript's `.` does not match: LF, CR, U+2028 and U+2029. */
  predicate IsLineTerminator(ch: char) {
    ch == '\n' || ch == '\r' || ch == '\U{2028}' || ch == '\U{2029}'
  }

  /** The character is a single UTF-16 code unit. */
  predicate IsOneUnit(ch: char) {
    ch < '\U{10000}'
  }

  /** "github", one code unit that is not a line terminator, and "com/" start at `i`. */
  predicate HostAt(s: string, i: nat) {
    i + 11 <= |s| && s[i..i + 6] == "github" && IsOneUnit(s[i + 6]) && !IsLineTerminator(s[i + 6])
    && s[i + 7..i + 11] == "com/"
  }

  /** The whole pattern matches with its start at `i`. */
  predicate MatchesAt(s: string, i: nat) {
    HostAt(s, i) && '/' in s[i + 11..] && forall k :: i + 11 <= k < |s| ==> !IsLineTerminator(s[k])
  }

  /** The leftmost position at or after `i` where the pattern matches. */
  function FirstMatch(s: string, i: nat): (r: Option<nat>)
    decreases |s| - i
    ensures r.Some? ==> i <= r.value && MatchesAt(s, r.value)
    ensures r.Some? ==> forall k: nat :: i <= k < r.value ==> !MatchesAt(s, k)
    ensures r.None? ==> forall k: nat :: i <= k ==> !MatchesAt(s, k)
  {
    if |s| < i + 11 then None
    else if MatchesAt(s, i) then Some(i)
    else FirstMatch(s, i + 1)
  }

  /** Group 1 of the match, or None where `fetchIssues` reports "Invalid URL". */
  function ExtractRepo(s: string): (r: Option<string>)
    ensures r.Some? <==> exists i: nat :: MatchesAt(s, i)
    ensures r.Some? ==> '/' in r.value
    ensures r.Some? ==> |r.value| <= |s| && r.value == s[|s| - |r.value|..]
  {
    match FirstMatch(s, 0)
    case Some(i) => Some(s[i + 11..])
    case None => None
  }

  /** On one line of text only the first "github?com/" counts: the reference is the rest
      after it when that rest holds a '/', and there is none otherwise (a later
      "github?com/" would itself put a '/' in that rest). */
  lemma ExtractAtFirstHost(s: string, i: nat)
    requires HostAt(s, i)
    requires forall j: nat :: j < i ==> !HostAt(s, j)
    requires forall k :: 0 <= k < |s| ==> !IsLineTerminator(s[k])
    ensures ExtractRepo(s) == if '/' in s[i + 11..] then Some(s[i + 11..]) else None
  {
    if '/' in s[i + 11..] {
      assert MatchesAt(s, i);
      var v := FirstMatch(s, 0).value;
      assert v == i;
    }
  }

  /** A text without "github?com/" is an invalid URL. */
  lemma ExtractNoHost(s: string)
    requires forall j: nat :: !HostAt(s, j)
    ensures ExtractRepo(s) == None
  {
  }

  /** A URL of the usual form "https://github.com/<path>", on one line, gives `<path>` when
      the path holds a '/', and is invalid otherwise. */
  lemma ExtractGithubUrl(s: string, path: string)
    requires s == "https://github.com/" + path
    requires forall k :: 0 <= k < |path| ==> !IsLineTerminator(path[k])
    ensures ExtractRepo(s) == if '/' in path then Some(path) else None
  {
    var prefix := "https://github.com/";
    assert s[..19] == prefix && s[19..] == path;
    assert s[8..14] == prefix[8..14] == "github";
    assert s[15..19] == prefix[15..19] == "com/";
    forall j: nat | j < 8
      ensures !HostAt(s, j)
    {
      assert s[j] == prefix[j] != 'g';
      assert s[j..j + 6][0] == s[j];
    }
    forall k | 0 <= k < |s|
      ensures !IsLineTerminator(s[k])
    {
      if k < 19 {
        assert s[k] == prefix[k];
      } else {
        assert s[k] == path[k - 19];
      }
    }
    ExtractAtFirstHost(s, 8);
  }

  /** The reference typed in the component's test gives the path "test/repo". */
  lemma ExtractExample(s: string)
    requires s == "https://github.com/test/repo"
    ensures ExtractRepo(s) == Some("test/repo")
  {
    var path := "test/repo";
    assert s == "https://github.com/" + path;
    assert path[4] == '/';
    ExtractGithubUrl(s, path);
  }

  /** A character outside the Basic Multilingual Plane between "github" and "com" is no
      host: the text is an invalid URL. */
  lemma ExtractAstralSeparator(s: string)
    requires s == "github\U{1F600}com/a/b"
    ensures ExtractRepo(s) == None
  {
    forall j: nat
      ensures !HostAt(s, j)
    {
      if 0 < j && j + 11 <= |s| {
        assert s[j..j + 6][0] == s[j] != 'g';
      }
    }
    ExtractNoHost(s);
  }

  /** The text of the component's invalid-URL test has no match. */
  lemma ExtractInvalidExample(s: string)
    requires s == "invalid-url"
    ensures ExtractRepo(s) == None
  {
    assert s[0..6] == "invali";
  }
}
