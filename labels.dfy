/** The column name printed on each card:
    `columnKey.replace(/([A-Z])/g, " $1").trim()` (src/App.js, line 65). */
module Labels {
  import opened Seqs
  import opened Kanban

  /** The `columnKey` prop each column passes to its cards. */
  function Key(c: Column): string {
    match c
    case ToDo => "ToDo"
    case InProgress => "InProgress"
    case Done => "Done"
  }

  /** The heading each column shows. */
  function Title(c: Column): string {
    match c
    case ToDo => "To Do"
    case InProgress => "In Progress"
    case Done => "Done"
  }

  /** The character class `[A-Z]`. */
  predicate IsUpper(ch: char) {
    'A' <= ch <= 'Z'
  }

  /** The characters `String.prototype.trim` removes: white space and line terminators. */
  predicate IsWhitespace(ch: char) {
    ch == '\t' || ch == '\n' || ch == '\U{000B}' || ch == '\U{000C}' || ch == '\r' || ch == ' '
    || ch == '\U{00A0}' || ch == '\U{1680}' || ('\U{2000}' <= ch <= '\U{200A}')
    || ch == '\U{2028}' || ch == '\U{2029}' || ch == '\U{202F}' || ch == '\U{205F}'
    || ch == '\U{3000}' || ch == '\U{FEFF}'
  }

  predicate NotSpace(ch: char) {
    ch != ' '
  }

  /** `s.replace(/([A-Z])/g, " $1")`: a space goes in front of every capital letter. */
  function SpaceBeforeCapitals(s: string): string {
    if s == [] then []
    else if IsUpper(s[0]) then [' ', s[0]] + SpaceBeforeCapitals(s[1..])
    else [s[0]] + SpaceBeforeCapitals(s[1..])
  }

  /** Every capital letter in `r` comes right after a space. */
  predicate CapitalsAfterSpace(r: string) {
    forall k :: 0 <= k < |r| && IsUpper(r[k]) ==> 0 < k && r[k - 1] == ' '
  }

  /** The only white space in `r` is plain spaces. */
  predicate OnlySpaces(r: string) {
    forall k :: 0 <= k < |r| && IsWhitespace(r[k]) ==> r[k] == ' '
  }

  /** On one character, the replacement adds at most a space. */
  lemma SpaceBeforeCapitalsKeepsChar(c: char)
    ensures Filter(SpaceBeforeCapitals([c]), NotSpace) == Filter([c], NotSpace)
  {
    assert [c][1..] == [];
    if IsUpper(c) {
      assert SpaceBeforeCapitals([c]) == [' '] + [c];
      FilterAppend([' '], [c], NotSpace);
    }
  }

  /** The replacement only inserts spaces: removing the spaces from its result and from
      its input gives the same text. */
  lemma {:induction false} SpaceBeforeCapitalsKeepsText(s: string)
    ensures Filter(SpaceBeforeCapitals(s), NotSpace) == Filter(s, NotSpace)
  {
    if s != [] {
      var t := s[1..];
      assert s == [s[0]] + t;
      SpaceBeforeCapitalsAppend([s[0]], t);
      SpaceBeforeCapitalsKeepsChar(s[0]);
      SpaceBeforeCapitalsKeepsText(t);
      FilterAppend(SpaceBeforeCapitals([s[0]]), SpaceBeforeCapitals(t), NotSpace);
      FilterAppend([s[0]], t, NotSpace);
    }
  }

  /** Number of capital letters in `s`. */
  function CountCapitals(s: string): nat {
    if s == [] then 0 else (if IsUpper(s[0]) then 1 else 0) + CountCapitals(s[1..])
  }

  /** The replacement adds exactly one character per capital letter. */
  lemma {:induction false} SpaceBeforeCapitalsLength(s: string)
    ensures |SpaceBeforeCapitals(s)| == |s| + CountCapitals(s)
  {
    if s != [] {
      SpaceBeforeCapitalsLength(s[1..]);
    }
  }

  /** The replacement puts a space in front of every capital letter. */
  lemma {:induction false} SpaceBeforeCapitalsMarksCapitals(s: string)
    ensures CapitalsAfterSpace(SpaceBeforeCapitals(s))
  {
    if s != [] {
      SpaceBeforeCapitalsMarksCapitals(s[1..]);
      var rest := SpaceBeforeCapitals(s[1..]);
      var r := SpaceBeforeCapitals(s);
      var head := if IsUpper(s[0]) then [' ', s[0]] else [s[0]];
      assert r == head + rest;
      forall k | 0 <= k < |r| && IsUpper(r[k])
        ensures 0 < k && r[k - 1] == ' '
      {
        if k >= |head| {
          assert r[k] == rest[k - |head|];
          if k - |head| > 0 {
            assert r[k - 1] == rest[k - 1 - |head|];
          }
        }
      }
    }
  }

  /** In a text without white space, the only white space the replacement leaves is the
      spaces it inserts. */
  lemma {:induction false} SpaceBeforeCapitalsOnlySpaces(s: string)
    requires forall k :: 0 <= k < |s| ==> !IsWhitespace(s[k])
    ensures OnlySpaces(SpaceBeforeCapitals(s))
  {
    if s != [] {
      assert forall k :: 0 <= k < |s[1..]| ==> !IsWhitespace(s[1..][k]);
      SpaceBeforeCapitalsOnlySpaces(s[1..]);
      var rest := SpaceBeforeCapitals(s[1..]);
      var r := SpaceBeforeCapitals(s);
      var head := if IsUpper(s[0]) then [' ', s[0]] else [s[0]];
      assert r == head + rest;
      assert !IsWhitespace(s[0]);
      forall k | 0 <= k < |r| && IsWhitespace(r[k])
        ensures r[k] == ' '
      {
        if k >= |head| {
          assert r[k] == rest[k - |head|];
        }
      }
    }
  }

  /** The replacement works character by character, so it distributes over concatenation. */
  lemma {:induction false} SpaceBeforeCapitalsAppend(s: string, t: string)
    ensures SpaceBeforeCapitals(s + t) == SpaceBeforeCapitals(s) + SpaceBeforeCapitals(t)
  {
    if s == [] {
      assert s + t == t;
    } else {
      assert (s + t)[1..] == s[1..] + t;
      SpaceBeforeCapitalsAppend(s[1..], t);
    }
  }

  /** `s` holds no capital letter. */
  predicate NoCapitals(s: string) {
    forall k :: 0 <= k < |s| ==> !IsUpper(s[k])
  }

  /** A text without capitals is left as it is. */
  lemma {:induction false} SpaceBeforeCapitalsNoCapitals(s: string)
    requires NoCapitals(s)
    ensures SpaceBeforeCapitals(s) == s
  {
    if s != [] {
      assert NoCapitals(s[1..]) by {
        forall k | 0 <= k < |s[1..]| ensures !IsUpper(s[1..][k]) {
          assert s[1..][k] == s[k + 1];
        }
      }
      SpaceBeforeCapitalsNoCapitals(s[1..]);
    }
  }

  /** A word of one capital followed by letters that are not capitals gets one space in
      front. */
  lemma SpaceBeforeCapitalsWord(w: string)
    requires w != [] && IsUpper(w[0]) && NoCapitals(w[1..])
    ensures SpaceBeforeCapitals(w) == [' '] + w
  {
    SpaceBeforeCapitalsNoCapitals(w[1..]);
  }

  /** `s.trimStart()` */
  function TrimStart(s: string): string {
    if s != [] && IsWhitespace(s[0]) then TrimStart(s[1..]) else s
  }

  /** `s.trimEnd()` */
  function TrimEnd(s: string): string {
    if s != [] && IsWhitespace(s[|s| - 1]) then TrimEnd(s[..|s| - 1]) else s
  }

  /** Trimming the front leaves a suffix that does not start with white space, and
      everything it drops is white space. */
  lemma {:induction false} TrimStartSpec(s: string)
    ensures |TrimStart(s)| <= |s| && TrimStart(s) == s[|s| - |TrimStart(s)|..]
    ensures TrimStart(s) == [] || !IsWhitespace(TrimStart(s)[0])
    ensures forall k :: 0 <= k < |s| - |TrimStart(s)| ==> IsWhitespace(s[k])
  {
    if s != [] && IsWhitespace(s[0]) {
      var tail := s[1..];
      TrimStartSpec(tail);
      var r := TrimStart(tail);
      assert TrimStart(s) == r;
      assert tail[|tail| - |r|..] == s[|s| - |r|..];
      forall k | 0 <= k < |s| - |r|
        ensures IsWhitespace(s[k])
      {
        if k > 0 {
          assert s[k] == tail[k - 1];
        }
      }
    }
  }

  /** Trimming the end leaves a prefix that does not end with white space, and everything
      it drops is white space. */
  lemma {:induction false} TrimEndSpec(s: string)
    ensures |TrimEnd(s)| <= |s| && TrimEnd(s) == s[..|TrimEnd(s)|]
    ensures TrimEnd(s) == [] || !IsWhitespace(TrimEnd(s)[|TrimEnd(s)| - 1])
    ensures forall k :: |TrimEnd(s)| <= k < |s| ==> IsWhitespace(s[k])
  {
    if s != [] && IsWhitespace(s[|s| - 1]) {
      var init := s[..|s| - 1];
      TrimEndSpec(init);
      var r := TrimEnd(init);
      assert TrimEnd(s) == r;
      assert init[..|r|] == s[..|r|];
      forall k | |r| <= k < |s|
        ensures IsWhitespace(s[k])
      {
        if k < |s| - 1 {
          assert s[k] == init[k];
        }
      }
    }
  }

  /** `s.trim()` */
  function Trim(s: string): string {
    TrimEnd(TrimStart(s))
  }

  /** The label shown on a card of column `key`. */
  function Label(key: string): string {
    Trim(SpaceBeforeCapitals(key))
  }

  /** The replacement ends with the same character as its input. */
  lemma {:induction false} SpaceBeforeCapitalsLast(s: string)
    requires s != []
    ensures var r := SpaceBeforeCapitals(s); r != [] && r[|r| - 1] == s[|s| - 1]
  {
    if |s| > 1 {
      SpaceBeforeCapitalsLast(s[1..]);
    }
  }

  /** For a key that starts with a capital and ends with a character that is not white
      space, trimming only removes the space put in front of that first capital. */
  lemma LabelOfCapitalised(key: string)
    requires key != [] && IsUpper(key[0]) && !IsWhitespace(key[|key| - 1])
    ensures Label(key) == SpaceBeforeCapitals(key)[1..]
  {
    var t := SpaceBeforeCapitals(key);
    assert t == [' ', key[0]] + SpaceBeforeCapitals(key[1..]);
    assert TrimStart(t) == t[1..];
    SpaceBeforeCapitalsLast(key);
  }

  /** The label of a key made of two capitalised words is the two words with a space
      between them. */
  lemma LabelTwoWords(u: string, w: string)
    requires u != [] && IsUpper(u[0]) && NoCapitals(u[1..])
    requires w != [] && IsUpper(w[0]) && NoCapitals(w[1..])
    requires !IsWhitespace(w[|w| - 1])
    ensures Label(u + w) == u + [' '] + w
  {
    var key := u + w;
    var spaced := u + [' '] + w;
    SpaceBeforeTwoWords(u, w);
    assert ([' '] + u) + ([' '] + w) == [' '] + spaced;
    assert key[0] == u[0] && key[|key| - 1] == w[|w| - 1];
    LabelOfCapitalised(key);
    assert ([' '] + spaced)[1..] == spaced;
  }

  lemma SpaceBeforeTwoWords(u: string, w: string)
    requires u != [] && IsUpper(u[0]) && NoCapitals(u[1..])
    requires w != [] && IsUpper(w[0]) && NoCapitals(w[1..])
    ensures SpaceBeforeCapitals(u + w) == ([' '] + u) + ([' '] + w)
  {
    SpaceBeforeCapitalsAppend(u, w);
    SpaceBeforeCapitalsWord(u);
    SpaceBeforeCapitalsWord(w);
  }

  lemma LabelToDo(key: string)
    requires key == "ToDo"
    ensures Label(key) == "To Do"
  {
    assert key == "To" + "Do";
    LabelTwoWords("To", "Do");
  }

  lemma LabelInProgress(key: string)
    requires key == "InProgress"
    ensures Label(key) == "In Progress"
  {
    assert key == "In" + "Progress";
    LabelTwoWords("In", "Progress");
  }

  lemma LabelDone(key: string)
    requires key == "Done"
    ensures Label(key) == "Done"
  {
    assert NoCapitals(key[1..]);
    SpaceBeforeCapitalsWord(key);
    LabelOfCapitalised(key);
  }

  /** Each card's label spells its column's heading: "To Do", "In Progress", "Done". */
  lemma LabelIsTitle(c: Column)
    ensures Label(Key(c)) == Title(c)
  {
    match c
    case ToDo => LabelToDo(Key(c));
    case InProgress => LabelInProgress(Key(c));
    case Done => LabelDone(Key(c));
  }

  /** When all the white space in `t` is plain spaces, trimming the front removes nothing
      but spaces. */
  lemma {:induction false} TrimStartDropsSpaces(t: string)
    requires OnlySpaces(t)
    ensures Filter(TrimStart(t), NotSpace) == Filter(t, NotSpace)
  {
    if t != [] && IsWhitespace(t[0]) {
      TrimStartDropsSpaces(t[1..]);
    }
  }

  /** When all the white space in `t` is plain spaces, trimming the end removes nothing
      but spaces. */
  lemma {:induction false} TrimEndDropsSpaces(t: string)
    requires OnlySpaces(t)
    ensures Filter(TrimEnd(t), NotSpace) == Filter(t, NotSpace)
  {
    if t != [] && IsWhitespace(t[|t| - 1]) {
      var init := t[..|t| - 1];
      TrimEndDropsSpaces(init);
      assert t == init + [t[|t| - 1]];
      FilterAppend(init, [t[|t| - 1]], NotSpace);
    }
  }

  /** The label only adds spaces to a key without white space: removing the spaces from
      the label gives the key back. */
  lemma LabelRoundTrip(key: string)
    requires forall k :: 0 <= k < |key| ==> !IsWhitespace(key[k])
    ensures Filter(Label(key), NotSpace) == key
  {
    var t := SpaceBeforeCapitals(key);
    SpaceBeforeCapitalsKeepsText(key);
    SpaceBeforeCapitalsOnlySpaces(key);
    var t1 := TrimStart(t);
    TrimStartSpec(t);
    TrimStartDropsSpaces(t);
    assert OnlySpaces(t1) by {
      forall k | 0 <= k < |t1| && IsWhitespace(t1[k])
        ensures t1[k] == ' '
      {
        assert t1[k] == t[|t| - |t1| + k];
      }
    }
    TrimEndDropsSpaces(t1);
    FilterAllPass(key, NotSpace);
  }
}
