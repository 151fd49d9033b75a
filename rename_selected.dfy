/**
 * `RenameSelected`, the editor window that renames the selected objects
 * "<prefix> (<n>)" with consecutive numbers in hierarchy order. The prefix
 * is proposed from the first selected object's name by cutting off a
 * numbered suffix such as " (3)", " [12]" or " 7".
 */
module RenameSelected {
  import opened Decimal

  // ---------------------------------------------------------------------------
  // String.Trim

  /** `char.IsWhiteSpace`: the Unicode space, line and paragraph separators, tab to carriage return, and U+0085. */
  predicate IsWhiteSpace(c: char) {
    || ('\U{0009}' <= c <= '\U{000D}') || c == ' ' || c == '\U{0085}' || c == '\U{00A0}' || c == '\U{1680}'
    || ('\U{2000}' <= c <= '\U{200A}') || c == '\U{2028}' || c == '\U{2029}' || c == '\U{202F}'
    || c == '\U{205F}' || c == '\U{3000}'
  }

  /** The text from its first non-white-space character on. */
  function TrimStart(s: string): (r: string)
    ensures |r| <= |s| && r == s[|s| - |r|..]
    ensures r == [] || !IsWhiteSpace(r[0])
    ensures forall k :: 0 <= k < |s| - |r| ==> IsWhiteSpace(s[k])
  {
    if s != [] && IsWhiteSpace(s[0]) then TrimStart(s[1..]) else s
  }

  /** The text up to its last non-white-space character. */
  function TrimEnd(s: string): (r: string)
    ensures |r| <= |s| && r == s[..|r|]
    ensures r == [] || !IsWhiteSpace(r[|r| - 1])
    ensures forall k :: |r| <= k < |s| ==> IsWhiteSpace(s[k])
  {
    if s != [] && IsWhiteSpace(s[|s| - 1]) then TrimEnd(s[..|s| - 1]) else s
  }

  /** `String.Trim`. */
  function Trim(s: string): string {
    TrimEnd(TrimStart(s))
  }

  /** Neither starts nor ends with white space, as every result of `Trim`. */
  predicate Trimmed(s: string) {
    s == [] || (!IsWhiteSpace(s[0]) && !IsWhiteSpace(s[|s| - 1]))
  }

  /** How many white-space characters `TrimStart` drops. */
  function Lead(s: string): nat {
    |s| - |TrimStart(s)|
  }

  /** Trim keeps one contiguous piece of the text. */
  lemma TrimIsPiece(s: string)
    ensures Lead(s) + |Trim(s)| <= |s| && Trim(s) == s[Lead(s)..Lead(s) + |Trim(s)|]
  {
    var t := TrimStart(s);
    assert t == s[Lead(s)..];
  }

  /** The piece neither starts nor ends with white space. */
  lemma TrimEndsOnNonSpace(s: string)
    ensures Trimmed(Trim(s))
  {
    var t := TrimStart(s);
    var r := TrimEnd(t);
    if r != [] {
      assert r[0] == t[0];
    }
  }

  /** What is dropped on either side is white space. */
  lemma TrimDropsOnlySpace(s: string)
    ensures forall k :: 0 <= k < Lead(s) ==> IsWhiteSpace(s[k])
    ensures forall k :: Lead(s) + |Trim(s)| <= k < |s| ==> IsWhiteSpace(s[k])
  {
    var t := TrimStart(s);
    SpaceAfterPiece(s, t, Lead(s), |TrimEnd(t)|);
  }

  /** White space at the end of a tail `t` of `s` is white space at the end of `s`. */
  lemma SpaceAfterPiece(s: string, t: string, lead: nat, n: nat)
    requires lead <= |s| && t == s[lead..] && n <= |t|
    requires forall k :: n <= k < |t| ==> IsWhiteSpace(t[k])
    ensures forall k :: lead + n <= k < |s| ==> IsWhiteSpace(s[k])
  {
    forall k | lead + n <= k < |s|
      ensures IsWhiteSpace(s[k])
    {
      assert s[k] == t[k - lead];
    }
  }

  /** A text that neither starts nor ends with white space is its own trim. */
  lemma TrimOfTrimmed(s: string)
    requires Trimmed(s)
    ensures Trim(s) == s
  {
  }

  /** Trimming twice is trimming once: the prefix field's `Trim` after every edit changes nothing more. */
  lemma TrimIdempotent(s: string)
    ensures Trim(Trim(s)) == Trim(s)
  {
    TrimEndsOnNonSpace(s);
    TrimOfTrimmed(Trim(s));
  }

  /** White space after the text is trimmed away with the rest. */
  lemma {:induction false} TrimStartBeforeSpace(x: string, c: char)
    requires IsWhiteSpace(c)
    ensures TrimStart(x + [c]) == if TrimStart(x) == [] then [] else TrimStart(x) + [c]
  {
    if x != [] {
      assert (x + [c])[1..] == x[1..] + [c];
      TrimStartBeforeSpace(x[1..], c);
    }
  }

  lemma TrimOfSpaceAfter(x: string, c: char)
    requires IsWhiteSpace(c)
    ensures Trim(x + [c]) == Trim(x)
  {
    TrimStartBeforeSpace(x, c);
    var t := TrimStart(x);
    if t != [] {
      assert (t + [c])[..|t|] == t;
    }
  }

  // ---------------------------------------------------------------------------
  // The suffix pattern ` ([([{])?\d.*$`

  predicate IsOpeningBracket(c: char) {
    c == '(' || c == '[' || c == '{'
  }

  /** `.*$` from `d`: `.` stops at a newline, and `$` holds at the end or before a final newline. */
  predicate RestIsOneLine(s: string, d: nat) {
    forall k :: d <= k < |s| - 1 ==> s[k] != '\n'
  }

  /** The pattern matches from `p`: a space, optionally an opening bracket, a digit, then the rest of the line. */
  predicate MatchesAt(s: string, p: nat) {
    && p < |s| && s[p] == ' '
    && (|| (p + 2 < |s| && IsOpeningBracket(s[p + 1]) && IsDigit(s[p + 2]) && RestIsOneLine(s, p + 3))
        || (p + 1 < |s| && IsDigit(s[p + 1]) && RestIsOneLine(s, p + 2)))
  }

  datatype Match = NoMatch | MatchAt(start: nat)

  /** The leftmost match starting at `p` or later. */
  function FirstMatchFrom(s: string, p: nat): (m: Match)
    requires p <= |s|
    decreases |s| - p
    ensures m.MatchAt? ==>
              && p <= m.start < |s| && MatchesAt(s, m.start)
              && forall q :: p <= q < m.start ==> !MatchesAt(s, q)
    ensures m.NoMatch? ==> forall q :: p <= q < |s| ==> !MatchesAt(s, q)
  {
    if p == |s| then NoMatch
    else if MatchesAt(s, p) then MatchAt(p)
    else FirstMatchFrom(s, p + 1)
  }

  predicate HasNumberSuffix(s: string) {
    exists p :: 0 <= p < |s| && MatchesAt(s, p)
  }

  /**
   * `Regex.Replace(name, string.Empty)`: the leftmost match runs to the end
   * of the text or to a final newline, so it is the only one; it is cut
   * out and a final newline stays.
   */
  function StripNumberSuffix(s: string): string {
    match FirstMatchFrom(s, 0)
    case NoMatch => s
    case MatchAt(p) => s[..p] + if s[|s| - 1] == '\n' then "\n" else ""
  }

  /** The prefix proposed for a selection whose first object is called `name`. */
  function DerivedPrefix(name: string): string {
    Trim(StripNumberSuffix(name))
  }

  /** Without a numbered suffix the proposal is the whole name, trimmed. */
  lemma DerivedPrefixWithoutSuffix(name: string)
    requires !HasNumberSuffix(name)
    ensures DerivedPrefix(name) == Trim(name)
  {
  }

  /** With one, the proposal is what stands before the leftmost match, trimmed. */
  lemma DerivedPrefixCutsAtLeftmostMatch(name: string, p: nat)
    requires p < |name| && MatchesAt(name, p)
    requires forall q :: 0 <= q < p ==> !MatchesAt(name, q)
    ensures DerivedPrefix(name) == Trim(name[..p])
  {
    var m := FirstMatchFrom(name, 0);
    assert m == MatchAt(p);
    if name[|name| - 1] == '\n' {
      TrimOfSpaceAfter(name[..p], '\n');
    } else {
      assert name[..p] + "" == name[..p];
    }
  }

  /** The parenthesised number Unity appends to duplicates is cut off. */
  lemma ProposalForDuplicate()
    ensures DerivedPrefix("Cube (3)") == "Cube"
  {
    assert FirstMatchFrom("Cube (3)", 0) == MatchAt(4);
    assert StripNumberSuffix("Cube (3)") == "Cube";
    TrimOfTrimmed("Cube");
  }

  /** So is a bracketed number, */
  lemma ProposalForBracketedNumber()
    ensures DerivedPrefix("Cube [12]") == "Cube"
  {
    assert FirstMatchFrom("Cube [12]", 0) == MatchAt(4);
    assert StripNumberSuffix("Cube [12]") == "Cube";
    TrimOfTrimmed("Cube");
  }

  /** and a bare one. */
  lemma ProposalForBareNumber()
    ensures DerivedPrefix("Cube 7") == "Cube"
  {
    assert FirstMatchFrom("Cube 7", 0) == MatchAt(4);
    assert StripNumberSuffix("Cube 7") == "Cube";
    TrimOfTrimmed("Cube");
  }

  /** A bracket followed by something other than a digit is kept. */
  lemma ProposalKeepsNonNumber()
    ensures DerivedPrefix("Cube (a)") == "Cube (a)"
  {
    assert FirstMatchFrom("Cube (a)", 0) == NoMatch;
    TrimOfTrimmed("Cube (a)");
  }

  // ---------------------------------------------------------------------------
  // The proposal is stable, and renamed objects propose their prefix again

  predicate OneLine(s: string) {
    forall k :: 0 <= k < |s| ==> s[k] != '\n'
  }

  /** On one-line texts, a match inside a piece `t` of the text, found at `lo`, is a match in the text. */
  lemma MatchInPiece(s: string, t: string, lo: nat, q: nat)
    requires lo + |t| <= |s| && t == s[lo..lo + |t|] && OneLine(s)
    requires MatchesAt(t, q)
    ensures MatchesAt(s, lo + q)
  {
    assert t[q] == s[lo + q];
    if q + 2 < |t| && IsOpeningBracket(t[q + 1]) && IsDigit(t[q + 2]) {
      assert t[q + 1] == s[lo + q + 1] && t[q + 2] == s[lo + q + 2];
    } else {
      assert t[q + 1] == s[lo + q + 1];
    }
  }

  /** A proposed prefix has no numbered suffix of its own, so proposing again from it returns it. */
  lemma DerivedPrefixIsStable(name: string)
    requires OneLine(name)
    ensures !HasNumberSuffix(DerivedPrefix(name))
    ensures DerivedPrefix(DerivedPrefix(name)) == DerivedPrefix(name)
  {
    var m := FirstMatchFrom(name, 0);
    var cut := if m.MatchAt? then m.start else |name|;
    if m.MatchAt? {
      DerivedPrefixCutsAtLeftmostMatch(name, cut);
    } else {
      DerivedPrefixWithoutSuffix(name);
      assert name[..cut] == name;
    }
    NoMatchBeforeCut(name, cut);
    DerivedPrefixWithoutSuffix(Trim(name[..cut]));
    TrimIdempotent(name[..cut]);
  }

  /** Trimming what stands before the first match leaves no match. */
  lemma NoMatchBeforeCut(name: string, cut: nat)
    requires OneLine(name) && cut <= |name|
    requires forall q :: 0 <= q < cut ==> !MatchesAt(name, q)
    ensures !HasNumberSuffix(Trim(name[..cut]))
  {
    var kept := name[..cut];
    var r := Trim(kept);
    TrimIsPiece(kept);
    var lead := Lead(kept);
    assert r == name[lead..lead + |r|];
    forall q | 0 <= q < |r|
      ensures !MatchesAt(r, q)
    {
      if MatchesAt(r, q) {
        MatchInPiece(name, r, lead, q);
      }
    }
  }

  /** `"<prefix> (<number>)"`, the name the rename loop writes. */
  function NumberedName(prefix: string, number: int): string {
    prefix + " (" + IntToString(number) + ")"
  }

  /** Names with the same prefix differ when their numbers do. */
  lemma NumberedNameInjective(prefix: string, m: int, n: int)
    requires NumberedName(prefix, m) == NumberedName(prefix, n)
    ensures m == n
  {
    var a, b := NumberedName(prefix, m), NumberedName(prefix, n);
    assert IntToString(m) == a[|prefix| + 2..|a| - 1];
    assert IntToString(n) == b[|prefix| + 2..|b| - 1];
    IntToStringInjective(m, n);
  }

  /**
   * Reopening the window on a renamed object proposes the prefix it was
   * renamed with, provided that prefix is trimmed, on one line, has no
   * numbered suffix itself, and the number is not negative.
   */
  lemma RenamedNameGivesPrefixBack(prefix: string, number: int)
    requires Trimmed(prefix) && OneLine(prefix) && !HasNumberSuffix(prefix)
    requires number >= 0
    ensures DerivedPrefix(NumberedName(prefix, number)) == prefix
  {
    var name := NumberedName(prefix, number);
    var k := |prefix|;
    NumberedNameMatchesAfterPrefix(prefix, number);
    forall q | 0 <= q < k
      ensures !MatchesAt(name, q)
    {
      NoMatchInsidePrefix(prefix, name, q);
    }
    DerivedPrefixCutsAtLeftmostMatch(name, k);
    assert name[..k] == prefix;
    TrimOfTrimmed(prefix);
  }

  /** The appended " (<number>)" is where the pattern matches. */
  lemma NumberedNameMatchesAfterPrefix(prefix: string, number: int)
    requires number >= 0
    ensures var name := NumberedName(prefix, number);
            |prefix| + 3 < |name| && name[..|prefix|] == prefix && MatchesAt(name, |prefix|)
  {
    var name := NumberedName(prefix, number);
    var digits := IntToString(number);
    var k := |prefix|;
    assert name == prefix + [' ', '('] + digits + [')'];
    assert name[k] == ' ' && name[k + 1] == '(' && name[k + 2] == digits[0];
    forall j | k + 3 <= j < |name| - 1
      ensures name[j] != '\n'
    {
      assert name[j] == digits[j - k - 2];
    }
    assert name[..k] == prefix;
  }

  /** No match starts inside a trimmed one-line prefix that has none, whatever follows it after a space. */
  lemma NoMatchInsidePrefix(prefix: string, name: string, q: nat)
    requires Trimmed(prefix) && OneLine(prefix) && !HasNumberSuffix(prefix)
    requires |prefix| + 1 < |name| && name[..|prefix|] == prefix && name[|prefix|] == ' '
    requires q < |prefix|
    ensures !MatchesAt(name, q)
  {
    var k := |prefix|;
    assert name[q] == prefix[q];
    if name[q] == ' ' {
      if q == k - 1 {
        assert false;
      } else {
        assert name[q + 1] == prefix[q + 1];
        if q + 2 < k {
          assert name[q + 2] == prefix[q + 2];
        }
        assert !MatchesAt(prefix, q);
      }
    }
  }

  // ---------------------------------------------------------------------------
  // 32-bit start indices

  const Int32Min: int := -0x8000_0000
  const Int32Max: int := 0x7FFF_FFFF

  /** `startIndex + i` in C#'s unchecked 32-bit arithmetic. */
  function Wrap32(x: int): (w: int)
    ensures Int32Min <= w <= Int32Max
    ensures Int32Min <= x <= Int32Max ==> w == x
  {
    (x - Int32Min) % 0x1_0000_0000 + Int32Min
  }

  /** Numbers fewer than 2^32 apart stay apart after wrapping. */
  lemma Wrap32Injective(x: int, y: int)
    requires x < y < x + 0x1_0000_0000
    ensures Wrap32(x) != Wrap32(y)
  {
  }

  // ---------------------------------------------------------------------------
  // The window

  /** A selected object: its name and its index among its siblings. */
  class GameObject {
    var name: string
    const siblingIndex: int

    constructor (name: string, siblingIndex: int)
      ensures this.name == name && this.siblingIndex == siblingIndex
    {
      this.name := name;
      this.siblingIndex := siblingIndex;
    }
  }

  /** Ascending by sibling index. */
  predicate SortedBySibling(s: seq<GameObject>) {
    forall k, l :: 0 <= k < l < |s| ==> s[k].siblingIndex <= s[l].siblingIndex
  }

  /** No object appears twice. */
  predicate Distinct(s: seq<GameObject>) {
    forall k, l :: 0 <= k < l < |s| ==> s[k] != s[l]
  }

  /** The `i`-th object is named `"<prefix> (<startIndex + i>)"`, the sum taken in 32 bits. */
  ghost predicate NamedInOrder(objects: seq<GameObject>, prefix: string, startIndex: int)
    reads set o | o in objects
  {
    forall i :: 0 <= i < |objects| ==> objects[i].name == NumberedName(prefix, Wrap32(startIndex + i))
  }

  /** What the prefix text field returns: the shown text, or the user's edit. */
  datatype FieldEdit = Unchanged | Typed(text: string)

  class RenameWindow {
    /** `_gameObjectPrefix`; its initial null is kept as "", which the window treats alike. */
    var gameObjectPrefix: string
    var startIndex: int
    var closed: bool

    ghost predicate Valid()
      reads this
    {
      Int32Min <= startIndex <= Int32Max
    }

    constructor ()
      ensures Valid()
      ensures gameObjectPrefix == "" && startIndex == 1 && !closed
    {
      gameObjectPrefix := "";
      startIndex := 1;
      closed := false;
    }

    /** A prefix is proposed only for a non-empty selection while the prefix is still empty. */
    method ProposePrefix(selection: seq<GameObject>)
      modifies this`gameObjectPrefix
      ensures |selection| > 0 && old(gameObjectPrefix) == "" ==>
                gameObjectPrefix == DerivedPrefix(selection[0].name)
      ensures !(|selection| > 0 && old(gameObjectPrefix) == "") ==> gameObjectPrefix == old(gameObjectPrefix)
    {
      if |selection| > 0 && gameObjectPrefix == "" {
        gameObjectPrefix := Trim(StripNumberSuffix(selection[0].name));
      }
    }

    /** The two fields: the prefix as shown or edited, trimmed, and the start index. */
    method TakeFields(selection: seq<GameObject>, prefixField: FieldEdit, startIndexField: int)
      requires Int32Min <= startIndexField <= Int32Max
      modifies this`gameObjectPrefix, this`startIndex
      ensures Valid()
      ensures var shown := if |selection| > 0 && old(gameObjectPrefix) == "" then DerivedPrefix(old(selection[0].name))
                           else old(gameObjectPrefix);
              gameObjectPrefix == Trim(if prefixField.Typed? then prefixField.text else shown)
      ensures startIndex == startIndexField
    {
      ProposePrefix(selection);
      var text := if prefixField.Typed? then prefixField.text else gameObjectPrefix;
      gameObjectPrefix := Trim(text);
      startIndex := startIndexField;
    }

    /** The button: rename the selection with the current fields, then close. */
    method PressRename(selection: seq<GameObject>) returns (renamed: seq<GameObject>)
      requires Distinct(selection)
      modifies this`closed, (set o | o in selection)`name
      ensures closed
      ensures multiset(renamed) == multiset(selection) && SortedBySibling(renamed)
      ensures NamedInOrder(renamed, gameObjectPrefix, startIndex)
    {
      renamed := RenameObjects(selection, gameObjectPrefix, startIndex);
      closed := true;
    }

    /**
     * `OnGUI`: propose a prefix, take the fields' values (the prefix
     * trimmed), and on the button rename the selection in sibling order
     * and close. `renamed` is the sorted working array.
     */
    method OnGUI(selection: seq<GameObject>, prefixField: FieldEdit, startIndexField: int, renameClicked: bool)
      returns (renamed: seq<GameObject>)
      requires Distinct(selection)
      requires Int32Min <= startIndexField <= Int32Max
      modifies this, set o | o in selection
      ensures Valid()
      ensures var shown := if |selection| > 0 && old(gameObjectPrefix) == "" then DerivedPrefix(old(selection[0].name))
                           else old(gameObjectPrefix);
              gameObjectPrefix == Trim(if prefixField.Typed? then prefixField.text else shown)
      ensures startIndex == startIndexField
      ensures !renameClicked ==> renamed == [] && closed == old(closed) && forall o :: o in selection ==> unchanged(o)
      ensures renameClicked ==>
                && closed
                && multiset(renamed) == multiset(selection) && SortedBySibling(renamed)
                && NamedInOrder(renamed, gameObjectPrefix, startIndex)
    {
      TakeFields(selection, prefixField, startIndexField);
      renamed := [];
      if renameClicked {
        renamed := PressRename(selection);
      }
    }
  }

  /**
   * The button's work: copy the selection, sort the copy by sibling index,
   * and name the `i`-th object `"<prefix> (<startIndex + i>)"`.
   */
  method RenameObjects(selection: seq<GameObject>, prefix: string, startIndex: int) returns (renamed: seq<GameObject>)
    requires Distinct(selection)
    modifies (set o | o in selection)`name
    ensures multiset(renamed) == multiset(selection) && SortedBySibling(renamed)
    ensures NamedInOrder(renamed, prefix, startIndex)
  {
    var objects := CopySelection(selection);
    SortBySiblingIndex(objects);
    DistinctAfterPermutation(selection, objects[..]);
    forall o | o in objects[..]
      ensures o in selection
    {
      assert o in multiset(objects[..]);
    }
    RenameInOrder(objects, prefix, startIndex);
    renamed := objects[..];
  }

  /** The element-wise copy of the selection into the working array. */
  method CopySelection(unsorted: seq<GameObject>) returns (a: array<GameObject>)
    ensures fresh(a) && a[..] == unsorted
  {
    if |unsorted| == 0 {
      return new GameObject[0];
    }
    a := new GameObject[|unsorted|](_ => unsorted[0]);
    for i := 0 to |unsorted|
      invariant a[..i] == unsorted[..i]
    {
      a[i] := unsorted[i];
    }
    assert a[..] == a[..|unsorted|];
  }

  /** `Array.Sort` by sibling index: the result is ascending and holds the same objects. */
  method SortBySiblingIndex(a: array<GameObject>)
    modifies a
    ensures SortedBySibling(a[..])
    ensures multiset(a[..]) == multiset(old(a[..]))
  {
    if a.Length < 2 {
      return;
    }
    for i := 1 to a.Length
      invariant SortedBySibling(a[..i])
      invariant multiset(a[..]) == multiset(old(a[..]))
    {
      InsertInto(a, i);
    }
    assert a[..] == a[..a.Length];
  }

  /** One turn of insertion: `a[i]` moves down past the larger entries before it. */
  method InsertInto(a: array<GameObject>, i: nat)
    requires 0 < i < a.Length && SortedBySibling(a[..i])
    modifies a
    ensures SortedBySibling(a[..i + 1])
    ensures multiset(a[..]) == multiset(old(a[..]))
  {
    var j := i;
    while j > 0 && a[j - 1].siblingIndex > a[j].siblingIndex
      invariant 0 <= j <= i
      invariant forall k, l :: 0 <= k < l <= i && k != j && l != j ==> a[k].siblingIndex <= a[l].siblingIndex
      invariant forall l :: j < l <= i ==> a[j].siblingIndex <= a[l].siblingIndex
      invariant multiset(a[..]) == multiset(old(a[..]))
    {
      Swap(a, j - 1, j);
      j := j - 1;
    }
  }

  /** Exchanges two entries; the array holds the same objects. */
  method Swap(a: array<GameObject>, i: nat, j: nat)
    requires i < j < a.Length
    modifies a
    ensures a[..] == old(a[..])[i := old(a[j])][j := old(a[i])]
    ensures multiset(a[..]) == multiset(old(a[..]))
  {
    SwapKeepsMultiset(a[..], i, j);
    a[i], a[j] := a[j], a[i];
  }

  lemma SwapKeepsMultiset<T>(s: seq<T>, i: nat, j: nat)
    requires i < j < |s|
    ensures multiset(s[i := s[j]][j := s[i]]) == multiset(s)
  {
    var t := s[i := s[j]][j := s[i]];
    assert s == s[..i] + [s[i]] + s[i + 1..j] + [s[j]] + s[j + 1..];
    assert t == s[..i] + [s[j]] + s[i + 1..j] + [s[i]] + s[j + 1..];
  }

  /** A permutation of a list without repeats has no repeats. */
  lemma DistinctAfterPermutation(s: seq<GameObject>, t: seq<GameObject>)
    requires Distinct(s) && multiset(t) == multiset(s)
    ensures Distinct(t)
  {
    forall k, l | 0 <= k < l < |t|
      ensures t[k] != t[l]
    {
      if t[k] == t[l] {
        TwiceInMultiset(t, k, l);
        OnceInMultiset(s, t[k]);
        assert false;
      }
    }
  }

  lemma TwiceInMultiset<T>(t: seq<T>, k: nat, l: nat)
    requires k < l < |t| && t[k] == t[l]
    ensures multiset(t)[t[k]] >= 2
  {
    assert t == t[..k] + [t[k]] + t[k + 1..l] + [t[l]] + t[l + 1..];
  }

  lemma {:induction false} OnceInMultiset(s: seq<GameObject>, x: GameObject)
    requires Distinct(s)
    ensures multiset(s)[x] <= 1
  {
    if s != [] {
      var front := s[..|s| - 1];
      assert s == front + [s[|s| - 1]];
      assert Distinct(front);
      OnceInMultiset(front, x);
      if x == s[|s| - 1] {
        assert x !in front;
      }
    }
  }

  /** The rename loop: the `i`-th object is named with number `startIndex + i`, wrapped to 32 bits. */
  method RenameInOrder(a: array<GameObject>, prefix: string, startIndex: int)
    requires Distinct(a[..])
    modifies (set o | o in a[..])`name
    ensures NamedInOrder(a[..], prefix, startIndex)
  {
    for i := 0 to a.Length
      invariant forall k :: 0 <= k < i ==> a[k].name == NumberedName(prefix, Wrap32(startIndex + k))
    {
      assert forall k :: 0 <= k < i ==> a[k] != a[i];
      a[i].name := NumberedName(prefix, Wrap32(startIndex + i));
    }
  }

  /** The new names are pairwise different: arrays hold fewer than 2^32 objects, so no two numbers wrap together. */
  lemma RenamedNamesDistinct(prefix: string, startIndex: int, count: nat, i: nat, j: nat)
    requires count <= 0x1_0000_0000 && i < count && j < count && i != j
    ensures NumberedName(prefix, Wrap32(startIndex + i)) != NumberedName(prefix, Wrap32(startIndex + j))
  {
    if NumberedName(prefix, Wrap32(startIndex + i)) == NumberedName(prefix, Wrap32(startIndex + j)) {
      NumberedNameInjective(prefix, Wrap32(startIndex + i), Wrap32(startIndex + j));
      if i < j {
        Wrap32Injective(startIndex + i, startIndex + j);
      } else {
        Wrap32Injective(startIndex + j, startIndex + i);
      }
    }
  }
}
