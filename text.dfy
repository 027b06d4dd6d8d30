/**
 * String operations shared by the backend and the advisory service:
 * lower-casing, substring search and whitespace-separated word counting.
 */
module Text {
  import opened Wrappers

  /**
   * The lower-case image of one character under JavaScript's `toLowerCase`
   * and Python's `str.lower`, for every character whose image contains an
   * ASCII character: `A`-`Z`, KELVIN SIGN (to `k`) and LATIN CAPITAL LETTER I
   * WITH DOT ABOVE (to `i` followed by COMBINING DOT ABOVE). Every other
   * character is kept, so non-ASCII letters are not folded; that never changes
   * whether an ASCII word is found in, or equal to, the lower-cased text.
   */
  function LowerChar(c: char): (r: string)
    ensures 'A' <= c <= 'Z' ==> r == [(c as int + 32) as char]
    ensures 'a' <= c <= 'z' ==> r == [c]
    ensures |r| == 1 || r == "i\U{307}"
  {
    if 'A' <= c <= 'Z' then [(c as int + 32) as char]
    else if c == '\U{212A}' then "k"
    else if c == '\U{130}' then "i\U{307}"
    else [c]
  }

  /** The lower-case form of a whole string, character by character. */
  function Lower(s: string): (r: string)
    ensures |s| <= |r|
  {
    if s == [] then [] else LowerChar(s[0]) + Lower(s[1..])
  }

  /** A text and its lower-cased form are both empty or both not. */
  lemma LowerKeepsEmptiness(s: string)
    ensures Lower(s) == [] <==> s == []
  {
  }

  lemma {:induction false} LowerAppend(a: string, b: string)
    ensures Lower(a + b) == Lower(a) + Lower(b)
  {
    if a == [] {
      assert a + b == b;
    } else {
      assert (a + b)[0] == a[0] && (a + b)[1..] == a[1..] + b;
      LowerAppend(a[1..], b);
      calc {
        Lower(a + b);
        LowerChar(a[0]) + Lower(a[1..] + b);
        LowerChar(a[0]) + (Lower(a[1..]) + Lower(b));
        (LowerChar(a[0]) + Lower(a[1..])) + Lower(b);
      }
    }
  }

  /** Characters that lower-casing leaves as they are. */
  predicate Unfolded(c: char) {
    !('A' <= c <= 'Z') && c != '\U{212A}' && c != '\U{130}'
  }

  /** Text without upper-case ASCII letters is its own lower-case form. */
  lemma {:induction false} LowerOfLowercase(s: string)
    requires forall i :: 0 <= i < |s| ==> Unfolded(s[i])
    ensures Lower(s) == s
  {
    if s != [] {
      LowerOfLowercase(s[1..]);
    }
  }

  /** `p` is a prefix of `s`. */
  predicate IsPrefix(p: string, s: string) {
    |p| <= |s| && s[..|p|] == p
  }

  /**
   * The position of the first occurrence of `p` in `s`, as JavaScript's
   * `indexOf` and Python's `find` give it.
   */
  function IndexOf(s: string, p: string): (r: Option<nat>)
    ensures r.Some? ==> r.value + |p| <= |s| && s[r.value..r.value + |p|] == p
    ensures r.Some? ==> forall j {:trigger IsPrefix(p, s[j..])} :: 0 <= j < r.value ==> !IsPrefix(p, s[j..])
    ensures r.None? ==> forall j {:trigger IsPrefix(p, s[j..])} :: 0 <= j <= |s| ==> !IsPrefix(p, s[j..])
    decreases |s|
  {
    if IsPrefix(p, s) then Some(0)
    else if s == [] then None
    else
      match IndexOf(s[1..], p)
      case None =>
        assert forall j :: 1 <= j <= |s| ==> s[j..] == s[1..][j - 1..];
        None
      case Some(i) =>
        assert forall j :: 1 <= j <= i ==> s[j..] == s[1..][j - 1..];
        assert s[i + 1..i + 1 + |p|] == s[1..][i..i + |p|] by {
          var w := s[1..][i..i + |p|];
          assert forall k :: 0 <= k < |p| ==> w[k] == s[i + 1 + k];
        }
        Some(i + 1)
  }

  /** Python's `p in s` and JavaScript's `s.includes(p)`. */
  predicate Contains(s: string, p: string) {
    IndexOf(s, p).Some?
  }

  /** An occurrence anywhere is found. */
  lemma ContainsAt(s: string, p: string, i: nat)
    requires i <= |s| && IsPrefix(p, s[i..])
    ensures Contains(s, p)
  {
  }

  /** A word placed between any two texts is found in the result. */
  lemma ContainsInfix(a: string, w: string, b: string)
    ensures Contains(a + w + b, w)
  {
    var s := a + w + b;
    assert s[|a|..][..|w|] == w;
    ContainsAt(s, w, |a|);
  }

  /** A one-character pattern occurs exactly when the character does. */
  lemma ContainsChar(t: string, c: char)
    ensures Contains(t, [c]) <==> c in t
  {
    if c in t {
      var i :| 0 <= i < |t| && t[i] == c;
      assert t[i..][..1] == [c];
      ContainsAt(t, [c], i);
    }
    if Contains(t, [c]) {
      var r := IndexOf(t, [c]).value;
      assert t[r..r + 1] == [c];
      assert t[r] == c;
    }
  }

  /**
   * JavaScript's `s.split(sep)` for a non-empty separator: the pieces between
   * successive occurrences of `sep`, found left to right without overlap.
   */
  function Split(s: string, sep: string): (pieces: seq<string>)
    requires sep != []
    ensures |pieces| >= 1
    ensures |pieces| >= 2 <==> Contains(s, sep)
    decreases |s|
  {
    match IndexOf(s, sep)
    case None => [s]
    case Some(i) => [s[..i]] + Split(s[i + |sep|..], sep)
  }

  /** JavaScript's `pieces.join(sep)`. */
  function Join(pieces: seq<string>, sep: string): string
    requires |pieces| >= 1
  {
    if |pieces| == 1 then pieces[0] else pieces[0] + sep + Join(pieces[1..], sep)
  }

  /** Joining a piece in front of others puts the separator between them. */
  lemma JoinCons(x: string, pieces: seq<string>, sep: string)
    requires |pieces| >= 1
    ensures Join([x] + pieces, sep) == x + sep + Join(pieces, sep)
  {
    assert ([x] + pieces)[1..] == pieces;
  }

  /** Joining the pieces with the separator gives back the text that was split. */
  lemma {:induction false} SplitJoin(s: string, sep: string)
    requires sep != []
    ensures Join(Split(s, sep), sep) == s
    decreases |s|
  {
    match IndexOf(s, sep)
    case None =>
    case Some(i) =>
      var rest := s[i + |sep|..];
      SplitJoin(rest, sep);
      JoinCons(s[..i], Split(rest, sep), sep);
      assert s == s[..i] + sep + rest by {
        assert s == s[..i] + s[i..i + |sep|] + rest;
      }
  }

  /** The reported position starts an occurrence. */
  lemma FoundIsPrefix(s: string, p: string)
    requires Contains(s, p)
    ensures IndexOf(s, p).value <= |s| && IsPrefix(p, s[IndexOf(s, p).value..])
  {
    var v := IndexOf(s, p).value;
    assert s[v..][..|p|] == s[v..v + |p|];
  }

  /** A pattern found at `k` is contained, first at `k` or earlier. */
  lemma FirstOccurrenceAtMost(s: string, p: string, k: nat)
    requires k <= |s| && IsPrefix(p, s[k..])
    ensures Contains(s, p) && IndexOf(s, p).value <= k
  {
    ContainsAt(s, p, k);
  }

  /** A pattern found at `i` with no earlier occurrence is what `IndexOf` reports. */
  lemma IndexOfIsFirst(s: string, p: string, i: nat)
    requires i <= |s| && IsPrefix(p, s[i..])
    requires forall j :: 0 <= j < i ==> !IsPrefix(p, s[j..])
    ensures IndexOf(s, p) == Some(i)
  {
    if Contains(s, p) {
      FoundIsPrefix(s, p);
    }
  }

  /** A pattern that starts nowhere is not contained. */
  lemma AbsentEverywhere(t: string, p: string)
    requires forall j :: 0 <= j <= |t| ==> !IsPrefix(p, t[j..])
    ensures !Contains(t, p)
  {
    if Contains(t, p) {
      FoundIsPrefix(t, p);
    }
  }

  /** The text before the first occurrence holds no occurrence. */
  lemma BeforeFirstIsFree(s: string, sep: string, i: nat)
    requires sep != [] && IndexOf(s, sep) == Some(i)
    ensures !Contains(s[..i], sep)
  {
    var t := s[..i];
    forall j | 0 <= j <= |t|
      ensures !IsPrefix(sep, t[j..])
    {
      if j + |sep| <= i {
        assert !IsPrefix(sep, s[j..]);
        assert t[j..][..|sep|] == s[j..][..|sep|];
      }
    }
    AbsentEverywhere(t, sep);
  }

  /** No piece of a split holds the separator. */
  lemma {:induction false} SplitPiecesFree(s: string, sep: string)
    requires sep != []
    ensures forall piece :: piece in Split(s, sep) ==> !Contains(piece, sep)
    decreases |s|
  {
    match IndexOf(s, sep)
    case None =>
    case Some(i) =>
      var rest := s[i + |sep|..];
      assert Split(s, sep) == [s[..i]] + Split(rest, sep);
      BeforeFirstIsFree(s, sep, i);
      SplitPiecesFree(rest, sep);
  }

  /**
   * Under the conditions of `FirstOccurrenceAfter`, no occurrence starts
   * inside `head`.
   */
  lemma NoOccurrenceInHead(head: string, sep: string, rest: string, i: nat)
    requires sep != [] && !Contains(head, sep) && i < |head|
    requires forall t :: 0 <= t < |sep| - 1 ==> sep[t] != sep[|sep| - 1]
    ensures !IsPrefix(sep, (head + sep + rest)[i..])
  {
    var s := head + sep + rest;
    if i + |sep| <= |head| {
      assert !IsPrefix(sep, head[i..]);
      assert s[i..][..|sep|] == head[i..][..|sep|];
    } else {
      var q := i + |sep| - 1;
      assert s[q] == sep[q - |head|];
      assert s[i..][|sep| - 1] == s[q];
    }
  }

  /**
   * When `head` holds no occurrence and the separator's last character appears
   * nowhere earlier in it, the first occurrence in `head + sep + rest` is the
   * one placed after `head`.
   */
  lemma FirstOccurrenceAfter(head: string, sep: string, rest: string)
    requires sep != [] && !Contains(head, sep)
    requires forall t :: 0 <= t < |sep| - 1 ==> sep[t] != sep[|sep| - 1]
    ensures IndexOf(head + sep + rest, sep) == Some(|head|)
  {
    var s := head + sep + rest;
    assert s[|head|..][..|sep|] == sep;
    forall j | 0 <= j < |head|
      ensures !IsPrefix(sep, s[j..])
    {
      NoOccurrenceInHead(head, sep, rest, j);
    }
    IndexOfIsFirst(s, sep, |head|);
  }

  /** Under the same conditions the split begins with `head`. */
  lemma SplitAfterHead(head: string, sep: string, rest: string)
    requires sep != [] && !Contains(head, sep)
    requires forall t :: 0 <= t < |sep| - 1 ==> sep[t] != sep[|sep| - 1]
    ensures Split(head + sep + rest, sep) == [head] + Split(rest, sep)
  {
    var s := head + sep + rest;
    FirstOccurrenceAfter(head, sep, rest);
    assert s[..|head|] == head;
    assert s[|head| + |sep|..] == rest;
  }

  /** A split that finds the separator starts with the text before it, then splits the rest. */
  lemma SplitUnfold(s: string, sep: string, i: nat)
    requires sep != [] && IndexOf(s, sep) == Some(i)
    ensures Split(s, sep) == [s[..i]] + Split(s[i + |sep|..], sep)
  {
  }

  /** Putting an element in front keeps the last element. */
  lemma LastOfCons<T>(x: T, q: seq<T>)
    requires |q| >= 1
    ensures ([x] + q)[|q|] == q[|q| - 1]
  {
  }

  /** What follows position `i` of `a + [c] + t`, for a position at most `|a|`. */
  lemma AfterPosition(a: string, c: char, t: string, i: nat)
    requires i <= |a|
    ensures i < |a| ==> (a + [c] + t)[i + 1..] == a[i + 1..] + [c] + t
    ensures i == |a| ==> (a + [c] + t)[i + 1..] == t
  {
  }

  /** The last piece of a split on one character is what follows its last occurrence. */
  lemma {:induction false} SplitLastPiece(a: string, c: char, t: string)
    requires c !in t
    ensures var p := Split(a + [c] + t, [c]); p[|p| - 1] == t
    decreases |a|
  {
    var s := a + [c] + t;
    assert IsPrefix([c], s[|a|..]) by {
      assert s[|a|..][..1] == [c];
    }
    FirstOccurrenceAtMost(s, [c], |a|);
    var i := IndexOf(s, [c]).value;
    SplitUnfold(s, [c], i);
    LastOfCons(s[..i], Split(s[i + 1..], [c]));
    AfterPosition(a, c, t, i);
    if i < |a| {
      SplitLastPiece(a[i + 1..], c, t);
    } else {
      ContainsChar(t, c);
    }
  }

  /** The characters Python's `str.split()` separates words on (`str.isspace`). */
  predicate IsSpace(c: char) {
    c == ' ' || '\t' <= c <= '\r' || '\U{1C}' <= c <= '\U{1F}' || c == '\U{85}' || c == '\U{A0}'
    || c == '\U{1680}' || '\U{2000}' <= c <= '\U{200A}' || c == '\U{2028}' || c == '\U{2029}'
    || c == '\U{202F}' || c == '\U{205F}' || c == '\U{3000}'
  }

  /**
   * `len(s.split())`: the number of maximal runs of non-space characters,
   * counted at the last character of each run.
   */
  function WordCount(s: string): (n: nat)
    ensures n <= |s|
    decreases |s|
  {
    if s == [] then 0
    else (if !IsSpace(s[0]) && (|s| == 1 || IsSpace(s[1])) then 1 else 0) + WordCount(s[1..])
  }

  /** A text has no words exactly when it is all spaces. */
  lemma {:induction false} WordCountZero(s: string)
    ensures WordCount(s) == 0 <==> forall i :: 0 <= i < |s| ==> IsSpace(s[i])
    decreases |s|
  {
    if s != [] {
      WordCountZero(s[1..]);
      assert forall i :: 1 <= i < |s| ==> s[i] == s[1..][i - 1];
    }
  }
}
