/**
 The JavaScript string built-ins the route parser relies on, for one-character
 needles and separators: `indexOf`, `split`, `join` and `toLowerCase` (ASCII
 letters only). `Before` and `After` are an independent reference description
 of "the text around the first occurrence", against which the built-ins are
 proved.
 */
module JsString {

  /** Text of `s` before the first `c`; all of `s` when `c` does not occur. */
  function Before(s: string, c: char): (r: string)
    ensures |r| <= |s|
    ensures c !in r
    ensures c !in s ==> r == s
    ensures c in s ==> |r| < |s| && s[|r|] == c
  {
    if s == [] || s[0] == c then [] else [s[0]] + Before(s[1..], c)
  }

  /** Text of `s` after the first `c`; empty when `c` does not occur. */
  function After(s: string, c: char): (r: string)
    ensures c in s ==> s == Before(s, c) + [c] + r && |r| < |s|
    ensures c !in s ==> r == []
  {
    if c in s then BeforeIsPrefix(s, c); s[|Before(s, c)| + 1..] else []
  }

  lemma {:induction false} BeforeIsPrefix(s: string, c: char)
    ensures Before(s, c) == s[..|Before(s, c)|]
  {
    if s != [] && s[0] != c {
      BeforeIsPrefix(s[1..], c);
    }
  }

  /** A string cut at a `c` that does not occur earlier is cut at its first `c`. */
  lemma {:induction false} FirstOccurrence(p: string, c: char, q: string)
    requires c !in p
    ensures Before(p + [c] + q, c) == p
    ensures After(p + [c] + q, c) == q
  {
    var s := p + [c] + q;
    if p != [] {
      assert s[1..] == p[1..] + [c] + q;
      FirstOccurrence(p[1..], c, q);
    }
    assert s[..|p|] == p;
  }

  /** `s.indexOf(c)`: the position of the first `c`, or -1. */
  function IndexOf(s: string, c: char): (i: int)
    ensures -1 <= i < |s|
    ensures i == -1 <==> c !in s
    ensures 0 <= i ==> s[i] == c && c !in s[..i]
  {
    if s == [] then -1
    else if s[0] == c then 0
    else
      var j := IndexOf(s[1..], c);
      assert s == [s[0]] + s[1..];
      if j == -1 then -1
      else
        assert s[..j + 1] == [s[0]] + s[1..][..j];
        j + 1
  }

  /** A string is the text before index `i`, the character there, and the
      text after it. */
  lemma Around(s: string, i: int)
    requires 0 <= i < |s|
    ensures s == s[..i] + [s[i]] + s[i + 1..]
  {
    assert s[..i] + [s[i]] == s[..i + 1];
  }

  /** `indexOf` finds exactly the cut that `Before` and `After` describe. */
  lemma IndexOfCuts(s: string, c: char)
    requires c in s
    ensures 0 <= IndexOf(s, c)
    ensures s[..IndexOf(s, c)] == Before(s, c)
    ensures s[IndexOf(s, c) + 1..] == After(s, c)
  {
    var i := IndexOf(s, c);
    var p, q := s[..i], s[i + 1..];
    assert Before(s, c) == p && After(s, c) == q by {
      Around(s, i);
      FirstOccurrence(p, c, q);
    }
  }

  /** `parts.join([sep])`; the empty array joins to the empty string. */
  function Join(parts: seq<string>, sep: char): string
  {
    if parts == [] then []
    else if |parts| == 1 then parts[0]
    else parts[0] + [sep] + Join(parts[1..], sep)
  }

  /** `s.split(sep)`: never empty, no part holds `sep`, and joining undoes it. */
  function Split(s: string, sep: char): (parts: seq<string>)
    ensures |parts| >= 1
    ensures forall i | 0 <= i < |parts| :: sep !in parts[i]
    ensures Join(parts, sep) == s
    decreases |s|
  {
    if sep !in s then [s]
    else [Before(s, sep)] + Split(After(s, sep), sep)
  }

  /** Splitting a join of separator-free parts gives the parts back. */
  lemma {:induction false} SplitJoin(parts: seq<string>, sep: char)
    requires |parts| >= 1
    requires forall i | 0 <= i < |parts| :: sep !in parts[i]
    ensures Split(Join(parts, sep), sep) == parts
  {
    if |parts| > 1 {
      var rest := Join(parts[1..], sep);
      FirstOccurrence(parts[0], sep, rest);
      SplitJoin(parts[1..], sep);
    }
  }

  /** The first part of a split is the text before the first separator, and
      the remaining parts join back to the text after it. */
  lemma SplitHeadTail(s: string, sep: char)
    ensures Split(s, sep)[0] == Before(s, sep)
    ensures Join(Split(s, sep)[1..], sep) == After(s, sep)
    ensures |Split(s, sep)| > 1 <==> sep in s
    ensures sep in s ==> Split(s, sep)[1..] == Split(After(s, sep), sep)
  {
  }

  predicate IsUpper(c: char)
  {
    'A' <= c <= 'Z'
  }

  /** ASCII lower-casing of one character. */
  function LowerChar(c: char): (d: char)
    ensures !IsUpper(d)
    ensures IsUpper(c) ==> d as int - c as int == 'a' as int - 'A' as int
    ensures !IsUpper(c) ==> d == c
  {
    if IsUpper(c) then (c as int - 'A' as int + 'a' as int) as char else c
  }

  /** `s.toLowerCase()` restricted to ASCII: same length, letter by letter, and
      no upper-case letter left. */
  function ToLowerCase(s: string): (r: string)
    ensures |r| == |s|
    ensures forall i | 0 <= i < |s| :: r[i] == LowerChar(s[i])
    ensures forall i | 0 <= i < |r| :: !IsUpper(r[i])
  {
    if s == [] then [] else [LowerChar(s[0])] + ToLowerCase(s[1..])
  }

  /** Lower-casing twice is lower-casing once. */
  lemma {:induction false} ToLowerCaseIdempotent(s: string)
    ensures ToLowerCase(ToLowerCase(s)) == ToLowerCase(s)
  {
    var once := ToLowerCase(s);
    var twice := ToLowerCase(once);
    assert |twice| == |once|;
    forall i | 0 <= i < |once| ensures twice[i] == once[i] {
      assert !IsUpper(once[i]);
    }
  }
}
