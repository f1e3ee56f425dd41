/** String operations the application relies on, restricted to ASCII:
    Python's `str.strip`, `lower`, `replace(" ", "_")`, `in`, `startswith`,
    `endswith`, `split`, and JavaScript's `toLowerCase`, `toUpperCase` and
    `includes`, plus the code-point order that Python's `sorted` uses on
    strings. */
module Text {
  import opened Common

  /** Python's `str.isspace` on ASCII: space, tab, line feed, vertical tab,
      form feed, carriage return and the separators 0x1C to 0x1F. */
  predicate IsSpace(c: char) {
    c == ' ' || ('\t' <= c <= '\r') || ('\U{1C}' <= c <= '\U{1F}')
  }

  /** `s` neither begins nor ends with whitespace. */
  predicate NoOuterSpace(s: string) {
    s == [] || (!IsSpace(s[0]) && !IsSpace(s[|s| - 1]))
  }

  /** `s.lstrip()`: the suffix of `s` left after dropping leading whitespace. */
  function StripLeft(s: string): (r: string)
    ensures |r| <= |s| && r == s[|s| - |r|..]
    ensures forall k :: 0 <= k < |s| - |r| ==> IsSpace(s[k])
    ensures r == [] || !IsSpace(r[0])
  {
    if s != [] && IsSpace(s[0]) then StripLeft(s[1..]) else s
  }

  /** `s.rstrip()`: the prefix of `s` left after dropping trailing whitespace. */
  function StripRight(s: string): (r: string)
    ensures |r| <= |s| && r == s[..|r|]
    ensures forall k :: |r| <= k < |s| ==> IsSpace(s[k])
    ensures r == [] || !IsSpace(r[|r| - 1])
  {
    if s != [] && IsSpace(s[|s| - 1]) then StripRight(s[..|s| - 1]) else s
  }

  /** `s.strip()`: a contiguous slice of `s` with no whitespace at either end,
      everything cut away being whitespace. */
  function Strip(s: string): (r: string)
    ensures NoOuterSpace(r)
    ensures |r| <= |s|
  {
    StripRight(StripLeft(s))
  }

  /** Stripping a string that has no outer whitespace leaves it as it is. */
  lemma StripNoOuterSpace(s: string)
    requires NoOuterSpace(s)
    ensures Strip(s) == s
  {
  }

  /** Leading whitespace is dropped one character at a time. */
  lemma StripLeadingSpace(s: string)
    requires s != [] && IsSpace(s[0])
    ensures Strip(s) == Strip(s[1..])
  {
  }

  /** Whitespace before a string does not survive `strip`. */
  lemma {:induction false} StripLeadingSpaces(pad: string, s: string)
    requires forall k :: 0 <= k < |pad| ==> IsSpace(pad[k])
    ensures Strip(pad + s) == Strip(s)
  {
    if pad != [] {
      assert (pad + s)[1..] == pad[1..] + s;
      StripLeadingSpace(pad + s);
      StripLeadingSpaces(pad[1..], s);
    } else {
      assert pad + s == s;
    }
  }

  /** Left-stripping a string with some non-whitespace ignores what follows. */
  lemma {:induction false} StripLeftAppend(s: string, tail: string)
    requires StripLeft(s) != []
    ensures StripLeft(s + tail) == StripLeft(s) + tail
  {
    assert s != [] && (s + tail)[0] == s[0];
    if IsSpace(s[0]) {
      StripLeftAppend(s[1..], tail);
      assert (s + tail)[1..] == s[1..] + tail;
    }
  }

  /** Right-stripping drops trailing whitespace whatever precedes it. */
  lemma {:induction false} StripRightSpaces(s: string, pad: string)
    requires forall k :: 0 <= k < |pad| ==> IsSpace(pad[k])
    ensures StripRight(s + pad) == StripRight(s)
  {
    if pad == [] {
      assert s + pad == s;
    } else {
      var init := pad[..|pad| - 1];
      assert (s + pad)[..|s + pad| - 1] == s + init;
      StripRightSpaces(s, init);
    }
  }

  /** Whitespace after a string does not survive `strip`. */
  lemma StripTrailingSpaces(s: string, pad: string)
    requires forall k :: 0 <= k < |pad| ==> IsSpace(pad[k])
    ensures Strip(s + pad) == Strip(s)
  {
    if StripLeft(s) != [] {
      StripLeftAppend(s, pad);
      StripRightSpaces(StripLeft(s), pad);
    } else {
      StripEmptyIffBlank(s);
      StripEmptyIffBlank(s + pad);
      assert forall k :: 0 <= k < |s + pad| ==> IsSpace((s + pad)[k]) by {
        forall k | 0 <= k < |s + pad| ensures IsSpace((s + pad)[k]) {
          if k < |s| { assert (s + pad)[k] == s[k]; } else { assert (s + pad)[k] == pad[k - |s|]; }
        }
      }
    }
  }

  /** A string is blank for Python's `not s.strip()` exactly when every
      character is whitespace. */
  lemma {:induction false} StripEmptyIffBlank(s: string)
    ensures Strip(s) == [] <==> forall k :: 0 <= k < |s| ==> IsSpace(s[k])
  {
    if s != [] && IsSpace(s[0]) {
      StripEmptyIffBlank(s[1..]);
      assert forall k :: 1 <= k < |s| ==> s[k] == s[1..][k - 1];
    }
  }

  function LowerChar(c: char): char {
    if 'A' <= c <= 'Z' then (c as int + 32) as char else c
  }

  function UpperChar(c: char): char {
    if 'a' <= c <= 'z' then (c as int - 32) as char else c
  }

  /** `s.lower()` / `s.toLowerCase()` on ASCII letters. */
  function Lower(s: string): (r: string)
    ensures |r| == |s|
  {
    seq(|s|, i requires 0 <= i < |s| => LowerChar(s[i]))
  }

  /** `s.upper()` / `s.toUpperCase()` on ASCII letters. */
  function Upper(s: string): (r: string)
    ensures |r| == |s|
  {
    seq(|s|, i requires 0 <= i < |s| => UpperChar(s[i]))
  }

  /** Folding an upper-cased string down gives the same as folding the string. */
  lemma LowerUpper(s: string)
    ensures Lower(Upper(s)) == Lower(s)
  {
  }

  /** Upper-casing keeps whitespace where it is, so it commutes with `strip`. */
  lemma {:induction false} StripLeftUpper(s: string)
    ensures StripLeft(Upper(s)) == Upper(StripLeft(s))
  {
    if s != [] {
      var u := Upper(s);
      assert u[0] == UpperChar(s[0]);
      if IsSpace(s[0]) {
        assert u[1..] == Upper(s[1..]);
        StripLeftUpper(s[1..]);
        assert StripLeft(u) == StripLeft(u[1..]);
      } else {
        assert StripLeft(u) == u;
      }
    }
  }

  lemma {:induction false} StripRightUpper(s: string)
    ensures StripRight(Upper(s)) == Upper(StripRight(s))
  {
    if s != [] {
      assert Upper(s)[..|s| - 1] == Upper(s[..|s| - 1]);
      if IsSpace(s[|s| - 1]) {
        StripRightUpper(s[..|s| - 1]);
      }
    }
  }

  lemma StripUpper(s: string)
    ensures Strip(Upper(s)) == Upper(Strip(s))
  {
    StripLeftUpper(s);
    StripRightUpper(StripLeft(s));
  }

  /** No upper-case ASCII letter occurs in `s`. */
  predicate IsLower(s: string) {
    forall i :: 0 <= i < |s| ==> !('A' <= s[i] <= 'Z')
  }

  /** `s.replace(" ", "_")`. */
  function Underscored(s: string): (r: string)
    ensures |r| == |s|
  {
    seq(|s|, i requires 0 <= i < |s| => if s[i] == ' ' then '_' else s[i])
  }

  /** The key form the back end gives symptom names and queries:
      `s.lower().replace(" ", "_")`. */
  function Slug(s: string): (r: string)
    ensures |r| == |s|
    ensures ' ' !in r && IsLower(r)
    ensures forall i :: 0 <= i < |s| ==> IsSpace(r[i]) == (IsSpace(s[i]) && s[i] != ' ')
  {
    Underscored(Lower(s))
  }

  /** A string that is already a slug is its own slug. */
  lemma SlugIdempotent(s: string)
    requires ' ' !in s && IsLower(s)
    ensures Slug(s) == s
  {
  }

  /** `sub in s` (Python) / `s.includes(sub)` (JavaScript). */
  predicate Contains(s: string, sub: string) {
    exists i :: 0 <= i <= |s| - |sub| && sub <= s[i..]
  }

  /** The empty string is a substring of every string. */
  lemma ContainsEmpty(s: string)
    ensures Contains(s, "")
  {
    assert "" <= s[0..];
  }

  /** `s.endswith(suffix)`. */
  predicate EndsWith(s: string, suffix: string) {
    |suffix| <= |s| && s[|s| - |suffix|..] == suffix
  }

  // ---------------------------------------------------------------------------
  // Python's `str.split(sep)` with an explicit one-character separator.

  /** The position of the first `c` in `s`, if any. */
  function IndexOfChar(s: string, c: char): (r: Option<nat>)
    ensures r.None? <==> c !in s
    ensures r.Some? ==> r.value < |s| && s[r.value] == c && c !in s[..r.value]
  {
    if s == [] then None
    else if s[0] == c then Some(0)
    else match IndexOfChar(s[1..], c)
      case None => None
      case Some(k) => assert s[..k + 1] == [s[0]] + s[1..][..k]; Some(k + 1)
  }

  /** `s.split(c)`: the pieces between successive occurrences of `c`; there is
      always at least one piece, and `"".split(c) == [""]`. */
  function Split(s: string, c: char): (r: seq<string>)
    ensures |r| >= 1
    ensures c !in s ==> r == [s]
    decreases |s|
  {
    match IndexOfChar(s, c)
    case None => [s]
    case Some(k) => [s[..k]] + Split(s[k + 1..], c)
  }

  /** `s.split(c, 1)`: the text before the first `c` and the text after it,
      or `s` alone when `c` does not occur. */
  function SplitOnce(s: string, c: char): (r: seq<string>)
    ensures 1 <= |r| <= 2
    ensures |r| == 2 <==> c in s
    ensures |r| == 2 ==> r[0] + [c] + r[1] == s && c !in r[0]
  {
    match IndexOfChar(s, c)
    case None => [s]
    case Some(k) => assert s == s[..k] + [c] + s[k + 1..]; [s[..k], s[k + 1..]]
  }

  /** The text of `s` up to its first space (all of `s` when it has none). */
  function UpToSpace(s: string): (r: string)
    ensures r <= s && ' ' !in r
    ensures r == s || (|r| < |s| && s[|r|] == ' ')
  {
    match IndexOfChar(s, ' ')
    case None => s
    case Some(k) => s[..k]
  }

  /** When `s` is `p + [c] + rest` and `c` does not occur in `p`, the first
      two pieces of `s.split(c)` are `p` and the text of `rest` up to its
      first `c`. */
  lemma {:induction false} SplitAfterFirst(p: string, rest: string)
    requires ' ' !in p
    ensures |Split(p + " " + rest, ' ')| >= 2
    ensures Split(p + " " + rest, ' ')[0] == p
    ensures Split(p + " " + rest, ' ')[1] == UpToSpace(rest)
  {
    var s := p + " " + rest;
    FirstSpace(p, rest);
    assert s[..|p|] == p;
    assert s[|p| + 1..] == rest;
    match IndexOfChar(rest, ' ')
    case None =>
      assert Split(rest, ' ') == [rest];
    case Some(k) =>
      assert Split(rest, ' ')[0] == rest[..k];
  }

  /** The text of `p + " " + rest` up to its first space is `p`. */
  lemma UpToSpaceAfter(p: string, rest: string)
    requires ' ' !in p
    ensures UpToSpace(p + " " + rest) == p
  {
    FirstSpace(p, rest);
  }

  /** The first space of `p + " " + rest` sits right after `p`. */
  lemma {:induction false} FirstSpace(p: string, rest: string)
    requires ' ' !in p
    ensures IndexOfChar(p + " " + rest, ' ') == Some(|p|)
  {
    var s := p + " " + rest;
    if p != [] {
      assert s[1..] == p[1..] + " " + rest;
      FirstSpace(p[1..], rest);
    }
  }

  // ---------------------------------------------------------------------------
  // Code-point order on strings, as Python's `<` on `str` and hence `sorted`.

  /** `a < b` for Python strings: the first differing character decides, and
      a proper prefix comes first. */
  predicate Less(a: string, b: string) {
    if a == [] then b != []
    else if b == [] then false
    else a[0] < b[0] || (a[0] == b[0] && Less(a[1..], b[1..]))
  }

  lemma {:induction false} LessIrreflexive(a: string)
    ensures !Less(a, a)
  {
    if a != [] {
      LessIrreflexive(a[1..]);
    }
  }

  lemma {:induction false} LessTransitive(a: string, b: string, c: string)
    requires Less(a, b) && Less(b, c)
    ensures Less(a, c)
  {
    if a != [] && b != [] && c != [] && a[0] == b[0] == c[0] {
      LessTransitive(a[1..], b[1..], c[1..]);
    }
  }

  lemma {:induction false} LessTotal(a: string, b: string)
    requires a != b
    ensures Less(a, b) || Less(b, a)
  {
    if a != [] && b != [] && a[0] == b[0] {
      assert a == [a[0]] + a[1..] && b == [b[0]] + b[1..];
      LessTotal(a[1..], b[1..]);
    }
  }

  /** Strictly increasing in code-point order, hence free of duplicates. */
  predicate StrictlySorted(s: seq<string>) {
    forall i, j :: 0 <= i < j < |s| ==> Less(s[i], s[j])
  }

  /** Inserts `x` into a strictly sorted list, unless it is already there. */
  function Insert(x: string, s: seq<string>): (r: seq<string>)
    requires StrictlySorted(s)
    ensures StrictlySorted(r)
    ensures forall y :: y in r <==> y == x || y in s
  {
    if s == [] then [x]
    else if x == s[0] then s
    else if Less(x, s[0]) then
      assert forall j :: 0 <= j < |s| ==> Less(x, s[j]) by {
        forall j | 0 <= j < |s| ensures Less(x, s[j]) {
          if j > 0 { LessTransitive(x, s[0], s[j]); }
        }
      }
      [x] + s
    else
      LessTotal(x, s[0]);
      var t := Insert(x, s[1..]);
      assert forall y :: y in t ==> Less(s[0], y) by {
        forall y | y in t ensures Less(s[0], y) {
          if y != x {
            var j :| 0 <= j < |s[1..]| && s[1..][j] == y;
            assert s[j + 1] == y;
          }
        }
      }
      [s[0]] + t
  }

  /** `sorted(set(xs))`: the distinct elements of `xs` in increasing order. */
  function SortedSet(xs: seq<string>): (r: seq<string>)
    ensures StrictlySorted(r)
    ensures forall y :: y in r <==> y in xs
  {
    if xs == [] then []
    else Insert(xs[0], SortedSet(xs[1..]))
  }

  /** A strictly sorted list is determined by its elements: `sorted(set(xs))`
      has exactly one possible value. */
  lemma {:induction false} StrictlySortedUnique(a: seq<string>, b: seq<string>)
    requires StrictlySorted(a) && StrictlySorted(b)
    requires forall y :: y in a <==> y in b
    ensures a == b
  {
    if a != [] && b != [] {
      if a[0] != b[0] {
        SortedHead(a, b[0]);
        SortedHead(b, a[0]);
        LessTransitive(a[0], b[0], a[0]);
        LessIrreflexive(a[0]);
        assert false;
      }
      forall y ensures y in a[1..] <==> y in b[1..] {
        SortedTail(a, y);
        SortedTail(b, y);
      }
      StrictlySortedUnique(a[1..], b[1..]);
    } else if a != [] {
      HeadIn(a);
      assert false;
    } else if b != [] {
      HeadIn(b);
      assert false;
    }
  }

  lemma HeadIn(a: seq<string>)
    requires a != []
    ensures a[0] in a
  {
  }

  /** The head of a strictly sorted list is below every other element. */
  lemma SortedHead(a: seq<string>, y: string)
    requires StrictlySorted(a) && a != []
    requires y in a && y != a[0]
    ensures Less(a[0], y)
  {
    var j :| 0 <= j < |a| && a[j] == y;
  }

  /** In a strictly sorted list, the tail holds every element but the head. */
  lemma SortedTail(a: seq<string>, y: string)
    requires StrictlySorted(a) && a != []
    ensures y in a[1..] <==> y in a && y != a[0]
  {
    if y in a[1..] {
      var j :| 0 <= j < |a[1..]| && a[1..][j] == y;
      assert Less(a[0], a[j + 1]);
      LessIrreflexive(a[0]);
    }
    if y in a && y != a[0] {
      var j :| 0 <= j < |a| && a[j] == y;
      assert a[1..][j - 1] == y;
    }
  }
}
