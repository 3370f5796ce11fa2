/**
 * String helpers shared by the API handlers and the dashboard: JavaScript's
 * `String.prototype.trim`, the removal of a maximal run of one character class
 * at both ends of a string, and the removal of every occurrence of a character.
 * Strings are sequences of code points; the identifiers and amounts that pass
 * through these helpers are ASCII, where code points and UTF-16 units agree.
 */
module JsText {

  /** ECMAScript WhiteSpace and LineTerminator: the characters `trim` removes. */
  predicate IsJsSpace(c: char) {
    c == '\t' || c == '\n' || c == '\U{000B}' || c == '\U{000C}' || c == '\r' || c == ' '
    || c == '\U{00A0}' || c == '\U{1680}' || ('\U{2000}' <= c <= '\U{200A}')
    || c == '\U{2028}' || c == '\U{2029}' || c == '\U{202F}' || c == '\U{205F}'
    || c == '\U{3000}' || c == '\U{FEFF}'
  }

  /** Every character of `s` satisfies `p`. */
  predicate All(p: char -> bool, s: string) {
    forall i :: 0 <= i < |s| ==> p(s[i])
  }

  /** Neither the first nor the last character of `s` satisfies `p`. */
  predicate Bare(p: char -> bool, s: string) {
    s == [] || (!p(s[0]) && !p(s[|s| - 1]))
  }

  /** `s` without its longest prefix of characters satisfying `p`. */
  function DropLeadingWhile(p: char -> bool, s: string): (r: string)
    ensures |r| <= |s| && r == s[|s| - |r|..]
    ensures forall i :: 0 <= i < |s| - |r| ==> p(s[i])
    ensures r == [] || !p(r[0])
    decreases |s|
  {
    if |s| > 0 && p(s[0]) then DropLeadingWhile(p, s[1..]) else s
  }

  /** `s` without its longest suffix of characters satisfying `p`. */
  function DropTrailingWhile(p: char -> bool, s: string): (r: string)
    ensures |r| <= |s| && r == s[..|r|]
    ensures forall i :: |r| <= i < |s| ==> p(s[i])
    ensures r == [] || !p(r[|r| - 1])
    decreases |s|
  {
    if |s| > 0 && p(s[|s| - 1]) then DropTrailingWhile(p, s[..|s| - 1]) else s
  }

  /** `s` without the maximal runs of `p`-characters at either end. */
  function Strip(p: char -> bool, s: string): (r: string)
    ensures Bare(p, r)
    ensures |r| <= |s|
  {
    var t := DropLeadingWhile(p, s);
    var r := DropTrailingWhile(p, t);
    assert r != [] ==> r[0] == t[0];
    r
  }

  /** JavaScript's `s.trim()`. */
  function Trim(s: string): (r: string)
    ensures Bare(IsJsSpace, r)
  {
    Strip(IsJsSpace, s)
  }

  /**
   * `s` with every occurrence of `c` removed (`s.replaceAll(c, "")`): every
   * other character is kept, as often as it occurs in `s`.
   */
  function RemoveAll(c: char, s: string): (r: string)
    ensures c !in r
    ensures |r| <= |s|
    ensures c !in s ==> r == s
    ensures multiset(r) == multiset(s)[c := 0]
  {
    if s == [] then []
    else
      assert s == [s[0]] + s[1..];
      (if s[0] == c then [] else [s[0]]) + RemoveAll(c, s[1..])
  }

  /** Removal works piecewise, so the kept characters stay in their order. */
  lemma {:induction false} RemoveAllConcat(c: char, a: string, b: string)
    ensures RemoveAll(c, a + b) == RemoveAll(c, a) + RemoveAll(c, b)
    decreases |a|
  {
    if a != [] {
      var head := if a[0] == c then [] else [a[0]];
      assert (a + b)[1..] == a[1..] + b;
      calc {
        RemoveAll(c, a + b);
        head + RemoveAll(c, a[1..] + b);
        { RemoveAllConcat(c, a[1..], b); }
        head + (RemoveAll(c, a[1..]) + RemoveAll(c, b));
        (head + RemoveAll(c, a[1..])) + RemoveAll(c, b);
      }
    } else {
      assert a + b == b;
    }
  }

  /** An occurrence of `c` anywhere in the input leaves no trace in the result. */
  lemma RemoveAllSkips(c: char, a: string, b: string)
    ensures RemoveAll(c, a + [c] + b) == RemoveAll(c, a + b)
  {
    assert RemoveAll(c, [c]) == [] by {
      assert [c][1..] == [];
    }
    RemoveAllConcat(c, a + [c], b);
    RemoveAllConcat(c, a, [c]);
    RemoveAllConcat(c, a, b);
    assert RemoveAll(c, a) + [] == RemoveAll(c, a);
  }

  /** JavaScript's `xs.join(sep)`: the empty string for no items, else the first item leads. */
  function Join(xs: seq<string>, sep: string): (r: string)
    ensures |xs| == 0 ==> r == ""
    ensures |xs| > 0 ==> |xs[0]| <= |r| && r[..|xs[0]|] == xs[0]
  {
    if |xs| == 0 then ""
    else if |xs| == 1 then xs[0]
    else xs[0] + sep + Join(xs[1..], sep)
  }

  /** Appending an item to a non-empty list appends the separator and the item. */
  lemma {:induction false} JoinAppend(xs: seq<string>, x: string, sep: string)
    requires |xs| > 0
    ensures Join(xs + [x], sep) == Join(xs, sep) + sep + x
    decreases |xs|
  {
    if |xs| > 1 {
      assert (xs + [x])[1..] == xs[1..] + [x];
      JoinAppend(xs[1..], x, sep);
    } else {
      assert (xs + [x])[1..] == [x];
    }
  }

  /** Dropping a run of `p`-characters in front of a string that does not start with one leaves that string. */
  lemma {:induction false} DropLeadingOfPrefix(p: char -> bool, a: string, b: string)
    requires All(p, a)
    requires b == [] || !p(b[0])
    ensures DropLeadingWhile(p, a + b) == b
    decreases |a|
  {
    if a != [] {
      assert (a + b)[1..] == a[1..] + b;
      DropLeadingOfPrefix(p, a[1..], b);
    }
  }

  /** Dropping a run of `p`-characters behind a string that does not end with one leaves that string. */
  lemma {:induction false} DropTrailingOfSuffix(p: char -> bool, a: string, b: string)
    requires All(p, b)
    requires a == [] || !p(a[|a| - 1])
    ensures DropTrailingWhile(p, a + b) == a
    decreases |b|
  {
    if b != [] {
      assert (a + b)[..|a + b| - 1] == a + b[..|b| - 1];
      DropTrailingOfSuffix(p, a, b[..|b| - 1]);
    } else {
      assert a + b == a;
    }
  }

  /**
   * Strip takes off exactly the wrapping: a core `m` that neither starts nor ends
   * with a `p`-character comes out unchanged, whatever runs surround it.
   */
  lemma StripUnwraps(p: char -> bool, a: string, m: string, b: string)
    requires All(p, a) && All(p, b) && Bare(p, m)
    ensures Strip(p, a + m + b) == m
  {
    if m == [] {
      assert a + m + b == (a + b) + [];
      assert All(p, a + b) by {
        forall i | 0 <= i < |a + b| ensures p((a + b)[i]) {
          if i >= |a| { assert (a + b)[i] == b[i - |a|]; }
        }
      }
      DropLeadingOfPrefix(p, a + b, []);
    } else {
      assert a + m + b == a + (m + b);
      DropLeadingOfPrefix(p, a, m + b);
      DropTrailingOfSuffix(p, m, b);
    }
  }

  /** A string with neither end in `p` is left as it is. */
  lemma StripBare(p: char -> bool, m: string)
    requires Bare(p, m)
    ensures Strip(p, m) == m
  {
    assert [] + m == m && m + [] == m;
    DropLeadingOfPrefix(p, [], m);
    DropTrailingOfSuffix(p, m, []);
  }

  /** Stripping twice is stripping once. */
  lemma StripIdempotent(p: char -> bool, s: string)
    ensures Strip(p, Strip(p, s)) == Strip(p, s)
  {
    StripBare(p, Strip(p, s));
  }

  /** Strip returns a contiguous piece of its input, so it introduces no character. */
  lemma StripKeepsAbsent(p: char -> bool, c: char, s: string)
    requires c !in s
    ensures c !in Strip(p, s)
  {
    var t := DropLeadingWhile(p, s);
    assert forall i :: 0 <= i < |t| ==> t[i] == s[|s| - |t| + i];
    assert c !in t;
    var r := DropTrailingWhile(p, t);
    assert forall i :: 0 <= i < |r| ==> r[i] == t[i];
  }

  /** Trimming twice is trimming once. */
  lemma TrimIdempotent(s: string)
    ensures Trim(Trim(s)) == Trim(s)
  {
    StripIdempotent(IsJsSpace, s);
  }
}
