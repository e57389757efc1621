/**
 * The few Python string operations the three scripts rely on, over `string`
 * (a sequence of Unicode scalar values): `strip()`, `strip(c)`, `lower()`,
 * `startswith`, the `in` substring test, `split(sep)`, `split()` and `join`.
 */
module Text {

  /** Python's `str.isspace` for a single character. */
  predicate IsSpace(c: char) {
    c == ' ' || ('\t' <= c <= '\r') || ('\U{1C}' <= c <= '\U{1F}')
    || c == '\U{85}' || c == '\U{A0}' || c == '\U{1680}'
    || ('\U{2000}' <= c <= '\U{200A}') || c == '\U{2028}' || c == '\U{2029}'
    || c == '\U{202F}' || c == '\U{205F}' || c == '\U{3000}'
  }

  /** Python's `s.strip()`: whitespace removed from both ends. */
  function Strip(s: string): string
    decreases |s|
  {
    if s != [] && IsSpace(s[0]) then Strip(s[1..])
    else if s != [] && IsSpace(s[|s| - 1]) then Strip(s[..|s| - 1])
    else s
  }

  /** What `strip()` leaves neither starts nor ends with whitespace. */
  lemma {:induction false} StripEnds(s: string)
    ensures Strip(s) == [] || (!IsSpace(Strip(s)[0]) && !IsSpace(Strip(s)[|Strip(s)| - 1]))
    decreases |s|
  {
    if s != [] && IsSpace(s[0]) {
      StripEnds(s[1..]);
    } else if s != [] && IsSpace(s[|s| - 1]) {
      StripEnds(s[..|s| - 1]);
    }
  }

  lemma StripIdempotent(s: string)
    ensures Strip(Strip(s)) == Strip(s)
  {
    StripEnds(s);
  }

  /** `strip()` removes exactly the whitespace added around a text that has none at its ends. */
  lemma {:induction false} StripPadded(pre: string, s: string, suf: string)
    requires forall i :: 0 <= i < |pre| ==> IsSpace(pre[i])
    requires forall i :: 0 <= i < |suf| ==> IsSpace(suf[i])
    requires s != [] && !IsSpace(s[0]) && !IsSpace(s[|s| - 1])
    ensures Strip(pre + s + suf) == s
    decreases |pre| + |suf|
  {
    var t := pre + s + suf;
    if pre != [] {
      assert t[0] == pre[0];
      assert t[1..] == pre[1..] + s + suf;
      StripPadded(pre[1..], s, suf);
    } else if suf != [] {
      var n := |suf| - 1;
      assert t[0] == s[0] && t[|t| - 1] == suf[n];
      assert t[..|t| - 1] == pre + s + suf[..n];
      StripPadded(pre, s, suf[..n]);
    } else {
      assert t == s;
    }
  }

  /** `strip()` only removes characters, so it brings in none that was absent. */
  lemma {:induction false} StripWithout(s: string, c: char)
    requires c !in s
    ensures c !in Strip(s)
    decreases |s|
  {
    if s != [] && IsSpace(s[0]) {
      assert forall x :: x in s[1..] ==> x in s;
      StripWithout(s[1..], c);
    } else if s != [] && IsSpace(s[|s| - 1]) {
      assert forall x :: x in s[..|s| - 1] ==> x in s;
      StripWithout(s[..|s| - 1], c);
    }
  }

  /** Python's `s.strip(c)` for a one-character argument. */
  function StripChar(s: string, c: char): string
    decreases |s|
  {
    if s != [] && s[0] == c then StripChar(s[1..], c)
    else if s != [] && s[|s| - 1] == c then StripChar(s[..|s| - 1], c)
    else s
  }

  /** What `strip(c)` leaves neither starts nor ends with `c`. */
  lemma {:induction false} StripCharEnds(s: string, c: char)
    ensures StripChar(s, c) == [] || (StripChar(s, c)[0] != c && StripChar(s, c)[|StripChar(s, c)| - 1] != c)
    decreases |s|
  {
    if s != [] && s[0] == c {
      StripCharEnds(s[1..], c);
    } else if s != [] && s[|s| - 1] == c {
      StripCharEnds(s[..|s| - 1], c);
    }
  }

  /** `strip(c)` of a text wrapped in one `c` on each side gives the text back. */
  lemma StripCharWrapped(s: string, c: char)
    requires s != [] && s[0] != c && s[|s| - 1] != c
    ensures StripChar([c] + s + [c], c) == s
  {
    var t := [c] + s + [c];
    assert t[1..] == s + [c];
    var u := s + [c];
    assert u[0] == s[0] && u[..|u| - 1] == s;
    assert StripChar(t, c) == StripChar(u, c);
    assert StripChar(u, c) == StripChar(s, c);
  }

  /** ASCII lowering of one character. */
  function LowerChar(c: char): char {
    if 'A' <= c <= 'Z' then (c as int + 32) as char else c
  }

  /** `s.lower()`, restricted to ASCII letters. */
  function Lower(s: string): (r: string)
    ensures |r| == |s|
    ensures forall i :: 0 <= i < |s| ==> r[i] == LowerChar(s[i])
  {
    seq(|s|, i requires 0 <= i < |s| => LowerChar(s[i]))
  }

  /** A reply lowers to a single lower-case letter exactly when it is that letter in either case. */
  lemma LowerIsLetter(s: string, c: char)
    requires 'a' <= c <= 'z'
    ensures Lower(s) == [c] <==> s == [c] || s == [(c as int - 32) as char]
  {
    if Lower(s) == [c] {
      assert |s| == 1 && LowerChar(s[0]) == c;
      assert s == [s[0]];
    }
  }

  /** Python's `s.startswith(prefix)`. */
  predicate StartsWith(s: string, prefix: string) {
    |prefix| <= |s| && s[..|prefix|] == prefix
  }

  /** Python's `w in s` for strings: `w` occurs somewhere in `s`. */
  predicate Contains(s: string, w: string)
    decreases |s|
  {
    StartsWith(s, w) || (s != [] && Contains(s[1..], w))
  }

  /** `w` occurs in `s` starting at index `i`. */
  predicate OccursAt(s: string, w: string, i: nat) {
    i + |w| <= |s| && s[i..i + |w|] == w
  }

  lemma {:induction false} ContainsAt(s: string, w: string)
    ensures Contains(s, w) <==> exists i: nat :: OccursAt(s, w, i)
    decreases |s|
  {
    if StartsWith(s, w) {
      assert OccursAt(s, w, 0);
    } else if s == [] {
    } else {
      ContainsAt(s[1..], w);
      if exists i: nat :: OccursAt(s, w, i) {
        var i: nat :| OccursAt(s, w, i);
        assert i != 0;
        assert s[1..][i - 1..i - 1 + |w|] == s[i..i + |w|];
        assert OccursAt(s[1..], w, i - 1);
      }
      if Contains(s[1..], w) {
        var i: nat :| OccursAt(s[1..], w, i);
        assert s[1..][i..i + |w|] == s[i + 1..i + 1 + |w|];
        assert OccursAt(s, w, i + 1);
      }
    }
  }

  /** Position of the first `c` in `s`. */
  function IndexOf(s: string, c: char): (k: nat)
    requires c in s
    ensures k < |s| && s[k] == c && c !in s[..k]
  {
    if s[0] == c then 0 else 1 + IndexOf(s[1..], c)
  }

  lemma {:induction false} IndexOfAfter(a: string, c: char, b: string)
    requires c !in a
    ensures c in a + [c] + b && IndexOf(a + [c] + b, c) == |a|
  {
    var s := a + [c] + b;
    assert s[|a|] == c;
    if a != [] {
      assert s[1..] == a[1..] + [c] + b;
      IndexOfAfter(a[1..], c, b);
    }
  }

  /** Python's `s.split(sep)`: the pieces between separators, empty ones included. */
  function Split(s: string, sep: char): (r: seq<string>)
    ensures |r| >= 1
    ensures forall i :: 0 <= i < |r| ==> sep !in r[i]
    decreases |s|
  {
    if sep !in s then [s]
    else
      var k := IndexOf(s, sep);
      [s[..k]] + Split(s[k + 1..], sep)
  }

  /** Python's `sep.join(parts)`. */
  function Join(parts: seq<string>, sep: char): string {
    if parts == [] then []
    else if |parts| == 1 then parts[0]
    else parts[0] + [sep] + Join(parts[1..], sep)
  }

  /** The second piece of a split is the text between the first two separators. */
  lemma SplitSecond(p: string, a: string, sep: char, b: string)
    requires sep !in p && sep !in a
    ensures var parts := Split(p + [sep] + a + [sep] + b, sep); |parts| >= 2 && parts[1] == a
  {
    assert p + [sep] + a + [sep] + b == p + [sep] + (a + [sep] + b);
    SplitAtFirst(p, sep, a + [sep] + b);
    SplitAtFirst(a, sep, b);
  }

  /** Joining the pieces of a split gives the text back. */
  lemma {:induction false} JoinSplit(s: string, sep: char)
    ensures Join(Split(s, sep), sep) == s
    decreases |s|
  {
    if sep in s {
      var k := IndexOf(s, sep);
      var rest := s[k + 1..];
      var tail := Split(rest, sep);
      var parts := Split(s, sep);
      assert parts == [s[..k]] + tail;
      assert |parts| >= 2 && parts[0] == s[..k] && parts[1..] == tail;
      JoinSplit(rest, sep);
      assert Join(parts, sep) == s[..k] + [sep] + rest;
      assert s == s[..k] + [sep] + rest by {
        assert s == s[..k] + s[k..];
        assert s[k..] == [sep] + rest;
      }
    }
  }

  /** Splitting at a first separator peels off the piece before it. */
  lemma SplitAtFirst(a: string, sep: char, b: string)
    requires sep !in a
    ensures Split(a + [sep] + b, sep) == [a] + Split(b, sep)
  {
    var s := a + [sep] + b;
    IndexOfAfter(a, sep, b);
    assert s[..|a|] == a;
    assert s[|a| + 1..] == b;
  }

  /** Splitting a join of separator-free pieces gives the pieces back. */
  lemma {:induction false} SplitJoin(parts: seq<string>, sep: char)
    requires |parts| >= 1
    requires forall i :: 0 <= i < |parts| ==> sep !in parts[i]
    ensures Split(Join(parts, sep), sep) == parts
  {
    if |parts| > 1 {
      var rest := parts[1..];
      assert Join(parts, sep) == parts[0] + [sep] + Join(rest, sep);
      SplitAtFirst(parts[0], sep, Join(rest, sep));
      SplitJoin(rest, sep);
      assert parts == [parts[0]] + rest;
    }
  }

  /** Every character of `s` is whitespace (vacuously so for the empty text). */
  predicate AllSpace(s: string) {
    forall i :: 0 <= i < |s| ==> IsSpace(s[i])
  }

  /** No character of `s` is whitespace. */
  predicate NoSpace(s: string) {
    forall i :: 0 <= i < |s| ==> !IsSpace(s[i])
  }

  /** Length of the run of non-space characters at the start of `t`. */
  function WordLength(t: string): (k: nat)
    ensures k <= |t|
    ensures forall j :: 0 <= j < k ==> !IsSpace(t[j])
    ensures k < |t| ==> IsSpace(t[k])
  {
    if t == [] || IsSpace(t[0]) then 0 else 1 + WordLength(t[1..])
  }

  /** A space-free word ended by whitespace or by the end of the text is the whole run. */
  lemma {:induction false} WordLengthOf(w: string, rest: string)
    requires NoSpace(w)
    requires rest == [] || IsSpace(rest[0])
    ensures WordLength(w + rest) == |w|
  {
    if w != [] {
      assert (w + rest)[1..] == w[1..] + rest;
      WordLengthOf(w[1..], rest);
    } else {
      assert w + rest == rest;
    }
  }

  /** The text after its leading whitespace. */
  function DropSpaces(s: string): (r: string)
    ensures |r| <= |s|
    ensures r == [] || !IsSpace(r[0])
  {
    if s != [] && IsSpace(s[0]) then DropSpaces(s[1..]) else s
  }

  /** What `DropSpaces` removes is whitespace, and what it keeps is the rest of the text. */
  lemma {:induction false} DropSpacesSplits(s: string)
    ensures var r := DropSpaces(s); s == s[..|s| - |r|] + r && AllSpace(s[..|s| - |r|])
  {
    if s != [] && IsSpace(s[0]) {
      DropSpacesSplits(s[1..]);
      var r := DropSpaces(s[1..]);
      assert s[..|s| - |r|] == [s[0]] + s[1..][..|s| - 1 - |r|];
    } else {
      assert s[..0] == [];
    }
  }

  /** Whatever whitespace comes first, `DropSpaces` removes exactly that. */
  lemma {:induction false} DropSpacesOf(ws: string, t: string)
    requires AllSpace(ws)
    requires t == [] || !IsSpace(t[0])
    ensures DropSpaces(ws + t) == t
  {
    if ws == [] {
      assert ws + t == t;
    } else {
      assert (ws + t)[1..] == ws[1..] + t;
      DropSpacesOf(ws[1..], t);
    }
  }

  /** Python's `s.split()`: the maximal runs of non-space characters. */
  function Words(s: string): (r: seq<string>)
    ensures forall i :: 0 <= i < |r| ==> r[i] != []
    ensures forall i, j :: 0 <= i < |r| && 0 <= j < |r[i]| ==> !IsSpace(r[i][j])
    decreases |s|
  {
    var t := DropSpaces(s);
    if t == [] then []
    else
      var k := WordLength(t);
      [t[..k]] + Words(t[k..])
  }

  /** `split()` finds no word exactly when the text is all whitespace. */
  lemma WordsNone(s: string)
    ensures Words(s) == [] <==> AllSpace(s)
  {
    var t := DropSpaces(s);
    DropSpacesSplits(s);
    if t == [] {
      assert s[..|s|] == s;
    } else {
      assert s[|s| - |t|] == t[0];
    }
  }

  /** Leading whitespace, a word, and then whitespace or nothing: `split()` yields the word, then the words of the rest. */
  lemma WordsOf(ws: string, w: string, rest: string)
    requires AllSpace(ws)
    requires w != [] && NoSpace(w)
    requires rest == [] || IsSpace(rest[0])
    ensures Words(ws + w + rest) == [w] + Words(rest)
  {
    var s := ws + w + rest;
    assert s == ws + (w + rest);
    DropSpacesOf(ws, w + rest);
    WordLengthOf(w, rest);
    assert (w + rest)[..|w|] == w;
    assert (w + rest)[|w|..] == rest;
  }
}
