/**
  Shared vocabulary of the model: optional values, the outcome of a network
  call as a client handler sees it, list operations with the meaning of
  Mongoose `push`/`pull` and of JavaScript `filter`, and the JavaScript string
  operations the filters rely on (`trim`, `toLowerCase`, `includes`).
 */
module Common {

  datatype Option<T> = None | Some(value: T)

  /** What an `axios` call hands back to a client handler: a response whose
      `success` flag is true (with its payload), one whose flag is false, or a
      thrown error (network failure or a non-2xx status). */
  datatype Outcome<T> = Success(payload: T) | Declined | Error

  // ---------------------------------------------------------------------------
  // Lists of ids: Mongoose `pull`, `push`, and the toggle built from them.
  // ---------------------------------------------------------------------------

  /** `s` with every occurrence of `x` removed, order kept.  This is both
      Mongoose's `array.pull(x)` and JavaScript's `s.filter(y => y !== x)`. */
  function Removed<T(==,!new)>(s: seq<T>, x: T): (r: seq<T>)
    ensures forall y :: y in r <==> y in s && y != x
    ensures |r| <= |s|
    ensures x in s ==> |r| < |s|
    ensures x !in s ==> r == s
    ensures multiset(r) == multiset(s)[x := 0]
  {
    if s == [] then []
    else
      assert s == [s[0]] + s[1..];
      if s[0] == x then Removed(s[1..], x)
      else [s[0]] + Removed(s[1..], x)
  }

  /** The membership toggle the controllers and handlers share:
      `includes(x) ? pull(x) : push(x)`. */
  function Toggled<T(==,!new)>(s: seq<T>, x: T): (r: seq<T>)
    ensures x in r <==> x !in s
    ensures forall y :: y != x ==> (y in r <==> y in s)
  {
    if x in s then Removed(s, x) else s + [x]
  }

  /** Pushing an absent element and pulling it again gives the list back. */
  lemma {:induction false} PullUndoesPush<T(!new)>(s: seq<T>, x: T)
    requires x !in s
    ensures Removed(s + [x], x) == s
  {
    if s == [] {
      assert s + [x] == [x];
    } else {
      assert (s + [x])[0] == s[0];
      assert (s + [x])[1..] == s[1..] + [x];
      PullUndoesPush(s[1..], x);
    }
  }

  /** Toggling twice from "absent" restores the list exactly (liking a post
      twice, bookmarking twice, following and unfollowing). */
  lemma ToggleTwiceFromAbsent<T(!new)>(s: seq<T>, x: T)
    requires x !in s
    ensures Toggled(Toggled(s, x), x) == s
  {
    assert x in s + [x];
    PullUndoesPush(s, x);
  }

  /** Toggling twice from "present" leaves the element present exactly once,
      at the end: duplicates that `pull` removed are not restored. */
  lemma ToggleTwiceFromPresent<T(!new)>(s: seq<T>, x: T)
    requires x in s
    ensures Toggled(Toggled(s, x), x) == Removed(s, x) + [x]
  {
  }

  // ---------------------------------------------------------------------------
  // Order-preserving sublists
  // ---------------------------------------------------------------------------

  /** `a` is obtained from `b` by dropping elements, without reordering. */
  predicate IsSubsequence<T(==)>(a: seq<T>, b: seq<T>)
    decreases |b|
  {
    if a == [] then true
    else if b == [] then false
    else if a[0] == b[0] then IsSubsequence(a[1..], b[1..])
    else IsSubsequence(a, b[1..])
  }

  lemma {:induction false} SubsequenceReflexive<T>(s: seq<T>)
    ensures IsSubsequence(s, s)
  {
    if s != [] {
      SubsequenceReflexive(s[1..]);
    }
  }

  lemma {:induction false} RemovedIsSubsequence<T(!new)>(s: seq<T>, x: T)
    ensures IsSubsequence(Removed(s, x), s)
  {
    if s != [] {
      RemovedIsSubsequence(s[1..], x);
      if s[0] != x {
        assert ([s[0]] + Removed(s[1..], x))[1..] == Removed(s[1..], x);
      } else {
        SubsequenceOfTail(Removed(s[1..], x), s);
      }
    }
  }

  /** A subsequence of the tail is a subsequence of the whole list. */
  lemma {:induction false} SubsequenceOfTail<T>(a: seq<T>, b: seq<T>)
    requires b != [] && IsSubsequence(a, b[1..])
    ensures IsSubsequence(a, b)
    decreases |b|, 0
  {
    if a != [] && a[0] == b[0] {
      // b[0] matches a[0]; a[1..] is a subsequence of b[1..] because a is.
      SubsequenceDropHead(a, b[1..]);
    }
  }

  lemma {:induction false} SubsequenceDropHead<T>(a: seq<T>, b: seq<T>)
    requires a != [] && IsSubsequence(a, b)
    ensures IsSubsequence(a[1..], b)
    decreases |b|, 1
  {
    if a[1..] != [] {
      assert b != [];
      if a[0] == b[0] {
        SubsequenceOfTail(a[1..], b);
      } else {
        SubsequenceDropHead(a, b[1..]);
        SubsequenceOfTail(a[1..], b);
      }
    }
  }

  // ---------------------------------------------------------------------------
  // JavaScript strings
  // ---------------------------------------------------------------------------

  /** The characters `String.prototype.trim` removes: ECMAScript WhiteSpace
      and LineTerminator code points. */
  predicate IsWhitespace(c: char) {
    var n := c as int;
    n == 0x09 || n == 0x0A || n == 0x0B || n == 0x0C || n == 0x0D || n == 0x20
    || n == 0xA0 || n == 0x1680 || (0x2000 <= n <= 0x200A) || n == 0x2028
    || n == 0x2029 || n == 0x202F || n == 0x205F || n == 0x3000 || n == 0xFEFF
  }

  /** Every character is whitespace: exactly the strings whose `trim()` is
      "" and is therefore falsy. */
  predicate IsBlank(s: string) {
    forall i :: 0 <= i < |s| ==> IsWhitespace(s[i])
  }

  /** `s` without its leading whitespace: a suffix of `s`, the dropped
      prefix is blank and what remains does not start with whitespace. */
  function TrimStart(s: string): (r: string)
    ensures |r| <= |s| && r == s[|s| - |r|..]
    ensures IsBlank(s[..|s| - |r|])
    ensures r != [] ==> !IsWhitespace(r[0])
  {
    if s != [] && IsWhitespace(s[0]) then
      var r := TrimStart(s[1..]);
      assert forall i :: 1 <= i < |s| - |r| ==> s[i] == s[1..][..|s| - 1 - |r|][i - 1];
      r
    else s
  }

  /** `s` without its trailing whitespace: a prefix of `s`, the dropped
      suffix is blank and what remains does not end with whitespace. */
  function TrimEnd(s: string): (r: string)
    ensures |r| <= |s| && r == s[..|r|]
    ensures IsBlank(s[|r|..])
    ensures r != [] ==> !IsWhitespace(r[|r| - 1])
  {
    if s != [] && IsWhitespace(s[|s| - 1]) then
      var r := TrimEnd(s[..|s| - 1]);
      assert forall i :: |r| <= i < |s| - 1 ==> s[i] == s[..|s| - 1][|r|..][i - |r|];
      r
    else s
  }

  /** JavaScript `s.trim()`. */
  function Trim(s: string): string {
    TrimEnd(TrimStart(s))
  }

  lemma TrimStartEmptyIffBlank(s: string)
    ensures TrimStart(s) == [] <==> IsBlank(s)
  {
    var r := TrimStart(s);
    if r == [] {
      assert s[..|s|] == s;
    } else {
      assert r[0] == s[|s| - |r|];
    }
  }

  /** A string trims to "" exactly when it is blank, so `!s.trim()` is the
      blank test. */
  lemma TrimEmptyIffBlank(s: string)
    ensures Trim(s) == [] <==> IsBlank(s)
  {
    TrimStartEmptyIffBlank(s);
    var t := TrimStart(s);
    if t != [] {
      assert TrimEnd(t) != [] by {
        TrimEndKeepsFirst(t);
      }
    }
  }

  lemma {:induction false} TrimEndKeepsFirst(t: string)
    requires t != [] && !IsWhitespace(t[0])
    ensures TrimEnd(t) != []
  {
    if IsWhitespace(t[|t| - 1]) {
      TrimEndKeepsFirst(t[..|t| - 1]);
    }
  }

  /** Trimming ignores one extra whitespace character at the start. */
  lemma TrimStartSkipsLead(c: char, s: string)
    requires IsWhitespace(c)
    ensures TrimStart([c] + s) == TrimStart(s)
  {
    assert ([c] + s)[1..] == s;
  }

  lemma TrimEndSkipsTrail(s: string, c: char)
    requires IsWhitespace(c)
    ensures TrimEnd(s + [c]) == TrimEnd(s)
  {
    assert (s + [c])[..|s + [c]| - 1] == s;
  }

  /** A blank prefix is trimmed away, whatever follows it. */
  lemma {:induction false} TrimStartSkipsBlank(p: string, s: string)
    requires IsBlank(p)
    ensures TrimStart(p + s) == TrimStart(s)
  {
    if p != [] {
      assert (p + s)[0] == p[0];
      assert (p + s)[1..] == p[1..] + s;
      assert IsBlank(p[1..]) by {
        forall i | 0 <= i < |p| - 1 ensures IsWhitespace(p[1..][i]) {
          assert p[1..][i] == p[i + 1];
        }
      }
      TrimStartSkipsBlank(p[1..], s);
    } else {
      assert p + s == s;
    }
  }

  /** Appending a blank suffix after the start has been trimmed. */
  lemma {:induction false} TrimStartAppendBlank(s: string, q: string)
    requires IsBlank(q)
    ensures TrimStart(s + q) == if TrimStart(s) == [] then [] else TrimStart(s) + q
  {
    if s == [] {
      assert s + q == q;
      TrimStartEmptyIffBlank(q);
    } else {
      assert (s + q)[0] == s[0];
      if IsWhitespace(s[0]) {
        assert (s + q)[1..] == s[1..] + q;
        TrimStartAppendBlank(s[1..], q);
      }
    }
  }

  /** A blank suffix is trimmed away, whatever precedes it. */
  lemma {:induction false} TrimEndSkipsBlank(t: string, q: string)
    requires IsBlank(q)
    ensures TrimEnd(t + q) == TrimEnd(t)
    decreases |q|
  {
    if q != [] {
      var q0, c := q[..|q| - 1], q[|q| - 1];
      assert q == q0 + [c];
      assert t + q == (t + q0) + [c];
      assert IsBlank(q0) by {
        forall i | 0 <= i < |q0| ensures IsWhitespace(q0[i]) {
          assert q0[i] == q[i];
        }
      }
      TrimEndSkipsTrail(t + q0, c);
      TrimEndSkipsBlank(t, q0);
    } else {
      assert t + q == t;
    }
  }

  /** `trim()` ignores any run of whitespace on either side. */
  lemma TrimIgnoresPadding(p: string, s: string, q: string)
    requires IsBlank(p) && IsBlank(q)
    ensures Trim(p + s + q) == Trim(s)
  {
    assert p + s + q == p + (s + q);
    TrimStartSkipsBlank(p, s + q);
    TrimStartAppendBlank(s, q);
    if TrimStart(s) != [] {
      TrimEndSkipsBlank(TrimStart(s), q);
    }
  }

  /** JavaScript `toLowerCase`, restricted to the ASCII letters. */
  function LowerChar(c: char): char {
    if 'A' <= c <= 'Z' then (c as int + 32) as char else c
  }

  function Lower(s: string): (r: string)
    ensures |r| == |s|
    ensures forall i :: 0 <= i < |s| ==> r[i] == LowerChar(s[i])
  {
    seq(|s|, i requires 0 <= i < |s| => LowerChar(s[i]))
  }

  lemma LowerChangesNoWhitespace(c: char)
    ensures IsWhitespace(LowerChar(c)) <==> IsWhitespace(c)
  {
  }

  /** Lower-casing neither creates nor removes blanks. */
  lemma LowerKeepsBlank(s: string)
    ensures IsBlank(Lower(s)) <==> IsBlank(s)
  {
    forall i | 0 <= i < |s| ensures IsWhitespace(Lower(s)[i]) <==> IsWhitespace(s[i]) {
      LowerChangesNoWhitespace(s[i]);
    }
  }

  lemma LowerIdempotent(s: string)
    ensures Lower(Lower(s)) == Lower(s)
  {
  }

  lemma LowerConcat(a: string, b: string)
    ensures Lower(a + b) == Lower(a) + Lower(b)
  {
    assert Lower(a + b) == Lower(a) + Lower(b);
  }

  /** JavaScript `hay.includes(needle)`. */
  predicate Contains(hay: string, needle: string)
    decreases |hay|
  {
    needle <= hay || (hay != [] && Contains(hay[1..], needle))
  }

  /** `needle` sits in `hay` at position `k`. */
  predicate OccursAt(hay: string, needle: string, k: int) {
    0 <= k && k + |needle| <= |hay| && hay[k..k + |needle|] == needle
  }

  lemma {:induction false} ContainsAt(hay: string, needle: string, k: nat)
    requires OccursAt(hay, needle, k)
    ensures Contains(hay, needle)
  {
    if k > 0 {
      assert hay[1..][k - 1..k - 1 + |needle|] == hay[k..k + |needle|];
      ContainsAt(hay[1..], needle, k - 1);
    }
  }

  lemma {:induction false} ContainsOccurs(hay: string, needle: string)
    requires Contains(hay, needle)
    ensures exists k :: OccursAt(hay, needle, k)
    decreases |hay|
  {
    if needle <= hay {
      assert OccursAt(hay, needle, 0);
    } else {
      ContainsOccurs(hay[1..], needle);
      var k :| OccursAt(hay[1..], needle, k);
      assert hay[1..][k..k + |needle|] == hay[k + 1..k + 1 + |needle|];
      assert OccursAt(hay, needle, k + 1);
    }
  }

  /** `includes` holds exactly when the needle occurs at some position. */
  lemma ContainsIffOccurs(hay: string, needle: string)
    ensures Contains(hay, needle) <==> exists k :: OccursAt(hay, needle, k)
  {
    if Contains(hay, needle) {
      ContainsOccurs(hay, needle);
    }
    if exists k :: OccursAt(hay, needle, k) {
      var k :| OccursAt(hay, needle, k);
      ContainsAt(hay, needle, k);
    }
  }

  /** The empty query is found in every string. */
  lemma EveryStringContainsEmpty(hay: string)
    ensures Contains(hay, "")
  {
  }
}
