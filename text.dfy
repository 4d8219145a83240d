/**
 * The Python string operations the routers rely on: `str.startswith`,
 * `str.split(sep)` with a one-character separator, `str.replace(c, "")` and
 * `str.lower()` (ASCII letters only).
 */
module Text {

  /** The authentication scheme prefix written into the `access_token` cookie. */
  const Bearer: string := "Bearer "

  /** Python's `s.startswith(prefix)`. */
  predicate StartsWith(s: string, prefix: string) {
    |prefix| <= |s| && s[..|prefix|] == prefix
  }

  /**
   * The cookie test both page routers apply: `not cookie or not cookie.startswith("Bearer ")`
   * is its negation.
   */
  predicate BearerCookie(cookie: string) {
    cookie != "" && StartsWith(cookie, Bearer)
  }

  /** `cookie[len("Bearer "):]`: the token a bearer cookie carries. */
  function StripBearer(cookie: string): (token: string)
    requires BearerCookie(cookie)
    ensures Bearer + token == cookie
  {
    cookie[|Bearer|..]
  }

  /** The text of `s` up to (not including) the first `c`; all of `s` when there is none. */
  function Before(s: string, c: char): (r: string)
    ensures c !in r
    ensures r <= s
    ensures |r| < |s| <==> c in s
    ensures |r| < |s| ==> s[|r|] == c
  {
    if s == [] then []
    else if s[0] == c then []
    else [s[0]] + Before(s[1..], c)
  }

  /** The text of `s` after its first `c`. */
  function After(s: string, c: char): (r: string)
    requires c in s
    ensures s == Before(s, c) + [c] + r
  {
    if s[0] == c then s[1..] else After(s[1..], c)
  }

  /** Cutting at the first `c` of `a + [c] + b`, where `a` holds no `c`, gives back `a` and `b`. */
  lemma {:induction false} BeforeAfterAt(a: string, b: string, c: char)
    requires c !in a
    ensures Before(a + [c] + b, c) == a
    ensures After(a + [c] + b, c) == b
  {
    if a != [] {
      assert (a + [c] + b)[1..] == a[1..] + [c] + b;
      BeforeAfterAt(a[1..], b, c);
    }
  }

  /** Python's `s.split(sep)`: the pieces between occurrences of `sep`, empty pieces kept. */
  function Split(s: string, sep: char): (parts: seq<string>)
    ensures |parts| >= 1
    ensures |parts| == 1 <==> sep !in s
    ensures forall i :: 0 <= i < |parts| ==> sep !in parts[i]
  {
    if s == [] then [[]]
    else
      var rest := Split(s[1..], sep);
      if s[0] == sep then [[]] + rest
      else [[s[0]] + rest[0]] + rest[1..]
  }

  /** Python's `sep.join(parts)`, the inverse of `Split`. */
  function Join(parts: seq<string>, sep: char): string
    requires |parts| >= 1
  {
    if |parts| == 1 then parts[0] else parts[0] + [sep] + Join(parts[1..], sep)
  }

  /** Splitting and joining again gives back the original text. */
  lemma {:induction false} JoinSplit(s: string, sep: char)
    ensures Join(Split(s, sep), sep) == s
  {
    if s != [] {
      var rest := Split(s[1..], sep);
      JoinSplit(s[1..], sep);
      if s[0] == sep {
        assert Split(s, sep) == [[]] + rest;
        assert Split(s, sep)[1..] == rest;
      } else {
        var parts := Split(s, sep);
        assert parts == [[s[0]] + rest[0]] + rest[1..];
        if |rest| == 1 {
          assert parts == [[s[0]] + rest[0]];
        } else {
          assert parts[1..] == rest[1..];
          assert Join(rest, sep) == rest[0] + [sep] + Join(rest[1..], sep);
        }
      }
    }
  }

  /** The first piece of a split is the text before the first separator; the others split what follows it. */
  lemma {:induction false} SplitFirst(s: string, sep: char)
    ensures Split(s, sep)[0] == Before(s, sep)
    ensures sep in s ==> Split(s, sep)[1..] == Split(After(s, sep), sep)
  {
    if s != [] && s[0] != sep {
      SplitFirst(s[1..], sep);
    }
  }

  /** The second piece of a split, when there is one, is the text between the first and second separator. */
  lemma SplitSecond(s: string, sep: char)
    requires sep in s
    ensures Split(s, sep)[1] == Before(After(s, sep), sep)
  {
    SplitFirst(s, sep);
    SplitFirst(After(s, sep), sep);
  }

  /** Python's `s.replace(c, "")`: every occurrence of `c` deleted. */
  function Remove(s: string, c: char): (r: string)
    ensures c !in r
    ensures |r| <= |s|
    ensures c !in s ==> r == s
    ensures forall x :: x != c ==> multiset(r)[x] == multiset(s)[x]
  {
    if s == [] then []
    else
      assert s == [s[0]] + s[1..];
      if s[0] == c then Remove(s[1..], c) else [s[0]] + Remove(s[1..], c)
  }

  /** Deleting a character distributes over concatenation. */
  lemma {:induction false} RemoveConcat(a: string, b: string, c: char)
    ensures Remove(a + b, c) == Remove(a, c) + Remove(b, c)
  {
    if a == [] {
      assert a + b == b;
    } else {
      assert (a + b)[0] == a[0] && (a + b)[1..] == a[1..] + b;
      RemoveConcat(a[1..], b, c);
    }
  }

  /** An ASCII capital letter. */
  predicate Upper(ch: char) {
    'A' <= ch <= 'Z'
  }

  /** Two characters that are equal, or an ASCII capital and its small letter (32 code points on). */
  predicate SameLetter(a: char, b: char) {
    a == b || (Upper(a) && b as int == a as int + 32) || (Upper(b) && a as int == b as int + 32)
  }

  /** Two texts that agree position by position when ASCII letter case is ignored. */
  predicate SameUpToCase(a: string, b: string) {
    |a| == |b| && forall i :: 0 <= i < |a| ==> SameLetter(a[i], b[i])
  }

  /** Python's `ch.lower()` restricted to ASCII. */
  function LowerChar(ch: char): char {
    if Upper(ch) then (ch as int + 32) as char else ch
  }

  /** Python's `s.lower()` restricted to ASCII. */
  function Lower(s: string): (r: string)
    ensures |r| == |s|
  {
    seq(|s|, i requires 0 <= i < |s| => LowerChar(s[i]))
  }

  /** Lowering changes only letter case and leaves no capital letter. */
  lemma LowerCase(s: string)
    ensures SameUpToCase(s, Lower(s))
    ensures forall i :: 0 <= i < |s| ==> !Upper(Lower(s)[i])
  {
  }

  /** Two texts lower to the same text exactly when they differ only in letter case. */
  lemma LowerEqual(a: string, b: string)
    ensures Lower(a) == Lower(b) <==> SameUpToCase(a, b)
  {
    LowerCase(a);
    LowerCase(b);
    if SameUpToCase(a, b) {
      forall i | 0 <= i < |a| ensures Lower(a)[i] == Lower(b)[i] {
        assert LowerChar(a[i]) == LowerChar(b[i]);
      }
    }
    if Lower(a) == Lower(b) {
      forall i | 0 <= i < |a| ensures SameLetter(a[i], b[i]) {
        assert LowerChar(a[i]) == LowerChar(b[i]);
      }
    }
  }
}
