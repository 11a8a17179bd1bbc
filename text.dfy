/** The JavaScript string operations the editor relies on (`trim`, `toUpperCase`,
    `includes`, `join`, `slice`, `replace(/:/g, ...)` and number-to-string
    conversion), modelled on `string` = `seq<char>`. */
module Text {

  /** The code points ECMAScript counts as WhiteSpace or LineTerminator: exactly
      the characters `String.prototype.trim` strips from both ends. */
  predicate IsWhitespace(ch: char) {
    || ch == ' ' || ch == '\t' || ch == '\n' || ch == '\r'
    || ch == '\U{000B}' || ch == '\U{000C}' || ch == '\U{00A0}' || ch == '\U{1680}'
    || ('\U{2000}' <= ch <= '\U{200A}')
    || ch == '\U{2028}' || ch == '\U{2029}' || ch == '\U{202F}' || ch == '\U{205F}'
    || ch == '\U{3000}' || ch == '\U{FEFF}'
  }

  /** `s` with its leading whitespace removed: a suffix of `s` that starts with a
      non-whitespace character, everything before it being whitespace. */
  function TrimStart(s: string): (r: string)
    ensures |r| <= |s| && r == s[|s| - |r|..]
    ensures forall i :: 0 <= i < |s| - |r| ==> IsWhitespace(s[i])
    ensures r == [] || !IsWhitespace(r[0])
  {
    if |s| > 0 && IsWhitespace(s[0]) then TrimStart(s[1..]) else s
  }

  /** `s` with its trailing whitespace removed: a prefix of `s` that ends with a
      non-whitespace character, everything after it being whitespace. */
  function TrimEnd(s: string): (r: string)
    ensures |r| <= |s| && r == s[..|r|]
    ensures forall i :: |r| <= i < |s| ==> IsWhitespace(s[i])
    ensures r == [] || !IsWhitespace(r[|r| - 1])
  {
    if |s| > 0 && IsWhitespace(s[|s| - 1]) then TrimEnd(s[..|s| - 1]) else s
  }

  /** `String.prototype.trim`. The result is empty exactly when `s` is blank,
      never starts or ends with whitespace, and is `s` itself when `s` already
      does not start or end with whitespace. */
  function Trim(s: string): (r: string)
    ensures |r| <= |s|
    ensures r == [] <==> forall i :: 0 <= i < |s| ==> IsWhitespace(s[i])
    ensures r == [] || (!IsWhitespace(r[0]) && !IsWhitespace(r[|r| - 1]))
    ensures |s| > 0 && !IsWhitespace(s[0]) && !IsWhitespace(s[|s| - 1]) ==> r == s
  {
    var t := TrimStart(s);
    var r := TrimEnd(t);
    assert r != [] ==> r[0] == t[0];
    r
  }

  /** `trim` removes only whitespace, and only at the two ends: the result is
      the slice of `s` starting at `k`, everything before it and after it being
      whitespace. */
  lemma TrimSlice(s: string) returns (k: nat)
    ensures k + |Trim(s)| <= |s| && Trim(s) == s[k..k + |Trim(s)|]
    ensures forall i :: 0 <= i < k ==> IsWhitespace(s[i])
    ensures forall i :: k + |Trim(s)| <= i < |s| ==> IsWhitespace(s[i])
  {
    var t := TrimStart(s);
    k := |s| - |t|;
    var r := TrimEnd(t);
    assert r == Trim(s);
    assert t == s[k..];
    assert r == t[..|r|];
    assert r == s[k..k + |r|];
    forall i | k + |r| <= i < |s|
      ensures IsWhitespace(s[i])
    {
      assert s[i] == t[i - k];
    }
  }

  /** Trimming whitespace off the end of a string whose first and last
      characters are not whitespace gives that string back. */
  lemma {:induction false} TrimDropsTrailingWhitespace(s: string, w: string)
    requires |s| > 0 && !IsWhitespace(s[0]) && !IsWhitespace(s[|s| - 1])
    requires forall i :: 0 <= i < |w| ==> IsWhitespace(w[i])
    ensures Trim(s + w) == s
  {
    var x := s + w;
    assert x[0] == s[0];
    var r := TrimEnd(x);
    assert r == x[..|s|] == s;
  }

  /** Trimming twice is trimming once. */
  lemma TrimIdempotent(s: string)
    ensures Trim(Trim(s)) == Trim(s)
  {
  }

  /** `toUpperCase` restricted to ASCII: `a`..`z` become `A`..`Z`, every other
      character is kept. */
  function UpperChar(ch: char): (r: char)
    ensures !('a' <= r <= 'z')
    ensures ('a' <= ch <= 'z') ==> r as int == ch as int - 32
    ensures !('a' <= ch <= 'z') ==> r == ch
  {
    if 'a' <= ch <= 'z' then (ch as int - 32) as char else ch
  }

  function Upper(s: string): (r: string)
    ensures |r| == |s|
    ensures forall i :: 0 <= i < |s| ==> r[i] == UpperChar(s[i])
  {
    if |s| == 0 then "" else [UpperChar(s[0])] + Upper(s[1..])
  }

  /** Upper-casing is idempotent: an upper-cased string has no lower-case ASCII
      letter left. */
  lemma UpperIdempotent(s: string)
    ensures Upper(Upper(s)) == Upper(s)
  {
    assert forall i :: 0 <= i < |s| ==> UpperChar(Upper(s)[i]) == Upper(s)[i];
  }

  /** Upper-casing works character by character, so it distributes over
      concatenation. */
  lemma UpperAppend(a: string, b: string)
    ensures Upper(a + b) == Upper(a) + Upper(b)
  {
    var u := Upper(a + b);
    assert forall i :: 0 <= i < |a| ==> (a + b)[i] == a[i];
    assert forall i :: |a| <= i < |a + b| ==> (a + b)[i] == b[i - |a|];
  }

  /** A string without lower-case ASCII letters is its own upper-casing. */
  lemma UpperKeeps(s: string)
    requires forall i :: 0 <= i < |s| ==> !('a' <= s[i] <= 'z')
    ensures Upper(s) == s
  {
  }

  /** `String.prototype.startsWith`. */
  predicate StartsWith(s: string, prefix: string) {
    |prefix| <= |s| && s[..|prefix|] == prefix
  }

  /** `part` occurs in `s` at index `i`, compared from its `k`-th character on
      (written one character at a time so that literal arguments evaluate). */
  predicate MatchesFrom(s: string, part: string, i: nat, k: nat)
    decreases |part| - k
  {
    k >= |part| || (i + k < |s| && s[i + k] == part[k] && MatchesFrom(s, part, i, k + 1))
  }

  predicate ContainsFrom(s: string, part: string, i: nat)
    decreases |s| - i
  {
    i + |part| <= |s| && (MatchesFrom(s, part, i, 0) || ContainsFrom(s, part, i + 1))
  }

  /** `String.prototype.includes`. */
  predicate Contains(s: string, part: string) {
    ContainsFrom(s, part, 0)
  }

  /** `part` stands in `s` as the slice starting at index `j`. */
  predicate OccursAt(s: string, part: string, j: nat) {
    j + |part| <= |s| && s[j..j + |part|] == part
  }

  lemma {:induction false} MatchesFromSlice(s: string, part: string, i: nat, k: nat)
    requires i + |part| <= |s| && k <= |part|
    ensures MatchesFrom(s, part, i, k) <==> s[i + k..i + |part|] == part[k..]
    decreases |part| - k
  {
    if k < |part| {
      MatchesFromSlice(s, part, i, k + 1);
      assert s[i + k..i + |part|] == [s[i + k]] + s[i + k + 1..i + |part|];
      assert part[k..] == [part[k]] + part[k + 1..];
    }
  }

  lemma {:induction false} ContainsFromOccurs(s: string, part: string, i: nat)
    ensures ContainsFrom(s, part, i) <==> exists j :: i <= j && OccursAt(s, part, j)
    decreases |s| - i
  {
    if i + |part| <= |s| {
      MatchesFromSlice(s, part, i, 0);
      ContainsFromOccurs(s, part, i + 1);
      assert MatchesFrom(s, part, i, 0) <==> OccursAt(s, part, i);
      if exists j :: i <= j && OccursAt(s, part, j) {
        var j :| i <= j && OccursAt(s, part, j);
        if j > i {
          assert i + 1 <= j;
        }
      }
    }
  }

  /** `includes` holds exactly when the part stands somewhere in `s` as a
      contiguous slice. */
  lemma ContainsOccurs(s: string, part: string)
    ensures Contains(s, part) <==> exists j :: OccursAt(s, part, j)
  {
    ContainsFromOccurs(s, part, 0);
  }

  /** `Array.prototype.join(sep)`: the parts in order with `sep` between
      neighbours. */
  function Join(parts: seq<string>, sep: string): string {
    if |parts| == 0 then ""
    else if |parts| == 1 then parts[0]
    else Join(parts[..|parts| - 1], sep) + sep + parts[|parts| - 1]
  }

  /** Joining a concatenation of two non-empty lists puts one separator between
      the two joins. */
  lemma {:induction false} JoinAppend(a: seq<string>, b: seq<string>, sep: string)
    requires |a| > 0 && |b| > 0
    ensures Join(a + b, sep) == Join(a, sep) + sep + Join(b, sep)
    decreases |b|
  {
    var ab := a + b;
    if |b| == 1 {
      assert ab[..|ab| - 1] == a;
    } else {
      var b' := b[..|b| - 1];
      assert ab[..|ab| - 1] == a + b';
      JoinAppend(a, b', sep);
      assert b[..|b| - 1] == b';
    }
  }

  /** The strings one after another, with nothing between them. */
  function Concat(parts: seq<string>): string {
    if |parts| == 0 then "" else Concat(parts[..|parts| - 1]) + parts[|parts| - 1]
  }

  /** Concatenating a concatenation of lists is concatenating each list. */
  lemma {:induction false} ConcatAppend(a: seq<string>, b: seq<string>)
    ensures Concat(a + b) == Concat(a) + Concat(b)
    decreases |b|
  {
    if |b| == 0 {
      assert a + b == a;
    } else {
      var b' := b[..|b| - 1];
      var last := b[|b| - 1];
      assert (a + b)[..|a + b| - 1] == a + b';
      assert (a + b)[|a + b| - 1] == last;
      ConcatAppend(a, b');
      calc {
        Concat(a + b);
        Concat(a + b') + last;
        (Concat(a) + Concat(b')) + last;
        Concat(a) + (Concat(b') + last);
        Concat(a) + Concat(b);
      }
    }
  }

  lemma ConcatSingleton(x: string)
    ensures Concat([x]) == x
  {
    assert [x][..0] == [];
  }

  /** Equal texts with equal endings removed are equal. */
  lemma CancelSuffix(x: string, y: string, z: string)
    requires x + z == y + z
    ensures x == y
  {
    assert x == (x + z)[..|x|];
  }

  /** A common prefix can be cancelled. */
  lemma CancelPrefix(z: string, x: string, y: string)
    requires z + x == z + y
    ensures x == y
  {
    assert x == (z + x)[|z|..];
  }

  lemma AppendAssoc(a: string, b: string, c: string)
    ensures a + (b + c) == a + b + c
  {
  }

  /** Appending pieces one by one is appending their concatenation. */
  lemma Regroup(h: string, a: string, b: string, c: string, d: string)
    ensures h + a + b + c + d == h + (a + b + c + d)
  {
  }

  /** A conditional `+=`: appending `text` when `present`, and nothing
      otherwise. */
  lemma AppendWhen(before: string, after: string, present: bool, text: string)
    requires after == if present then before + text else before
    ensures after == before + (if present then text else "")
  {
    if !present {
      assert before + "" == before;
    }
  }

  /** `String.prototype.slice(0, n)`: at most the first `n` characters. */
  function Prefix(s: string, n: nat): (r: string)
    ensures |r| == if n <= |s| then n else |s|
    ensures r == s[..|r|]
  {
    if n <= |s| then s[..n] else s
  }

  /** `s.replace(/c/g, d)`: every occurrence of `c` replaced by `d`. */
  function ReplaceAll(s: string, c: char, d: char): (r: string)
    ensures |r| == |s|
    ensures forall i :: 0 <= i < |s| ==> r[i] == if s[i] == c then d else s[i]
    ensures c != d ==> c !in r
  {
    if |s| == 0 then "" else [if s[0] == c then d else s[0]] + ReplaceAll(s[1..], c, d)
  }

  function DigitChar(d: nat): (ch: char)
    requires d < 10
    ensures '0' <= ch <= '9'
  {
    ('0' as int + d) as char
  }

  /** A natural number in decimal, as template literals render `Date.now()`. */
  function Decimal(n: nat): (r: string)
    ensures |r| > 0
    ensures forall i :: 0 <= i < |r| ==> '0' <= r[i] <= '9'
  {
    if n < 10 then [DigitChar(n)] else Decimal(n / 10) + [DigitChar(n % 10)]
  }

  /** The value a string of decimal digits denotes. */
  function DigitsValue(s: string): nat
    requires forall i :: 0 <= i < |s| ==> '0' <= s[i] <= '9'
  {
    if |s| == 0 then 0 else DigitsValue(s[..|s| - 1]) * 10 + (s[|s| - 1] as int - '0' as int)
  }

  /** Reading the decimal text back gives the number: decimal rendering is
      injective. */
  lemma {:induction false} DecimalRoundTrip(n: nat)
    ensures DigitsValue(Decimal(n)) == n
  {
    if n >= 10 {
      DecimalRoundTrip(n / 10);
      var r := Decimal(n);
      assert r[..|r| - 1] == Decimal(n / 10);
    }
  }

  lemma DecimalInjective(n: nat, m: nat)
    requires Decimal(n) == Decimal(m)
    ensures n == m
  {
    DecimalRoundTrip(n);
    DecimalRoundTrip(m);
  }
}
