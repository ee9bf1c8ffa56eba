/**
 * Text operations the core relies on: ASCII case folding, substring tests,
 * SQLite's LIKE operator and decimal rendering of counters.
 */
module Text {

  /** ASCII lower-casing of one character; every other character is kept. */
  function LowerChar(c: char): char {
    if 'A' <= c <= 'Z' then (c as int + 32) as char else c
  }

  function Lower(s: string): (r: string)
    ensures |r| == |s|
    ensures forall i :: 0 <= i < |s| ==> r[i] == LowerChar(s[i])
  {
    seq(|s|, i requires 0 <= i < |s| => LowerChar(s[i]))
  }

  /** ASCII upper-casing of one character; every other character is kept. */
  function UpperChar(c: char): char {
    if 'a' <= c <= 'z' then (c as int - 32) as char else c
  }

  function Upper(s: string): (r: string)
    ensures |r| == |s|
    ensures forall i :: 0 <= i < |s| ==> r[i] == UpperChar(s[i])
  {
    seq(|s|, i requires 0 <= i < |s| => UpperChar(s[i]))
  }

  /** `sub` occurs in `s` starting at position `i`. */
  predicate OccursAt(s: string, sub: string, i: int) {
    0 <= i && i + |sub| <= |s| && s[i..i + |sub|] == sub
  }

  /** `s.includes(sub)`: some window of `s` equals `sub`. */
  predicate Contains(s: string, sub: string) {
    exists i :: 0 <= i <= |s| && OccursAt(s, sub, i)
  }

  predicate StartsWith(s: string, prefix: string) {
    |prefix| <= |s| && s[..|prefix|] == prefix
  }

  // ─── SQLite LIKE ────────────────────────────────────────

  /**
   * `s LIKE p` without an ESCAPE clause: `%` matches any run of characters,
   * `_` exactly one, and every other character matches itself up to ASCII case.
   */
  function Like(s: string, p: string): bool
    decreases |s| + |p|
  {
    if |p| == 0 then |s| == 0
    else if p[0] == '%' then Like(s, p[1..]) || (|s| > 0 && Like(s[1..], p))
    else |s| > 0 && (p[0] == '_' || LowerChar(s[0]) == LowerChar(p[0])) && Like(s[1..], p[1..])
  }

  /** The pattern `%q%` the stores build for a search query. */
  function ContainsPattern(q: string): string {
    "%" + q + "%"
  }

  predicate WildcardFree(q: string) {
    forall i :: 0 <= i < |q| ==> q[i] != '%' && q[i] != '_'
  }

  /** `q` occurs in `s` at position `i`, up to ASCII case. */
  predicate FoldedAt(s: string, q: string, i: int) {
    0 <= i && i + |q| <= |s| && Lower(s[i..i + |q|]) == Lower(q)
  }

  /** `s` contains `q` somewhere, up to ASCII case. */
  ghost predicate ContainsFolded(s: string, q: string) {
    exists i :: FoldedAt(s, q, i)
  }

  lemma {:induction false} PercentMatchesAll(s: string)
    ensures Like(s, "%")
    decreases |s|
  {
    assert "%"[1..] == [];
    if |s| > 0 {
      PercentMatchesAll(s[1..]);
    }
  }

  /** A wildcard-free `q` followed by `%` matches exactly the texts that start with `q` up to case. */
  lemma {:induction false} PrefixPattern(s: string, q: string)
    requires WildcardFree(q)
    ensures Like(s, q + "%") <==> FoldedAt(s, q, 0)
    decreases |q|
  {
    if |q| == 0 {
      assert q + "%" == "%";
      PercentMatchesAll(s);
    } else {
      var p := q + "%";
      assert p[0] == q[0] && p[1..] == q[1..] + "%";
      if |s| > 0 {
        PrefixPattern(s[1..], q[1..]);
        if FoldedAt(s, q, 0) {
          assert Lower(s[..|q|])[0] == Lower(q)[0];
          assert s[1..][0..|q| - 1] == s[1..|q|];
          assert Lower(s[1..|q|]) == Lower(s[..|q|])[1..];
          assert Lower(q[1..]) == Lower(q)[1..];
        }
        if Like(s, p) {
          assert LowerChar(s[0]) == LowerChar(q[0]);
          assert s[1..][0..|q| - 1] == s[1..|q|];
          assert Lower(s[1..|q|]) == Lower(q[1..]);
          assert Lower(s[..|q|]) == [LowerChar(s[0])] + Lower(s[1..|q|]);
          assert Lower(q) == [LowerChar(q[0])] + Lower(q[1..]);
        }
      }
    }
  }

  /** A leading `%` lets the rest of the pattern match any suffix. */
  lemma {:induction false} LeadingPercent(s: string, r: string)
    ensures Like(s, "%" + r) <==> exists i :: 0 <= i <= |s| && Like(s[i..], r)
    decreases |s|
  {
    var p := "%" + r;
    assert p[0] == '%' && p[1..] == r;
    assert s[0..] == s;
    if |s| > 0 {
      LeadingPercent(s[1..], r);
      if Like(s[1..], p) {
        var i :| 0 <= i <= |s[1..]| && Like(s[1..][i..], r);
        assert s[1..][i..] == s[i + 1..];
      }
      if exists i :: 0 <= i <= |s| && Like(s[i..], r) {
        var i :| 0 <= i <= |s| && Like(s[i..], r);
        if i > 0 {
          assert s[1..][i - 1..] == s[i..];
        }
      }
    }
  }

  /**
   * For a query without wildcards, `x LIKE '%q%'` holds exactly when `q`
   * occurs somewhere in `x`, compared up to ASCII case.
   */
  lemma LikeContains(s: string, q: string)
    requires WildcardFree(q)
    ensures Like(s, ContainsPattern(q)) <==> exists i :: FoldedAt(s, q, i)
  {
    assert ContainsPattern(q) == "%" + (q + "%");
    LeadingPercent(s, q + "%");
    forall i | 0 <= i <= |s|
      ensures Like(s[i..], q + "%") <==> FoldedAt(s, q, i)
    {
      PrefixPattern(s[i..], q);
      if i + |q| <= |s| {
        assert s[i..][..|q|] == s[i..i + |q|];
      }
    }
  }

  /** `parts.join(sep)`. */
  function JoinWith(parts: seq<string>, sep: string): string
    decreases |parts|
  {
    if |parts| == 0 then ""
    else if |parts| == 1 then parts[0]
    else parts[0] + sep + JoinWith(parts[1..], sep)
  }

  // ─── Numbers ─────────────────────────────────────────────

  function DigitChar(d: nat): char
    requires d < 10
  {
    ('0' as int + d) as char
  }

  /** The number a string of decimal digits denotes, most significant digit first. */
  function DecimalValue(s: string): nat
    requires forall i :: 0 <= i < |s| ==> '0' <= s[i] <= '9'
  {
    if |s| == 0 then 0
    else DecimalValue(s[..|s| - 1]) * 10 + (s[|s| - 1] as int - '0' as int)
  }

  /** Decimal rendering, as a template literal renders a number. */
  function NatToString(n: nat): (r: string)
    ensures |r| >= 1
    ensures forall i :: 0 <= i < |r| ==> '0' <= r[i] <= '9'
    decreases n
  {
    if n < 10 then [DigitChar(n)] else NatToString(n / 10) + [DigitChar(n % 10)]
  }

  /** The digits `NatToString` renders denote the number, and only zero itself starts with a `0`. */
  lemma {:induction false} NatToStringValue(n: nat)
    ensures DecimalValue(NatToString(n)) == n
    ensures NatToString(n)[0] == '0' <==> n == 0
    ensures n == 0 ==> NatToString(n) == "0"
    decreases n
  {
    if n >= 10 {
      NatToStringValue(n / 10);
      var front := NatToString(n / 10);
      var r := NatToString(n);
      assert r == front + [DigitChar(n % 10)];
      assert r[..|r| - 1] == front;
      assert DecimalValue(r) == DecimalValue(front) * 10 + n % 10;
    }
  }

  /** `s.substring(0, n)`. */
  function Prefix(s: string, n: nat): (r: string)
    ensures |r| == if |s| < n then |s| else n
    ensures r <= s
  {
    if |s| < n then s else s[..n]
  }
}
