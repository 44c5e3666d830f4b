/** String operations the source takes from its languages' runtimes:
    `trim`/`strip`, `toLowerCase`/`lower`, `split`, `join`, `includes`/`in`,
    and decimal formatting of a natural number. Only ASCII letters and
    ASCII whitespace are treated specially. */
module Strings {

  /** ASCII whitespace: space, tab, line feed, vertical tab, form feed, carriage return. */
  predicate IsSpace(c: char) {
    c == ' ' || c == '\t' || c == '\n' || c == '\r' || c == '\U{B}' || c == '\U{C}'
  }

  /** The number of whitespace characters at the start of `s`. */
  function LeadingSpaces(s: string): (n: nat)
    ensures n <= |s|
    ensures forall k :: 0 <= k < n ==> IsSpace(s[k])
    ensures n < |s| ==> !IsSpace(s[n])
  {
    if |s| > 0 && IsSpace(s[0]) then 1 + LeadingSpaces(s[1..]) else 0
  }

  /** The number of whitespace characters at the end of `s`. */
  function TrailingSpaces(s: string): (n: nat)
    ensures n <= |s|
    ensures forall k :: |s| - n <= k < |s| ==> IsSpace(s[k])
    ensures n < |s| ==> !IsSpace(s[|s| - 1 - n])
  {
    if |s| > 0 && IsSpace(s[|s| - 1]) then 1 + TrailingSpaces(s[..|s| - 1]) else 0
  }

  /** `s.trim()` in JavaScript, `s.strip()` in Python. */
  function Trim(s: string): (r: string)
    ensures |r| <= |s|
    ensures |r| > 0 ==> !IsSpace(r[0]) && !IsSpace(r[|r| - 1])
    ensures (forall k :: 0 <= k < |s| ==> IsSpace(s[k])) ==> r == ""
    ensures |s| > 0 && !IsSpace(s[0]) && !IsSpace(s[|s| - 1]) ==> r == s
  {
    var lead := LeadingSpaces(s);
    var rest := s[lead..];
    var trail := TrailingSpaces(rest);
    assert |s| > 0 && !IsSpace(s[0]) ==> lead == 0;
    rest[..|rest| - trail]
  }

  lemma TrimIdempotent(s: string)
    ensures Trim(Trim(s)) == Trim(s)
  {
  }

  function LowerChar(c: char): char {
    if 'A' <= c <= 'Z' then (c as int + 32) as char else c
  }

  /** `s.toLowerCase()` in JavaScript, `s.lower()` in Python, on ASCII letters. */
  function Lower(s: string): (r: string)
    ensures |r| == |s|
    ensures forall k :: 0 <= k < |s| ==> r[k] == LowerChar(s[k])
  {
    seq(|s|, k requires 0 <= k < |s| => LowerChar(s[k]))
  }

  lemma LowerIdempotent(s: string)
    ensures Lower(Lower(s)) == Lower(s)
  {
  }

  lemma LowerPrefix(s: string, n: nat)
    requires n <= |s|
    ensures Lower(s[..n]) == Lower(s)[..n]
  {
  }

  lemma {:induction false} LeadingSpacesLower(s: string)
    ensures LeadingSpaces(Lower(s)) == LeadingSpaces(s)
    decreases |s|
  {
    if |s| > 0 {
      assert Lower(s)[1..] == Lower(s[1..]);
      LeadingSpacesLower(s[1..]);
    }
  }

  lemma {:induction false} TrailingSpacesLower(s: string)
    ensures TrailingSpaces(Lower(s)) == TrailingSpaces(s)
    decreases |s|
  {
    if |s| > 0 {
      assert Lower(s)[..|s| - 1] == Lower(s[..|s| - 1]);
      TrailingSpacesLower(s[..|s| - 1]);
    }
  }

  lemma TrimParts(s: string)
    ensures var rest := s[LeadingSpaces(s)..];
      Trim(s) == rest[..|rest| - TrailingSpaces(rest)]
  {
  }

  lemma LowerSuffix(s: string, i: nat)
    requires i <= |s|
    ensures Lower(s[i..]) == Lower(s)[i..]
  {
  }

  lemma LowerRest(s: string)
    ensures Lower(s)[LeadingSpaces(Lower(s))..] == Lower(s[LeadingSpaces(s)..])
  {
    LeadingSpacesLower(s);
    LowerSuffix(s, LeadingSpaces(s));
  }

  /** Lowercasing and trimming commute: case never turns a character into
      whitespace or back. */
  lemma TrimLower(s: string)
    ensures Trim(Lower(s)) == Lower(Trim(s))
  {
    var rest := s[LeadingSpaces(s)..];
    TrimParts(s);
    TrimParts(Lower(s));
    LowerRest(s);
    TrailingSpacesLower(rest);
    LowerPrefix(rest, |rest| - TrailingSpaces(rest));
  }

  /** `s.split(sep)` with a one-character separator: every separator ends a piece,
      so `""` gives `[""]` and `"a,,b"` gives `["a", "", "b"]`. */
  function Split(s: string, sep: char): (parts: seq<string>)
    ensures |parts| >= 1
  {
    if s == [] then [""]
    else if s[0] == sep then [""] + Split(s[1..], sep)
    else
      var rest := Split(s[1..], sep);
      [[s[0]] + rest[0]] + rest[1..]
  }

  /** `sep.join(xs)` in Python, `xs.join(sep)` in JavaScript. */
  function Join(sep: string, xs: seq<string>): string {
    if |xs| == 0 then ""
    else if |xs| == 1 then xs[0]
    else xs[0] + sep + Join(sep, xs[1..])
  }

  lemma {:induction false} JoinSnoc(sep: string, xs: seq<string>, x: string)
    requires |xs| >= 1
    ensures Join(sep, xs + [x]) == Join(sep, xs) + sep + x
  {
    if |xs| == 1 {
      assert xs + [x] == [xs[0], x];
    } else {
      assert (xs + [x])[1..] == xs[1..] + [x];
      JoinSnoc(sep, xs[1..], x);
    }
  }

  /** Splitting undoes joining when no piece holds the separator. */
  lemma {:induction false} SplitJoin(xs: seq<string>, sep: char)
    requires |xs| >= 1
    requires forall k :: 0 <= k < |xs| ==> sep !in xs[k]
    ensures Split(Join([sep], xs), sep) == xs
  {
    if |xs| == 1 {
      SplitWithout(xs[0], sep);
    } else {
      var tail := xs[1..];
      assert forall k :: 0 <= k < |tail| ==> sep !in tail[k] by {
        forall k | 0 <= k < |tail| ensures sep !in tail[k] {
          assert tail[k] == xs[k + 1];
        }
      }
      SplitJoin(tail, sep);
      var t := Join([sep], tail);
      assert Join([sep], xs) == xs[0] + [sep] + t;
      assert sep !in xs[0];
      SplitAfter(xs[0], sep, t);
      assert xs == [xs[0]] + tail;
    }
  }

  /** Joining undoes splitting. */
  lemma {:induction false} JoinSplit(s: string, sep: char)
    ensures Join([sep], Split(s, sep)) == s
  {
    if s != [] {
      JoinSplit(s[1..], sep);
      var rest := Split(s[1..], sep);
      assert s == [s[0]] + s[1..];
      if s[0] == sep {
        JoinCons([sep], "", rest);
      } else {
        var parts := [[s[0]] + rest[0]] + rest[1..];
        assert Split(s, sep) == parts;
        if |rest| == 1 {
          assert Join([sep], parts) == [s[0]] + rest[0];
        } else {
          assert parts[1..] == rest[1..];
          JoinCons([sep], [s[0]] + rest[0], rest[1..]);
          JoinCons([sep], rest[0], rest[1..]);
          assert rest == [rest[0]] + rest[1..];
        }
      }
    }
  }

  lemma JoinCons(sep: string, x: string, xs: seq<string>)
    requires |xs| >= 1
    ensures Join(sep, [x] + xs) == x + sep + Join(sep, xs)
  {
    assert ([x] + xs)[1..] == xs;
  }

  lemma {:induction false} SplitWithout(x: string, sep: char)
    requires sep !in x
    ensures Split(x, sep) == [x]
  {
    if x != [] {
      SplitWithout(x[1..], sep);
      assert x[0] != sep && [x[0]] + x[1..] == x;
    }
  }

  lemma {:induction false} SplitAfter(x: string, sep: char, t: string)
    requires sep !in x
    ensures Split(x + [sep] + t, sep) == [x] + Split(t, sep)
  {
    if x == [] {
      assert x + [sep] + t == [sep] + t;
      assert ([sep] + t)[1..] == t;
    } else {
      var w := x + [sep] + t;
      assert w[0] == x[0] != sep;
      assert w[1..] == x[1..] + [sep] + t;
      SplitAfter(x[1..], sep, t);
      var rest := Split(w[1..], sep);
      assert rest[0] == x[1..] && rest[1..] == Split(t, sep);
      assert [x[0]] + x[1..] == x;
    }
  }

  /** `q` occurs in `s` starting at index `i`. */
  ghost predicate OccursAt(s: string, q: string, i: int) {
    0 <= i && i + |q| <= |s| && s[i..i + |q|] == q
  }

  /** `s.includes(q)` in JavaScript, `q in s` in Python. */
  function Contains(s: string, q: string): bool
    decreases |s|
  {
    if |q| > |s| then false
    else if s[..|q|] == q then true
    else Contains(s[1..], q)
  }

  lemma {:induction false} ContainsIff(s: string, q: string)
    ensures Contains(s, q) <==> exists i :: OccursAt(s, q, i)
    decreases |s|
  {
    if |q| > |s| {
    } else if s[..|q|] == q {
      assert OccursAt(s, q, 0);
    } else {
      ContainsIff(s[1..], q);
      if Contains(s[1..], q) {
        var i :| OccursAt(s[1..], q, i);
        assert s[i + 1..i + 1 + |q|] == s[1..][i..i + |q|];
        assert OccursAt(s, q, i + 1);
      } else {
        forall i | OccursAt(s, q, i) ensures false {
          assert i != 0;
          assert s[1..][i - 1..i - 1 + |q|] == s[i..i + |q|];
          assert OccursAt(s[1..], q, i - 1);
        }
      }
    }
  }

  /** The empty query occurs in every string. */
  lemma ContainsEmpty(s: string)
    ensures Contains(s, "")
  {
  }

  function DigitChar(d: nat): char
    requires d < 10
  {
    ('0' as int + d) as char
  }

  /** Decimal representation, as Python's f-string or JavaScript's template string prints it. */
  function NatToString(n: nat): (r: string)
    ensures |r| >= 1
    ensures forall k :: 0 <= k < |r| ==> '0' <= r[k] <= '9'
  {
    if n < 10 then [DigitChar(n)] else NatToString(n / 10) + [DigitChar(n % 10)]
  }

  /** Decimal representation of a possibly negative integer. */
  function IntToString(n: int): (r: string)
    ensures |r| >= 1
  {
    if n < 0 then "-" + NatToString(-n) else NatToString(n)
  }
}
