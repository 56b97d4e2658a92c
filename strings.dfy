/** String operations the handler uses, written as the JavaScript built-ins behave:
    `replace(/\D/g, "")`, chains of `||` over strings, `filter(Boolean)` over an array of
    strings and `join("\n")`. `SplitLines` (JavaScript's `split("\n")`) is not used by the
    handler; it is the inverse against which `JoinLines` is proved. */
module Strings {

  /** `\d` in a JavaScript regular expression without the `u` flag: an ASCII digit. */
  predicate IsDigit(c: char) {
    '0' <= c <= '9'
  }

  predicate AllDigits(s: string) {
    forall i :: 0 <= i < |s| ==> IsDigit(s[i])
  }

  /** `s.replace(/\D/g, "")`: every non-digit character removed. */
  function DigitsOnly(s: string): (r: string)
    ensures AllDigits(r)
    ensures |r| <= |s|
  {
    if s == [] then []
    else (if IsDigit(s[0]) then [s[0]] else []) + DigitsOnly(s[1..])
  }

  /** `r` can be obtained from `s` by deleting characters: nothing added, nothing reordered. */
  predicate IsSubsequence(r: string, s: string)
    decreases |s|
  {
    if r == [] then true
    else if s == [] then false
    else if r[0] == s[0] then IsSubsequence(r[1..], s[1..])
    else IsSubsequence(r, s[1..])
  }

  /** The digits are kept in their original order and nothing is inserted. */
  lemma {:induction false} DigitsOnlyIsSubsequence(s: string)
    ensures IsSubsequence(DigitsOnly(s), s)
  {
    if s != [] {
      DigitsOnlyIsSubsequence(s[1..]);
      var r := DigitsOnly(s);
      if IsDigit(s[0]) {
        assert r[0] == s[0] && r[1..] == DigitsOnly(s[1..]);
      } else {
        assert r == DigitsOnly(s[1..]);
        assert r != [] ==> IsDigit(r[0]);
      }
    }
  }

  /** Every digit of `s` survives, as often as it occurs; no other character does. */
  lemma {:induction false} DigitsOnlyCounts(s: string)
    ensures forall c :: multiset(DigitsOnly(s))[c] == if IsDigit(c) then multiset(s)[c] else 0
  {
    if s != [] {
      DigitsOnlyCounts(s[1..]);
      assert s == [s[0]] + s[1..];
      assert multiset(s) == multiset([s[0]]) + multiset(s[1..]);
    }
  }

  /** Digit stripping commutes with concatenation: it works character by character. */
  lemma {:induction false} DigitsOnlyConcat(a: string, b: string)
    ensures DigitsOnly(a + b) == DigitsOnly(a) + DigitsOnly(b)
  {
    if a != [] {
      assert (a + b)[1..] == a[1..] + b;
      DigitsOnlyConcat(a[1..], b);
    } else {
      assert a + b == b;
    }
  }

  /** A string that is already all digits is left exactly as it is. */
  lemma {:induction false} DigitsOnlyKeepsDigitStrings(s: string)
    requires AllDigits(s)
    ensures DigitsOnly(s) == s
  {
    if s != [] {
      DigitsOnlyKeepsDigitStrings(s[1..]);
    }
  }

  /** Stripping twice is stripping once. */
  lemma DigitsOnlyIdempotent(s: string)
    ensures DigitsOnly(DigitsOnly(s)) == DigitsOnly(s)
  {
    DigitsOnlyKeepsDigitStrings(DigitsOnly(s));
  }

  /** The result is empty exactly when `s` has no digit at all. */
  lemma {:induction false} DigitsOnlyEmptyIff(s: string)
    ensures DigitsOnly(s) == [] <==> forall i :: 0 <= i < |s| ==> !IsDigit(s[i])
  {
    if s != [] {
      DigitsOnlyEmptyIff(s[1..]);
      assert forall i :: 1 <= i < |s| ==> s[i] == s[1..][i - 1];
    }
  }

  /** `a || b || ... || default` over strings: the first non-empty candidate, or `default`. */
  function FirstNonEmpty(candidates: seq<string>, default: string): (r: string)
    ensures (exists k :: 0 <= k < |candidates| && candidates[k] != [] && r == candidates[k] &&
                         forall j :: 0 <= j < k ==> candidates[j] == [])
         || ((forall j :: 0 <= j < |candidates| ==> candidates[j] == []) && r == default)
  {
    if candidates == [] then default
    else if candidates[0] != [] then candidates[0]
    else
      var r := FirstNonEmpty(candidates[1..], default);
      assert forall k :: 1 <= k <= |candidates[1..]| ==> candidates[k] == candidates[1..][k - 1];
      r
  }

  /** `a || default`, unfolded. */
  lemma FirstNonEmptyOfOne(a: string, default: string)
    ensures FirstNonEmpty([a], default) == if a != [] then a else default
  {
  }

  /** `a || b || default`, unfolded. */
  lemma FirstNonEmptyOfTwo(a: string, b: string, default: string)
    ensures FirstNonEmpty([a, b], default) == if a != [] then a else if b != [] then b else default
  {
    assert [a, b][1..] == [b];
    FirstNonEmptyOfOne(b, default);
  }

  /** `parts.filter(Boolean)`: the empty strings removed, the rest in order. */
  function DropEmpty(parts: seq<string>): (r: seq<string>)
    ensures forall i :: 0 <= i < |r| ==> r[i] != []
    ensures |r| <= |parts|
  {
    if parts == [] then []
    else (if parts[0] != [] then [parts[0]] else []) + DropEmpty(parts[1..])
  }

  /** The filter works element by element. */
  lemma {:induction false} DropEmptyConcat(a: seq<string>, b: seq<string>)
    ensures DropEmpty(a + b) == DropEmpty(a) + DropEmpty(b)
  {
    if a == [] {
      assert a + b == b;
    } else {
      assert (a + b)[1..] == a[1..] + b;
      DropEmptyConcat(a[1..], b);
    }
  }

  /** Exactly the non-empty parts survive the filter. */
  lemma {:induction false} DropEmptyMembers(parts: seq<string>, x: string)
    ensures x in DropEmpty(parts) <==> x in parts && x != []
  {
    if parts != [] {
      DropEmptyMembers(parts[1..], x);
      assert parts == [parts[0]] + parts[1..];
    }
  }

  /** `parts.join("\n")`. */
  function JoinLines(parts: seq<string>): string {
    if parts == [] then ""
    else if |parts| == 1 then parts[0]
    else parts[0] + "\n" + JoinLines(parts[1..])
  }

  /** Joining one more part in front adds it and one newline. */
  lemma JoinLinesCons(a: string, rest: seq<string>)
    requires rest != []
    ensures JoinLines([a] + rest) == a + "\n" + JoinLines(rest)
  {
  }

  /** `s.split("\n")`: the pieces between newlines, always at least one. */
  function SplitLines(s: string): (r: seq<string>)
    ensures |r| >= 1
  {
    if s == [] then [""]
    else
      var rest := SplitLines(s[1..]);
      if s[0] == '\n' then [""] + rest
      else [[s[0]] + rest[0]] + rest[1..]
  }

  predicate NoNewline(s: string) {
    forall i :: 0 <= i < |s| ==> s[i] != '\n'
  }

  lemma {:induction false} SplitLinesSingle(a: string)
    requires NoNewline(a)
    ensures SplitLines(a) == [a]
  {
    if a != [] {
      SplitLinesSingle(a[1..]);
      assert [a[0]] + a[1..] == a;
    }
  }

  lemma {:induction false} SplitLinesCons(a: string, b: string)
    requires NoNewline(a)
    ensures SplitLines(a + "\n" + b) == [a] + SplitLines(b)
  {
    if a == [] {
      assert a + "\n" + b == "\n" + b;
      assert ("\n" + b)[1..] == b;
    } else {
      assert (a + "\n" + b)[1..] == a[1..] + "\n" + b;
      SplitLinesCons(a[1..], b);
      assert [a[0]] + a[1..] == a;
    }
  }

  /** Splitting a join gives back the parts, provided no part holds a newline of its own. */
  lemma {:induction false} SplitJoin(parts: seq<string>)
    requires |parts| >= 1
    requires forall i :: 0 <= i < |parts| ==> NoNewline(parts[i])
    ensures SplitLines(JoinLines(parts)) == parts
  {
    if |parts| == 1 {
      SplitLinesSingle(parts[0]);
    } else {
      SplitJoin(parts[1..]);
      SplitLinesCons(parts[0], JoinLines(parts[1..]));
    }
  }
}
