/** The Option type, standing in for Java's nullable references. */
module Wrappers {

  datatype Option<+T> = None | Some(value: T)
}

/** What the services take from their environment: timestamps and the
    verdict of the resilience policies guarding a call. */
module Environment {

  /** A reading of LocalDateTime.now(); only copied and compared for equality. */
  type Timestamp = int

  /** Whether the policy stack (rate limiter, circuit breaker) lets a call run.
      A rejected call never reaches the method body: the named fallback answers. */
  datatype Admission = Admitted | Rejected
}

/** Splitting a text at a separator: the first occurrence of a character,
    and when a joined text splits back into its parts. */
module Text {

  /** The position of the first occurrence of c in s, or |s| when there is none. */
  function FirstIndexOf(s: string, c: char): (i: nat)
    ensures i <= |s|
    ensures forall k :: 0 <= k < i ==> s[k] != c
    ensures i < |s| ==> s[i] == c
  {
    if s == [] || s[0] == c then 0 else 1 + FirstIndexOf(s[1..], c)
  }

  /** A text free of c, followed by c, puts the first c right after it. */
  lemma {:induction false} FirstIndexOfAfter(x: string, c: char, rest: string)
    requires forall k :: 0 <= k < |x| ==> x[k] != c
    ensures FirstIndexOf(x + [c] + rest, c) == |x|
  {
    if x != [] {
      assert (x + [c] + rest)[1..] == x[1..] + [c] + rest;
      FirstIndexOfAfter(x[1..], c, rest);
    }
  }

  /** Two texts joined by a separator split back uniquely when neither left
      part contains the separator's first character. */
  lemma SplitAtSeparator(x: string, y: string, sep: string, u: string, v: string)
    requires |sep| > 0
    requires forall k :: 0 <= k < |x| ==> x[k] != sep[0]
    requires forall k :: 0 <= k < |y| ==> y[k] != sep[0]
    requires x + sep + u == y + sep + v
    ensures x == y && u == v
  {
    var m := x + sep + u;
    assert m == x + [sep[0]] + (sep[1..] + u);
    assert m == y + [sep[0]] + (sep[1..] + v);
    FirstIndexOfAfter(x, sep[0], sep[1..] + u);
    FirstIndexOfAfter(y, sep[0], sep[1..] + v);
    assert x == m[..|x|] && y == m[..|y|];
    assert u == m[|x| + |sep|..] && v == m[|y| + |sep|..];
  }
}

/** Long.toString, as used in event payloads and error messages, with its
    inverse. */
module Decimal {

  predicate IsDigit(c: char) {
    '0' <= c <= '9'
  }

  function DigitChar(d: nat): (c: char)
    requires d < 10
    ensures IsDigit(c) && c as int - '0' as int == d
  {
    (d + '0' as int) as char
  }

  /** Decimal digits of n, most significant first, without leading zeros. */
  function NatToString(n: nat): (s: string)
    ensures |s| >= 1
    ensures forall i :: 0 <= i < |s| ==> IsDigit(s[i])
    ensures |s| > 1 ==> s[0] != '0'
    decreases n
  {
    if n < 10 then [DigitChar(n)] else NatToString(n / 10) + [DigitChar(n % 10)]
  }

  /** Long.toString: a minus sign before the digits of a negative value. */
  function IntToString(i: int): string {
    if i < 0 then "-" + NatToString(-i) else NatToString(i)
  }

  predicate AllDigits(s: string) {
    forall i :: 0 <= i < |s| ==> IsDigit(s[i])
  }

  function ParseNat(s: string): nat
    requires AllDigits(s)
    decreases |s|
  {
    if s == [] then 0
    else ParseNat(s[..|s| - 1]) * 10 + (s[|s| - 1] as int - '0' as int)
  }

  function ParseInt(s: string): int
    requires |s| >= 1
    requires s[0] == '-' ==> AllDigits(s[1..])
    requires s[0] != '-' ==> AllDigits(s)
  {
    if s[0] == '-' then -(ParseNat(s[1..]) as int) else ParseNat(s)
  }

  /** Reading back the digits that NatToString writes gives the number. */
  lemma {:induction false} ParseNatToString(n: nat)
    ensures ParseNat(NatToString(n)) == n
    decreases n
  {
    var s := NatToString(n);
    if n >= 10 {
      ParseNatToString(n / 10);
      assert s[..|s| - 1] == NatToString(n / 10);
    }
  }

  /** IntToString is injective: the id in an event or error message determines
      the id it was rendered from. */
  lemma IntToStringRoundTrip(i: int)
    ensures |IntToString(i)| >= 1
    ensures IntToString(i)[0] == '-' ==> AllDigits(IntToString(i)[1..])
    ensures IntToString(i)[0] != '-' ==> AllDigits(IntToString(i))
    ensures ParseInt(IntToString(i)) == i
  {
    var s := IntToString(i);
    if i < 0 {
      assert s[1..] == NatToString(-i);
      ParseNatToString(-i);
    } else {
      ParseNatToString(i);
    }
  }

  /** A rendered id holds digits and at most a leading minus sign, never a comma. */
  lemma IntToStringHasNoComma(i: int)
    ensures forall k :: 0 <= k < |IntToString(i)| ==> IntToString(i)[k] != ','
  {
    if i < 0 {
      assert forall k :: 1 <= k < |IntToString(i)| ==> IntToString(i)[k] == NatToString(-i)[k - 1];
    }
  }

  /** A fixed text followed by a rendered id determines the id. */
  lemma PrefixedIdInjective(prefix: string, a: int, b: int)
    requires prefix + IntToString(a) == prefix + IntToString(b)
    ensures a == b
  {
    assert IntToString(a) == (prefix + IntToString(a))[|prefix|..];
    assert IntToString(b) == (prefix + IntToString(b))[|prefix|..];
    IntToStringRoundTrip(a);
    IntToStringRoundTrip(b);
  }
}

/** The part of a JPA repository the services use for queries: a keyed store
    whose identity values are allocated from a counter, so that every key lies
    below the counter. */
module KeyedStore {

  /** The keys in [lo, hi) of records that satisfy keep, in ascending order:
      a derived query such as findByOrderId or findByStatus. */
  function IdsWhere<R>(store: map<int, R>, keep: R -> bool, lo: int, hi: int): (ids: seq<int>)
    ensures forall k :: 0 <= k < |ids| ==> lo <= ids[k] < hi && ids[k] in store && keep(store[ids[k]])
    ensures forall id :: lo <= id < hi && id in store && keep(store[id]) ==> id in ids
    ensures forall j, k :: 0 <= j < k < |ids| ==> ids[j] < ids[k]
    decreases hi - lo
  {
    if lo >= hi then []
    else if lo in store && keep(store[lo]) then [lo] + IdsWhere(store, keep, lo + 1, hi)
    else IdsWhere(store, keep, lo + 1, hi)
  }
}
