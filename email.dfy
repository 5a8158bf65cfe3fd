/** `isValidEmail`, the address check both checkout scripts run before any
    request (public/js/checkout.js:375-378 and js/checkout.js:198-201 are the
    same function). */
module Email {
  import opened JsString

  /** A character of the regular-expression class `[^\s@]`. */
  predicate IsAddressChar(c: char)
  {
    !IsWhitespace(c) && c != '@'
  }

  predicate AllAddressChars(s: string)
  {
    forall k :: 0 <= k < |s| ==> IsAddressChar(s[k])
  }

  /** `isValidEmail(email)`: the expression `^[^\s@]+@[^\s@]+\.[^\s@]+$`
      matches all of `email`, for some choice of the `@` at index `at` and of
      the `.` at index `dot` that split it into three non-empty runs of
      `[^\s@]`. */
  predicate IsValidEmail(email: string)
    ensures IsValidEmail(email) ==> 5 <= |email| && '@' in email && '.' in email
  {
    exists at, dot | 0 < at < |email| && at + 1 < dot < |email| - 1 :: MatchAt(email, at, dot)
  }

  /** How many times `c` occurs in `s`. */
  function CountOf(s: string, c: char): nat
    decreases |s|
  {
    if s == [] then 0 else (if s[0] == c then 1 else 0) + CountOf(s[1..], c)
  }

  /** The index of the first `c` in `s`, or `|s|` when there is none. */
  function FirstIndex(s: string, c: char): (r: nat)
    ensures r <= |s|
    ensures r < |s| ==> s[r] == c
    ensures forall k :: 0 <= k < r ==> s[k] != c
    ensures r == |s| <==> c !in s
    decreases |s|
  {
    if s == [] then 0
    else if s[0] == c then 0
    else 1 + FirstIndex(s[1..], c)
  }

  /** What stands before the first `@`. */
  function LocalPart(email: string): string
  {
    email[..FirstIndex(email, '@')]
  }

  /** What stands after the first `@` (empty when there is none). */
  function DomainPart(email: string): string
  {
    var at := FirstIndex(email, '@');
    if at < |email| then email[at + 1..] else ""
  }

  /** `d` has a `.` that is neither its first nor its last character. */
  predicate HasInnerDot(d: string)
  {
    |d| >= 3 && '.' in d[1..|d| - 1]
  }

  lemma {:induction false} CountOfConcat(a: string, b: string, c: char)
    ensures CountOf(a + b, c) == CountOf(a, c) + CountOf(b, c)
    decreases |a|
  {
    if a == [] {
      assert a + b == b;
    } else {
      assert (a + b)[0] == a[0];
      assert (a + b)[1..] == a[1..] + b;
      CountOfConcat(a[1..], b, c);
    }
  }

  lemma {:induction false} CountOfZero(s: string, c: char)
    ensures CountOf(s, c) == 0 <==> c !in s
    decreases |s|
  {
    if s != [] {
      CountOfZero(s[1..], c);
      assert s == [s[0]] + s[1..];
    }
  }

  /** The conditions ValidEmailCharacterisation equates with the expression. */
  predicate EmailConditions(email: string)
  {
    && (forall k :: 0 <= k < |email| ==> !IsWhitespace(email[k]))
    && CountOf(email, '@') == 1
    && LocalPart(email) != ""
    && HasInnerDot(DomainPart(email))
  }

  /** One match of the expression, with the `@` at `at` and the `.` at `dot`. */
  predicate MatchAt(email: string, at: int, dot: int)
  {
    && 0 < at < |email| && at + 1 < dot < |email| - 1
    && email[at] == '@' && email[dot] == '.'
    && AllAddressChars(email[..at])
    && AllAddressChars(email[at + 1..dot])
    && AllAddressChars(email[dot + 1..])
  }

  /** The count of `c` around one occurrence of it at `i`. */
  lemma CountAround(s: string, i: int, c: char)
    requires 0 <= i < |s| && s[i] == c
    ensures CountOf(s, c) == CountOf(s[..i], c) + 1 + CountOf(s[i + 1..], c)
  {
    assert s == s[..i] + [s[i]] + s[i + 1..];
    CountOfConcat(s[..i] + [s[i]], s[i + 1..], c);
    CountOfConcat(s[..i], [s[i]], c);
    assert CountOf([s[i]], c) == 1 + CountOf([], c);
  }

  /** A string with exactly one `c` has it at FirstIndex and nowhere else. */
  lemma SingleOccurrence(s: string, c: char) returns (i: nat)
    requires CountOf(s, c) == 1
    ensures i == FirstIndex(s, c) && i < |s| && s[i] == c
    ensures forall k :: 0 <= k < |s| && k != i ==> s[k] != c
  {
    CountOfZero(s, c);
    i := FirstIndex(s, c);
    CountAround(s, i, c);
    CountOfZero(s[..i], c);
    CountOfZero(s[i + 1..], c);
    forall k | i < k < |s| ensures s[k] != c {
      assert s[k] == s[i + 1..][k - i - 1];
    }
  }

  /** A string whose only `c` is at `i` has count 1 and FirstIndex `i`. */
  lemma OnlyOccurrence(s: string, i: int, c: char)
    requires 0 <= i < |s| && s[i] == c
    requires c !in s[..i] && c !in s[i + 1..]
    ensures CountOf(s, c) == 1 && FirstIndex(s, c) == i
  {
    CountAround(s, i, c);
    CountOfZero(s[..i], c);
    CountOfZero(s[i + 1..], c);
    assert forall k :: 0 <= k < i ==> s[k] == s[..i][k];
  }

  lemma AddressCharsHaveNoAt(s: string)
    requires AllAddressChars(s)
    ensures '@' !in s
  {
  }

  lemma MatchGivesConditions(email: string, at: int, dot: int)
    requires MatchAt(email, at, dot)
    ensures EmailConditions(email)
  {
    var local, middle, last := email[..at], email[at + 1..dot], email[dot + 1..];
    var d := email[at + 1..];
    assert d == middle + ['.'] + last;
    AddressCharsHaveNoAt(local);
    AddressCharsHaveNoAt(middle);
    AddressCharsHaveNoAt(last);
    assert '@' !in d;
    OnlyOccurrence(email, at, '@');
    assert DomainPart(email) == d;
    forall k | 0 <= k < |email| ensures !IsWhitespace(email[k]) {
      if k < at {
        assert email[k] == local[k];
      } else if at < k < dot {
        assert email[k] == middle[k - at - 1];
      } else if k > dot {
        assert email[k] == last[k - dot - 1];
      }
    }
    var j := dot - at - 1;
    assert d[1..|d| - 1][j - 1] == d[j] == '.';
  }

  lemma AddressSlice(s: string, lo: int, hi: int)
    requires 0 <= lo <= hi <= |s|
    requires forall k :: lo <= k < hi ==> IsAddressChar(s[k])
    ensures AllAddressChars(s[lo..hi])
  {
    forall k | 0 <= k < hi - lo ensures IsAddressChar(s[lo..hi][k]) {
      assert s[lo..hi][k] == s[lo + k];
    }
  }

  /** Around its only `@`, a string without whitespace is address
      characters. */
  lemma AddressCharsAroundAt(email: string) returns (at: nat)
    requires forall k :: 0 <= k < |email| ==> !IsWhitespace(email[k])
    requires CountOf(email, '@') == 1
    ensures at == FirstIndex(email, '@') && at < |email| && email[at] == '@'
    ensures forall k :: 0 <= k < |email| && k != at ==> IsAddressChar(email[k])
  {
    at := SingleOccurrence(email, '@');
  }

  /** An inner dot of what follows `at`, as an index of the whole string. */
  lemma InnerDotIndex(email: string, at: nat) returns (dot: int)
    requires at < |email| && HasInnerDot(email[at + 1..])
    ensures at + 1 < dot < |email| - 1 && email[dot] == '.'
  {
    var d := email[at + 1..];
    var inner := d[1..|d| - 1];
    var j :| 0 <= j < |inner| && inner[j] == '.';
    dot := at + 2 + j;
    assert email[dot] == d[1 + j] == inner[j];
  }

  /** An `@` and a later `.` in a string of address characters elsewhere
      are a match. */
  lemma MatchFromIndices(email: string, at: int, dot: int)
    requires 0 < at && at + 1 < dot < |email| - 1
    requires email[at] == '@' && email[dot] == '.'
    requires forall k :: 0 <= k < |email| && k != at ==> IsAddressChar(email[k])
    ensures MatchAt(email, at, dot)
  {
    AddressSlice(email, 0, at);
    assert email[..at] == email[0..at];
    AddressSlice(email, at + 1, dot);
    AddressSlice(email, dot + 1, |email|);
    assert email[dot + 1..] == email[dot + 1..|email|];
  }

  lemma ConditionsGiveMatch(email: string)
    requires EmailConditions(email)
    ensures IsValidEmail(email)
  {
    var at := AddressCharsAroundAt(email);
    assert DomainPart(email) == email[at + 1..];
    var dot := InnerDotIndex(email, at);
    MatchFromIndices(email, at, dot);
  }

  /** The expression accepts exactly the strings with no whitespace, exactly
      one `@`, something before it, and a `.` inside (not at either end of)
      what follows it. */
  lemma ValidEmailCharacterisation(email: string)
    ensures IsValidEmail(email) <==> EmailConditions(email)
  {
    if IsValidEmail(email) {
      var at, dot :| MatchAt(email, at, dot);
      MatchGivesConditions(email, at, dot);
    }
    if EmailConditions(email) {
      ConditionsGiveMatch(email);
    }
  }
}
