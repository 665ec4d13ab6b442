/**
 * Normalisation of a destination number into a chat id of the messaging
 * network (index.js:196-198): an id that already carries the individual-chat
 * suffix is kept; otherwise every character outside '0'..'9' is deleted (the
 * regular expression `\D`, which without the `u` flag means exactly "not an
 * ASCII digit") and the suffix is appended.
 */
module ChatId {

  /** The address suffix of an individual chat. */
  const Suffix: string := "@c.us"

  predicate IsDigit(c: char) {
    '0' <= c <= '9'
  }

  predicate AllDigits(s: string) {
    forall i :: 0 <= i < |s| ==> IsDigit(s[i])
  }

  /** `s.endsWith("@c.us")` */
  predicate HasSuffix(s: string) {
    |Suffix| <= |s| && s[|s| - |Suffix|..] == Suffix
  }

  /** `s.replace(/\D/g, "")`: the digits of s, in order. */
  function Digits(s: string): (r: string)
    ensures |r| <= |s|
    ensures AllDigits(r)
  {
    if s == [] then []
    else (if IsDigit(s[0]) then [s[0]] else []) + Digits(s[1..])
  }

  /** The chat id a destination number is sent to. */
  function Normalize(num: string): (chatId: string)
    ensures HasSuffix(chatId)
    ensures HasSuffix(num) ==> chatId == num
    ensures !HasSuffix(num) ==> AllDigits(chatId[..|chatId| - |Suffix|])
  {
    if HasSuffix(num) then num
    else
      var d := Digits(num);
      assert (d + Suffix)[..|d|] == d;
      assert (d + Suffix)[|d|..] == Suffix;
      d + Suffix
  }

  /** Deleting non-digits distributes over concatenation. */
  lemma {:induction false} DigitsAppend(a: string, b: string)
    ensures Digits(a + b) == Digits(a) + Digits(b)
  {
    if a == [] {
      assert a + b == b;
    } else {
      var head := if IsDigit(a[0]) then [a[0]] else [];
      assert (a + b)[0] == a[0];
      assert (a + b)[1..] == a[1..] + b;
      assert Digits(a + b) == head + Digits(a[1..] + b);
      DigitsAppend(a[1..], b);
      assert Digits(a) == head + Digits(a[1..]);
    }
  }

  /** A string of digits only is left as it is. */
  lemma {:induction false} DigitsOfDigits(s: string)
    requires AllDigits(s)
    ensures Digits(s) == s
  {
    if s != [] {
      DigitsOfDigits(s[1..]);
    }
  }

  lemma DigitsIdempotent(s: string)
    ensures Digits(Digits(s)) == Digits(s)
  {
    DigitsOfDigits(Digits(s));
  }

  /**
   * Every digit of s survives: the digit at position i of s is the character
   * of Digits(s) at the rank given by the digits before it.
   */
  lemma DigitsKeepsDigit(s: string, i: nat)
    requires i < |s| && IsDigit(s[i])
    ensures |Digits(s[..i])| < |Digits(s)|
    ensures Digits(s)[|Digits(s[..i])|] == s[i]
  {
    assert s == s[..i] + s[i..];
    DigitsAppend(s[..i], s[i..]);
    assert s[i..][0] == s[i];
  }

  /** A non-digit contributes nothing. */
  lemma DigitsDropsNonDigit(s: string, i: nat)
    requires i < |s| && !IsDigit(s[i])
    ensures Digits(s[..i + 1]) == Digits(s[..i])
  {
    assert s[..i + 1] == s[..i] + [s[i]];
    DigitsAppend(s[..i], [s[i]]);
    assert [s[i]][1..] == [];
  }

  /** The digits of a non-empty prefix: those of its first character, then those of the rest. */
  lemma DigitsOfPrefix(s: string, n: nat)
    requires 0 < n <= |s|
    ensures Digits(s[..n]) == (if IsDigit(s[0]) then [s[0]] else []) + Digits(s[1..][..n - 1])
  {
    assert s[..n][0] == s[0];
    assert s[..n][1..] == s[1..][..n - 1];
  }

  /**
   * Nothing else is in Digits(s): its j-th character is a digit of s whose
   * rank among the digits of s is j.
   */
  lemma {:induction false} DigitsFromInput(s: string, j: nat)
    requires j < |Digits(s)|
    ensures exists i :: 0 <= i < |s| && IsDigit(s[i]) && |Digits(s[..i])| == j && Digits(s)[j] == s[i]
  {
    var head := if IsDigit(s[0]) then [s[0]] else [];
    assert Digits(s) == head + Digits(s[1..]);
    if IsDigit(s[0]) && j == 0 {
      assert s[..0] == [];
      assert IsDigit(s[0]) && |Digits(s[..0])| == 0 && Digits(s)[0] == s[0];
    } else {
      var t := s[1..];
      var j' := j - |head|;
      DigitsFromInput(t, j');
      var i' :| 0 <= i' < |t| && IsDigit(t[i']) && |Digits(t[..i'])| == j' && Digits(t)[j'] == t[i'];
      DigitsOfPrefix(s, i' + 1);
      assert s[i' + 1] == t[i'];
      assert Digits(s)[j] == Digits(t)[j'];
      assert IsDigit(s[i' + 1]) && |Digits(s[..i' + 1])| == j && Digits(s)[j] == s[i' + 1];
    }
  }

  /** Normalising a chat id again changes nothing. */
  lemma NormalizeIdempotent(num: string)
    ensures Normalize(Normalize(num)) == Normalize(num)
  {
  }

  /** A string of digits never ends in the suffix, whose first character is '@'. */
  lemma DigitsNeverSuffixed(d: string)
    requires AllDigits(d)
    ensures !HasSuffix(d)
  {
    if |Suffix| <= |d| {
      var k := |d| - |Suffix|;
      assert IsDigit(d[k]);
      assert d[k..][0] == d[k] != Suffix[0];
    }
  }

  /** A bare number is addressed as itself plus the suffix, and stripping the suffix gives it back. */
  lemma NormalizeDigitString(d: string)
    requires AllDigits(d)
    ensures Normalize(d) == d + Suffix
    ensures Normalize(d)[..|d|] == d
  {
    DigitsNeverSuffixed(d);
    DigitsOfDigits(d);
  }

  /**
   * For a number without the suffix only its digits matter: normalising the
   * digits alone gives the same chat id, and the chat id is those digits plus
   * the suffix.
   */
  lemma NormalizeOnlyDigitsMatter(num: string)
    requires !HasSuffix(num)
    ensures Normalize(Digits(num)) == Normalize(num)
    ensures Normalize(num)[..|Normalize(num)| - |Suffix|] == Digits(num)
  {
    NormalizeDigitString(Digits(num));
  }

  /** The two destinations of the documented example. */
  lemma NormalizeExamples()
    ensures Normalize("abc@c.us") == "abc@c.us"
    ensures Normalize("1234") == "1234@c.us"
  {
    assert HasSuffix("abc@c.us") by { assert "abc@c.us"[3..] == Suffix; }
    NormalizeDigitString("1234");
  }
}
