/** Character classes and the two text transformations the plate pipeline relies on:
    the sanitising step of the region resolver (upper-case, then keep only [A-Z0-9])
    and the digit extraction of the category classifier (every \d, in order).
    Characters are ASCII-only in their meaning: a non-ASCII character is neither a
    letter nor a digit and upper-casing leaves it unchanged. */
module PlateText {

  predicate IsDigit(c: char) { '0' <= c <= '9' }
  predicate IsUpper(c: char) { 'A' <= c <= 'Z' }
  predicate IsLower(c: char) { 'a' <= c <= 'z' }

  /** A character the sanitiser keeps: the class [A-Z0-9]. */
  predicate IsKept(c: char) { IsUpper(c) || IsDigit(c) }

  /** str.upper() on one ASCII character. */
  function ToUpperChar(c: char): (u: char)
    ensures IsUpper(u) <==> IsUpper(c) || IsLower(c)
    ensures IsDigit(u) <==> IsDigit(c)
    ensures IsKept(c) ==> u == c
    ensures IsLower(c) ==> u as int == c as int - 32
    ensures !IsLower(c) ==> u == c
  {
    if IsLower(c) then (c as int - 32) as char else c
  }

  /** str.upper() on a whole string. */
  function Upper(s: string): (r: string)
    ensures |r| == |s|
    ensures forall i :: 0 <= i < |s| && IsLower(s[i]) ==> r[i] as int == s[i] as int - 32
    ensures forall i :: 0 <= i < |s| && !IsLower(s[i]) ==> r[i] == s[i]
  {
    seq(|s|, i requires 0 <= i < |s| => ToUpperChar(s[i]))
  }

  /** re.sub(r'[^A-Z0-9]', '', s): the characters of s in the class [A-Z0-9], in order. */
  function KeepAlnum(s: string): (r: string)
    ensures |r| <= |s|
    ensures forall i :: 0 <= i < |r| ==> IsKept(r[i])
  {
    if s == [] then []
    else (if IsKept(s[0]) then [s[0]] else []) + KeepAlnum(s[1..])
  }

  /** The resolver's clean plate text: upper-case, then strip everything outside [A-Z0-9]. */
  function Sanitize(s: string): (r: string)
    ensures |r| <= |s|
    ensures forall i :: 0 <= i < |r| ==> IsKept(r[i])
  {
    KeepAlnum(Upper(s))
  }

  /** re.findall(r'\d', s): every digit of s, in order of appearance. */
  function Digits(s: string): (r: string)
    ensures |r| <= |s|
    ensures forall i :: 0 <= i < |r| ==> IsDigit(r[i])
  {
    if s == [] then []
    else (if IsDigit(s[0]) then [s[0]] else []) + Digits(s[1..])
  }

  /** Filtering distributes over concatenation. */
  lemma {:induction false} KeepAlnumAppend(a: string, b: string)
    ensures KeepAlnum(a + b) == KeepAlnum(a) + KeepAlnum(b)
  {
    if a == [] {
      assert a + b == b;
    } else {
      assert (a + b)[0] == a[0];
      assert (a + b)[1..] == a[1..] + b;
      KeepAlnumAppend(a[1..], b);
    }
  }

  /** A string made only of kept characters is its own filtering. */
  lemma {:induction false} KeepAlnumOfKept(s: string)
    requires forall i :: 0 <= i < |s| ==> IsKept(s[i])
    ensures KeepAlnum(s) == s
  {
    if s != [] {
      KeepAlnumOfKept(s[1..]);
      assert [s[0]] + s[1..] == s;
    }
  }

  lemma UpperOfKept(s: string)
    requires forall i :: 0 <= i < |s| ==> IsKept(s[i])
    ensures Upper(s) == s
  {
  }

  /** Every character of the clean text is an upper-case ASCII letter or a digit. */
  lemma SanitizeKept(s: string)
    ensures forall i :: 0 <= i < |Sanitize(s)| ==> IsKept(Sanitize(s)[i])
  {
  }

  /** Sanitising is idempotent. */
  lemma SanitizeIdempotent(s: string)
    ensures Sanitize(Sanitize(s)) == Sanitize(s)
  {
    var c := Sanitize(s);
    UpperOfKept(c);
    KeepAlnumOfKept(c);
  }

  /** Case does not matter: upper-casing first changes nothing. */
  lemma SanitizeUpper(s: string)
    ensures Sanitize(Upper(s)) == Sanitize(s)
  {
    assert Upper(Upper(s)) == Upper(s);
  }

  /** Punctuation does not matter: a character that upper-cases to something outside
      [A-Z0-9] can be removed anywhere without changing the clean text. */
  lemma SanitizeDrops(a: string, c: char, b: string)
    requires !IsKept(ToUpperChar(c))
    ensures Sanitize(a + [c] + b) == Sanitize(a + b)
  {
    assert Upper(a + [c] + b) == Upper(a) + [ToUpperChar(c)] + Upper(b);
    assert Upper(a + b) == Upper(a) + Upper(b);
    KeepAlnumAppend(Upper(a) + [ToUpperChar(c)], Upper(b));
    KeepAlnumAppend(Upper(a), [ToUpperChar(c)]);
    KeepAlnumAppend(Upper(a), Upper(b));
  }

  lemma {:induction false} DigitsAppend(a: string, b: string)
    ensures Digits(a + b) == Digits(a) + Digits(b)
  {
    if a == [] {
      assert a + b == b;
    } else {
      assert (a + b)[0] == a[0];
      assert (a + b)[1..] == a[1..] + b;
      DigitsAppend(a[1..], b);
    }
  }

  /** findall finds nothing exactly when the string has no digit. */
  lemma {:induction false} DigitsEmpty(s: string)
    ensures Digits(s) == [] <==> forall i :: 0 <= i < |s| ==> !IsDigit(s[i])
  {
    if s != [] {
      DigitsEmpty(s[1..]);
      assert forall i :: 1 <= i < |s| ==> s[i] == s[1..][i - 1];
    }
  }

  /** The last element found by findall is the string's last digit. */
  lemma LastDigit(s: string, i: nat)
    requires i < |s| && IsDigit(s[i])
    requires forall j :: i < j < |s| ==> !IsDigit(s[j])
    ensures Digits(s) != [] && Digits(s)[|Digits(s)| - 1] == s[i]
  {
    var tail := s[i + 1..];
    assert s == s[..i] + [s[i]] + tail;
    DigitsAppend(s[..i] + [s[i]], tail);
    DigitsAppend(s[..i], [s[i]]);
    DigitsEmpty(tail);
    assert Digits([s[i]]) == [s[i]];
  }

  /** Every character is in [A-Z0-9], checked one character at a time; on a literal the
      verifier evaluates it outright. */
  predicate AllKept(s: string)
    decreases |s|
  {
    s == [] || (IsKept(s[0]) && AllKept(s[1..]))
  }

  lemma {:induction false} AllKeptSound(s: string)
    requires AllKept(s)
    ensures forall i :: 0 <= i < |s| ==> IsKept(s[i])
    decreases |s|
  {
    if s != [] {
      AllKeptSound(s[1..]);
      assert forall i :: 1 <= i < |s| ==> s[i] == s[1..][i - 1];
    }
  }

  /** Text already made of [A-Z0-9] is its own clean text. */
  lemma SanitizeOfClean(s: string)
    requires forall i :: 0 <= i < |s| ==> IsKept(s[i])
    ensures Sanitize(s) == s
  {
    UpperOfKept(s);
    KeepAlnumOfKept(s);
  }

  lemma {:induction false} KeepAlnumNone(s: string)
    requires forall i :: 0 <= i < |s| ==> !IsKept(s[i])
    ensures KeepAlnum(s) == []
  {
    if s != [] {
      KeepAlnumNone(s[1..]);
    }
  }

  /** Text without letters or digits has an empty clean text. */
  lemma SanitizeOfNone(s: string)
    requires forall i :: 0 <= i < |s| ==> !IsKept(ToUpperChar(s[i]))
    ensures Sanitize(s) == []
  {
    KeepAlnumNone(Upper(s));
  }
}
