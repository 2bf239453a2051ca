/** The two field checks the checkout endpoint runs on a customer: the e-mail
    pattern `^[^\s@]+@[^\s@]+\.[^\s@]+$` and the Romanian phone pattern
    `^(\+40|0)[0-9]{9,10}$`, applied after deleting whitespace and dashes. */
module CustomerValidation {

  /** The characters an ECMAScript regular expression matches with `\s`. */
  predicate IsWhitespace(c: char) {
    || c == ' ' || c == '\t' || c == '\n' || c == '\U{000B}' || c == '\U{000C}' || c == '\r'
    || c == '\U{00A0}' || c == '\U{1680}' || ('\U{2000}' <= c <= '\U{200A}')
    || c == '\U{2028}' || c == '\U{2029}' || c == '\U{202F}' || c == '\U{205F}'
    || c == '\U{3000}' || c == '\U{FEFF}'
  }

  /** A string the regex atom `[^\s@]+` matches as a whole. */
  predicate IsAtom(s: string) {
    |s| > 0 && forall i :: 0 <= i < |s| ==> !IsWhitespace(s[i]) && s[i] != '@'
  }

  /** The e-mail shape: `local@domain.tld`, each of the three parts an atom.
      The domain and the top-level part may themselves contain dots. */
  ghost predicate IsEmailShape(s: string) {
    exists local: string, domain: string, tld: string ::
      && s == local + "@" + domain + "." + tld
      && IsAtom(local) && IsAtom(domain) && IsAtom(tld)
  }

  /** The position of the first `@` in `s`, or `|s|` when there is none. */
  function IndexOfAt(s: string): (k: nat)
    ensures k <= |s|
    ensures k < |s| ==> s[k] == '@'
    ensures forall i :: 0 <= i < k ==> s[i] != '@'
  {
    if s == [] then 0
    else if s[0] == '@' then 0
    else 1 + IndexOfAt(s[1..])
  }

  /** The e-mail check as the regex engine decides it: the text before the first
      `@` is an atom, and the text after it is free of whitespace and `@` and has
      a dot that is neither its first nor its last character. */
  function ValidateEmail(email: string): bool {
    var at := IndexOfAt(email);
    var rest := if at < |email| then email[at + 1..] else [];
    && 0 < at < |email|
    && IsAtom(email[..at])
    && IsAtom(rest)
    && 2 <= |rest|
    && '.' in rest[1..|rest| - 1]
  }

  /** The check accepts exactly the strings of the shape `local@domain.tld`. */
  lemma ValidateEmailMatchesShape(email: string)
    ensures ValidateEmail(email) <==> IsEmailShape(email)
  {
    if ValidateEmail(email) {
      AcceptedEmailHasShape(email);
    }
    if IsEmailShape(email) {
      var local: string, domain: string, tld: string :|
        && email == local + "@" + domain + "." + tld
        && IsAtom(local) && IsAtom(domain) && IsAtom(tld);
      ShapedEmailAccepted(email, local, domain, tld);
    }
  }

  lemma AcceptedEmailHasShape(email: string)
    requires ValidateEmail(email)
    ensures IsEmailShape(email)
  {
    var at := IndexOfAt(email);
    var rest := email[at + 1..];
    var inner := rest[1..|rest| - 1];
    var j :| 0 <= j < |inner| && inner[j] == '.';
    var k := j + 1;
    assert rest[k] == '.';
    AtomSlices(rest, k);
    SplitTwice(email, at, k);
    assert IsAtom(email[..at]) && IsAtom(rest[..k]) && IsAtom(rest[k + 1..]);
  }

  /** Both sides of an inner character of an atom are atoms. */
  lemma AtomSlices(s: string, k: nat)
    requires IsAtom(s) && 0 < k < |s| - 1
    ensures IsAtom(s[..k]) && IsAtom(s[k + 1..])
  {
    var head, tail := s[..k], s[k + 1..];
    assert forall i :: 0 <= i < |head| ==> head[i] == s[i];
    assert forall i :: 0 <= i < |tail| ==> tail[i] == s[k + 1 + i];
  }

  /** A string cut at its `@` and again at a dot after it. */
  lemma SplitTwice(s: string, at: nat, k: nat)
    requires at < |s| && s[at] == '@'
    requires k < |s[at + 1..]| && s[at + 1..][k] == '.'
    ensures s == s[..at] + "@" + s[at + 1..][..k] + "." + s[at + 1..][k + 1..]
  {
    var rest := s[at + 1..];
    assert rest == rest[..k] + "." + rest[k + 1..];
    assert s == s[..at] + "@" + rest;
    Associate(s[..at] + "@", rest[..k], "." + rest[k + 1..]);
  }

  lemma Associate(a: string, b: string, c: string)
    ensures a + (b + c) == a + b + c
  {
  }

  lemma ShapedEmailAccepted(email: string, local: string, domain: string, tld: string)
    requires email == local + "@" + domain + "." + tld
    requires IsAtom(local) && IsAtom(domain) && IsAtom(tld)
    ensures ValidateEmail(email)
  {
    var at := IndexOfAt(email);
    assert email[|local|] == '@';
    assert forall i :: 0 <= i < |local| ==> email[i] == local[i];
    assert at == |local|;
    var rest := email[at + 1..];
    assert email[..at] == local;
    assert rest == domain + "." + tld;
    forall i | 0 <= i < |rest|
      ensures !IsWhitespace(rest[i]) && rest[i] != '@'
    {
      if i < |domain| {
        assert rest[i] == domain[i];
      } else if i > |domain| {
        assert rest[i] == tld[i - |domain| - 1];
      }
    }
    assert rest[1..|rest| - 1][|domain| - 1] == '.';
  }

  /** The characters the phone check deletes first: `[\s-]`. */
  predicate IsSeparator(c: char) {
    IsWhitespace(c) || c == '-'
  }

  /** `phone.replace(/[\s-]/g, '')`: the string with every separator deleted. */
  function StripSeparators(s: string): (r: string)
    ensures |r| <= |s|
    ensures forall i :: 0 <= i < |r| ==> !IsSeparator(r[i])
    ensures forall i :: 0 <= i < |r| ==> r[i] in s
  {
    if s == [] then []
    else (if IsSeparator(s[0]) then [] else [s[0]]) + StripSeparators(s[1..])
  }

  /** Deleting separators works character by character, so it splits over a concatenation. */
  lemma {:induction false} StripSeparatorsConcat(a: string, b: string)
    ensures StripSeparators(a + b) == StripSeparators(a) + StripSeparators(b)
  {
    if a != [] {
      var head := if IsSeparator(a[0]) then [] else [a[0]];
      assert (a + b)[0] == a[0];
      assert (a + b)[1..] == a[1..] + b;
      StripSeparatorsConcat(a[1..], b);
      calc {
        StripSeparators(a + b);
        head + StripSeparators(a[1..] + b);
        head + (StripSeparators(a[1..]) + StripSeparators(b));
        (head + StripSeparators(a[1..])) + StripSeparators(b);
        StripSeparators(a) + StripSeparators(b);
      }
    } else {
      assert a + b == b;
    }
  }

  /** A lone separator is deleted outright, not replaced by another character. */
  lemma SeparatorIsDeleted(c: char)
    requires IsSeparator(c)
    ensures StripSeparators([c]) == []
  {
  }

  /** A string without separators is left as it is. */
  lemma {:induction false} StripSeparatorsKeepsClean(s: string)
    requires forall i :: 0 <= i < |s| ==> !IsSeparator(s[i])
    ensures StripSeparators(s) == s
  {
    if s != [] {
      StripSeparatorsKeepsClean(s[1..]);
    }
  }

  predicate IsDigits(s: string) {
    forall i :: 0 <= i < |s| ==> '0' <= s[i] <= '9'
  }

  /** A Romanian number: `+40` or `0`, then nine or ten decimal digits. */
  ghost predicate IsRomanianNumber(s: string) {
    exists prefix: string, digits: string ::
      && s == prefix + digits
      && (prefix == "+40" || prefix == "0")
      && 9 <= |digits| <= 10
      && IsDigits(digits)
  }

  /** The phone check's verdict on a string already free of separators. */
  predicate AcceptsCleaned(cleaned: string) {
    var national :=
      if |cleaned| >= 3 && cleaned[..3] == "+40" then cleaned[3..]
      else if |cleaned| >= 1 && cleaned[0] == '0' then cleaned[1..]
      else "";
    9 <= |national| <= 10 && IsDigits(national)
  }

  /** The phone check: delete separators, then match `(\+40|0)[0-9]{9,10}` against the whole rest. */
  function ValidatePhone(phone: string): bool {
    AcceptsCleaned(StripSeparators(phone))
  }

  /** The check accepts exactly the strings that are a Romanian number once separators are deleted. */
  lemma ValidatePhoneMatchesPattern(phone: string)
    ensures ValidatePhone(phone) <==> IsRomanianNumber(StripSeparators(phone))
  {
    var cleaned := StripSeparators(phone);
    if ValidatePhone(phone) {
      AcceptedPhoneIsRomanian(cleaned);
    }
    if IsRomanianNumber(cleaned) {
      var prefix: string, digits: string :|
        && cleaned == prefix + digits
        && (prefix == "+40" || prefix == "0")
        && 9 <= |digits| <= 10
        && IsDigits(digits);
      RomanianPhoneAccepted(cleaned, prefix, digits);
    }
  }

  lemma AcceptedPhoneIsRomanian(cleaned: string)
    requires AcceptsCleaned(cleaned)
    ensures IsRomanianNumber(cleaned)
  {
    if |cleaned| >= 3 && cleaned[..3] == "+40" {
      assert cleaned == "+40" + cleaned[3..];
    } else {
      assert cleaned == "0" + cleaned[1..];
    }
  }

  lemma RomanianPhoneAccepted(cleaned: string, prefix: string, digits: string)
    requires cleaned == prefix + digits
    requires prefix == "+40" || prefix == "0"
    requires 9 <= |digits| <= 10 && IsDigits(digits)
    ensures AcceptsCleaned(cleaned)
  {
    if prefix == "+40" {
      assert cleaned[..3] == "+40" && cleaned[3..] == digits;
    } else {
      assert cleaned[0] == '0' && cleaned[1..] == digits;
      assert cleaned[..3] != "+40" by { assert cleaned[0] != '+'; }
    }
  }

  /** Whitespace or a dash typed anywhere in a phone number does not change the verdict. */
  lemma SeparatorDoesNotMatter(a: string, c: char, b: string)
    requires IsSeparator(c)
    ensures ValidatePhone(a + [c] + b) == ValidatePhone(a + b)
  {
    assert [c][1..] == [];
    assert StripSeparators([c]) == [];
    calc {
      StripSeparators(a + [c] + b);
      { StripSeparatorsConcat(a + [c], b); }
      StripSeparators(a + [c]) + StripSeparators(b);
      { StripSeparatorsConcat(a, [c]); }
      StripSeparators(a) + StripSeparators([c]) + StripSeparators(b);
      StripSeparators(a) + StripSeparators(b);
      { StripSeparatorsConcat(a, b); }
      StripSeparators(a + b);
    }
  }
}
