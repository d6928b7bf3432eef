/**
 * The declared yup rules the forms use, as predicates on field values.
 * A form value read from an object may be missing (`None`, JavaScript's
 * `undefined`).
 */
module Validation {
  import opened Wrappers

  /** JavaScript truthiness of a string: only the empty string is falsy. */
  predicate Truthy(s: string) {
    s != ""
  }

  /** yup `string().required()`: present and not the empty string. */
  predicate Required(v: Option<string>) {
    v.Some? && Truthy(v.value)
  }

  /** yup `.min(n)`: at least `n` characters (a missing value is left to `required`). */
  predicate MinLength(v: Option<string>, n: nat) {
    v.None? || |v.value| >= n
  }

  /** yup `oneOf([ref(other), null])`: an absent value passes, a present one must equal the other field. */
  predicate MatchesRef(v: Option<string>, other: Option<string>) {
    v.None? || v == other
  }

  predicate IsDigit(c: char) {
    '0' <= c <= '9'
  }

  // ---------------------------------------------------------------
  // Anchored patterns: the regular expressions the forms use are a
  // sequence of character classes, each repeated a fixed number of times.

  /** One pattern element: `count` characters, each from `allowed`. */
  datatype Atom = Atom(allowed: set<char>, count: nat)

  /** `^atoms$` matches the whole of `s`. */
  predicate Matches(atoms: seq<Atom>, s: string)
    decreases |atoms|
  {
    if atoms == [] then s == []
    else
      var a := atoms[0];
      && |s| >= a.count
      && (forall i :: 0 <= i < a.count ==> s[i] in a.allowed)
      && Matches(atoms[1..], s[a.count..])
  }

  const Digits: set<char> := {'0', '1', '2', '3', '4', '5', '6', '7', '8', '9'}

  /** `/^01[0125][0-9]{8}$/`, the Egyptian mobile-number pattern. */
  const PhonePattern: seq<Atom> := [Atom({'0'}, 1), Atom({'1'}, 1), Atom({'0', '1', '2', '5'}, 1), Atom(Digits, 8)]

  /** The same rule written out: eleven characters, "01", an operator digit, eight digits. */
  predicate IsMobileNumber(s: string) {
    && |s| == 11
    && s[0] == '0' && s[1] == '1'
    && s[2] in {'0', '1', '2', '5'}
    && forall i :: 3 <= i < 11 ==> IsDigit(s[i])
  }

  lemma DigitsAreDigits(c: char)
    ensures c in Digits <==> IsDigit(c)
  {
  }

  /** The regular expression accepts exactly the mobile numbers. */
  lemma PhonePatternIsMobileNumber(s: string)
    ensures Matches(PhonePattern, s) <==> IsMobileNumber(s)
  {
    var p0 := PhonePattern;
    var p1, p2, p3 := p0[1..], p0[2..], p0[3..];
    assert p1[1..] == p2 && p2[1..] == p3 && p3[1..] == [];
    assert p0[0] == Atom({'0'}, 1) && p1[0] == Atom({'1'}, 1);
    assert p2[0] == Atom({'0', '1', '2', '5'}, 1) && p3[0] == Atom(Digits, 8);
    if Matches(p0, s) {
      var s1 := s[1..];
      assert s[0] == '0' && Matches(p1, s1);
      var s2 := s1[1..];
      assert s1[0] == '1' && Matches(p2, s2);
      var s3 := s2[1..];
      assert s2[0] in {'0', '1', '2', '5'} && Matches(p3, s3);
      assert |s3| >= 8 && Matches([], s3[8..]);
      assert |s3| == 8;
      assert s3 == s[3..];
      forall i | 3 <= i < 11 ensures IsDigit(s[i]) {
        assert s3[i - 3] in Digits;
      }
    }
    if IsMobileNumber(s) {
      var s3 := s[3..];
      assert s3[8..] == [];
      forall i | 0 <= i < 8 ensures s3[i] in Digits {
        assert IsDigit(s[i + 3]);
      }
      assert Matches(p3, s3);
      assert s[2..][1..] == s3;
      assert Matches(p2, s[2..]);
      assert s[1..][1..] == s[2..];
      assert Matches(p1, s[1..]);
    }
  }

  /** The phone rule of the login, registration and reset forms: `matches(...)` then `required()`. */
  predicate PhoneValid(v: Option<string>) {
    Required(v) && Matches(PhonePattern, v.value)
  }

  /** yup `number()` on a typed code: modelled as a non-empty run of decimal digits. */
  predicate IsNumeric(s: string) {
    s != [] && forall i :: 0 <= i < |s| ==> IsDigit(s[i])
  }
}
