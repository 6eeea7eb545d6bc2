/**
 * The two regular expressions the validators share: the phone pattern
 * (identical in the backend and both frontend schemas) and the frontend's
 * e-mail pattern `^[^\s@]+@[^\s@]+\.[^\s@]+$`.
 */
module Patterns {
  import opened Text
  import opened Regex

  /** `^[\+]?[(]?[0-9]{1,4}[)]?[-\s\.]?[(]?[0-9]{1,4}[)]?[-\s\.]?[0-9]{1,9}$` */
  const PhonePattern: seq<Atom> := [
    Opt(Lit('+')), Opt(Lit('(')), Run(Digit, 1, 4), Opt(Lit(')')), Opt(Separator),
    Opt(Lit('(')), Run(Digit, 1, 4), Opt(Lit(')')), Opt(Separator), Run(Digit, 1, 9)
  ]

  /** `^[^\s@]+@[^\s@]+\.[^\s@]+$` */
  const EmailPattern: seq<Atom> := [
    Many(NotSpaceOrAt), One(Lit('@')), Many(NotSpaceOrAt), One(Lit('.')), Many(NotSpaceOrAt)
  ]

  predicate IsPhone(s: string) { Matches(PhonePattern, s) }
  predicate IsEmail(s: string) { Matches(EmailPattern, s) }

  /** A phone number written only with digits is accepted exactly when it has 3 to 17 of them. */
  lemma DigitsOnlyPhone(s: string)
    requires AllDigits(s)
    ensures IsPhone(s) <==> 3 <= |s| <= 17
  {
    assert DigitShaped(PhonePattern) by {
      forall i | 0 <= i < |PhonePattern| ensures DigitShapedAtom(PhonePattern[i]) {
        if PhonePattern[i].Opt? {
          var k := PhonePattern[i].k;
          assert k == Lit('+') || k == Lit('(') || k == Lit(')') || k == Separator;
        }
      }
    }
    assert MinLen(PhonePattern) == 3;
    assert MaxDigits(PhonePattern) == 17;
    DigitsOnly(PhonePattern, s);
  }

  /** The phone pattern never accepts fewer than three characters, so never the empty string. */
  lemma PhoneNotEmpty()
    ensures !IsPhone("")
  {
    assert MinLen(PhonePattern) == 3;
    EmptyMatch(PhonePattern);
  }

  predicate NoSpace(s: string) {
    forall i :: 0 <= i < |s| ==> !IsSpace(s[i])
  }

  /** `s[a]` is the one and only `@` of `s`. */
  predicate OnlyAt(s: string, a: int) {
    0 <= a < |s| && s[a] == '@' && forall i :: 0 <= i < |s| && i != a ==> s[i] != '@'
  }

  /** The domain has a dot with at least one character on either side. */
  predicate DottedDomain(d: string) {
    exists j :: 1 <= j <= |d| - 2 && d[j] == '.'
  }

  /** An address as the e-mail pattern describes it. */
  predicate EmailShape(s: string) {
    NoSpace(s) && exists a :: 0 < a < |s| && OnlyAt(s, a) && DottedDomain(s[a + 1..])
  }

  lemma DotTail(s: string)
    ensures Matches([One(Lit('.')), Many(NotSpaceOrAt)], s)
        <==> |s| >= 2 && s[0] == '.' && AllIn(s[1..], NotSpaceOrAt)
  {
    var p := [One(Lit('.')), Many(NotSpaceOrAt)];
    assert p[1..] == [Many(NotSpaceOrAt)];
    if |s| > 0 {
      ManyAlone(NotSpaceOrAt, s[1..]);
    }
  }

  lemma Domain(d: string)
    ensures Matches(DomainPattern, d)
        <==> AllIn(d, NotSpaceOrAt) && DottedDomain(d)
  {
    var tail := [One(Lit('.')), Many(NotSpaceOrAt)];
    assert [Many(NotSpaceOrAt)] + tail == DomainPattern;
    ManyThen(NotSpaceOrAt, tail, d);
    if Matches(DomainPattern, d) {
      var i :| 1 <= i <= |d| && AllIn(d[..i], NotSpaceOrAt) && Matches(tail, d[i..]);
      DotTail(d[i..]);
      assert d[i] == '.';
      forall m | 0 <= m < |d| ensures InClass(d[m], NotSpaceOrAt) {
        if m < i {
          assert d[m] == d[..i][m];
        } else if m > i {
          assert d[m] == d[i..][1..][m - i - 1];
        }
      }
    }
    if AllIn(d, NotSpaceOrAt) && DottedDomain(d) {
      var j :| 1 <= j <= |d| - 2 && d[j] == '.';
      DotTail(d[j..]);
      assert AllIn(d[..j], NotSpaceOrAt);
      assert AllIn(d[j..][1..], NotSpaceOrAt) by {
        assert d[j..][1..] == d[j + 1..];
      }
    }
  }

  /** The pattern read as a `[^\s@]+` prefix followed by `@` and the domain pattern. */
  lemma EmailSplit(s: string)
    ensures IsEmail(s) <==> exists a :: 1 <= a <= |s| && AllIn(s[..a], NotSpaceOrAt)
                                    && Matches([One(Lit('@'))] + DomainPattern, s[a..])
  {
    assert EmailPattern == [Many(NotSpaceOrAt)] + ([One(Lit('@'))] + DomainPattern);
    ManyThen(NotSpaceOrAt, [One(Lit('@'))] + DomainPattern, s);
  }

  const DomainPattern: seq<Atom> := [Many(NotSpaceOrAt), One(Lit('.')), Many(NotSpaceOrAt)]

  lemma AtDomain(r: string)
    ensures Matches([One(Lit('@'))] + DomainPattern, r)
        <==> |r| >= 1 && r[0] == '@' && Matches(DomainPattern, r[1..])
  {
    var p := [One(Lit('@'))] + DomainPattern;
    assert p[0] == One(Lit('@')) && p[1..] == DomainPattern;
  }

  lemma EmailSound(s: string)
    requires IsEmail(s)
    ensures EmailShape(s)
  {
    EmailSplit(s);
    var a :| 1 <= a <= |s| && AllIn(s[..a], NotSpaceOrAt)
             && Matches([One(Lit('@'))] + DomainPattern, s[a..]);
    AtDomain(s[a..]);
    assert s[a..][1..] == s[a + 1..];
    var d := s[a + 1..];
    Domain(d);
    assert s[a] == '@';
    forall m | 0 <= m < |s| && m != a ensures InClass(s[m], NotSpaceOrAt) {
      if m < a {
        assert s[m] == s[..a][m];
      } else {
        assert s[m] == d[m - a - 1];
      }
    }
    assert OnlyAt(s, a);
  }

  lemma EmailComplete(s: string)
    requires EmailShape(s)
    ensures IsEmail(s)
  {
    var a :| 0 < a < |s| && OnlyAt(s, a) && DottedDomain(s[a + 1..]);
    var d := s[a + 1..];
    assert AllIn(d, NotSpaceOrAt) by {
      forall m | 0 <= m < |d| ensures InClass(d[m], NotSpaceOrAt) {
        assert d[m] == s[a + 1 + m];
      }
    }
    Domain(d);
    assert s[a..][1..] == d;
    AtDomain(s[a..]);
    assert AllIn(s[..a], NotSpaceOrAt);
    EmailSplit(s);
  }

  /**
   * The e-mail pattern accepts exactly the strings without white space that
   * hold a single `@`, not at the start, followed by a domain with a dot
   * that has text on both sides.
   */
  lemma EmailCharacterised(s: string)
    ensures IsEmail(s) <==> EmailShape(s)
  {
    if IsEmail(s) {
      EmailSound(s);
    }
    if EmailShape(s) {
      EmailComplete(s);
    }
  }

  /** Every accepted address has at least five characters, so is never empty. */
  lemma EmailNotShort(s: string)
    requires IsEmail(s)
    ensures |s| >= 5
  {
    EmailCharacterised(s);
    var a :| 0 < a < |s| && OnlyAt(s, a) && DottedDomain(s[a + 1..]);
  }
}
