/**
 * Anchored regular expressions of the shape the validators use: a sequence of
 * atoms, each a character class with a quantifier. `Matches(p, s)` is what
 * `/^p$/.test(s)` answers; it tries every split of `s`, as backtracking does.
 */
module Regex {
  import opened Text

  datatype CharClass =
    | Lit(c: char)      // one literal character: `\+`, `[(]`, `[)]`, `@`, `\.`
    | Digit             // [0-9]
    | Separator         // [-\s\.]
    | NotSpaceOrAt      // [^\s@]

  predicate InClass(c: char, k: CharClass) {
    match k
    case Lit(d) => c == d
    case Digit => IsDigit(c)
    case Separator => c == '-' || IsSpace(c) || c == '.'
    case NotSpaceOrAt => !IsSpace(c) && c != '@'
  }

  datatype Atom =
    | One(k: CharClass)                   // k
    | Opt(k: CharClass)                   // k?
    | Run(k: CharClass, lo: nat, hi: nat) // k{lo,hi}
    | Many(k: CharClass)                  // k+

  function AtomWeight(a: Atom): nat {
    match a
    case Run(_, _, hi) => hi + 1
    case _ => 1
  }

  function Weight(p: seq<Atom>): nat {
    if p == [] then 0 else AtomWeight(p[0]) + Weight(p[1..])
  }

  predicate Matches(p: seq<Atom>, s: string)
    decreases Weight(p) + |s|
  {
    if p == [] then s == []
    else
      var t := p[1..];
      match p[0]
      case One(k) => |s| > 0 && InClass(s[0], k) && Matches(t, s[1..])
      case Opt(k) => (|s| > 0 && InClass(s[0], k) && Matches(t, s[1..])) || Matches(t, s)
      case Run(k, lo, hi) =>
        (lo == 0 && Matches(t, s))
        || (hi > 0 && |s| > 0 && InClass(s[0], k)
            && var rest := [Run(k, if lo == 0 then 0 else lo - 1, hi - 1)] + t;
               assert rest[1..] == t;
               Matches(rest, s[1..]))
      case Many(k) => |s| > 0 && InClass(s[0], k) && (Matches(t, s[1..]) || Matches(p, s[1..]))
  }

  /** The fewest characters a pattern accepts. */
  function MinLen(p: seq<Atom>): nat {
    if p == [] then 0
    else
      (match p[0]
       case One(_) => 1
       case Opt(_) => 0
       case Run(_, lo, _) => lo
       case Many(_) => 1) + MinLen(p[1..])
  }

  /** A pattern accepts the empty string exactly when it demands no character. */
  lemma {:induction false} EmptyMatch(p: seq<Atom>)
    ensures Matches(p, []) <==> MinLen(p) == 0
  {
    if p != [] {
      EmptyMatch(p[1..]);
    }
  }

  predicate AllIn(s: string, k: CharClass) {
    forall i :: 0 <= i < |s| ==> InClass(s[i], k)
  }

  /** `k+` followed by `t` accepts `s` exactly when some non-empty prefix of `s` is all `k` and `t` accepts the rest. */
  lemma {:induction false} ManyThen(k: CharClass, t: seq<Atom>, s: string)
    ensures Matches([Many(k)] + t, s) <==> exists i :: 1 <= i <= |s| && AllIn(s[..i], k) && Matches(t, s[i..])
    decreases |s|
  {
    var p := [Many(k)] + t;
    assert p[0] == Many(k) && p[1..] == t;
    if |s| == 0 {
    } else if !InClass(s[0], k) {
      forall i | 1 <= i <= |s| ensures !AllIn(s[..i], k) {
        assert s[..i][0] == s[0];
      }
    } else {
      ManyThen(k, t, s[1..]);
      if Matches(p, s) {
        if Matches(t, s[1..]) {
          assert AllIn(s[..1], k);
        } else {
          var j :| 1 <= j <= |s| - 1 && AllIn(s[1..][..j], k) && Matches(t, s[1..][j..]);
          assert s[1..][j..] == s[j + 1..];
          var pre, tail := s[..j + 1], s[1..][..j];
          assert AllIn(pre, k) by {
            forall m | 0 <= m < |pre| ensures InClass(pre[m], k) {
              if m > 0 {
                assert pre[m] == tail[m - 1];
              }
            }
          }
        }
      }
      if exists i :: 1 <= i <= |s| && AllIn(s[..i], k) && Matches(t, s[i..]) {
        var i :| 1 <= i <= |s| && AllIn(s[..i], k) && Matches(t, s[i..]);
        if i > 1 {
          assert s[1..][i - 1..] == s[i..];
          var pre, tail := s[..i], s[1..][..i - 1];
          assert AllIn(tail, k) by {
            forall m | 0 <= m < |tail| ensures InClass(tail[m], k) {
              assert tail[m] == pre[m + 1];
            }
          }
        }
      }
    }
  }

  /** `k+` alone accepts exactly the non-empty strings of `k`. */
  lemma ManyAlone(k: CharClass, s: string)
    ensures Matches([Many(k)], s) <==> |s| >= 1 && AllIn(s, k)
  {
    assert [Many(k)] + [] == [Many(k)];
    ManyThen(k, [], s);
    if |s| >= 1 && AllIn(s, k) {
      assert s[..|s|] == s && s[|s|..] == [];
    }
  }

  // ----- patterns over digits only -----

  /** The atom is a quantified run of digits, or an optional character that is never a digit. */
  predicate DigitShapedAtom(a: Atom) {
    match a
    case Opt(k) => forall c :: IsDigit(c) ==> !InClass(c, k)
    case Run(k, lo, hi) => k == Digit && lo <= hi
    case _ => false
  }

  predicate DigitShaped(p: seq<Atom>) {
    forall i :: 0 <= i < |p| ==> DigitShapedAtom(p[i])
  }

  /** The most digits a digit-shaped pattern consumes. */
  function MaxDigits(p: seq<Atom>): nat {
    if p == [] then 0
    else (if p[0].Run? then p[0].hi else 0) + MaxDigits(p[1..])
  }

  predicate AllDigits(s: string) {
    forall i :: 0 <= i < |s| ==> IsDigit(s[i])
  }

  lemma {:induction false} MinLeMax(p: seq<Atom>)
    requires DigitShaped(p)
    ensures MinLen(p) <= MaxDigits(p)
  {
    if p != [] {
      assert DigitShapedAtom(p[0]);
      MinLeMax(p[1..]);
    }
  }

  /** On a string of digits, a digit-shaped pattern accepts exactly the lengths between its bounds. */
  lemma {:induction false} DigitsOnly(p: seq<Atom>, s: string)
    requires DigitShaped(p) && AllDigits(s)
    ensures Matches(p, s) <==> MinLen(p) <= |s| <= MaxDigits(p)
    decreases Weight(p) + |s|
  {
    if p == [] {
    } else {
      var t := p[1..];
      assert DigitShaped(t) by {
        forall i | 0 <= i < |t| ensures DigitShapedAtom(t[i]) {
          assert t[i] == p[i + 1];
        }
      }
      assert DigitShapedAtom(p[0]);
      DigitsOnly(t, s);
      MinLeMax(t);
      match p[0]
      case Opt(k) => {
        if |s| > 0 {
          assert IsDigit(s[0]);
        }
      }
      case Run(k, lo, hi) => {
        if hi > 0 && |s| > 0 {
          var rest := [Run(k, if lo == 0 then 0 else lo - 1, hi - 1)] + t;
          assert rest[0] == Run(k, if lo == 0 then 0 else lo - 1, hi - 1) && rest[1..] == t;
          assert DigitShaped(rest) by {
            forall i | 0 <= i < |rest| ensures DigitShapedAtom(rest[i]) {
              if i > 0 {
                assert rest[i] == t[i - 1];
              }
            }
          }
          assert AllDigits(s[1..]);
          DigitsOnly(rest, s[1..]);
        }
      }
    }
  }
}
