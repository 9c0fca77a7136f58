/** Canonical idempotency keys (app/execution/idempotency.py). */
module Idempotency {
  import opened Colons

  function Digit(d: nat): char
    requires d < 10
  {
    ['0', '1', '2', '3', '4', '5', '6', '7', '8', '9'][d]
  }

  function NatText(n: nat): (s: string)
    ensures s != ""
  {
    if n < 10 then [Digit(n)] else NatText(n / 10) + [Digit(n % 10)]
  }

  /** The decimal text of an integer. */
  function IntText(n: int): string {
    if n < 0 then "-" + NatText(-n) else NatText(n)
  }

  function GenerateIdempotencyKey(caseId: string, attempt: int): string {
    "recovery:" + caseId + ":attempt:" + IntText(attempt)
  }

  predicate IsDigit(c: char) {
    '0' <= c <= '9'
  }

  lemma {:induction false} NatTextIsDigits(n: nat)
    ensures forall i :: 0 <= i < |NatText(n)| ==> IsDigit(NatText(n)[i])
  {
    if n >= 10 {
      NatTextIsDigits(n / 10);
    }
  }

  lemma {:induction false} NatTextInjective(a: nat, b: nat)
    requires NatText(a) == NatText(b)
    ensures a == b
  {
    var s, t := NatText(a), NatText(b);
    assert s[|s| - 1] == Digit(a % 10) && t[|t| - 1] == Digit(b % 10);
    assert a % 10 == b % 10;
    if a >= 10 && b >= 10 {
      assert s[..|s| - 1] == NatText(a / 10) && t[..|t| - 1] == NatText(b / 10);
      NatTextInjective(a / 10, b / 10);
    }
  }

  lemma {:induction false} IntTextInjective(a: int, b: int)
    requires IntText(a) == IntText(b)
    ensures a == b
  {
    if a < 0 && b < 0 {
      assert IntText(a)[1..] == NatText(-a) && IntText(b)[1..] == NatText(-b);
      NatTextInjective(-a, -b);
    } else if a >= 0 && b >= 0 {
      NatTextInjective(a, b);
    } else if a < 0 {
      SignShows(a, b);
    } else {
      SignShows(b, a);
    }
  }

  lemma SignShows(neg: int, nonneg: int)
    requires neg < 0 <= nonneg
    ensures IntText(neg) != IntText(nonneg)
  {
    NatTextIsDigits(nonneg);
    assert IntText(neg)[0] == '-';
  }

  lemma NoColonInNumbers(n: int)
    ensures ':' !in IntText(n)
  {
    if n < 0 {
      NatTextIsDigits(-n);
    } else {
      NatTextIsDigits(n);
    }
  }

  /** Two recovery actions share a key exactly when they are the same attempt of the same case, whatever the
      case ids contain: the attempt is what follows the last colon. */
  lemma {:induction false} KeyInjective(case1: string, attempt1: int, case2: string, attempt2: int)
    ensures GenerateIdempotencyKey(case1, attempt1) == GenerateIdempotencyKey(case2, attempt2)
            <==> case1 == case2 && attempt1 == attempt2
  {
    if GenerateIdempotencyKey(case1, attempt1) == GenerateIdempotencyKey(case2, attempt2) {
      NoColonInNumbers(attempt1);
      NoColonInNumbers(attempt2);
      var a, b := "recovery:" + case1 + ":attempt", "recovery:" + case2 + ":attempt";
      KeyParts(case1, attempt1);
      KeyParts(case2, attempt2);
      LastColon(a, IntText(attempt1), b, IntText(attempt2));
      IntTextInjective(attempt1, attempt2);
      assert case1 == a[|"recovery:"|..|a| - |":attempt"|] && case2 == b[|"recovery:"|..|b| - |":attempt"|];
    }
  }

  lemma KeyParts(caseId: string, attempt: int)
    ensures GenerateIdempotencyKey(caseId, attempt) == "recovery:" + caseId + ":attempt" + ":" + IntText(attempt)
  {
    assert ":attempt:" == ":attempt" + ":";
    assert "recovery:" + caseId + (":attempt" + ":") + IntText(attempt)
        == "recovery:" + caseId + ":attempt" + ":" + IntText(attempt);
  }
}
