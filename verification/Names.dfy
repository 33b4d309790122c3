/** Zero-padded names (internal/model/model.go:124-127) and the decimals in them. */
module Names {

  function Digit(d: nat): (c: char)
    requires d < 10
    ensures '0' <= c <= '9' && c as int - '0' as int == d
  {
    '0' + d as char
  }

  /** Decimal digits, without leading zeros except for zero itself. */
  function Decimal(n: nat): (s: string)
    ensures s != ""
  {
    if n < 10 then [Digit(n)] else Decimal(n / 10) + [Digit(n % 10)]
  }

  function Padded(width: nat, n: nat): string {
    var s := Decimal(n);
    seq(if |s| < width then width - |s| else 0, _ => '0') + s
  }

  predicate AllDigits(s: string) {
    forall i :: 0 <= i < |s| ==> '0' <= s[i] <= '9'
  }

  /** The number a string of digits denotes; leading zeros are allowed. */
  function Value(s: string): nat
    requires AllDigits(s)
  {
    if s == "" then 0 else 10 * Value(s[..|s| - 1]) + (s[|s| - 1] as int - '0' as int)
  }

  lemma {:induction false} DecimalReadsBack(n: nat)
    ensures AllDigits(Decimal(n)) && Value(Decimal(n)) == n
  {
    if n >= 10 {
      DecimalReadsBack(n / 10);
      assert Decimal(n)[..|Decimal(n)| - 1] == Decimal(n / 10);
    } else {
      assert Value("") == 0;
      assert Decimal(n)[..0] == "";
    }
  }

  lemma {:induction false} LeadingZeros(k: nat, s: string)
    requires AllDigits(s)
    ensures AllDigits(seq(k, _ => '0') + s) && Value(seq(k, _ => '0') + s) == Value(s)
  {
    var z := seq(k, _ => '0');
    if s == "" {
      assert z + s == z;
      if k > 0 {
        LeadingZeros(k - 1, s);
        assert z[..k - 1] == seq(k - 1, _ => '0') + s;
      }
    } else {
      LeadingZeros(k, s[..|s| - 1]);
      assert (z + s)[..|z + s| - 1] == z + s[..|s| - 1];
    }
  }

  lemma PaddedReadsBack(width: nat, n: nat)
    ensures AllDigits(Padded(width, n)) && Value(Padded(width, n)) == n
    ensures |Padded(width, n)| == if |Decimal(n)| < width then width else |Decimal(n)|
  {
    DecimalReadsBack(n);
    LeadingZeros(if |Decimal(n)| < width then width - |Decimal(n)| else 0, Decimal(n));
  }

  function VMName(prefix: string, pad: nat, n: nat): string {
    prefix + "-" + Padded(pad, n)
  }

  predicate LastDash(s: string, i: nat) {
    i < |s| && s[i] == '-' && forall j :: i < j < |s| ==> s[j] != '-'
  }

  lemma DigitsFollowLastDash(p: string, a: string)
    requires AllDigits(a)
    ensures LastDash(p + "-" + a, |p|)
  {
    var s := p + "-" + a;
    assert forall j :: |p| < j < |s| ==> s[j] == a[j - |p| - 1];
  }

  /** Names determine the prefix and the number, across deployments and paddings. */
  lemma VMNameIsInjective(p: string, padP: nat, n: nat, q: string, padQ: nat, m: nat)
    ensures VMName(p, padP, n) == VMName(q, padQ, m) ==> p == q && n == m
  {
    var a, b := Padded(padP, n), Padded(padQ, m);
    PaddedReadsBack(padP, n);
    PaddedReadsBack(padQ, m);
    if VMName(p, padP, n) == VMName(q, padQ, m) {
      DigitsFollowLastDash(p, a);
      DigitsFollowLastDash(q, b);
      assert (p + "-" + a)[..|p|] == p && (q + "-" + b)[..|q|] == q;
      assert (p + "-" + a)[|p| + 1..] == a && (q + "-" + b)[|q| + 1..] == b;
    }
  }
}
