/** Partition device names (`util.rs`). */
module PartitionPaths {
  import opened Text

  predicate EndsInDigit(s: string) {
    s != "" && IsDigit(s[|s| - 1])
  }

  function PartitionPath(device: string, partNum: nat): string {
    if EndsInDigit(device) then device + "p" + Decimal(partNum) else device + Decimal(partNum)
  }

  /** What precedes the number. */
  function Stem(device: string): (s: string)
    ensures !EndsInDigit(s)
  {
    if EndsInDigit(device) then device + "p" else device
  }

  function TrailingDigits(s: string): (k: nat)
    ensures k <= |s|
  {
    if EndsInDigit(s) then 1 + TrailingDigits(s[..|s| - 1]) else 0
  }

  lemma {:induction false} StemAndNumber(stem: string, digits: string)
    requires !EndsInDigit(stem) && AllDigits(digits)
    ensures TrailingDigits(stem + digits) == |digits|
  {
    if digits == "" {
      assert stem + digits == stem;
    } else {
      var front := digits[..|digits| - 1];
      StemAndNumber(stem, front);
      var s := stem + digits;
      assert s[..|s| - 1] == stem + front && s[|s| - 1] == digits[|digits| - 1];
    }
  }

  /** Two partitions share a path exactly when they are the same partition, or
      one disk's name ends in a digit and the other's is that name followed by `p`. */
  lemma PathsCollide(d1: string, n1: nat, d2: string, n2: nat)
    ensures PartitionPath(d1, n1) == PartitionPath(d2, n2)
       <==> n1 == n2 && (d1 == d2 || (EndsInDigit(d1) && d2 == d1 + "p") || (EndsInDigit(d2) && d1 == d2 + "p"))
  {
    var a, b := Stem(d1), Stem(d2);
    assert PartitionPath(d1, n1) == a + Decimal(n1) && PartitionPath(d2, n2) == b + Decimal(n2);
    StemAndNumber(a, Decimal(n1));
    StemAndNumber(b, Decimal(n2));
    if PartitionPath(d1, n1) == PartitionPath(d2, n2) {
      var s := PartitionPath(d1, n1);
      assert a == s[..|a|] && b == s[..|b|];
      assert Decimal(n1) == s[|a|..] && Decimal(n2) == s[|b|..];
      assert EndsInDigit(d1) ==> d1 == a[..|a| - 1];
      assert EndsInDigit(d2) ==> d2 == b[..|b| - 1];
    }
  }

  /** Distinct partitions of one disk have distinct paths. */
  lemma PartitionsDistinct(device: string, n1: nat, n2: nat)
    requires n1 != n2
    ensures PartitionPath(device, n1) != PartitionPath(device, n2)
  {
    PathsCollide(device, n1, device, n2);
  }
}
