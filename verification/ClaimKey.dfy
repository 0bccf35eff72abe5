/** The composite key under which an idempotency claim is stored. */
module ClaimKeys {
  import Decimal

  function ClaimKey(actorId: string, key: string): string {
    Decimal.Print(|actorId|) + ":" + actorId + key
  }

  /** Two texts that start with digits and then a colon split at the same place. */
  lemma SplitAtColon(a: string, restA: string, b: string, restB: string)
    requires Decimal.AllDigits(a) && Decimal.AllDigits(b)
    requires a + ":" + restA == b + ":" + restB
    ensures a == b && restA == restB
  {
    var whole := a + ":" + restA;
    assert whole[|a|] == ':' && whole[|b|] == ':';
    assert forall i :: 0 <= i < |a| ==> whole[i] == a[i] && Decimal.IsDigit(whole[i]);
    assert forall i :: 0 <= i < |b| ==> whole[i] == b[i] && Decimal.IsDigit(whole[i]);
    assert |a| == |b|;
    assert a == whole[..|a|] == b;
    assert restA == whole[|a| + 1..] == restB;
  }

  /** The length prefix makes the key injective: no two callers share a claim slot. */
  lemma ClaimKeyInjective(actorA: string, keyA: string, actorB: string, keyB: string)
    requires ClaimKey(actorA, keyA) == ClaimKey(actorB, keyB)
    ensures actorA == actorB && keyA == keyB
  {
    var a, b := Decimal.Print(|actorA|), Decimal.Print(|actorB|);
    assert a + ":" + (actorA + keyA) == ClaimKey(actorA, keyA);
    assert b + ":" + (actorB + keyB) == ClaimKey(actorB, keyB);
    SplitAtColon(a, actorA + keyA, b, actorB + keyB);
    Decimal.PrintInjective(|actorA|, |actorB|);
    assert (actorA + keyA)[..|actorA|] == actorA && (actorB + keyB)[..|actorB|] == actorB;
    assert (actorA + keyA)[|actorA|..] == keyA && (actorB + keyB)[|actorB|..] == keyB;
  }
}
