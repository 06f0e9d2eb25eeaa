/** The text of scope and round keys: when it stands for the pair of tenant and model. */
module ScopeKeys {
  import opened ByteStrings
  import opened SessionContext

  const SEPARATOR: Bytes := [58, 58]
  // "::round:"
  const ROUND: Bytes := [58, 58, 114, 111, 117, 110, 100, 58]

  function ScopeKey(tenant: Bytes, model: Bytes): Bytes {
    NormalizeTenant(tenant) + SEPARATOR + NormalizeModel(model)
  }

  function RoundKeyText(tenant: Bytes, model: Bytes, round: int): Bytes {
    ScopeKey(tenant, model) + ROUND + DecimalInt(round)
  }

  /** Tenant, "::", model, "::round:", and the round in decimal. */
  lemma KeyTextIs(tenant: Bytes, model: Bytes, round: nat) returns (digits: Bytes)
    requires tenant != [] && model != []
    ensures AllDigits(digits) && DigitValue(digits) == round
    ensures RoundKeyText(tenant, model, round)
      == tenant + [58, 58] + model + [58, 58, 114, 111, 117, 110, 100, 58] + digits
  {
    digits := Decimal(round);
    DecimalReads(round);
  }

  predicate NoColon(s: Bytes) {
    forall i :: 0 <= i < |s| ==> s[i] != 58
  }

  lemma DecimalHasNoColon(n: int)
    ensures NoColon(DecimalInt(n))
  {
    DecimalReads(if n < 0 then -n else n);
  }

  /** A text after its last round mark. */
  lemma LastSplit(x: Bytes, a: Bytes, y: Bytes, b: Bytes)
    requires NoColon(a) && NoColon(b) && x + ROUND + a == y + ROUND + b
    ensures x == y && a == b
  {
    var s, t := x + ROUND + a, y + ROUND + b;
    var i, j := |x| + 7, |y| + 7;
    assert s[i] == 58 && t[j] == 58;
    assert forall k :: i < k < |s| ==> s[k] == a[k - i - 1];
    assert forall k :: j < k < |t| ==> t[k] == b[k - j - 1];
    assert i == j;
    assert s[..|x|] == x && t[..|y|] == y;
    assert s[i + 1..] == a && t[j + 1..] == b;
  }

  /** Round keys add nothing to collide: they are equal exactly when the scope keys and the rounds are. */
  lemma RoundKeysSplit(tenant: Bytes, model: Bytes, round: int, tenant': Bytes, model': Bytes, round': int)
    ensures RoundKeyText(tenant, model, round) == RoundKeyText(tenant', model', round') <==>
      ScopeKey(tenant, model) == ScopeKey(tenant', model') && round == round'
  {
    if RoundKeyText(tenant, model, round) == RoundKeyText(tenant', model', round') {
      DecimalHasNoColon(round);
      DecimalHasNoColon(round');
      LastSplit(ScopeKey(tenant, model), DecimalInt(round), ScopeKey(tenant', model'), DecimalInt(round'));
      DecimalIntInjective(round, round');
    }
  }

  /** The text could be cut at k: something before, a separator, something after. */
  predicate CutsAt(s: Bytes, k: int) {
    0 < k && k + 2 < |s| && s[k] == 58 && s[k + 1] == 58
  }

  /** The only place the scope's key could be cut at is where it was joined. */
  ghost predicate OneCut(tenant: Bytes, model: Bytes) {
    forall k: int :: CutsAt(ScopeKey(tenant, model), k) ==> k == |NormalizeTenant(tenant)|
  }

  predicate SameScope(tenant: Bytes, model: Bytes, tenant': Bytes, model': Bytes) {
    NormalizeTenant(tenant) == NormalizeTenant(tenant') && NormalizeModel(model) == NormalizeModel(model')
  }

  ghost predicate Shares(tenant: Bytes, model: Bytes, tenant': Bytes, model': Bytes) {
    ScopeKey(tenant', model') == ScopeKey(tenant, model)
  }

  /** A key stands for exactly one scope if and only if it could be cut in one place only; identifiers may contain
      colons, so this can fail. */
  lemma KeyIsOneScope(tenant: Bytes, model: Bytes)
    ensures (forall tenant', model' :: Shares(tenant, model, tenant', model') ==>
             SameScope(tenant, model, tenant', model'))
      <==> OneCut(tenant, model)
  {
    var s, n := ScopeKey(tenant, model), |NormalizeTenant(tenant)|;
    if OneCut(tenant, model) {
      forall tenant', model' | Shares(tenant, model, tenant', model')
        ensures SameScope(tenant, model, tenant', model') {
        JoinIsCut(tenant', model');
        assert CutsAt(s, |NormalizeTenant(tenant')|);
        assert s[..n] == NormalizeTenant(tenant) && s[n + 2..] == NormalizeModel(model);
        assert s[..n] == NormalizeTenant(tenant') && s[n + 2..] == NormalizeModel(model');
      }
    } else {
      var k :| CutsAt(s, k) && k != n;
      assert s == s[..k] + SEPARATOR + s[k + 2..];
      assert Shares(tenant, model, s[..k], s[k + 2..]);
      assert |NormalizeTenant(s[..k])| == k;
    }
  }

  lemma JoinIsCut(tenant: Bytes, model: Bytes)
    ensures CutsAt(ScopeKey(tenant, model), |NormalizeTenant(tenant)|)
  {
  }

  /** A text before its first separator. */
  lemma FirstSplit(a: Bytes, x: Bytes, b: Bytes, y: Bytes)
    requires NoColon(a) && NoColon(b) && a + SEPARATOR + x == b + SEPARATOR + y
    ensures a == b && x == y
  {
    var s, t := a + SEPARATOR + x, b + SEPARATOR + y;
    assert s[|a|] == 58 && t[|b|] == 58;
    assert forall k :: 0 <= k < |a| ==> s[k] == a[k];
    assert forall k :: 0 <= k < |b| ==> t[k] == b[k];
    assert |a| == |b|;
    assert s[..|a|] == a && t[..|b|] == b;
    assert s[|a| + 2..] == x && t[|b| + 2..] == y;
  }

  /** Among tenants without a colon the key of a round stands for exactly one tenant, model and round. */
  lemma RoundKeysInjective(tenant: Bytes, model: Bytes, round: int, tenant': Bytes, model': Bytes, round': int)
    requires NoColon(NormalizeTenant(tenant)) && NoColon(NormalizeTenant(tenant'))
    ensures RoundKeyText(tenant, model, round) == RoundKeyText(tenant', model', round') <==>
      SameScope(tenant, model, tenant', model') && round == round'
  {
    RoundKeysSplit(tenant, model, round, tenant', model', round');
    if ScopeKey(tenant, model) == ScopeKey(tenant', model') {
      FirstSplit(NormalizeTenant(tenant), NormalizeModel(model), NormalizeTenant(tenant'), NormalizeModel(model'));
    }
  }

  /** Whatever the tenant, identifiers with colons make two different scopes share a key. */
  lemma ColonsCollide(tenant: Bytes, middle: Bytes, model: Bytes)
    requires |tenant| > 0 && |model| > 0
    ensures ScopeKey(tenant + SEPARATOR + middle, model) == ScopeKey(tenant, middle + SEPARATOR + model)
    ensures NormalizeTenant(tenant + SEPARATOR + middle) != NormalizeTenant(tenant)
  {
    assert tenant + SEPARATOR + middle + SEPARATOR + model == tenant + SEPARATOR + (middle + SEPARATOR + model);
    assert |tenant + SEPARATOR + middle| > |tenant|;
  }
}
