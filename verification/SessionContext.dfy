/** The length-prefixed context that payload session keys are derived from. */
module SessionContext {
  import opened Basics
  import opened ByteStrings

  const BAR: byte := 124
  const COLON: byte := 58

  // "pqfl-session-v3"
  const PREFIX: Bytes := [112, 113, 102, 108, 45, 115, 101, 115, 115, 105, 111, 110, 45, 118, 51]

  const KEY_SIZE := 32

  function EncodePart(part: Bytes): Bytes {
    [BAR] + Decimal(|part|) + [COLON] + part
  }

  function EncodeParts(parts: seq<Bytes>): Bytes {
    if |parts| == 0 then [] else EncodePart(parts[0]) + EncodeParts(parts[1..])
  }

  function MacInput(parts: seq<Bytes>): Bytes {
    PREFIX + EncodeParts(parts)
  }

  /** The text grows part by part: a bar, the part's length in decimal, a colon, the part. */
  lemma MacInputGrows(parts: seq<Bytes>, part: Bytes) returns (digits: Bytes)
    ensures MacInput([]) == [112, 113, 102, 108, 45, 115, 101, 115, 115, 105, 111, 110, 45, 118, 51]
    ensures AllDigits(digits) && DigitValue(digits) == |part| && |digits| > 0 && (|digits| == 1 || digits[0] != 48)
    ensures MacInput(parts + [part]) == MacInput(parts) + [124] + digits + [58] + part
  {
    digits := Decimal(|part|);
    DecimalReads(|part|);
    DecimalFirst(|part|);
    EncodePush(parts, part);
  }

  lemma {:induction false} EncodePush(parts: seq<Bytes>, part: Bytes)
    ensures EncodeParts(parts + [part]) == EncodeParts(parts) + EncodePart(part)
  {
    if |parts| > 0 {
      assert (parts + [part])[0] == parts[0] && (parts + [part])[1..] == parts[1..] + [part];
      EncodePush(parts[1..], part);
    } else {
      assert (parts + [part])[1..] == [];
    }
  }

  lemma {:induction false} DecimalFirst(n: nat)
    ensures |Decimal(n)| == 1 || Decimal(n)[0] != 48
  {
    if n >= 10 {
      DecimalFirst(n / 10);
      DecimalReads(n / 10);
      if n / 10 < 10 { assert Decimal(n / 10) == [(48 + n / 10) as byte]; }
    }
  }

  /** The append loop. */
  method BuildMacInput(parts: seq<Bytes>) returns (toMac: Bytes)
    ensures toMac == MacInput(parts)
  {
    toMac := PREFIX;
    for i := 0 to |parts|
      invariant toMac + EncodeParts(parts[i..]) == MacInput(parts)
    {
      ghost var before := toMac;
      toMac := toMac + [BAR];
      toMac := toMac + Decimal(|parts[i]|);
      toMac := toMac + [COLON];
      toMac := toMac + parts[i];
      assert toMac == before + EncodePart(parts[i]);
      assert parts[i..][0] == parts[i] && parts[i..][1..] == parts[i + 1..];
    }
  }

  /** The secret must be 32 bytes and the MAC at least that long; the key is its first 32 bytes. */
  method DeriveSessionKeyWithSecret(hmac: (Bytes, Bytes) -> Bytes, secret: Bytes, parts: seq<Bytes>)
    returns (key: Result<Bytes>)
    ensures key.Ok? <==> |secret| == KEY_SIZE && |hmac(secret, MacInput(parts))| >= KEY_SIZE
    ensures key.Ok? ==> key.value == hmac(secret, MacInput(parts))[..KEY_SIZE]
    ensures key.Ok? ==> |secret| == 32 && |key.value| == 32
  {
    if |secret| != KEY_SIZE {
      return Fail;
    }
    var toMac := BuildMacInput(parts);
    var mac := hmac(secret, toMac);
    if |mac| < KEY_SIZE {
      return Fail;
    }
    return Ok(mac[..KEY_SIZE]);
  }

  /** The position of the first occurrence of b in s, or |s|. */
  function IndexOf(s: Bytes, b: byte): (i: nat)
    ensures i <= |s| && (i < |s| ==> s[i] == b) && b !in s[..i]
  {
    if |s| == 0 || s[0] == b then 0
    else
      var k := IndexOf(s[1..], b);
      assert s[..1 + k] == [s[0]] + s[1..][..k];
      1 + k
  }

  /** Reads a context back: a bar, a canonical decimal length, a colon, that many bytes, and so on. */
  function DecodeParts(s: Bytes): Option<seq<Bytes>> {
    if |s| == 0 then Some([])
    else if s[0] != BAR then None
    else
      var i := 1 + IndexOf(s[1..], COLON);
      if i >= |s| then None
      else
        var digits := s[1..i];
        var n := DigitValue(digits);
        if n < 0 || Decimal(n) != digits || i + 1 + n > |s| then None
        else
          match DecodeParts(s[i + 1 + n..])
          case None => None
          case Some(rest) => Some([s[i + 1..i + 1 + n]] + rest)
  }

  lemma {:induction false} IndexOfFirst(s: Bytes, b: byte, k: nat)
    requires k < |s| && s[k] == b && forall j :: 0 <= j < k ==> s[j] != b
    ensures IndexOf(s, b) == k
  {
    if k > 0 {
      IndexOfFirst(s[1..], b, k - 1);
    }
  }

  /** Where the decoder cuts an encoded part followed by anything. */
  lemma CutPart(p: Bytes, rest: Bytes)
    ensures var s, n := EncodePart(p) + rest, |p|;
      && |s| > 0 && s[0] == BAR
      && var i := 1 + IndexOf(s[1..], COLON);
      && i + 1 + n <= |s| && s[1..i] == Decimal(n) && DigitValue(s[1..i]) == n
      && s[i + 1..i + 1 + n] == p && s[i + 1 + n..] == rest
  {
    var s, d := EncodePart(p) + rest, Decimal(|p|);
    DecimalReads(|p|);
    assert forall j :: 0 <= j < |d| ==> s[1..][j] == d[j];
    assert s[1..][|d|] == COLON;
    IndexOfFirst(s[1..], COLON, |d|);
  }

  /** The decoder inverts the encoder on every list of byte strings. */
  lemma {:induction false} DecodeInvertsEncode(parts: seq<Bytes>)
    ensures DecodeParts(EncodeParts(parts)) == Some(parts)
  {
    if |parts| > 0 {
      hide EncodePart, Decimal, DigitValue, IndexOf;
      CutPart(parts[0], EncodeParts(parts[1..]));
      DecodeInvertsEncode(parts[1..]);
      assert parts == [parts[0]] + parts[1..];
    }
  }

  /** Whatever decodes is exactly the encoding of what it decodes to. */
  lemma {:induction false} EncodeInvertsDecode(s: Bytes)
    requires DecodeParts(s).Some?
    ensures EncodeParts(DecodeParts(s).value) == s
  {
    if |s| > 0 {
      hide Decimal, DigitValue, IndexOf;
      var i := 1 + IndexOf(s[1..], COLON);
      var n := DigitValue(s[1..i]);
      var tail := s[i + 1 + n..];
      EncodeInvertsDecode(tail);
      var parts := DecodeParts(s).value;
      assert parts[0] == s[i + 1..i + 1 + n] && parts[1..] == DecodeParts(tail).value;
      Paste(s, i, n);
    }
  }

  lemma Paste(s: Bytes, i: nat, n: nat)
    requires 1 <= i && i + 1 + n <= |s| && s[0] == BAR && s[1..i] == Decimal(n) && s[i] == COLON
    ensures EncodePart(s[i + 1..i + 1 + n]) + s[i + 1 + n..] == s
  {
  }

  /** No two part lists share MAC input. */
  lemma MacInputInjective(a: seq<Bytes>, b: seq<Bytes>)
    ensures MacInput(a) == MacInput(b) <==> a == b
  {
    DecodeInvertsEncode(a);
    DecodeInvertsEncode(b);
    assert MacInput(a)[|PREFIX|..] == EncodeParts(a);
    assert MacInput(b)[|PREFIX|..] == EncodeParts(b);
  }

  // ----- The contexts of the two RPCs -----

  datatype SubmitRequest = SubmitRequest(tenant: Bytes, model: Bytes, client: Bytes, round: int, nonce: Bytes)

  datatype StreamRequest = StreamRequest(tenant: Bytes, model: Bytes, client: Bytes)

  // "default-tenant", "default-model", "submit", "stream"
  const DEFAULT_TENANT: Bytes := [100, 101, 102, 97, 117, 108, 116, 45, 116, 101, 110, 97, 110, 116]
  const DEFAULT_MODEL: Bytes := [100, 101, 102, 97, 117, 108, 116, 45, 109, 111, 100, 101, 108]
  const SUBMIT: Bytes := [115, 117, 98, 109, 105, 116]
  const STREAM: Bytes := [115, 116, 114, 101, 97, 109]

  function NormalizeTenant(t: Bytes): Bytes {
    if |t| == 0 then DEFAULT_TENANT else t
  }

  function NormalizeModel(m: Bytes): Bytes {
    if |m| == 0 then DEFAULT_MODEL else m
  }

  function SubmitContext(peer: Bytes, r: SubmitRequest): seq<Bytes> {
    var parts := [peer, NormalizeTenant(r.tenant), NormalizeModel(r.model), r.client, DecimalInt(r.round), SUBMIT];
    if |r.nonce| > 0 then parts + [r.nonce] else parts
  }

  function StreamContext(peer: Bytes, r: StreamRequest): seq<Bytes> {
    [peer, NormalizeTenant(r.tenant), NormalizeModel(r.model), r.client, STREAM]
  }

  /** What the two contexts name, and in which order; an empty tenant or model stands for the default one, and a nonce
      comes last if there is one. */
  lemma ContextParts(peer: Bytes, r: SubmitRequest, q: StreamRequest)
    ensures var c := SubmitContext(peer, r);
      && |c| == (if r.nonce == [] then 6 else 7) && c[0] == peer && c[3] == r.client
      && c[1] == (if r.tenant
                  == [] then [100, 101, 102, 97, 117, 108, 116, 45, 116, 101, 110, 97, 110, 116] else r.tenant)
      && c[2] == (if r.model == [] then [100, 101, 102, 97, 117, 108, 116, 45, 109, 111, 100, 101, 108] else r.model)
      && (r.round >= 0 ==> AllDigits(c[4]) && DigitValue(c[4]) == r.round)
      && c[5] == [115, 117, 98, 109, 105, 116] && (r.nonce != [] ==> c[6] == r.nonce)
    ensures var c := StreamContext(peer, q);
      && |c| == 5 && c[0] == peer && c[3] == q.client && c[4] == [115, 116, 114, 101, 97, 109]
      && c[1] == (if q.tenant
                  == [] then [100, 101, 102, 97, 117, 108, 116, 45, 116, 101, 110, 97, 110, 116] else q.tenant)
      && c[2] == (if q.model == [] then [100, 101, 102, 97, 117, 108, 116, 45, 109, 111, 100, 101, 108] else q.model)
  {
    if r.round >= 0 { DecimalReads(r.round); }
  }

  /** Two submissions share MAC input only if they agree on the peer, the scope, the client, the round and the nonce. */
  lemma SubmitContextsSeparated(peer: Bytes, r: SubmitRequest, peer': Bytes, r': SubmitRequest)
    ensures MacInput(SubmitContext(peer, r)) == MacInput(SubmitContext(peer', r')) <==>
      && peer == peer'
      && NormalizeTenant(r.tenant) == NormalizeTenant(r'.tenant)
      && NormalizeModel(r.model) == NormalizeModel(r'.model)
      && r.client == r'.client && r.round == r'.round && r.nonce == r'.nonce
  {
    var a, b := SubmitContext(peer, r), SubmitContext(peer', r');
    MacInputInjective(a, b);
    DecimalIntInjective(r.round, r'.round);
    assert a[0] == peer && a[1] == NormalizeTenant(r.tenant) && a[2] == NormalizeModel(r.model);
    assert a[3] == r.client && a[4] == DecimalInt(r.round);
    assert |r.nonce| > 0 ==> |a| == 7 && a[6] == r.nonce;
    assert |r'.nonce| > 0 ==> |b| == 7 && b[6] == r'.nonce;
  }

  /** A submission key and a stream key never share MAC input. */
  lemma SubmitNeverStream(peer: Bytes, r: SubmitRequest, peer': Bytes, q: StreamRequest)
    ensures MacInput(SubmitContext(peer, r)) != MacInput(StreamContext(peer', q))
  {
    MacInputInjective(SubmitContext(peer, r), StreamContext(peer', q));
    assert |SubmitContext(peer, r)| >= 6 && |StreamContext(peer', q)| == 5;
  }
}
