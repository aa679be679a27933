/**
 * The affinity token: a dialog's routing state as a sealed byte layout. Minting prints it, verification
 * parses it in nine ordered steps (S1 to S9). The cryptography is left uninterpreted.
 */
module Token {
  import opened Basics
  import opened Keys
  import opened Codec
  import Forwarding
  import Messages
  import ProxyConfig

  const VERSION: byte := 1
  const MAX_BODY_LEN := BODY_FIXED_LEN + MAX_FACTS
  const MAX_TOKEN_LEN := HEADER_LEN + MAX_BODY_LEN + 16
  const MIN_TOKEN_LEN := HEADER_LEN + BODY_FIXED_LEN + 12

  datatype Direction = Originating | Terminating

  function ToWire(d: Direction): byte { if d.Originating? then 1 else 2 }
  function FromWire(b: byte): Option<Direction> { if b == 1 then Some(Originating) else if b == 2 then Some(Terminating) else None }
  function Complement(d: Direction): Direction { if d.Originating? then Terminating else Originating }

  datatype Claims = Claims(
    tenant: u32, homeShard: u16, edge: u16, direction: Direction, mediaNode: u16, policyVersion: u32, expiry: u32,
    facts: seq<byte>)

  type Nonce = n: seq<byte> | |n| == 12 witness seq(12, _ => 0)
  type Digest = d: seq<byte> | |d| == 32 witness seq(32, _ => 0)

  /** ChaCha20-Poly1305 (RFC 8439 section 2.8) and HMAC-SHA-256 (RFC 2104), uninterpreted. */
  datatype Suite = Suite(
    seal: (Secret, Nonce, seq<byte>, seq<byte>) -> (seq<byte>, seq<byte>),
    open: (Secret, Nonce, seq<byte>, seq<byte>, seq<byte>) -> Option<seq<byte>>,
    hmac: (Secret, seq<byte>) -> Digest)

  /** What was sealed opens, and sealing keeps the length. */
  ghost predicate Correct(suite: Suite) {
    forall secret: Secret, nonce: Nonce, header: seq<byte>, plain: seq<byte> ::
      var sealed := suite.seal(secret, nonce, header, plain);
      |sealed.0| == |plain| && |sealed.1| == 16 && suite.open(secret, nonce, header, sealed.0, sealed.1) == Some(plain)
  }

  /** Only what was sealed opens. */
  ghost predicate Genuine(suite: Suite) {
    forall secret: Secret, nonce: Nonce, header: seq<byte>, cipher: seq<byte>, tag: seq<byte> ::
      var unsealed := suite.open(secret, nonce, header, cipher, tag);
      unsealed.Some? ==> suite.seal(secret, nonce, header, unsealed.value) == (cipher, tag)
  }

  // ------------------------------------------------------------------ the layout

  function Header(key: MintKey, nonce: Nonce): (h: seq<byte>)
    ensures |h| == HEADER_LEN
  {
    [VERSION, key.id] + nonce
  }

  function Fixed(c: Claims): (b: seq<byte>)
    ensures |b| == BODY_FIXED_LEN - 1
  {
    Be32(c.tenant) + Be16(c.homeShard) + Be16(c.edge) + [ToWire(c.direction)] + Be16(c.mediaNode) + Be32(c.policyVersion)
    + Be32(c.expiry)
  }

  function Body(c: Claims): (b: seq<byte>)
    requires |c.facts| <= MAX_FACTS
    ensures |b| == BODY_FIXED_LEN + |c.facts|
  {
    Fixed(c) + [|c.facts| as byte] + c.facts
  }

  datatype MintError = FactsTooLong(len: nat)

  /** The body as it travels, and its tag. */
  function Protected(suite: Suite, key: MintKey, nonce: Nonce, header: seq<byte>, body: seq<byte>): (seq<byte>, seq<byte>) {
    if key.algorithm.ChaCha20Poly1305? then suite.seal(key.secret, nonce, header, body)
    else (body, suite.hmac(key.secret, header + body)[..12])
  }

  function Mint(suite: Suite, c: Claims, key: MintKey, nonce: Nonce): Result<seq<byte>, MintError> {
    if |c.facts| > MAX_FACTS then Err(FactsTooLong(|c.facts|))
    else
      var header := Header(key, nonce);
      var (body, tag) := Protected(suite, key, nonce, header, Body(c));
      Ok(header + body + tag)
  }

  // ------------------------------------------------------------------ verification

  datatype Reason = Structure | UnknownKey | Length | Tag | Framing | Expired | Field | Scope | Pair

  datatype Verdict = Valid(claims: Claims) | Invalid(reason: Reason)

  /** What the ingress knows: a pinned tenant, the partner of a popped pair, the clock skew allowed. */
  datatype Ingress = Ingress(tenant: Option<u32>, partner: Option<seq<byte>>, skew: u32)

  datatype Parsed = Parsed(claims: Claims, nonce: Nonce)

  /** S4: the body if the tag authenticates it. Decryption is in place, so it keeps the length. */
  function Authenticated(suite: Suite, key: MintKey, nonce: Nonce, header: seq<byte>, body: seq<byte>, tag: seq<byte>): Option<seq<byte>> {
    if key.algorithm.ChaCha20Poly1305? then
      var unsealed := suite.open(key.secret, nonce, header, body, tag);
      if unsealed.Some? && |unsealed.value| == |body| then unsealed else None
    else if suite.hmac(key.secret, header + body)[..12] == tag then Some(body)
    else None
  }

  function ClaimsOf(body: seq<byte>, direction: Direction): Claims
    requires |body| >= BODY_FIXED_LEN
  {
    Claims(FromBe32(body[0..4]), FromBe16(body[4..6]), FromBe16(body[6..8]), direction, FromBe16(body[9..11]),
           FromBe32(body[11..15]), FromBe32(body[15..19]), body[20..])
  }

  /** S5 to S7, on an authenticated body. */
  function ReadBody(body: seq<byte>, nonce: Nonce, now: u32, skew: u32): Result<Parsed, Reason>
    requires |body| >= BODY_FIXED_LEN
  {
    if body[19] as int != |body| - BODY_FIXED_LEN then Err(Framing)
    else if !NotExpired(FromBe32(body[15..19]), skew, now) then Err(Expired)
    else if FromWire(body[8]).None? then Err(Field)
    else Ok(Parsed(ClaimsOf(body, FromWire(body[8]).value), nonce))
  }

  predicate LengthAllowed(a: Algorithm, len: nat) { MinTokenLen(a) <= len <= MaxTokenLen(a) }

  /** S1 to S7: everything that is a property of one token by itself. */
  function ThroughS7(suite: Suite, bytes: seq<byte>, entries: seq<KeyEntry>, now: u32, skew: u32): Result<Parsed, Reason> {
    if |bytes| < MIN_TOKEN_LEN || bytes[0] != VERSION then Err(Structure)
    else match VerifyKey(entries, bytes[1], now)
      case None => Err(UnknownKey)
      case Some(key) =>
        if !LengthAllowed(key.algorithm, |bytes|) then Err(Length)
        else
          var end := |bytes| - TagLen(key.algorithm);
          match Authenticated(suite, key, bytes[2..14], bytes[..14], bytes[14..end], bytes[end..])
          case None => Err(Tag)
          case Some(body) => ReadBody(body, bytes[2..14], now, skew)
  }

  predicate PairConsistent(first: Parsed, second: Parsed) {
    var claims, other := first.claims, second.claims;
    && claims.direction == Complement(other.direction) && first.nonce != second.nonce && claims.tenant == other.tenant
    && claims.homeShard == other.homeShard && claims.edge == other.edge && claims.mediaNode == other.mediaNode
    && claims.policyVersion == other.policyVersion && claims.expiry == other.expiry && claims.facts == other.facts
  }

  predicate PartnerAgrees(suite: Suite, first: Parsed, partner: seq<byte>, entries: seq<KeyEntry>, now: u32, skew: u32) {
    var other := ThroughS7(suite, partner, entries, now, skew);
    other.Ok? && PairConsistent(first, other.value)
  }

  function Verify(suite: Suite, bytes: seq<byte>, entries: seq<KeyEntry>, now: u32, ingress: Ingress): Verdict {
    match ThroughS7(suite, bytes, entries, now, ingress.skew)
    case Err(reason) => Invalid(reason)
    case Ok(parsed) =>
      if ingress.tenant.Some? && ingress.tenant.value != parsed.claims.tenant then Invalid(Scope)
      else if ingress.partner.Some? && !PartnerAgrees(suite, parsed, ingress.partner.value, entries, now, ingress.skew) then Invalid(Pair)
      else Valid(parsed.claims)
  }

  // ------------------------------------------------------------------ the layout read back

  lemma FixedReads(c: Claims, rest: seq<byte>)
    ensures var b := Fixed(c) + rest;
      && b[0..4] == Be32(c.tenant) && b[4..6] == Be16(c.homeShard) && b[6..8] == Be16(c.edge) && b[8] == ToWire(c.direction)
      && b[9..11] == Be16(c.mediaNode) && b[11..15] == Be32(c.policyVersion) && b[15..19] == Be32(c.expiry) && b[19..] == rest
  {
  }

  /** Reading a printed body gives the claims back. */
  lemma BodyRoundTrip(c: Claims)
    requires |c.facts| <= MAX_FACTS
    ensures var b := Body(c);
      && b[19] as int == |c.facts| && FromBe32(b[15..19]) == c.expiry && FromWire(b[8]) == Some(c.direction)
      && ClaimsOf(b, c.direction) == c
  {
    var rest := [|c.facts| as byte] + c.facts;
    assert Body(c) == Fixed(c) + rest;
    FixedReads(c, rest);
    assert Body(c)[20..] == c.facts;
    Be32RoundTrip(c.tenant);
    Be16RoundTrip(c.homeShard);
    Be16RoundTrip(c.edge);
    Be16RoundTrip(c.mediaNode);
    Be32RoundTrip(c.policyVersion);
    Be32RoundTrip(c.expiry);
  }

  lemma Be16Rereads(s: seq<byte>)
    requires |s| == 2
    ensures Be16(FromBe16(s)) == s
  {
  }

  lemma Split32(a: int, b: int, c: int, d: int)
    requires 0 <= a < 0x100 && 0 <= b < 0x100 && 0 <= c < 0x100 && 0 <= d < 0x100
    ensures var n := a * 0x100_0000 + b * 0x1_0000 + c * 0x100 + d;
      n / 0x100_0000 == a && n / 0x1_0000 % 0x100 == b && n / 0x100 % 0x100 == c && n % 0x100 == d
  {
    var n := a * 0x100_0000 + b * 0x1_0000 + c * 0x100 + d;
    assert n == (a * 0x100 + b) * 0x1_0000 + (c * 0x100 + d);
    assert n / 0x1_0000 == a * 0x100 + b;
    assert n == (a * 0x1_0000 + b * 0x100 + c) * 0x100 + d;
    assert n / 0x100 == (a * 0x100 + b) * 0x100 + c;
  }

  lemma Be32Rereads(s: seq<byte>)
    requires |s| == 4
    ensures Be32(FromBe32(s)) == s
  {
    Split32(s[0] as int, s[1] as int, s[2] as int, s[3] as int);
  }

  /** And printing what was read gives the body back: no byte of it is free. */
  lemma BodyReprints(body: seq<byte>, direction: Direction)
    requires BODY_FIXED_LEN <= |body| <= MAX_BODY_LEN && body[19] as int == |body| - BODY_FIXED_LEN
    requires FromWire(body[8]) == Some(direction)
    ensures Body(ClaimsOf(body, direction)) == body
  {
    var c := ClaimsOf(body, direction);
    Be32Rereads(body[0..4]);
    Be16Rereads(body[4..6]);
    Be16Rereads(body[6..8]);
    Be16Rereads(body[9..11]);
    Be32Rereads(body[11..15]);
    Be32Rereads(body[15..19]);
    assert Fixed(c) == body[..19];
    assert body == body[..19] + [body[19]] + body[20..];
  }

  // ------------------------------------------------------------------ minting, then verifying

  /** The parts of a minted token. */
  lemma MintedParts(suite: Suite, c: Claims, key: MintKey, nonce: Nonce)
    requires Correct(suite) && |c.facts| <= MAX_FACTS
    ensures var bytes := Mint(suite, c, key, nonce).value;
      var sealed := Protected(suite, key, nonce, Header(key, nonce), Body(c));
      && |bytes| == MinTokenLen(key.algorithm) + |c.facts| && |sealed.1| == TagLen(key.algorithm) && |sealed.0| == |Body(c)|
      && bytes[0] == VERSION && bytes[1] == key.id && bytes[2..14] == nonce && bytes[..14] == Header(key, nonce)
      && bytes[14..|bytes| - TagLen(key.algorithm)] == sealed.0 && bytes[|bytes| - TagLen(key.algorithm)..] == sealed.1
  {
    var header := Header(key, nonce);
    var sealed := Protected(suite, key, nonce, header, Body(c));
    var bytes := Mint(suite, c, key, nonce).value;
    if key.algorithm.ChaCha20Poly1305? {
      assert sealed == suite.seal(key.secret, nonce, header, Body(c));
    }
    assert bytes == header + sealed.0 + sealed.1;
  }

  lemma MintedAuthenticates(suite: Suite, c: Claims, key: MintKey, nonce: Nonce)
    requires Correct(suite) && |c.facts| <= MAX_FACTS
    ensures var sealed := Protected(suite, key, nonce, Header(key, nonce), Body(c));
      Authenticated(suite, key, nonce, Header(key, nonce), sealed.0, sealed.1) == Some(Body(c))
  {
    var sealed := suite.seal(key.secret, nonce, Header(key, nonce), Body(c));
    assert suite.open(key.secret, nonce, Header(key, nonce), sealed.0, sealed.1) == Some(Body(c));
  }

  /** Another key's construction does not authenticate these bytes: what an ideal suite guarantees. */
  ghost predicate Foreign(suite: Suite, key: MintKey, bytes: seq<byte>) {
    LengthAllowed(key.algorithm, |bytes|) ==>
      var end := |bytes| - TagLen(key.algorithm);
      Authenticated(suite, key, bytes[2..14], bytes[..14], bytes[14..end], bytes[end..]).None?
  }

  /** What S1 to S7 make of a token minted under `key`: the first check it fails, or its claims. */
  function MintedThroughS7(c: Claims, key: MintKey, nonce: Nonce, entries: seq<KeyEntry>, now: u32, skew: u32): Result<Parsed, Reason> {
    match VerifyKey(entries, key.id, now)
    case None => Err(UnknownKey)
    case Some(selected) =>
      if selected != key then
        if LengthAllowed(selected.algorithm, MinTokenLen(key.algorithm) + |c.facts|) then Err(Tag) else Err(Length)
      else if !NotExpired(c.expiry, skew, now) then Err(Expired)
      else Ok(Parsed(c, nonce))
  }

  /** The verdict on a minted token: the first step it fails, or its claims. */
  function MintedVerdict(suite: Suite, c: Claims, key: MintKey, nonce: Nonce, entries: seq<KeyEntry>, now: u32, ingress: Ingress): Verdict {
    var read := MintedThroughS7(c, key, nonce, entries, now, ingress.skew);
    if read.Err? then Invalid(read.error)
    else if ingress.tenant.Some? && ingress.tenant.value != c.tenant then Invalid(Scope)
    else if ingress.partner.Some? && !PartnerAgrees(suite, Parsed(c, nonce), ingress.partner.value, entries, now, ingress.skew) then
      Invalid(Pair)
    else Valid(c)
  }

  lemma {:induction false} MintedReads(suite: Suite, c: Claims, key: MintKey, nonce: Nonce, entries: seq<KeyEntry>, now: u32, skew: u32)
    requires Correct(suite) && |c.facts| <= MAX_FACTS
    requires var selected := VerifyKey(entries, key.id, now);
      selected.Some? && selected.value != key ==> Foreign(suite, selected.value, Mint(suite, c, key, nonce).value)
    ensures ThroughS7(suite, Mint(suite, c, key, nonce).value, entries, now, skew)
      == MintedThroughS7(c, key, nonce, entries, now, skew)
  {
    MintedParts(suite, c, key, nonce);
    if VerifyKey(entries, key.id, now) == Some(key) {
      MintedAuthenticates(suite, c, key, nonce);
      BodyRoundTrip(c);
    }
  }

  /**
   * Verifying a minted token gives exactly its claims when the minting key is the one its id selects, it has not
   * expired, the pinned tenant agrees and the partner is consistent; otherwise the first failing step's reason.
   */
  lemma {:induction false} MintThenVerify(suite: Suite, c: Claims, key: MintKey, nonce: Nonce, entries: seq<KeyEntry>, now: u32, ingress: Ingress)
    requires Correct(suite) && |c.facts| <= MAX_FACTS
    requires var selected := VerifyKey(entries, key.id, now);
      selected.Some? && selected.value != key ==> Foreign(suite, selected.value, Mint(suite, c, key, nonce).value)
    ensures Verify(suite, Mint(suite, c, key, nonce).value, entries, now, ingress)
      == MintedVerdict(suite, c, key, nonce, entries, now, ingress)
    ensures Verify(suite, Mint(suite, c, key, nonce).value, entries, now, ingress) == Valid(c) <==>
      && VerifyKey(entries, key.id, now) == Some(key) && NotExpired(c.expiry, ingress.skew, now)
      && (ingress.tenant.Some? ==> ingress.tenant.value == c.tenant)
      && (ingress.partner.Some? ==> PartnerAgrees(suite, Parsed(c, nonce), ingress.partner.value, entries, now, ingress.skew))
  {
    MintedReads(suite, c, key, nonce, entries, now, ingress.skew);
  }

  /** Two tokens are a pair exactly when they differ in side and nonce and in nothing else. */
  lemma PairIsComplement(first: Parsed, second: Parsed)
    ensures PairConsistent(first, second) <==>
      second.claims == first.claims.(direction := Complement(first.claims.direction)) && second.nonce != first.nonce
    ensures PairConsistent(first, second) <==> PairConsistent(second, first)
  {
  }

  /** A freshly minted pair verifies, whichever of the two is popped first. */
  lemma {:induction false} MintedPairVerifies(suite: Suite, c: Claims, key: MintKey, n: Nonce, m: Nonce, entries: seq<KeyEntry>, now: u32, ingress: Ingress)
    requires Correct(suite) && |c.facts| <= MAX_FACTS && n != m && VerifyKey(entries, key.id, now) == Some(key)
    requires NotExpired(c.expiry, ingress.skew, now) && (ingress.tenant.Some? ==> ingress.tenant.value == c.tenant)
    requires ingress.partner == Some(Mint(suite, c.(direction := Complement(c.direction)), key, m).value)
    ensures Verify(suite, Mint(suite, c, key, n).value, entries, now, ingress) == Valid(c)
  {
    var other := c.(direction := Complement(c.direction));
    MintedReads(suite, other, key, m, entries, now, ingress.skew);
    PairIsComplement(Parsed(c, n), Parsed(other, m));
    MintThenVerify(suite, c, key, n, entries, now, ingress);
  }

  // ------------------------------------------------------------------ verifying, then minting

  lemma AuthenticatedIsProtected(suite: Suite, key: MintKey, nonce: Nonce, header: seq<byte>, body: seq<byte>, tag: seq<byte>)
    requires Genuine(suite) && Authenticated(suite, key, nonce, header, body, tag).Some?
    ensures var plain := Authenticated(suite, key, nonce, header, body, tag).value;
      |plain| == |body| && Protected(suite, key, nonce, header, plain) == (body, tag)
  {
  }

  /** Verification accepts nothing but what minting writes: the accepted bytes are the mint of the claims returned. */
  lemma {:induction false} OnlyMintedVerifies(suite: Suite, bytes: seq<byte>, entries: seq<KeyEntry>, now: u32, ingress: Ingress)
    requires Genuine(suite) && Verify(suite, bytes, entries, now, ingress).Valid?
    ensures var c := Verify(suite, bytes, entries, now, ingress).claims;
      && |bytes| >= MIN_TOKEN_LEN && VerifyKey(entries, bytes[1], now).Some?
      && Mint(suite, c, VerifyKey(entries, bytes[1], now).value, bytes[2..14]) == Ok(bytes)
  {
    var key := VerifyKey(entries, bytes[1], now).value;
    var end := |bytes| - TagLen(key.algorithm);
    var nonce, header, sealed, tag := bytes[2..14], bytes[..14], bytes[14..end], bytes[end..];
    var body := Authenticated(suite, key, nonce, header, sealed, tag).value;
    AuthenticatedIsProtected(suite, key, nonce, header, sealed, tag);
    VerifyKeyFinds(entries, bytes[1], now);
    assert header == Header(key, nonce);
    BodyReprints(body, FromWire(body[8]).value);
    assert bytes == header + sealed + tag;
  }

  // ------------------------------------------------------------------ the budget

  /** A minted token's parameter fits its budget with room to spare. */
  lemma MintedFitsBudget(suite: Suite, c: Claims, key: MintKey, nonce: Nonce, cfg: ProxyConfig.Config)
    requires Correct(suite) && Mint(suite, c, key, nonce).Ok?
    ensures var token := Encode(Mint(suite, c, key, nonce).value);
      Forwarding.ParamSize(token) <= 157 <= Forwarding.TOKEN_PARAM_BUDGET && Forwarding.RecordRouteValue(cfg, token).Ok?
  {
    MintedParts(suite, c, key, nonce);
    EncodeShape(Mint(suite, c, key, nonce).value);
    EncodedLenMonotone(|Mint(suite, c, key, nonce).value|, MAX_TOKEN_LEN);
  }

  /** So forwarding with a minted pair never fails for its size: it fails for an unreadable target or not at all. */
  lemma MintedNeverTooLarge(suite: Suite, a: Claims, b: Claims, key: MintKey, n: Nonce, m: Nonce,
                            plan: Forwarding.ForwardPlan, cfg: ProxyConfig.Config)
    requires Correct(suite) && Mint(suite, a, key, n).Ok? && Mint(suite, b, key, m).Ok?
    requires plan.tokens == Some(Messages.RecordRouteTokens(Encode(Mint(suite, a, key, n).value), Encode(Mint(suite, b, key, m).value)))
    ensures Forwarding.Forward(plan, cfg).Ok? <==> plan.target.uri.Reads?
    ensures Forwarding.Forward(plan, cfg).Err? ==> Forwarding.Forward(plan, cfg).error.BadTarget?
  {
    MintedFitsBudget(suite, a, key, n, cfg);
    MintedFitsBudget(suite, b, key, m, cfg);
  }

  lemma EncodedLenMonotone(a: nat, b: nat)
    requires a <= b
    ensures EncodedLen(a) <= EncodedLen(b)
  {
  }

  // ------------------------------------------------------------------ the fixed buffers

  function Overwritten(target: seq<byte>, offset: nat, source: seq<byte>): seq<byte> {
    if offset + |source| <= |target| then target[..offset] + source + target[offset + |source|..] else target
  }

  /** Copy `source` into `target` at `offset`, doing nothing if it would not fit. */
  method WriteBytes(target: array<byte>, offset: nat, source: seq<byte>)
    modifies target
    ensures target[..] == Overwritten(old(target[..]), offset, source)
    ensures offset + |source| <= target.Length ==> target[..offset + |source|] == old(target[..offset]) + source
  {
    if offset + |source| <= target.Length {
      forall i | 0 <= i < |source| {
        target[offset + i] := source[i];
      }
    }
  }

  /** The seven claims at their offsets, then the facts behind their length. */
  method WriteBody(body: array<byte>, c: Claims)
    requires body.Length == MAX_BODY_LEN && |c.facts| <= MAX_FACTS
    modifies body
    ensures body[..BODY_FIXED_LEN + |c.facts|] == Body(c)
  {
    WriteBytes(body, 0, Be32(c.tenant));
    WriteBytes(body, 4, Be16(c.homeShard));
    WriteBytes(body, 6, Be16(c.edge));
    WriteBytes(body, 8, [ToWire(c.direction)]);
    WriteRest(body, c);
    BodyHalves(c);
  }

  function FirstHalf(c: Claims): (b: seq<byte>)
    ensures |b| == 9
  {
    Be32(c.tenant) + Be16(c.homeShard) + Be16(c.edge) + [ToWire(c.direction)]
  }

  function SecondHalf(c: Claims): (b: seq<byte>)
    requires |c.facts| <= MAX_FACTS
    ensures |b| == 11 + |c.facts|
  {
    Be16(c.mediaNode) + Be32(c.policyVersion) + Be32(c.expiry) + [|c.facts| as byte] + c.facts
  }

  lemma BodyHalves(c: Claims)
    requires |c.facts| <= MAX_FACTS
    ensures Body(c) == FirstHalf(c) + SecondHalf(c)
  {
  }

  method WriteRest(body: array<byte>, c: Claims)
    requires body.Length == MAX_BODY_LEN && |c.facts| <= MAX_FACTS && body[..9] == FirstHalf(c)
    modifies body
    ensures body[..BODY_FIXED_LEN + |c.facts|] == FirstHalf(c) + SecondHalf(c)
  {
    ghost var first := FirstHalf(c);
    WriteBytes(body, 9, Be16(c.mediaNode));
    WriteBytes(body, 11, Be32(c.policyVersion));
    assert body[..15] == first + Be16(c.mediaNode) + Be32(c.policyVersion);
    WriteBytes(body, 15, Be32(c.expiry));
    assert body[..19] == first + Be16(c.mediaNode) + Be32(c.policyVersion) + Be32(c.expiry);
    WriteBytes(body, 19, [|c.facts| as byte]);
    WriteBytes(body, BODY_FIXED_LEN, c.facts);
    SecondHalfInPieces(first, c);
  }

  lemma SecondHalfInPieces(first: seq<byte>, c: Claims)
    requires |c.facts| <= MAX_FACTS
    ensures first + SecondHalf(c)
      == first + Be16(c.mediaNode) + Be32(c.policyVersion) + Be32(c.expiry) + [|c.facts| as byte] + c.facts
  {
  }

  /** Protect the body where it stands, and give its tag. */
  method ProtectBody(suite: Suite, key: MintKey, nonce: Nonce, header: seq<byte>, body: array<byte>, bodyLen: nat)
      returns (tag: array<byte>)
    requires Correct(suite) && bodyLen <= body.Length
    modifies body
    ensures fresh(tag) && tag.Length == 16
    ensures (body[..bodyLen], tag[..TagLen(key.algorithm)]) == Protected(suite, key, nonce, header, old(body[..bodyLen]))
  {
    tag := new byte[16];
    match key.algorithm {
      case ChaCha20Poly1305 =>
        ghost var plain := body[..bodyLen];
        var (cipher, computed) := suite.seal(key.secret, nonce, header, body[..bodyLen]);
        assert suite.open(key.secret, nonce, header, cipher, computed) == Some(plain);
        WriteBytes(body, 0, cipher);
        WriteBytes(tag, 0, computed);
        assert body[..bodyLen] == cipher && tag[..16] == computed;
      case HmacSha256 =>
        var full := suite.hmac(key.secret, header + body[..bodyLen]);
        WriteBytes(tag, 0, full[..12]);
        assert tag[..12] == full[..12];
    }
  }

  /** Header, body and tag, end to end. */
  method Assemble(bytes: array<byte>, header: seq<byte>, body: seq<byte>, tag: seq<byte>)
    requires |header| + |body| + |tag| <= bytes.Length
    modifies bytes
    ensures bytes[..|header| + |body| + |tag|] == header + body + tag
  {
    WriteBytes(bytes, 0, header);
    assert bytes[..|header|] == header;
    WriteBytes(bytes, |header|, body);
    ghost var end := |header| + |body|;
    assert bytes[..end] == header + body;
    WriteBytes(bytes, |header| + |body|, tag);
    assert bytes[..end + |tag|] == header + body + tag;
  }

  /** Mint into a buffer of the largest token's size. */
  method MintToken(suite: Suite, c: Claims, key: MintKey, nonce: Nonce) returns (bytes: array<byte>, r: Result<nat, MintError>)
    requires Correct(suite)
    ensures fresh(bytes) && bytes.Length == MAX_TOKEN_LEN
    ensures match r
      case Ok(len) => len <= bytes.Length && Mint(suite, c, key, nonce) == Ok(bytes[..len])
      case Err(e) => Mint(suite, c, key, nonce) == Err(e)
  {
    bytes := new byte[MAX_TOKEN_LEN];
    if |c.facts| > MAX_FACTS {
      r := Err(FactsTooLong(|c.facts|));
      return;
    }
    var bodyLen := BODY_FIXED_LEN + |c.facts|;
    var header := new byte[HEADER_LEN];
    var body := new byte[MAX_BODY_LEN];
    WriteBytes(header, 0, [VERSION, key.id]);
    WriteBytes(header, 2, nonce);
    assert header[..] == Header(key, nonce);
    WriteBody(body, c);
    var tag := ProtectBody(suite, key, nonce, header[..], body, bodyLen);
    var tagLen := TagLen(key.algorithm);
    Assemble(bytes, header[..], body[..bodyLen], tag[..tagLen]);
    r := Ok(HEADER_LEN + bodyLen + tagLen);
  }

  /** S4, on a buffer decrypted where it stands. */
  method OpenBody(suite: Suite, key: MintKey, nonce: Nonce, header: seq<byte>, sealed: seq<byte>, tag: seq<byte>)
      returns (body: array<byte>, ok: bool)
    requires |sealed| <= MAX_BODY_LEN
    ensures fresh(body) && body.Length == MAX_BODY_LEN
    ensures ok <==> Authenticated(suite, key, nonce, header, sealed, tag).Some?
    ensures ok ==> Authenticated(suite, key, nonce, header, sealed, tag) == Some(body[..|sealed|])
  {
    body := new byte[MAX_BODY_LEN];
    WriteBytes(body, 0, sealed);
    assert body[..|sealed|] == sealed;
    var plain := Authenticated(suite, key, nonce, header, body[..|sealed|], tag);
    ok := plain.Some?;
    if ok {
      WriteBytes(body, 0, plain.value);
      assert body[..|sealed|] == plain.value;
    }
  }

  /** S5 to S7, field by field. */
  method ReadFields(body: array<byte>, bodyLen: nat, nonce: Nonce, now: u32, skew: u32) returns (r: Result<Parsed, Reason>)
    requires BODY_FIXED_LEN <= bodyLen <= body.Length
    ensures r == ReadBody(body[..bodyLen], nonce, now, skew)
  {
    if body[19] as int != bodyLen - BODY_FIXED_LEN {
      return Err(Framing);
    }
    var expiry := FromBe32(body[15..19]);
    assert body[..bodyLen][15..19] == body[15..19];
    if now > SaturatingAdd(expiry, skew) {
      return Err(Expired);
    }
    var direction := FromWire(body[8]);
    if direction.None? {
      return Err(Field);
    }
    r := Ok(Parsed(ClaimsOf(body[..bodyLen], direction.value), nonce));
  }

  /** S1 to S7, in order; the first failing step wins. */
  method ParseToken(suite: Suite, bytes: seq<byte>, entries: seq<KeyEntry>, now: u32, skew: u32) returns (r: Result<Parsed, Reason>)
    ensures r == ThroughS7(suite, bytes, entries, now, skew)
  {
    if |bytes| < MIN_TOKEN_LEN || bytes[0] != VERSION {
      return Err(Structure);
    }
    var selected := VerifyKey(entries, bytes[1], now);
    if selected.None? {
      return Err(UnknownKey);
    }
    var key := selected.value;
    if |bytes| < MinTokenLen(key.algorithm) || |bytes| > MaxTokenLen(key.algorithm) {
      return Err(Length);
    }
    var end := |bytes| - TagLen(key.algorithm);
    var body, ok := OpenBody(suite, key, bytes[2..14], bytes[..14], bytes[14..end], bytes[end..]);
    if !ok {
      return Err(Tag);
    }
    r := ReadFields(body, end - HEADER_LEN, bytes[2..14], now, skew);
  }
}
