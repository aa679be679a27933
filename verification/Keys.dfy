/** The affinity key set and its rotation rules: which key an id selects, and when. */
module Keys {
  import opened Basics

  datatype Algorithm = ChaCha20Poly1305 | HmacSha256

  const HEADER_LEN := 14
  const BODY_FIXED_LEN := 20
  const MAX_FACTS := 64

  function TagLen(a: Algorithm): nat { if a.ChaCha20Poly1305? then 16 else 12 }
  function MinTokenLen(a: Algorithm): nat { HEADER_LEN + BODY_FIXED_LEN + TagLen(a) }
  function MaxTokenLen(a: Algorithm): nat { MinTokenLen(a) + MAX_FACTS }

  type Secret = s: seq<byte> | |s| == 32 witness seq(32, _ => 0)

  datatype MintKey = MintKey(id: byte, algorithm: Algorithm, secret: Secret)

  /** A key, the window in which it verifies, inclusive at both ends, and whether it mints. */
  datatype KeyEntry = KeyEntry(key: MintKey, verifyFrom: u32, verifyUntil: u32, mint: bool)

  predicate VerifiesAt(e: KeyEntry, now: u32) { e.verifyFrom <= now <= e.verifyUntil }

  datatype KeySetError = NoMintKey | MultipleMintKeys | OverlappingId(id: byte) | EmptyWindow(id: byte)

  // ------------------------------------------------------------------ loading a set

  function FirstEmpty(entries: seq<KeyEntry>): Option<byte> {
    if entries == [] then None
    else if entries[0].verifyFrom > entries[0].verifyUntil then Some(entries[0].key.id)
    else FirstEmpty(entries[1..])
  }

  function Minting(entries: seq<KeyEntry>): nat {
    if entries == [] then 0 else (if entries[0].mint then 1 else 0) + Minting(entries[1..])
  }

  predicate Overlap(a: KeyEntry, b: KeyEntry) {
    a.key.id == b.key.id && a.verifyFrom <= b.verifyUntil && b.verifyFrom <= a.verifyUntil
  }

  predicate OverlapsAny(e: KeyEntry, others: seq<KeyEntry>) {
    exists i :: 0 <= i < |others| && Overlap(e, others[i])
  }

  function FirstOverlap(entries: seq<KeyEntry>): Option<byte> {
    if entries == [] then None
    else if OverlapsAny(entries[0], entries[1..]) then Some(entries[0].key.id)
    else FirstOverlap(entries[1..])
  }

  /** The structural rules, in the order they are checked. */
  function Load(entries: seq<KeyEntry>): Result<seq<KeyEntry>, KeySetError> {
    if FirstEmpty(entries).Some? then Err(EmptyWindow(FirstEmpty(entries).value))
    else if Minting(entries) == 0 then Err(NoMintKey)
    else if Minting(entries) > 1 then Err(MultipleMintKeys)
    else if FirstOverlap(entries).Some? then Err(OverlappingId(FirstOverlap(entries).value))
    else Ok(entries)
  }

  predicate Selects(e: KeyEntry, id: byte, now: u32) { e.key.id == id && VerifiesAt(e, now) }

  /** The first entry of this id whose window is open. */
  function VerifyKey(entries: seq<KeyEntry>, id: byte, now: u32): Option<MintKey> {
    if entries == [] then None
    else if Selects(entries[0], id, now) then Some(entries[0].key)
    else VerifyKey(entries[1..], id, now)
  }

  function FindMint(entries: seq<KeyEntry>): Option<MintKey> {
    if entries == [] then None
    else if entries[0].mint then Some(entries[0].key)
    else FindMint(entries[1..])
  }

  // ------------------------------------------------------------------ what loading guarantees

  /** At every instant at most one entry per id verifies. */
  ghost predicate Unambiguous(entries: seq<KeyEntry>) {
    forall i, j, now: u32 :: 0 <= i < j < |entries| && entries[i].key.id == entries[j].key.id ==>
      !(VerifiesAt(entries[i], now) && VerifiesAt(entries[j], now))
  }

  ghost predicate AllOpen(entries: seq<KeyEntry>) {
    forall i :: 0 <= i < |entries| ==> entries[i].verifyFrom <= entries[i].verifyUntil
  }

  lemma {:induction false} NoneEmpty(entries: seq<KeyEntry>)
    ensures FirstEmpty(entries).None? <==> AllOpen(entries)
  {
    if entries != [] {
      NoneEmpty(entries[1..]);
      assert forall i :: 0 < i < |entries| ==> entries[i] == entries[1..][i - 1];
    }
  }

  /** Two windows overlap exactly when some instant lies in both. */
  lemma OverlapIsShared(a: KeyEntry, b: KeyEntry)
    requires a.verifyFrom <= a.verifyUntil && b.verifyFrom <= b.verifyUntil
    ensures Overlap(a, b) <==> a.key.id == b.key.id && exists now: u32 :: VerifiesAt(a, now) && VerifiesAt(b, now)
  {
    if Overlap(a, b) {
      var now: u32 := Max(a.verifyFrom, b.verifyFrom);
      assert VerifiesAt(a, now) && VerifiesAt(b, now);
    }
  }

  ghost predicate Disjoint(entries: seq<KeyEntry>) {
    forall i, j :: 0 <= i < j < |entries| ==> !Overlap(entries[i], entries[j])
  }

  lemma {:induction false} NoneOverlap(entries: seq<KeyEntry>)
    ensures FirstOverlap(entries).None? <==> Disjoint(entries)
  {
    if entries != [] {
      var rest := entries[1..];
      NoneOverlap(rest);
      assert forall i :: 0 < i < |entries| ==> entries[i] == rest[i - 1];
      if Disjoint(entries) {
        forall i, j | 0 <= i < j < |rest| ensures !Overlap(rest[i], rest[j]) {
          assert rest[i] == entries[i + 1] && rest[j] == entries[j + 1];
        }
      }
    }
  }

  /** A set loads exactly when every window opens, one key mints, and no id is ever ambiguous. */
  lemma {:induction false} LoadsExactly(entries: seq<KeyEntry>)
    ensures Load(entries).Ok? <==> AllOpen(entries) && Minting(entries) == 1 && Unambiguous(entries)
    ensures Load(entries).Ok? ==> Load(entries).value == entries
  {
    NoneEmpty(entries);
    NoneOverlap(entries);
    if AllOpen(entries) {
      forall i, j | 0 <= i < j < |entries|
        ensures Overlap(entries[i], entries[j]) <==>
          (entries[i].key.id == entries[j].key.id
           && exists now: u32 :: VerifiesAt(entries[i], now) && VerifiesAt(entries[j], now))
      {
        OverlapIsShared(entries[i], entries[j]);
      }
    }
  }

  lemma {:induction false} VerifyKeyFinds(entries: seq<KeyEntry>, id: byte, now: u32)
    ensures match VerifyKey(entries, id, now)
      case None => forall e :: e in entries ==> !Selects(e, id, now)
      case Some(key) => exists e :: e in entries && Selects(e, id, now) && e.key == key
  {
    if entries != [] && !Selects(entries[0], id, now) {
      VerifyKeyFinds(entries[1..], id, now);
      assert entries == [entries[0]] + entries[1..];
    }
  }

  /** In a loaded set, whichever entry of an id is open is the one the id selects. */
  lemma {:induction false} OpenEntryIsSelected(entries: seq<KeyEntry>, e: KeyEntry, now: u32)
    requires Load(entries).Ok? && e in entries && VerifiesAt(e, now)
    ensures VerifyKey(entries, e.key.id, now) == Some(e.key)
  {
    LoadsExactly(entries);
    VerifyKeyFinds(entries, e.key.id, now);
    assert Selects(e, e.key.id, now);
    var f :| f in entries && Selects(f, e.key.id, now) && VerifyKey(entries, e.key.id, now) == Some(f.key);
    var i :| 0 <= i < |entries| && entries[i] == e;
    var j :| 0 <= j < |entries| && entries[j] == f;
  }

  /** Lookup does not depend on the order of the entries. */
  lemma {:induction false} LookupIgnoresOrder(a: seq<KeyEntry>, b: seq<KeyEntry>, id: byte, now: u32)
    requires Load(a).Ok? && multiset(a) == multiset(b)
    ensures VerifyKey(a, id, now) == VerifyKey(b, id, now)
  {
    VerifyKeyFinds(a, id, now);
    VerifyKeyFinds(b, id, now);
    assert forall e :: e in a <==> e in multiset(a);
    assert forall e :: e in b <==> e in multiset(b);
    if VerifyKey(b, id, now).Some? {
      var e :| e in b && Selects(e, id, now) && VerifyKey(b, id, now) == Some(e.key);
      assert e in a;
      OpenEntryIsSelected(a, e, now);
    }
  }

  // ------------------------------------------------------------------ rotation

  /** The earliest moment the outgoing key may be removed after the mint flip. */
  function RetirementDeadline(tSwitch: u32, lifetime: u32, maxRegistration: u32, skew: u32): u32 {
    SaturatingAdd(SaturatingAdd(tSwitch, Max(lifetime, maxRegistration)), skew)
  }

  /** The expiry check a verifier makes. */
  predicate NotExpired(expiry: u32, skew: u32, now: u32) { now <= SaturatingAdd(expiry, skew) }

  /** Every token minted by the switch finds its key at every instant it is not expired, once the window has opened. */
  ghost predicate StrandsNone(e: KeyEntry, tSwitch: u32, lifetime: u32, skew: u32) {
    forall expiry: u32, now: u32 :: expiry <= tSwitch + lifetime && NotExpired(expiry, skew, now) && e.verifyFrom <= now ==>
      VerifiesAt(e, now)
  }

  /** A window that reaches the deadline strands no live token, saturation included. */
  lemma {:induction false} DeadlineStrandsNone(entries: seq<KeyEntry>, e: KeyEntry, tSwitch: u32, lifetime: u32, maxRegistration: u32, skew: u32,
                            expiry: u32, now: u32)
    requires Load(entries).Ok? && e in entries && RetirementDeadline(tSwitch, lifetime, maxRegistration, skew) <= e.verifyUntil
    requires expiry <= tSwitch + lifetime && NotExpired(expiry, skew, now) && e.verifyFrom <= now
    ensures VerifyKey(entries, e.key.id, now) == Some(e.key)
  {
    OpenEntryIsSelected(entries, e, now);
  }

  /** And for lifetimes no shorter than registrations it is the earliest that does. */
  lemma DeadlineIsEarliest(e: KeyEntry, tSwitch: u32, lifetime: u32, maxRegistration: u32, skew: u32)
    requires maxRegistration <= lifetime && e.verifyFrom <= RetirementDeadline(tSwitch, lifetime, maxRegistration, skew)
    ensures StrandsNone(e, tSwitch, lifetime, skew) <==> RetirementDeadline(tSwitch, lifetime, maxRegistration, skew) <= e.verifyUntil
  {
    var last: u32 := SaturatingAdd(tSwitch, lifetime);
    var deadline := RetirementDeadline(tSwitch, lifetime, maxRegistration, skew);
    assert NotExpired(last, skew, deadline) && last <= tSwitch + lifetime;
  }

  /** A loaded set mints under exactly the key its one minting entry holds, whatever the order. */
  lemma {:induction false} OneKeyMints(entries: seq<KeyEntry>, e: KeyEntry)
    requires Minting(entries) == 1 && e in entries && e.mint
    ensures FindMint(entries) == Some(e.key)
  {
    if entries[0].mint {
      NoneMint(entries[1..]);
      assert entries == [entries[0]] + entries[1..];
    } else {
      OneKeyMints(entries[1..], e);
    }
  }

  lemma {:induction false} NoneMint(entries: seq<KeyEntry>)
    requires Minting(entries) == 0
    ensures forall e :: e in entries ==> !e.mint
  {
    if entries != [] {
      NoneMint(entries[1..]);
    }
  }
}
