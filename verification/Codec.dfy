/**
 * Unpadded base64url (RFC 4648 section 5): the affinity parameter's codec, and the probe's own encoder.
 * Shifts and masks are written as division and remainder by powers of two.
 */
module Codec {
  import opened Basics

  type Digit = d: nat | d < 64

  /** The alphabet, in order: upper case, lower case, digits, `-` and `_`. */
  function Letter(d: Digit): byte {
    if d < 26 then (65 + d) as byte
    else if d < 52 then (97 + d - 26) as byte
    else if d < 62 then (48 + d - 52) as byte
    else if d == 62 then 45
    else 95
  }

  function DigitOf(b: byte): Option<Digit> {
    if 65 <= b <= 90 then Some(b as int - 65)
    else if 97 <= b <= 122 then Some(b as int - 97 + 26)
    else if 48 <= b <= 57 then Some(b as int - 48 + 52)
    else if b == 45 then Some(62)
    else if b == 95 then Some(63)
    else None
  }

  /** The two tables are one table read both ways. */
  lemma DigitOfLetter(d: Digit, b: byte)
    ensures DigitOf(b) == Some(d) <==> b == Letter(d)
  {
  }

  function EncodedLen(n: nat): nat {
    match n % 3
    case 0 => n / 3 * 4
    case 1 => n / 3 * 4 + 2
    case _ => n / 3 * 4 + 3
  }

  datatype DecodeError = NotInAlphabet(value: byte, offset: nat) | BadLength(len: nat)

  // ------------------------------------------------------------------ one group

  function At(chunk: seq<byte>, i: nat): int { if i < |chunk| then chunk[i] as int else 0 }

  /** The four digits of three bytes; a missing byte counts as zero. */
  function DigitsOf(chunk: seq<byte>): (r: seq<Digit>)
    ensures |r| == 4
  {
    var b0, b1, b2 := At(chunk, 0), At(chunk, 1), At(chunk, 2);
    [b0 / 4, b0 % 4 * 16 + b1 / 16, b1 % 16 * 4 + b2 / 64, b2 % 64]
  }

  function Letters(digits: seq<Digit>): seq<byte> {
    seq(|digits|, i requires 0 <= i < |digits| => Letter(digits[i]))
  }

  /** Four characters for three bytes, one fewer per missing byte. */
  function EncodeGroup(chunk: seq<byte>): seq<byte>
    requires 1 <= |chunk| <= 3
  {
    Letters(DigitsOf(chunk)[..|chunk| + 1])
  }

  function Encode(bytes: seq<byte>): seq<byte> {
    if bytes == [] then []
    else if |bytes| <= 3 then EncodeGroup(bytes)
    else EncodeGroup(bytes[..3]) + Encode(bytes[3..])
  }

  /** The three bytes of four digits, truncated to eight bits each as the shifts do. */
  function BytesOf(d0: Digit, d1: Digit, d2: Digit, d3: Digit): (r: seq<byte>)
    ensures |r| == 3
  {
    [(d0 * 4 + d1 / 16) as byte, (d1 % 16 * 16 + d2 / 4) as byte, (d2 % 4 * 64 + d3) as byte]
  }

  predicate InAlphabet(s: seq<byte>) { forall i :: 0 <= i < |s| ==> DigitOf(s[i]).Some? }

  function DigitAt(chunk: seq<byte>, i: nat): Digit {
    if i < |chunk| && DigitOf(chunk[i]).Some? then DigitOf(chunk[i]).value else 0
  }

  function DecodeGroup(chunk: seq<byte>): seq<byte>
    requires 2 <= |chunk| <= 4
  {
    BytesOf(DigitAt(chunk, 0), DigitAt(chunk, 1), DigitAt(chunk, 2), DigitAt(chunk, 3))[..|chunk| - 1]
  }

  /** The first byte outside the alphabet. */
  function FirstBad(s: seq<byte>): (n: nat)
    ensures n <= |s| && InAlphabet(s[..n]) && (n < |s| ==> DigitOf(s[n]).None?)
  {
    if s == [] || DigitOf(s[0]).None? then 0
    else
      var rest := FirstBad(s[1..]);
      assert s[..rest + 1] == [s[0]] + s[1..][..rest];
      1 + rest
  }

  /** Group by group; `offset` is where this part starts in a value of `len` characters. */
  function DecodeFrom(s: seq<byte>, offset: nat, len: nat): Result<seq<byte>, DecodeError>
    decreases |s|
  {
    if s == [] then Ok([])
    else
      var n := Min(4, |s|);
      var bad := FirstBad(s[..n]);
      if bad < n then Err(NotInAlphabet(s[bad], offset + bad))
      else if n == 1 then Err(BadLength(len))
      else match DecodeFrom(s[n..], offset + n, len)
        case Err(e) => Err(e)
        case Ok(rest) => Ok(DecodeGroup(s[..n]) + rest)
  }

  function Decode(s: seq<byte>): Result<seq<byte>, DecodeError> { DecodeFrom(s, 0, |s|) }

  // ------------------------------------------------------------------ round trips

  lemma GroupLetters(chunk: seq<byte>)
    requires 1 <= |chunk| <= 3
    ensures var e := EncodeGroup(chunk);
      |e| == |chunk| + 1 && InAlphabet(e) && forall i :: 0 <= i < |e| ==> DigitAt(e, i) == DigitsOf(chunk)[i]
  {
    var e := EncodeGroup(chunk);
    forall i | 0 <= i < |e| ensures DigitOf(e[i]) == Some(DigitsOf(chunk)[i]) {
      DigitOfLetter(DigitsOf(chunk)[i], e[i]);
    }
  }

  /** Four digits give back the three bytes they came from. */
  lemma DigitsRestore(b0: int, b1: int, b2: int)
    requires 0 <= b0 < 256 && 0 <= b1 < 256 && 0 <= b2 < 256
    ensures b0 / 4 * 4 + (b0 % 4 * 16 + b1 / 16) / 16 == b0
    ensures (b0 % 4 * 16 + b1 / 16) % 16 * 16 + (b1 % 16 * 4 + b2 / 64) / 4 == b1
    ensures (b1 % 16 * 4 + b2 / 64) % 4 * 64 + b2 % 64 == b2
  {
    assert (b0 % 4 * 16 + b1 / 16) / 16 == b0 % 4 && (b0 % 4 * 16 + b1 / 16) % 16 == b1 / 16;
    assert (b1 % 16 * 4 + b2 / 64) / 4 == b1 % 16 && (b1 % 16 * 4 + b2 / 64) % 4 == b2 / 64;
  }

  lemma GroupRoundTrip(chunk: seq<byte>)
    requires 1 <= |chunk| <= 3
    ensures DecodeGroup(EncodeGroup(chunk)) == chunk
  {
    var e := EncodeGroup(chunk);
    var d := DigitsOf(chunk);
    GroupLetters(chunk);
    DigitsRestore(At(chunk, 0), At(chunk, 1), At(chunk, 2));
    var all := BytesOf(d[0], d[1], d[2], d[3]);
    assert forall i :: 0 <= i < |chunk| ==> all[i] == chunk[i];
    var got := BytesOf(DigitAt(e, 0), DigitAt(e, 1), DigitAt(e, 2), DigitAt(e, 3));
    assert forall i :: 0 <= i < |chunk| ==> got[i] == all[i];
  }

  /** How a value splits into a first group and the rest. */
  lemma {:induction false} DecodeSplits(group: seq<byte>, rest: seq<byte>, offset: nat, len: nat)
    requires 2 <= |group| <= 4 && InAlphabet(group) && (rest != [] ==> |group| == 4)
    ensures DecodeFrom(group + rest, offset, len)
      == match DecodeFrom(rest, offset + |group|, len)
         case Err(e) => Err(e)
         case Ok(more) => Ok(DecodeGroup(group) + more)
  {
    assert (group + rest)[..|group|] == group && (group + rest)[|group|..] == rest;
    assert Min(4, |group + rest|) == |group|;
  }

  lemma {:induction false} EncodeSplits(bytes: seq<byte>)
    requires |bytes| > 3
    ensures Encode(bytes) == EncodeGroup(bytes[..3]) + Encode(bytes[3..])
  {
  }

  lemma {:induction false} DecodeEncodeFrom(bytes: seq<byte>, offset: nat, len: nat)
    ensures DecodeFrom(Encode(bytes), offset, len) == Ok(bytes)
    decreases |bytes|
  {
    if |bytes| > 3 {
      var group, rest := bytes[..3], bytes[3..];
      GroupLetters(group);
      GroupRoundTrip(group);
      DecodeEncodeFrom(rest, offset + 4, len);
      EncodeSplits(bytes);
      DecodeSplits(EncodeGroup(group), Encode(rest), offset, len);
      assert bytes == group + rest;
    } else if bytes != [] {
      GroupLetters(bytes);
      GroupRoundTrip(bytes);
      DecodeSplits(EncodeGroup(bytes), [], offset, len);
      assert EncodeGroup(bytes) + [] == EncodeGroup(bytes) && bytes + [] == bytes;
    }
  }

  /** Decoding inverts encoding, for every byte string. */
  lemma {:induction false} DecodeEncode(bytes: seq<byte>)
    ensures Decode(Encode(bytes)) == Ok(bytes)
  {
    DecodeEncodeFrom(bytes, 0, |Encode(bytes)|);
  }

  lemma {:induction false} EncodeShape(bytes: seq<byte>)
    ensures |Encode(bytes)| == EncodedLen(|bytes|) && InAlphabet(Encode(bytes))
    decreases |bytes|
  {
    if bytes != [] {
      GroupLetters(bytes[..Min(3, |bytes|)]);
      if |bytes| <= 3 {
        assert bytes[..|bytes|] == bytes;
      } else {
        EncodeShape(bytes[3..]);
        assert |bytes| % 3 == (|bytes| - 3) % 3 && |bytes| / 3 == (|bytes| - 3) / 3 + 1;
      }
    }
  }

  // ------------------------------------------------------------------ failures

  lemma {:induction false} FirstBadIs(s: seq<byte>, n: nat)
    requires n <= |s| && InAlphabet(s[..n]) && (n < |s| ==> DigitOf(s[n]).None?)
    ensures FirstBad(s) == n
  {
    if n > 0 {
      assert s[..n][0] == s[0] && s[1..][..n - 1] == s[..n][1..];
      FirstBadIs(s[1..], n - 1);
    }
  }

  lemma {:induction false} FirstBadOf(a: seq<byte>, b: seq<byte>)
    requires InAlphabet(a)
    ensures FirstBad(a + b) == |a| + FirstBad(b)
  {
    var n := FirstBad(b);
    assert (a + b)[..|a| + n] == a + b[..n];
    FirstBadIs(a + b, |a| + n);
  }

  lemma {:induction false} BadInHead(head: seq<byte>, rest: seq<byte>)
    requires FirstBad(head) < |head|
    ensures FirstBad(head + rest) == FirstBad(head)
  {
    var n := FirstBad(head);
    assert (head + rest)[..n] == head[..n];
    FirstBadIs(head + rest, n);
  }

  /** What decoding comes to, in one look at the whole value. */
  function Failure(s: seq<byte>, offset: nat, len: nat): Option<DecodeError> {
    if FirstBad(s) < |s| then Some(NotInAlphabet(s[FirstBad(s)], offset + FirstBad(s)))
    else if |s| % 4 == 1 then Some(BadLength(len))
    else None
  }

  lemma FailureOfRest(head: seq<byte>, rest: seq<byte>, offset: nat, len: nat)
    requires |head| == 4 && InAlphabet(head)
    ensures Failure(head + rest, offset, len) == Failure(rest, offset + 4, len)
  {
    FirstBadOf(head, rest);
    assert |head + rest| % 4 == |rest| % 4;
  }

  lemma {:induction false} DecodeFailsFrom(s: seq<byte>, offset: nat, len: nat)
    ensures var r := DecodeFrom(s, offset, len);
      match Failure(s, offset, len) case Some(e) => r == Err(e) case None => r.Ok?
    decreases |s|
  {
    if |s| > 4 {
      var head, rest := s[..4], s[4..];
      assert s == head + rest;
      if FirstBad(head) < 4 {
        BadInHead(head, rest);
      } else {
        assert head[..4] == head;
        FailureOfRest(head, rest, offset, len);
        DecodeFailsFrom(rest, offset + 4, len);
      }
    } else if s != [] {
      assert s[..|s|] == s && s[|s|..] == [];
      assert DecodeFrom([], offset + |s|, len) == Ok([]);
    }
  }

  /** Decoding fails exactly at the first byte outside the alphabet, or else on a length of 1 modulo 4. */
  lemma DecodeFailsExactly(s: seq<byte>)
    ensures Decode(s).Ok? <==> InAlphabet(s) && |s| % 4 != 1
    ensures !InAlphabet(s) ==>
      exists k :: 0 <= k < |s| && InAlphabet(s[..k]) && DigitOf(s[k]).None? && Decode(s) == Err(NotInAlphabet(s[k], k))
    ensures InAlphabet(s) && |s| % 4 == 1 ==> Decode(s) == Err(BadLength(|s|))
  {
    DecodeFailsFrom(s, 0, |s|);
    if FirstBad(s) == |s| {
      assert s[..|s|] == s;
    }
  }

  // ------------------------------------------------------------------ re-encoding

  /** The value with the unused bits of its last character cleared. */
  function Canonical(s: seq<byte>): seq<byte>
    requires InAlphabet(s)
  {
    if |s| % 4 == 2 then s[..|s| - 1] + [Letter(DigitAt(s, |s| - 1) / 16 * 16)]
    else if |s| % 4 == 3 then s[..|s| - 1] + [Letter(DigitAt(s, |s| - 1) / 4 * 4)]
    else s
  }

  lemma LetterOfDigit(s: seq<byte>, i: nat)
    requires InAlphabet(s) && i < |s|
    ensures Letter(DigitAt(s, i)) == s[i]
  {
    DigitOfLetter(DigitAt(s, i), s[i]);
  }

  lemma GroupReencodes(group: seq<byte>)
    requires 2 <= |group| <= 4 && InAlphabet(group)
    ensures EncodeGroup(DecodeGroup(group)) == Canonical(group)
  {
    LetterOfDigit(group, 0);
    LetterOfDigit(group, 1);
    if |group| > 2 { LetterOfDigit(group, 2); }
    if |group| > 3 { LetterOfDigit(group, 3); }
    GroupDigits(group);
  }

  lemma GroupDigits(group: seq<byte>)
    requires 2 <= |group| <= 4
    ensures var d := DigitsOf(DecodeGroup(group));
      && d[0] == DigitAt(group, 0)
      && d[1] == (if |group| == 2 then DigitAt(group, 1) / 16 * 16 else DigitAt(group, 1))
      && (|group| > 2 ==> d[2] == if |group| == 3 then DigitAt(group, 2) / 4 * 4 else DigitAt(group, 2))
      && (|group| > 3 ==> d[3] == DigitAt(group, 3))
  {
  }

  lemma {:induction false} ReencodeFrom(s: seq<byte>, offset: nat, len: nat)
    requires DecodeFrom(s, offset, len).Ok?
    ensures InAlphabet(s) && Encode(DecodeFrom(s, offset, len).value) == Canonical(s)
    decreases |s|
  {
    if s != [] {
      var n := Min(4, |s|);
      var head, rest := s[..n], s[n..];
      assert s == head + rest && head[..n] == head;
      GroupReencodes(head);
      ReencodeFrom(rest, offset + n, len);
      var more := DecodeFrom(rest, offset + n, len).value;
      assert DecodeFrom(s, offset, len).value == DecodeGroup(head) + more;
      if rest == [] {
        assert DecodeGroup(head) + more == DecodeGroup(head);
      } else {
        CanonicalSplits(head, rest);
        NonEmptyDecode(rest, offset + n, len);
        EncodeFirst(DecodeGroup(head), more);
      }
    }
  }

  lemma {:induction false} EncodeFirst(group: seq<byte>, more: seq<byte>)
    requires |group| == 3 && more != []
    ensures Encode(group + more) == EncodeGroup(group) + Encode(more) && Encode(group) == EncodeGroup(group)
  {
    assert (group + more)[..3] == group && (group + more)[3..] == more;
    assert group[..3] == group && group[3..] == [];
  }

  lemma {:induction false} NonEmptyDecode(s: seq<byte>, offset: nat, len: nat)
    requires s != [] && DecodeFrom(s, offset, len).Ok?
    ensures DecodeFrom(s, offset, len).value != []
  {
  }

  lemma CanonicalSplits(head: seq<byte>, rest: seq<byte>)
    requires InAlphabet(head) && InAlphabet(rest) && |head| == 4 && rest != []
    ensures Canonical(head + rest) == Canonical(head) + Canonical(rest)
  {
    var s, n := head + rest, |rest| - 1;
    assert |s| % 4 == |rest| % 4 && s[|s| - 1] == rest[n] && DigitAt(s, |s| - 1) == DigitAt(rest, n);
    assert s[..|s| - 1] == head + rest[..n];
    forall b: byte ensures s[..|s| - 1] + [b] == head + (rest[..n] + [b]) {
    }
  }

  /** Re-encoding what was decoded restores the value up to its unused trailing bits, and exactly when they were zero. */
  lemma ReencodeIsCanonical(s: seq<byte>)
    requires Decode(s).Ok?
    ensures InAlphabet(s) && Encode(Decode(s).value) == Canonical(s)
    ensures Encode(Decode(s).value) == s <==>
      (|s| % 4 == 2 ==> DigitAt(s, |s| - 1) % 16 == 0) && (|s| % 4 == 3 ==> DigitAt(s, |s| - 1) % 4 == 0)
  {
    ReencodeFrom(s, 0, |s|);
    CanonicalIff(s);
  }

  lemma CanonicalIff(s: seq<byte>)
    requires InAlphabet(s)
    ensures Canonical(s) == s <==>
      (|s| % 4 == 2 ==> DigitAt(s, |s| - 1) % 16 == 0) && (|s| % 4 == 3 ==> DigitAt(s, |s| - 1) % 4 == 0)
  {
    if s != [] {
      var d := DigitAt(s, |s| - 1);
      LetterOfDigit(s, |s| - 1);
      DigitOfLetter(d / 16 * 16, s[|s| - 1]);
      DigitOfLetter(d / 4 * 4, s[|s| - 1]);
      LastReplaced(s, Letter(d / 16 * 16));
      LastReplaced(s, Letter(d / 4 * 4));
      assert d % 16 == 0 <==> d / 16 * 16 == d;
      assert d % 4 == 0 <==> d / 4 * 4 == d;
    }
  }

  lemma LastReplaced(s: seq<byte>, b: byte)
    requires s != []
    ensures s[..|s| - 1] + [b] == s <==> b == s[|s| - 1]
  {
    assert (s[..|s| - 1] + [b])[|s| - 1] == b;
  }

  // ------------------------------------------------------------------ the loops

  /** Three bytes at a time, `take(chunk.len() + 1)` characters each. */
  method EncodeParamValue(bytes: seq<byte>) returns (out: seq<byte>)
    ensures out == Encode(bytes)
  {
    out := [];
    var at := 0;
    assert bytes[0..] == bytes && [] + Encode(bytes) == Encode(bytes);
    while at < |bytes|
      invariant at <= |bytes| && EncodedSoFar(bytes, at, out)
    {
      var chunk := bytes[at..Min(at + 3, |bytes|)];
      NextGroup(bytes, at, |chunk|, out);
      out := AppendGroup(out, chunk);
      at := at + |chunk|;
    }
    assert bytes[at..] == [] && out + [] == out;
  }

  method AppendGroup(before: seq<byte>, chunk: seq<byte>) returns (out: seq<byte>)
    requires 1 <= |chunk| <= 3
    ensures out == before + EncodeGroup(chunk)
  {
    out := before;
    var digits := DigitsOf(chunk);
    for k := 0 to |chunk| + 1
      invariant out == before + Letters(digits[..k])
    {
      assert digits[..k + 1] == digits[..k] + [digits[k]];
      out := out + [Letter(digits[k])];
    }
  }

  ghost predicate EncodedSoFar(bytes: seq<byte>, at: nat, out: seq<byte>)
    requires at <= |bytes|
  {
    out + Encode(bytes[at..]) == Encode(bytes)
  }

  lemma NextGroup(bytes: seq<byte>, at: nat, n: nat, out: seq<byte>)
    requires at < |bytes| && n == Min(at + 3, |bytes|) - at && EncodedSoFar(bytes, at, out)
    ensures EncodedSoFar(bytes, at + n, out + EncodeGroup(bytes[at..at + n]))
  {
    FirstGroup(bytes[at..], n);
    assert bytes[at..][..n] == bytes[at..at + n] && bytes[at..][n..] == bytes[at + n..];
    assert out + (EncodeGroup(bytes[at..at + n]) + Encode(bytes[at + n..]))
      == out + EncodeGroup(bytes[at..at + n]) + Encode(bytes[at + n..]);
  }

  lemma {:induction false} FirstGroup(bytes: seq<byte>, n: nat)
    requires bytes != [] && n == Min(3, |bytes|)
    ensures Encode(bytes) == EncodeGroup(bytes[..n]) + Encode(bytes[n..])
  {
    if |bytes| <= 3 {
      assert bytes[..n] == bytes && Encode(bytes[n..]) == [];
    }
  }

  /** Four characters at a time. */
  method DecodeParamValue(value: seq<byte>) returns (r: Result<seq<byte>, DecodeError>)
    ensures r == Decode(value)
  {
    var out := [];
    var at := 0;
    ghost var whole := Decode(value);
    DecodeStarts(value);
    while at < |value|
      invariant at <= |value| && DecodedSoFar(whole, value, at, out)
    {
      var n := Min(4, |value| - at);
      var chunk := value[at..at + n];
      var gathered := GatherDigits(chunk, at);
      GroupAt(value, at, n);
      if gathered.Err? {
        return Err(gathered.error);
      }
      if n == 1 {
        return Err(BadLength(|value|));
      }
      var digits := gathered.value;
      var bytes := BytesOf(digits[0], digits[1], digits[2], digits[3])[..n - 1];
      GoodGroup(whole, Rest(value)(at), out, bytes, Rest(value)(at + n));
      out := out + bytes;
      at := at + n;
    }
    assert value[at..] == [] && out + [] == out;
    r := Ok(out);
  }

  /** What the value decodes to from each offset on. */
  function Rest(value: seq<byte>): nat -> Result<seq<byte>, DecodeError> {
    (at: nat) => if at <= |value| then DecodeFrom(value[at..], at, |value|) else Ok([])
  }

  /** The whole result is what is decoded so far and what the rest decodes to. */
  ghost predicate DecodedSoFar(whole: Result<seq<byte>, DecodeError>, value: seq<byte>, at: nat, out: seq<byte>) {
    whole == Onto(out, Rest(value)(at))
  }

  lemma DecodeStarts(value: seq<byte>)
    ensures DecodedSoFar(Decode(value), value, 0, [])
  {
    assert value[0..] == value;
    if Decode(value).Ok? {
      assert [] + Decode(value).value == Decode(value).value;
    }
  }

  lemma GoodGroup(whole: Result<seq<byte>, DecodeError>, all: Result<seq<byte>, DecodeError>, out: seq<byte>, group: seq<byte>,
                  rest: Result<seq<byte>, DecodeError>)
    requires whole == Onto(out, all) && all == Onto(group, rest)
    ensures whole == Onto(out + group, rest)
  {
    OntoAppend(out, group, rest);
  }

  lemma GroupAt(value: seq<byte>, at: nat, n: nat)
    requires at < |value| && n == Min(4, |value| - at)
    ensures var chunk := value[at..at + n];
      Rest(value)(at)
        == if FirstBad(chunk) < n then Err(NotInAlphabet(chunk[FirstBad(chunk)], at + FirstBad(chunk)))
           else if n == 1 then Err(BadLength(|value|))
           else Onto(DecodeGroup(chunk), Rest(value)(at + n))
  {
    var s := value[at..];
    OneGroup(s, n, at, |value|);
    assert s[..n] == value[at..at + n] && s[n..] == value[at + n..];
  }

  lemma OneGroup(s: seq<byte>, n: nat, offset: nat, len: nat)
    requires s != [] && n == Min(4, |s|)
    ensures var bad := FirstBad(s[..n]);
      DecodeFrom(s, offset, len)
        == if bad < n then Err(NotInAlphabet(s[..n][bad], offset + bad))
           else if n == 1 then Err(BadLength(len))
           else Onto(DecodeGroup(s[..n]), DecodeFrom(s[n..], offset + n, len))
  {
    if FirstBad(s[..n]) == n > 1 {
      var rest := DecodeFrom(s[n..], offset + n, len);
      if rest.Ok? {
        assert DecodeFrom(s, offset, len) == Ok(DecodeGroup(s[..n]) + rest.value);
      } else {
        assert DecodeFrom(s, offset, len) == Err(rest.error);
      }
    } else if FirstBad(s[..n]) < n {
      assert DecodeFrom(s, offset, len).Err?;
    } else {
      assert DecodeFrom(s, offset, len) == Err(BadLength(len));
    }
  }

  /** The digits of one group, the missing ones zero, or the first byte that is none. */
  method GatherDigits(chunk: seq<byte>, at: nat) returns (r: Result<seq<Digit>, DecodeError>)
    requires |chunk| <= 4
    ensures r == if FirstBad(chunk) < |chunk| then Err(NotInAlphabet(chunk[FirstBad(chunk)], at + FirstBad(chunk)))
                 else Ok([DigitAt(chunk, 0), DigitAt(chunk, 1), DigitAt(chunk, 2), DigitAt(chunk, 3)])
  {
    var digits: seq<Digit> := [0, 0, 0, 0];
    for k := 0 to |chunk|
      invariant InAlphabet(chunk[..k]) && |digits| == 4
      invariant forall i :: 0 <= i < 4 ==> digits[i] == if i < k then DigitAt(chunk, i) else 0
    {
      var digit := DigitOf(chunk[k]);
      if digit.None? {
        FirstBadIs(chunk, k);
        return Err(NotInAlphabet(chunk[k], at + k));
      }
      digits := digits[k := digit.value];
    }
    assert chunk[..|chunk|] == chunk;
    FirstBadIs(chunk, |chunk|);
    assert digits == [DigitAt(chunk, 0), DigitAt(chunk, 1), DigitAt(chunk, 2), DigitAt(chunk, 3)];
    r := Ok(digits);
  }

  function Onto(out: seq<byte>, rest: Result<seq<byte>, DecodeError>): Result<seq<byte>, DecodeError> {
    match rest case Err(e) => Err(e) case Ok(more) => Ok(out + more)
  }

  lemma OntoAppend(out: seq<byte>, bytes: seq<byte>, rest: Result<seq<byte>, DecodeError>)
    ensures Onto(out, Onto(bytes, rest)) == Onto(out + bytes, rest)
  {
    if rest.Ok? {
      assert out + (bytes + rest.value) == out + bytes + rest.value;
    }
  }

  // ------------------------------------------------------------------ the probe's encoder

  /** The four six-bit fields of a 24-bit number, most significant first. */
  function Sextets(triple: nat): (r: seq<Digit>)
    requires triple < 0x100_0000
    ensures |r| == 4
  {
    [triple / 0x4_0000 % 64, triple / 0x1000 % 64, triple / 64 % 64, triple % 64]
  }

  /** Up to three bytes as one number, the missing ones zero. */
  function Triple(chunk: seq<byte>): (triple: nat)
    ensures triple < 0x100_0000
  {
    At(chunk, 0) * 0x1_0000 + At(chunk, 1) * 0x100 + At(chunk, 2)
  }

  lemma TripleGroup(chunk: seq<byte>)
    requires 1 <= |chunk| <= 3
    ensures Letters(Sextets(Triple(chunk))[..|chunk| + 1]) == EncodeGroup(chunk)
  {
    SextetsAreDigits(chunk);
  }

  /** Cutting 24 bits into four is the same as cutting the bytes one by one. */
  lemma SextetsAreDigits(chunk: seq<byte>)
    requires 1 <= |chunk| <= 3
    ensures Sextets(Triple(chunk)) == DigitsOf(chunk)
  {
    var b0, b1, b2 := At(chunk, 0), At(chunk, 1), At(chunk, 2);
    First(b0, b1, b2);
    Second(b0, b1, b2);
    Third(b0, b1, b2);
  }

  lemma Mod64(q: int, r: int)
    requires 0 <= r < 64
    ensures (q * 64 + r) / 64 == q && (q * 64 + r) % 64 == r
  {
  }

  lemma First(b0: int, b1: int, b2: int)
    requires 0 <= b0 < 256 && 0 <= b1 < 256 && 0 <= b2 < 256
    ensures (b0 * 0x1_0000 + b1 * 0x100 + b2) / 0x4_0000 % 64 == b0 / 4
  {
    assert b0 * 0x1_0000 + b1 * 0x100 + b2 == (b0 / 4) * 0x4_0000 + (b0 % 4 * 0x1_0000 + b1 * 0x100 + b2);
  }

  lemma Second(b0: int, b1: int, b2: int)
    requires 0 <= b0 < 256 && 0 <= b1 < 256 && 0 <= b2 < 256
    ensures (b0 * 0x1_0000 + b1 * 0x100 + b2) / 0x1000 % 64 == b0 % 4 * 16 + b1 / 16
  {
    var whole := b0 * 16 + b1 / 16;
    assert b0 * 0x1_0000 + b1 * 0x100 + b2 == whole * 0x1000 + (b1 % 16 * 0x100 + b2);
    assert (b0 * 0x1_0000 + b1 * 0x100 + b2) / 0x1000 == whole;
    Mod64(b0 / 4, b0 % 4 * 16 + b1 / 16);
  }

  lemma Third(b0: int, b1: int, b2: int)
    requires 0 <= b0 < 256 && 0 <= b1 < 256 && 0 <= b2 < 256
    ensures (b0 * 0x1_0000 + b1 * 0x100 + b2) / 64 % 64 == b1 % 16 * 4 + b2 / 64
    ensures (b0 * 0x1_0000 + b1 * 0x100 + b2) % 64 == b2 % 64
  {
    var q := b0 * 16 + b1 / 16;
    Mod64(q * 64 + (b1 % 16 * 4 + b2 / 64), b2 % 64);
    Mod64(q, b1 % 16 * 4 + b2 / 64);
    assert b0 * 0x1_0000 + b1 * 0x100 + b2 == (q * 64 + (b1 % 16 * 4 + b2 / 64)) * 64 + b2 % 64;
  }

  /** The probe's marker encoder is the same function. */
  method MarkerBase64(bytes: seq<byte>) returns (out: seq<byte>)
    ensures out == Encode(bytes)
  {
    out := [];
    var at := 0;
    assert bytes[0..] == bytes && [] + Encode(bytes) == Encode(bytes);
    while at < |bytes|
      invariant at <= |bytes| && EncodedSoFar(bytes, at, out)
    {
      var chunk := bytes[at..Min(at + 3, |bytes|)];
      NextGroup(bytes, at, |chunk|, out);
      TripleGroup(chunk);
      var produced := if |chunk| == 1 then 2 else if |chunk| == 2 then 3 else 4;
      var letters := Letters(Sextets(Triple(chunk))[..produced]);
      assert letters == EncodeGroup(chunk);
      out := out + letters;
      at := at + |chunk|;
    }
    assert bytes[at..] == [] && out + [] == out;
  }
}
