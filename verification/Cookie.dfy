/** The `Via` branch and its loop-detection cookie (RFC 5393). */
module Cookie {
  import opened Basics
  import opened Messages
  import opened ProxyConfig

  const MAGIC_COOKIE := "z9hG4bK"
  const COOKIE_BYTES := 8

  /** The routing-relevant state of a request. `topVia` feeds the branch only, never the cookie. */
  datatype CookieInput = CookieInput(
    requestUri: seq<byte>, toTag: Option<seq<byte>>, fromTag: Option<seq<byte>>, callId: seq<byte>,
    cseq: u32, topVia: Option<seq<byte>>, routes: seq<seq<byte>>)

  function FromRequest(r: Request): CookieInput {
    CookieInput(
      r.uri.text, TagOf(r.to), TagOf(r.from), OrEmpty(r.callId),
      if r.cseq.CSeq? then r.cseq.number else 0,
      if r.vias == [] then None else Some(r.vias[0].text),
      seq(|r.routes|, i requires 0 <= i < |r.routes| => r.routes[i].text))
  }

  function OrEmpty(b: Option<seq<byte>>): seq<byte> {
    if b.Some? then b.value else []
  }

  // ------------------------------------------------------------------ the encoding

  function Field(bytes: seq<byte>): (r: seq<byte>) {
    Be32(Clamp32(|bytes|)) + bytes
  }

  function Fields(values: seq<seq<byte>>): seq<byte> {
    if values == [] then [] else Field(values[0]) + Fields(values[1..])
  }

  /** The fields in their wire order, each about to be length-prefixed. */
  function RoutingFields(c: CookieInput): seq<seq<byte>> {
    [c.requestUri, OrEmpty(c.toTag), OrEmpty(c.fromTag), c.callId, Be32(c.cseq), Be32(Clamp32(|c.routes|))] + c.routes
  }

  function RoutingBytes(c: CookieInput): seq<byte> {
    Fields(RoutingFields(c))
  }

  method EncodeRoutingState(c: CookieInput) returns (out: seq<byte>)
    ensures out == RoutingBytes(c)
  {
    ghost var all := RoutingFields(c);
    out := Append([], all, 0, c.requestUri);
    out := Append(out, all, 1, OrEmpty(c.toTag));
    out := Append(out, all, 2, OrEmpty(c.fromTag));
    out := Append(out, all, 3, c.callId);
    out := Append(out, all, 4, Be32(c.cseq));
    out := Append(out, all, 5, Be32(Clamp32(|c.routes|)));
    for i := 0 to |c.routes|
      invariant out == Fields(all[..6 + i])
    {
      out := Append(out, all, 6 + i, c.routes[i]);
    }
    assert all[..6 + |c.routes|] == all;
  }

  /** Append field `k`, length-prefixed. */
  method Append(out: seq<byte>, ghost all: seq<seq<byte>>, ghost k: nat, bytes: seq<byte>) returns (r: seq<byte>)
    requires k < |all| && bytes == all[k] && out == Fields(all[..k])
    ensures r == Fields(all[..k + 1])
  {
    FieldsAppend(all[..k], bytes);
    assert all[..k + 1] == all[..k] + [bytes];
    r := out + Be32(Clamp32(|bytes|));
    r := r + bytes;
  }

  lemma {:induction false} FieldsAppend(values: seq<seq<byte>>, last: seq<byte>)
    ensures Fields(values + [last]) == Fields(values) + Field(last)
  {
    if values != [] {
      FieldsAppend(values[1..], last);
      assert (values + [last])[1..] == values[1..] + [last];
    }
  }

  // ------------------------------------------------------------------ injectivity

  predicate Short(b: seq<byte>) { |b| <= U32_MAX }

  lemma FieldPrefixFree(x: seq<byte>, y: seq<byte>, r: seq<byte>, s: seq<byte>)
    requires Short(x) && Short(y) && Field(x) + r == Field(y) + s
    ensures x == y && r == s
  {
    var a, b := Field(x) + r, Field(y) + s;
    assert a[..4] == Be32(|x|) && b[..4] == Be32(|y|);
    Be32Injective(|x|, |y|);
    assert a[4..4 + |x|] == x && b[4..4 + |y|] == y;
    assert a[4 + |x|..] == r && b[4 + |y|..] == s;
  }

  lemma {:induction false} FieldsPrefixFree(v: seq<seq<byte>>, w: seq<seq<byte>>, r: seq<byte>, s: seq<byte>)
    requires |v| == |w| && (forall i :: 0 <= i < |v| ==> Short(v[i]) && Short(w[i]))
    requires Fields(v) + r == Fields(w) + s
    ensures v == w && r == s
  {
    if v == [] {
      assert Fields(v) + r == r && Fields(w) + s == s;
    } else {
      assert Fields(v) + r == Field(v[0]) + (Fields(v[1..]) + r);
      assert Fields(w) + s == Field(w[0]) + (Fields(w[1..]) + s);
      FieldPrefixFree(v[0], w[0], Fields(v[1..]) + r, Fields(w[1..]) + s);
      FieldsPrefixFree(v[1..], w[1..], r, s);
      assert v == [v[0]] + v[1..] && w == [w[0]] + w[1..];
    }
  }

  lemma {:induction false} FieldsSplit(v: seq<seq<byte>>, w: seq<seq<byte>>)
    ensures Fields(v + w) == Fields(v) + Fields(w)
  {
    if v == [] {
      assert v + w == w;
    } else {
      FieldsSplit(v[1..], w);
      FieldsFirst(v[0], v[1..]);
      FieldsFirst(v[0], v[1..] + w);
      assert [v[0]] + v[1..] == v && [v[0]] + (v[1..] + w) == v + w;
      Assoc(Field(v[0]), Fields(v[1..]), Fields(w));
    }
  }

  lemma {:induction false} FieldsFirst(first: seq<byte>, rest: seq<seq<byte>>)
    ensures Fields([first] + rest) == Field(first) + Fields(rest)
  {
    assert ([first] + rest)[1..] == rest;
  }

  predicate Encodable(c: CookieInput) {
    Short(c.requestUri) && Short(OrEmpty(c.toTag)) && Short(OrEmpty(c.fromTag)) && Short(c.callId)
    && |c.routes| <= U32_MAX && forall i :: 0 <= i < |c.routes| ==> Short(c.routes[i])
  }

  /** Equal routing state: an absent tag counts as an empty one, and the topmost `Via` is no part of it. */
  predicate SameRouting(a: CookieInput, b: CookieInput) {
    a.requestUri == b.requestUri && OrEmpty(a.toTag) == OrEmpty(b.toTag) && OrEmpty(a.fromTag) == OrEmpty(b.fromTag)
    && a.callId == b.callId && a.cseq == b.cseq && a.routes == b.routes
  }

  /** No delimiter confusion: two routing states encode alike exactly when they are the same state. */
  lemma RoutingBytesInjective(a: CookieInput, b: CookieInput)
    requires Encodable(a) && Encodable(b)
    ensures RoutingBytes(a) == RoutingBytes(b) <==> SameRouting(a, b)
  {
    if RoutingBytes(a) == RoutingBytes(b) {
      var ha, hb := RoutingFields(a)[..6], RoutingFields(b)[..6];
      assert RoutingFields(a) == ha + a.routes && RoutingFields(b) == hb + b.routes;
      FieldsSplit(ha, a.routes);
      FieldsSplit(hb, b.routes);
      FieldsPrefixFree(ha, hb, Fields(a.routes), Fields(b.routes));
      assert ha[0] == hb[0] && ha[1] == hb[1] && ha[2] == hb[2] && ha[3] == hb[3] && ha[4] == hb[4] && ha[5] == hb[5];
      Be32Injective(a.cseq, b.cseq);
      Be32Injective(|a.routes|, |b.routes|);
      assert Fields(a.routes) + [] == Fields(b.routes) + [];
      FieldsPrefixFree(a.routes, b.routes, [], []);
    }
  }

  // ------------------------------------------------------------------ hex and branches

  function Nibble(n: int): (c: char)
    requires 0 <= n < 16
    ensures c != '-'
  {
    if n <= 9 then ('0' as int + n) as char else ('a' as int + (n - 10)) as char
  }

  function HexOf(bytes: seq<byte>): (s: string)
    ensures |s| == 2 * |bytes| && '-' !in s
  {
    if bytes == [] then "" else [Nibble(bytes[0] as int / 16), Nibble(bytes[0] as int % 16)] + HexOf(bytes[1..])
  }

  lemma {:induction false} HexAppend(bytes: seq<byte>, last: byte)
    ensures HexOf(bytes + [last]) == HexOf(bytes) + [Nibble(last as int / 16), Nibble(last as int % 16)]
  {
    if bytes == [] {
      assert bytes + [last] == [last] && HexOf([last][1..]) == "";
    } else {
      HexAppend(bytes[1..], last);
      assert (bytes + [last])[1..] == bytes[1..] + [last];
    }
  }

  method Hex(bytes: seq<byte>) returns (out: string)
    ensures out == HexOf(bytes)
  {
    out := "";
    for i := 0 to |bytes|
      invariant out == HexOf(bytes[..i])
    {
      HexAppend(bytes[..i], bytes[i]);
      assert bytes[..i + 1] == bytes[..i] + [bytes[i]];
      out := out + [Nibble(bytes[i] as int / 16)];
      out := out + [Nibble(bytes[i] as int % 16)];
    }
    assert bytes[..|bytes|] == bytes;
  }

  lemma {:induction false} HexInjective(a: seq<byte>, b: seq<byte>)
    requires HexOf(a) == HexOf(b)
    ensures a == b
  {
    assert |HexOf(a)| == |HexOf(b)|;
    if a != [] {
      var ha, hb := HexOf(a), HexOf(b);
      assert ha[0] == hb[0] && ha[1] == hb[1];
      assert a[0] as int / 16 == b[0] as int / 16 && a[0] as int % 16 == b[0] as int % 16;
      assert ha[2..] == HexOf(a[1..]) && hb[2..] == HexOf(b[1..]);
      HexInjective(a[1..], b[1..]);
      assert a == [a[0]] + a[1..] && b == [b[0]] + b[1..];
    }
  }

  function CookieFor(cfg: Config, c: CookieInput): (cookie: string)
    ensures |cookie| == 2 * COOKIE_BYTES && '-' !in cookie
  {
    HexOf(cfg.mac(RoutingBytes(c))[..COOKIE_BYTES])
  }

  function Ascii(s: string): seq<byte> {
    seq(|s|, i requires 0 <= i < |s| => (s[i] as int % 0x100) as byte)
  }

  /** The bytes the branch's unique part is a MAC over. */
  function UniqueBytes(c: CookieInput, index: nat): seq<byte> {
    RoutingBytes(c) + Ascii("/via/") + OrEmpty(c.topVia) + Ascii("/branch/") + Be32(Clamp32(index))
  }

  function BranchFor(cfg: Config, c: CookieInput, index: nat): BranchId {
    MAGIC_COOKIE + "-" + HexOf(cfg.mac(UniqueBytes(c, index))[..COOKIE_BYTES]) + "-" + CookieFor(cfg, c)
  }

  /** A branch put together from the two buffers and their hexadecimal text. */
  method MintBranch(cfg: Config, c: CookieInput, index: nat) returns (branch: BranchId)
    ensures branch == BranchFor(cfg, c, index)
    ensures CookieOf(branch) == Some(CookieFor(cfg, c))
  {
    var state := EncodeRoutingState(c);
    var cookie := Hex(cfg.mac(state)[..COOKIE_BYTES]);
    var bytes := state + Ascii("/via/");
    bytes := bytes + OrEmpty(c.topVia);
    bytes := bytes + Ascii("/branch/");
    bytes := bytes + Be32(Clamp32(index));
    var unique := Hex(cfg.mac(bytes)[..COOKIE_BYTES]);
    branch := MAGIC_COOKIE + "-" + unique + "-" + cookie;
    CookieOfBranch(cfg, c, index);
  }

  /** What follows the last dash, if there is one. */
  function AfterLastDash(s: string): (r: Option<string>) {
    if s == "" then None
    else if s[|s| - 1] == '-' then Some("")
    else match AfterLastDash(s[..|s| - 1])
      case None => None
      case Some(t) => Some(t + [s[|s| - 1]])
  }

  function CookieOf(branch: string): Option<string> {
    if MAGIC_COOKIE + "-" <= branch then
      match AfterLastDash(branch[|MAGIC_COOKIE| + 1..])
      case None => None
      case Some(cookie) => if cookie == "" then None else Some(cookie)
    else None
  }

  lemma {:induction false} AfterLastDashOf(head: string, tail: string)
    requires '-' !in tail
    ensures AfterLastDash(head + "-" + tail) == Some(tail)
  {
    var s := head + "-" + tail;
    if tail != "" {
      AfterLastDashOf(head, tail[..|tail| - 1]);
      assert s[..|s| - 1] == head + "-" + tail[..|tail| - 1];
      assert s[|s| - 1] == tail[|tail| - 1] && tail[|tail| - 1] in tail;
      assert tail == tail[..|tail| - 1] + [tail[|tail| - 1]];
    }
  }

  /** What `branch_for` wrote, `cookie_of` reads back. */
  lemma CookieOfBranch(cfg: Config, c: CookieInput, index: nat)
    ensures CookieOf(BranchFor(cfg, c, index)) == Some(CookieFor(cfg, c))
  {
    var branch := BranchFor(cfg, c, index);
    var unique := HexOf(cfg.mac(UniqueBytes(c, index))[..COOKIE_BYTES]);
    assert branch[|MAGIC_COOKIE| + 1..] == unique + "-" + CookieFor(cfg, c);
    AfterLastDashOf(unique, CookieFor(cfg, c));
  }

  // ------------------------------------------------------------------ distinct branches

  /** The truncated MAC does not collide on the unique parts of one request's forks. */
  ghost predicate IdealMac(cfg: Config, c: CookieInput, forks: nat) {
    forall i, j :: 0 <= i < j < forks ==>
      cfg.mac(UniqueBytes(c, i))[..COOKIE_BYTES] != cfg.mac(UniqueBytes(c, j))[..COOKIE_BYTES]
  }

  /** Under a MAC that does not collide on them, distinct fork indices give distinct branches. */
  lemma BranchesDistinct(cfg: Config, c: CookieInput, forks: nat, i: nat, j: nat)
    requires IdealMac(cfg, c, forks) && i < forks && j < forks
    ensures BranchFor(cfg, c, i) == BranchFor(cfg, c, j) <==> i == j
  {
    if BranchFor(cfg, c, i) == BranchFor(cfg, c, j) {
      var a, b := cfg.mac(UniqueBytes(c, i))[..COOKIE_BYTES], cfg.mac(UniqueBytes(c, j))[..COOKIE_BYTES];
      assert BranchFor(cfg, c, i)[8..24] == HexOf(a) && BranchFor(cfg, c, j)[8..24] == HexOf(b);
      HexInjective(a, b);
    }
  }
}
