/** SIP messages as the proxy core reads them; parsing and header building belong to the kernel. */
module Messages {
  import opened Basics

  datatype Method = Invite | Ack | Bye | Other(name: string)

  /** A parsed URI. `text` is its verbatim spelling, `aft` the affinity-token parameter. */
  datatype Uri = Uri(
    scheme: string, user: Option<string>, host: Option<string>, port: Option<u16>,
    lr: bool, aft: Option<seq<byte>>, text: seq<byte>)

  /** A value from the wire that should hold a URI, and whether it reads as one. */
  datatype Reading = Reads(uri: Uri, text: seq<byte>) | Unreadable(text: seq<byte>)

  const LEFT_ANGLE: byte := 60
  const RIGHT_ANGLE: byte := 62

  function Bracket(text: seq<byte>): seq<byte> {
    [LEFT_ANGLE] + text + [RIGHT_ANGLE]
  }

  /** One `Via` line; `text` is its verbatim spelling. */
  datatype ViaLine =
    | Via(host: string, port: Option<u16>, branch: Option<string>, text: seq<byte>)
    | BadVia(text: seq<byte>)

  /** A `From` or `To` header: missing, unparseable, or read. */
  datatype Party = Missing | Illegible | Named(tag: Option<seq<byte>>)

  function TagOf(p: Party): Option<seq<byte>> {
    if p.Named? then p.tag else None
  }

  datatype CSeqField = NoCSeq | BadCSeq | CSeq(number: u32)

  datatype RecordRoute = RecordRoute(base: seq<byte>, token: Option<seq<byte>>)

  datatype Request = Request(
    verb: Method, uri: Uri, vias: seq<ViaLine>, callId: Option<seq<byte>>, cseq: CSeqField,
    from: Party, to: Party, routes: seq<Reading>, recordRoutes: seq<RecordRoute>,
    maxForwards: Option<u8>, maxBreadth: Option<u32>, proxyRequire: seq<string>, rest: seq<byte>)

  type Status = s: int | 100 <= s < 700 witness 100

  datatype Response = Response(
    status: Status, vias: seq<ViaLine>, wwwAuthenticate: seq<seq<byte>>,
    proxyAuthenticate: seq<seq<byte>>, unsupported: seq<string>, rest: seq<byte>)

  /** The kernel's response to a request: it echoes the request's `Via` list. */
  function BuildResponse(request: Request, status: Status): Response {
    Response(status, request.vias, [], [], [], [])
  }

  function PopVia(response: Response): Response {
    if response.vias == [] then response else response.(vias := response.vias[1..])
  }

  predicate IsProvisional(status: Status) { status < 200 }

  type BranchId = string

  /** Somewhere to forward to: `q` is in thousandths. */
  datatype Target = Target(uri: Reading, routeSet: seq<Reading>, q: u16)

  datatype TokenCarriage = TokenCarriage(token: seq<byte>, partner: Option<seq<byte>>)

  datatype TokenVerdict = Valid(tenant: string) | Invalid

  datatype RecordRouteTokens = RecordRouteTokens(originating: seq<byte>, terminating: seq<byte>)
}
