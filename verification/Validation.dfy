/** Request validation: checks V1 to V6, in order (RFC 3261 section 16.3 as amended by RFC 5393). */
module Validation {
  import opened Basics
  import opened Messages
  import opened ProxyConfig
  import opened Cookie

  datatype Refusal =
    | Drop
    | UnsupportedScheme
    | TooManyHops
    | LoopDetected
    | MaxBreadthExceeded
    | BadExtension(tags: seq<string>)

  /** The status to answer with; a dropped request gets none. */
  function RefusalStatus(r: Refusal): Option<Status> {
    match r
    case Drop => None
    case UnsupportedScheme => Some(416)
    case TooManyHops => Some(483)
    case LoopDetected => Some(482)
    case MaxBreadthExceeded => Some(440)
    case BadExtension(_) => Some(420)
  }

  datatype Validated = Validated(maxForwards: u8, maxBreadth: u32, cookieInput: CookieInput)

  predicate IsRespondable(r: Request) {
    r.vias != [] && r.callId.Some? && !r.cseq.NoCSeq? && !r.from.Missing? && !r.to.Missing?
  }

  /** One of our own `Via` entries carries the cookie of the current routing state. */
  predicate LoopsOn(cfg: Config, via: ViaLine, expected: string) {
    IsOurVia(cfg, via) && via.branch.Some? && CookieOf(via.branch.value) == Some(expected)
  }

  predicate IsLoop(cfg: Config, r: Request, expected: string) {
    exists i :: 0 <= i < |r.vias| && LoopsOn(cfg, r.vias[i], expected)
  }

  function Unsupported(cfg: Config, tags: seq<string>): seq<string> {
    if tags == [] then []
    else (if Supports(cfg, tags[0]) then [] else [tags[0]]) + Unsupported(cfg, tags[1..])
  }

  function Validate(r: Request, cfg: Config): Result<Validated, Refusal> {
    if !IsRespondable(r) then Err(Drop)
    else if !UnderstandsScheme(cfg, r.uri) then Err(UnsupportedScheme)
    else if r.maxForwards == Some(0) then Err(TooManyHops)
    else
      var input := FromRequest(r);
      if IsLoop(cfg, r, CookieFor(cfg, input)) then Err(LoopDetected)
      else if r.maxBreadth == Some(0) then Err(MaxBreadthExceeded)
      else if Unsupported(cfg, r.proxyRequire) != [] then Err(BadExtension(Unsupported(cfg, r.proxyRequire)))
      else Ok(Validated(
        if r.maxForwards.Some? then r.maxForwards.value else cfg.defaultMaxForwards,
        if r.maxBreadth.Some? then r.maxBreadth.value else cfg.defaultMaxBreadth,
        input))
  }

  /** V1 to V3: what a request must pass before loop detection is reached. */
  predicate PassesV3(r: Request, cfg: Config) {
    IsRespondable(r) && UnderstandsScheme(cfg, r.uri) && r.maxForwards != Some(0)
  }
}
