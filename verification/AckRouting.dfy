/** The `ACK` for a 2xx: a separately routed request that nothing answers (RFC 3261 section 17.1.1.3). */
module AckRouting {
  import opened Basics
  import opened Messages
  import opened ProxyConfig
  import opened Validation
  import opened Routing
  import opened Forwarding

  datatype AckRefusal = Refused(refusal: Refusal) | NotForwardable(error: ForwardError) | UnverifiableToken

  datatype AckRoute =
    | AckForward(request: Request, nextHop: Uri)
    | AckVerify(carriage: TokenCarriage)
    | Unroutable(reason: AckRefusal)

  function AckPlan(request: Request, validated: Validated): ForwardPlan {
    ForwardPlan(request, validated, PredeterminedTarget(request), 0, 1, false, None)
  }

  function Built(r: Result<Copy, ForwardError>): AckRoute {
    match r case Ok(copy) => AckForward(copy.request, copy.nextHop) case Err(error) => Unroutable(NotForwardable(error))
  }

  function RouteAck(r: Request, cfg: Config, verdict: Option<TokenVerdict>): AckRoute {
    match Validate(r, cfg)
    case Err(refusal) => Unroutable(Refused(refusal))
    case Ok(validated) =>
      var (request, carriage) := Preprocessed(r, cfg);
      Vouched(AckPlan(request, validated), carriage, cfg, verdict)
  }

  /** What becomes of a validated `ACK`, given the tokens it carried and the verdict on them. */
  function Vouched(plan: ForwardPlan, carriage: Option<TokenCarriage>, cfg: Config, verdict: Option<TokenVerdict>): AckRoute {
    if carriage.Some? && verdict == Some(Invalid) then Unroutable(UnverifiableToken)
    else if carriage.Some? && verdict.None? then AckVerify(carriage.value)
    else Built(Forward(plan, cfg))
  }

  /** The `ACK` path forwards what building gives it, once any token is vouched for. */
  lemma AckIsBuilt(cfg: Config, r: Request, verdict: Option<TokenVerdict>)
    requires Validate(r, cfg).Ok?
    ensures var (request, carriage) := Preprocessed(r, cfg);
      if carriage.None? || (verdict.Some? && verdict.value.Valid?) then
        RouteAck(r, cfg, verdict) == Built(Forward(AckPlan(request, Validate(r, cfg).value), cfg))
      else
        RouteAck(r, cfg, verdict) == if verdict.None? then AckVerify(carriage.value) else Unroutable(UnverifiableToken)
  {
    var (request, carriage) := Preprocessed(r, cfg);
    VouchedFacts(AckPlan(request, Validate(r, cfg).value), carriage, cfg, verdict);
  }

  lemma VouchedFacts(plan: ForwardPlan, carriage: Option<TokenCarriage>, cfg: Config, verdict: Option<TokenVerdict>)
    ensures if carriage.None? || (verdict.Some? && verdict.value.Valid?) then Vouched(plan, carriage, cfg, verdict) == Built(Forward(plan, cfg))
      else Vouched(plan, carriage, cfg, verdict) == if verdict.None? then AckVerify(carriage.value) else Unroutable(UnverifiableToken)
  {
  }

  /**
   * A token a strict predecessor moved into the Request-URI is never verified: the `ACK` goes out on any verdict,
   * even `Invalid`, where the same `ACK` from a loose predecessor waits for one and is refused on `Invalid`.
   */
  lemma StrictTokenUnverified(r: Request, cfg: Config, verdict: Option<TokenVerdict>)
    requires r.routes != [] && r.routes[0].Reads? && IsOurRecordRouteValue(cfg, r.routes[0].uri)
    requires !IsOurRecordRouteValue(cfg, r.uri) && TokenAt(r.routes, 0).Some? && !OursAt(cfg, r.routes, 1)
    ensures RouteAck(StrictRewrite(r), cfg, verdict).AckForward? <==> Validate(StrictRewrite(r), cfg).Ok?
    ensures Validate(r, cfg).Ok? ==>
      && RouteAck(r, cfg, None).AckVerify? && RouteAck(r, cfg, None).carriage.token == TokenAt(r.routes, 0).value
      && RouteAck(r, cfg, Some(Invalid)) == Unroutable(UnverifiableToken)
  {
    var strict := StrictRewrite(r);
    TokenLost(r, cfg);
    if Validate(strict, cfg).Ok? {
      AckIsBuilt(cfg, strict, verdict);
      ForwardFacts(AckPlan(Preprocessed(strict, cfg).0, Validate(strict, cfg).value), cfg);
    }
    if Validate(r, cfg).Ok? {
      AckIsBuilt(cfg, r, None);
      AckIsBuilt(cfg, r, Some(Invalid));
    }
  }

  lemma TokenLost(r: Request, cfg: Config)
    requires r.routes != [] && r.routes[0].Reads? && IsOurRecordRouteValue(cfg, r.routes[0].uri)
    requires !IsOurRecordRouteValue(cfg, r.uri) && TokenAt(r.routes, 0).Some? && !OursAt(cfg, r.routes, 1)
    ensures Preprocessed(StrictRewrite(r), cfg).1.None?
    ensures Preprocessed(r, cfg).1 == Some(TokenCarriage(TokenAt(r.routes, 0).value, None))
  {
    var strict := StrictRewrite(r);
    assert strict.routes[..|strict.routes| - 1] == r.routes[1..];
    assert RecoverStrict(strict, cfg) == r.(routes := r.routes[1..]);
  }
}
