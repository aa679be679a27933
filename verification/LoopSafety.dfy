/** Forwarding cannot go round for ever: loops are refused and every chain of forwards is finite. */
module LoopSafety {
  import opened Basics
  import opened Messages
  import opened ProxyConfig
  import opened Cookie
  import opened Validation
  import opened Forwarding

  /** `plan` is how this proxy forwards the arrival `r`. */
  predicate Forwards(cfg: Config, r: Request, plan: ForwardPlan) {
    Validate(r, cfg) == Ok(plan.validated) && Forward(plan, cfg).Ok?
  }

  lemma SameRoutingSameCookie(cfg: Config, a: CookieInput, b: CookieInput)
    requires SameRouting(a, b)
    ensures CookieFor(cfg, a) == CookieFor(cfg, b)
  {
    assert RoutingFields(a) == RoutingFields(b);
  }

  /**
   * A copy that comes back with the routing state it left with, under any number of new `Via`s, is
   * refused as a loop; without another mark of ours on it, exactly when our sent-by is one of our identities.
   */
  lemma LoopRefused(cfg: Config, r: Request, plan: ForwardPlan, back: Request, k: nat)
    requires Forwards(cfg, r, plan)
    requires k < |back.vias| && back.vias[k] == OwnVia(cfg, Forward(plan, cfg).value.branch)
    requires SameRouting(FromRequest(r), FromRequest(back)) && PassesV3(back, cfg)
    ensures IsOurSentBy(cfg, cfg.sentByHost, cfg.sentByPort) ==> Validate(back, cfg) == Err(LoopDetected)
    ensures (forall i :: 0 <= i < |back.vias| && i != k ==> !IsOurVia(cfg, back.vias[i])) ==>
      (Validate(back, cfg) == Err(LoopDetected) <==> IsOurSentBy(cfg, cfg.sentByHost, cfg.sentByPort))
  {
    var expected := CookieFor(cfg, FromRequest(back));
    OwnMarkLoops(cfg, r, plan, back);
    LoopVerdict(cfg, back, expected);
    assert LoopsOn(cfg, back.vias[k], expected) ==> IsLoop(cfg, back, expected);
  }

  /** Our own mark matches the returning request's cookie exactly when we recognise our own sent-by. */
  lemma OwnMarkLoops(cfg: Config, r: Request, plan: ForwardPlan, back: Request)
    requires Forwards(cfg, r, plan) && SameRouting(FromRequest(r), FromRequest(back))
    ensures LoopsOn(cfg, OwnVia(cfg, Forward(plan, cfg).value.branch), CookieFor(cfg, FromRequest(back)))
      <==> IsOurSentBy(cfg, cfg.sentByHost, cfg.sentByPort)
  {
    CookieOfBranch(cfg, FromRequest(r), plan.index);
    SameRoutingSameCookie(cfg, FromRequest(r), FromRequest(back));
  }

  /** Past V3, validation says "loop" exactly when one of our own marks carries the current cookie. */
  lemma LoopVerdict(cfg: Config, back: Request, expected: string)
    requires PassesV3(back, cfg) && expected == CookieFor(cfg, FromRequest(back))
    ensures Validate(back, cfg) == Err(LoopDetected) <==> IsLoop(cfg, back, expected)
  {
  }

  /** The truncated MAC tells the two routing states apart. */
  predicate MacSeparates(cfg: Config, a: CookieInput, b: CookieInput) {
    RoutingBytes(a) != RoutingBytes(b) ==>
      cfg.mac(RoutingBytes(a))[..COOKIE_BYTES] != cfg.mac(RoutingBytes(b))[..COOKIE_BYTES]
  }

  /** A spiral is not a loop: our own mark condemns a later arrival exactly when the routing state is the same. */
  lemma SpiralPasses(cfg: Config, r: Request, plan: ForwardPlan, back: Request)
    requires Forwards(cfg, r, plan) && IsOurSentBy(cfg, cfg.sentByHost, cfg.sentByPort)
    requires Encodable(FromRequest(r)) && Encodable(FromRequest(back))
    requires MacSeparates(cfg, FromRequest(r), FromRequest(back))
    ensures LoopsOn(cfg, OwnVia(cfg, Forward(plan, cfg).value.branch), CookieFor(cfg, FromRequest(back)))
      <==> SameRouting(FromRequest(r), FromRequest(back))
  {
    var a, b := FromRequest(r), FromRequest(back);
    CookieOfBranch(cfg, a, plan.index);
    ForwardFacts(plan, cfg);
    CookiesTellApart(cfg, a, b);
  }

  lemma CookiesTellApart(cfg: Config, a: CookieInput, b: CookieInput)
    requires Encodable(a) && Encodable(b) && MacSeparates(cfg, a, b)
    ensures CookieFor(cfg, a) == CookieFor(cfg, b) <==> SameRouting(a, b)
  {
    RoutingBytesInjective(a, b);
    if CookieFor(cfg, a) == CookieFor(cfg, b) {
      HexInjective(cfg.mac(RoutingBytes(a))[..COOKIE_BYTES], cfg.mac(RoutingBytes(b))[..COOKIE_BYTES]);
    }
  }

  /** A chain of forwards by any proxies: only `Max-Forwards` must travel from a copy to the next arrival. */
  ghost predicate Chain(arrivals: seq<Request>, cfgs: seq<Config>, plans: seq<ForwardPlan>) {
    |arrivals| == |plans| == |cfgs|
    && (forall k :: 0 <= k < |plans| ==> Forwards(cfgs[k], arrivals[k], plans[k]))
    && forall k :: 0 < k < |plans| ==>
        arrivals[k].maxForwards == Forward(plans[k - 1], cfgs[k - 1]).value.request.maxForwards
  }

  lemma OneForward(cfg: Config, r: Request, plan: ForwardPlan)
    requires Forwards(cfg, r, plan)
    ensures Forward(plan, cfg).value.request.maxForwards == Some(HopsLeft(plan.validated))
    ensures r.maxForwards.Some? ==> plan.validated.maxForwards == r.maxForwards.value >= 1
  {
    ForwardFacts(plan, cfg);
  }

  /** After the first forward every proxy sees one hop fewer than the proxy before it, and at least one. */
  lemma HopsFall(arrivals: seq<Request>, cfgs: seq<Config>, plans: seq<ForwardPlan>)
    requires Chain(arrivals, cfgs, plans)
    ensures forall k :: 0 < k < |plans| ==> 1 <= plans[k].validated.maxForwards == plans[k - 1].validated.maxForwards - 1
  {
    forall k | 0 < k < |plans|
      ensures 1 <= plans[k].validated.maxForwards == plans[k - 1].validated.maxForwards - 1
    {
      OneForward(cfgs[k - 1], arrivals[k - 1], plans[k - 1]);
      OneForward(cfgs[k], arrivals[k], plans[k]);
    }
  }

  /** Every chain of forwards is finite: no longer than the hops it started with, and one if it started with none. */
  lemma ChainIsFinite(arrivals: seq<Request>, cfgs: seq<Config>, plans: seq<ForwardPlan>)
    requires Chain(arrivals, cfgs, plans) && plans != []
    ensures |plans| <= Max(plans[0].validated.maxForwards, 1)
  {
    HopsFall(arrivals, cfgs, plans);
    for k := 0 to |plans| - 1
      invariant plans[k].validated.maxForwards == plans[0].validated.maxForwards - k
    {
    }
  }
}
