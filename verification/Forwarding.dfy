/** Building the forwarded copy: steps F1 to F8 of RFC 3261 section 16.6. */
module Forwarding {
  import opened Basics
  import opened Messages
  import opened ProxyConfig
  import opened Cookie
  import opened Validation
  import opened Routing

  const TOKEN_PARAM := "aft"
  const TOKEN_PARAM_BUDGET := 200

  datatype ForwardPlan = ForwardPlan(
    original: Request, validated: Validated, target: Target, index: nat, parallelBranches: nat,
    recordRoute: bool, tokens: Option<RecordRouteTokens>)

  datatype ForwardError = BadTarget | TokenTooLarge(size: nat)

  datatype Copy = Copy(branch: BranchId, request: Request, nextHop: Uri)

  // ------------------------------------------------------------------ F3, F4

  function HopsLeft(v: Validated): u8 { Max(v.maxForwards - 1, 0) }

  /** An equal share of `Max-Breadth`, but at least 1. */
  function BreadthShare(maxBreadth: u32, parallel: nat): (share: u32)
    ensures share >= 1
  {
    Max(maxBreadth / Max(parallel, 1), 1)
  }

  function ParamSize(token: seq<byte>): nat { |TOKEN_PARAM| + 2 + |token| }

  function RecordRouteValue(cfg: Config, token: seq<byte>): Result<RecordRoute, ForwardError> {
    if ParamSize(token) > TOKEN_PARAM_BUDGET then Err(TokenTooLarge(ParamSize(token)))
    else Ok(RecordRoute(cfg.recordRouteUri, Some(token)))
  }

  /** What F4 adds, listed in the order it is added; the copy shows the reverse. */
  function RecordRouteValues(cfg: Config, tokens: Option<RecordRouteTokens>): Result<seq<RecordRoute>, ForwardError> {
    match tokens
    case None => Ok([RecordRoute(cfg.recordRouteUri, None)])
    case Some(pair) =>
      match RecordRouteValue(cfg, pair.originating)
      case Err(e) => Err(e)
      case Ok(orig) =>
        match RecordRouteValue(cfg, pair.terminating)
        case Err(e) => Err(e)
        case Ok(term) => Ok([orig, term])
  }

  function ValuesFor(plan: ForwardPlan, cfg: Config): Result<seq<RecordRoute>, ForwardError> {
    if plan.recordRoute then RecordRouteValues(cfg, plan.tokens) else Ok([])
  }

  function Reversed<T>(s: seq<T>): seq<T> {
    if s == [] then [] else Reversed(s[1..]) + [s[0]]
  }

  // ------------------------------------------------------------------ F5 to F8

  /** Every stored hop is written as `<uri>`, so that what follows a semicolon stays part of the URI. */
  function Bracketed(route: Reading): (r: Reading)
    ensures r.Reads? == route.Reads? && (r.Reads? ==> r.uri == route.uri)
  {
    if route.text != [] && route.text[0] == LEFT_ANGLE then route else route.(text := Bracket(route.text))
  }

  function BracketAll(path: seq<Reading>): seq<Reading> {
    seq(|path|, i requires 0 <= i < |path| => Bracketed(path[i]))
  }

  predicate SwapFires(routes: seq<Reading>) {
    routes != [] && routes[0].Reads? && !routes[0].uri.lr
  }

  /** F6: a next hop without `lr` is addressed directly, and the Request-URI it displaces is kept behind the `Route`s. */
  function Swapped(r: Request): Request {
    if SwapFires(r.routes) then
      r.(uri := r.routes[0].uri, routes := r.routes[1..] + [Reads(r.uri, Bracket(r.uri.text))])
    else r
  }

  function OwnVia(cfg: Config, branch: BranchId): ViaLine {
    Via(cfg.sentByHost, cfg.sentByPort, Some(branch), Ascii("SIP/2.0/UDP " + cfg.sentByHost + ";branch=" + branch))
  }

  /** The copy up to F5, given the `Record-Route` values to push. */
  function Retargeted(plan: ForwardPlan, uri: Uri, values: seq<RecordRoute>): Request {
    plan.original.(
      uri := uri,
      maxForwards := Some(HopsLeft(plan.validated)),
      maxBreadth := Some(BreadthShare(plan.validated.maxBreadth, plan.parallelBranches)),
      recordRoutes := Reversed(values) + plan.original.recordRoutes,
      routes := BracketAll(plan.target.routeSet) + plan.original.routes)
  }

  function Forward(plan: ForwardPlan, cfg: Config): (r: Result<Copy, ForwardError>) {
    if plan.target.uri.Unreadable? then Err(BadTarget)
    else match ValuesFor(plan, cfg)
      case Err(e) => Err(e)
      case Ok(values) =>
        var before := Retargeted(plan, plan.target.uri.uri, values);
        var after := Swapped(before);
        var branch := BranchFor(cfg, plan.validated.cookieInput, plan.index);
        Ok(Copy(branch, after.(vias := [OwnVia(cfg, branch)] + after.vias), NextHop(after, SwapFires(before.routes))))
  }

  /** F1 to F8 as the header list is edited, one step at a time. */
  method ForwardCopy(plan: ForwardPlan, cfg: Config) returns (r: Result<Copy, ForwardError>)
    ensures r == Forward(plan, cfg)
  {
    var request := plan.original;
    if plan.target.uri.Unreadable? {
      return Err(BadTarget);
    }
    request := request.(uri := plan.target.uri.uri);
    request := request.(maxForwards := Some(HopsLeft(plan.validated)));
    request := request.(maxBreadth := Some(BreadthShare(plan.validated.maxBreadth, plan.parallelBranches)));

    var values := [];
    if plan.recordRoute {
      match RecordRouteValues(cfg, plan.tokens) {
        case Err(e) => return Err(e);
        case Ok(found) => values := found;
      }
    }
    request := PushRecordRoutes(request, values);
    request := PushPath(request, plan.target.routeSet);
    assert request == Retargeted(plan, plan.target.uri.uri, values);

    var reformatted := SwapFires(request.routes);
    request := Swapped(request);
    var branch := MintBranch(cfg, plan.validated.cookieInput, plan.index);
    request := request.(vias := [OwnVia(cfg, branch)] + request.vias);
    r := Ok(Copy(branch, request, NextHop(request, reformatted)));
  }

  method PushRecordRoutes(request: Request, values: seq<RecordRoute>) returns (r: Request)
    ensures r == request.(recordRoutes := Reversed(values) + request.recordRoutes)
  {
    r := request;
    for i := 0 to |values|
      invariant r == request.(recordRoutes := Reversed(values[..i]) + request.recordRoutes)
    {
      ReversedAppend(values[..i], values[i]);
      assert values[..i + 1] == values[..i] + [values[i]];
      r := r.(recordRoutes := [values[i]] + r.recordRoutes);
    }
    assert values[..|values|] == values;
  }

  lemma {:induction false} ReversedAppend<T>(s: seq<T>, last: T)
    ensures Reversed(s + [last]) == [last] + Reversed(s)
  {
    if s != [] {
      ReversedAppend(s[1..], last);
      assert (s + [last])[1..] == s[1..] + [last];
    }
  }

  /** Prepending from the last value keeps the order of `Path`. */
  method PushPath(request: Request, path: seq<Reading>) returns (r: Request)
    ensures r == request.(routes := BracketAll(path) + request.routes)
  {
    r := request;
    for i := |path| downto 0
      invariant r == request.(routes := BracketAll(path[i..]) + request.routes)
    {
      assert BracketAll(path[i..]) == [Bracketed(path[i])] + BracketAll(path[i + 1..]);
      r := r.(routes := [Bracketed(path[i])] + r.routes);
    }
  }

  // ------------------------------------------------------------------ what a copy says

  /** Whether a copy can be built is a matter of the target and the tokens, not of which fork it is. */
  predicate Buildable(target: Target, recordRoute: bool, tokens: Option<RecordRouteTokens>) {
    target.uri.Reads?
    && (recordRoute && tokens.Some? ==>
      ParamSize(tokens.value.originating) <= TOKEN_PARAM_BUDGET && ParamSize(tokens.value.terminating) <= TOKEN_PARAM_BUDGET)
  }

  lemma ForwardFacts(plan: ForwardPlan, cfg: Config)
    ensures Forward(plan, cfg).Ok? <==> Buildable(plan.target, plan.recordRoute, plan.tokens)
    ensures Forward(plan, cfg).Ok? ==>
      var copy := Forward(plan, cfg).value;
      && copy.branch == BranchFor(cfg, plan.validated.cookieInput, plan.index)
      && copy.request.maxForwards == Some(HopsLeft(plan.validated))
      && copy.request.maxBreadth == Some(BreadthShare(plan.validated.maxBreadth, plan.parallelBranches))
      && copy.request.vias == [OwnVia(cfg, copy.branch)] + plan.original.vias
  {
  }

  // ------------------------------------------------------------------ the journey

  function UrisOf(routes: seq<Reading>): seq<Option<Uri>> {
    seq(|routes|, i requires 0 <= i < |routes| => if routes[i].Reads? then Some(routes[i].uri) else None)
  }

  /** The hops a message still has to visit; `strict` says whether its Request-URI is the next one. */
  function Journey(r: Request, strict: bool): seq<Option<Uri>> {
    if strict then [Some(r.uri)] + UrisOf(r.routes) else UrisOf(r.routes) + [Some(r.uri)]
  }

  /**
   * The rewrite preserves the journey: path, then surviving routes, then target, whether or not the
   * swap fires; and the next hop is the first of them unless that one cannot be read.
   */
  lemma JourneyPreserved(plan: ForwardPlan, cfg: Config)
    requires Forward(plan, cfg).Ok?
    ensures var copy := Forward(plan, cfg).value;
      var hops := UrisOf(plan.target.routeSet) + UrisOf(plan.original.routes) + [Some(plan.target.uri.uri)];
      && Journey(copy.request, SwapFires(plan.target.routeSet + plan.original.routes)) == hops
      && (hops[0].Some? ==> copy.nextHop == hops[0].value)
      && (hops[0].None? ==> copy.nextHop == plan.target.uri.uri)
  {
    var all := plan.target.routeSet + plan.original.routes;
    var before := Retargeted(plan, plan.target.uri.uri, ValuesFor(plan, cfg).value);
    BracketedRoutes(plan.target.routeSet, plan.original.routes);
    SwapKeepsJourney(before, plan.target.uri.uri);
  }

  /** Brackets change how a route is written, not where it leads. */
  lemma BracketedRoutes(path: seq<Reading>, routes: seq<Reading>)
    ensures var written := BracketAll(path) + routes;
      UrisOf(written) == UrisOf(path) + UrisOf(routes) && SwapFires(written) == SwapFires(path + routes)
  {
    var written := BracketAll(path) + routes;
    assert |written| == |path + routes|;
    assert written != [] ==>
      written[0].Reads? == (path + routes)[0].Reads? && (written[0].Reads? ==> written[0].uri == (path + routes)[0].uri);
  }

  lemma SwapKeepsJourney(r: Request, target: Uri)
    requires r.uri == target
    ensures var hops := UrisOf(r.routes) + [Some(target)];
      && Journey(Swapped(r), SwapFires(r.routes)) == hops
      && NextHop(Swapped(r), SwapFires(r.routes)) == if hops[0].Some? then hops[0].value else target
  {
    if SwapFires(r.routes) {
      assert UrisOf(Swapped(r).routes) == UrisOf(r.routes)[1..] + [Some(target)];
      assert [Some(Swapped(r).uri)] + UrisOf(r.routes)[1..] == UrisOf(r.routes);
    }
  }
}
