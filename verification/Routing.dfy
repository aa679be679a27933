/** Where a request goes: route preprocessing, target determination and the next hop. */
module Routing {
  import opened Basics
  import opened Messages
  import opened ProxyConfig

  const SOLE_TARGET_Q: u16 := 1_000

  /** What tells our own `Record-Route` values from other URIs at our hosts: they name no user, and they are loose. */
  predicate IsOurRecordRouteValue(cfg: Config, uri: Uri) {
    IsOurs(cfg, uri) && uri.user.None? && uri.lr
  }

  predicate IsOurRoute(cfg: Config, route: Reading) {
    route.Reads? && IsOurs(cfg, route.uri)
  }

  /** P1: the last `Route` is taken for the Request-URI when a strict router left a value of ours there. */
  function RecoverStrict(r: Request, cfg: Config): Request {
    if IsOurRecordRouteValue(cfg, r.uri) && r.routes != [] && r.routes[|r.routes| - 1].Reads? then
      r.(uri := r.routes[|r.routes| - 1].uri, routes := r.routes[..|r.routes| - 1])
    else r
  }

  /** P2: how many leading `Route`s are popped. Never more than two. */
  function PopCount(cfg: Config, routes: seq<Reading>): (n: nat)
    ensures n <= 2 && n <= |routes|
  {
    if routes == [] || !IsOurRoute(cfg, routes[0]) then 0
    else if |routes| == 1 || !IsOurRoute(cfg, routes[1]) then 1
    else 2
  }

  function Carriage(routes: seq<Reading>, popped: nat): Option<TokenCarriage>
    requires popped <= |routes| && forall i :: 0 <= i < popped ==> routes[i].Reads?
  {
    if popped == 0 || routes[0].uri.aft.None? then None
    else Some(TokenCarriage(routes[0].uri.aft.value, if popped > 1 then routes[1].uri.aft else None))
  }

  /** What `preprocess` leaves of the request, and the tokens it popped. */
  function Preprocessed(r: Request, cfg: Config): (Request, Option<TokenCarriage>) {
    var p1 := RecoverStrict(r, cfg);
    var n := PopCount(cfg, p1.routes);
    (p1.(routes := p1.routes[n..]), Carriage(p1.routes, n))
  }

  method Preprocess(r: Request, cfg: Config) returns (request: Request, carriage: Option<TokenCarriage>)
    ensures (request, carriage) == Preprocessed(r, cfg)
  {
    request := r;
    if IsOurRecordRouteValue(cfg, request.uri) {
      var routes := request.routes;
      if routes != [] && routes[|routes| - 1].Reads? {
        request := request.(uri := routes[|routes| - 1].uri);
        request := request.(routes := routes[..|routes| - 1]);
      }
    }
    var routes := request.routes;
    var popped: seq<Option<seq<byte>>> := [];
    while |popped| < 2 && |popped| < |routes| && IsOurRoute(cfg, routes[|popped|])
      invariant |popped| <= 2 && |popped| <= |routes|
      invariant forall i :: 0 <= i < |popped| ==> IsOurRoute(cfg, routes[i]) && popped[i] == routes[i].uri.aft
      decreases 2 - |popped|
    {
      popped := popped + [routes[|popped|].uri.aft];
    }
    assert |popped| == PopCount(cfg, routes);
    if popped == [] {
      carriage := None;
    } else {
      request := request.(routes := routes[|popped|..]);
      if popped[0].None? {
        carriage := None;
      } else {
        carriage := Some(TokenCarriage(popped[0].value, if |popped| > 1 then popped[1] else None));
      }
    }
  }

  predicate IsInDialog(r: Request) { TagOf(r.to).Some? }

  function PredeterminedTarget(r: Request): Target {
    Target(Reads(r.uri, r.uri.text), [], SOLE_TARGET_Q)
  }

  predicate RouteSetSurvived(r: Request) { r.routes != [] }

  /** F7. `reformatted` says whether the strict-route swap took place, which the copy itself no longer shows. */
  function NextHop(r: Request, reformatted: bool): Uri {
    if reformatted || r.routes == [] || r.routes[0].Unreadable? then r.uri else r.routes[0].uri
  }

  // ------------------------------------------------------------------ strict predecessors

  /** How a strict router sends a request whose topmost `Route` is its next hop. */
  function StrictRewrite(r: Request): Request
    requires r.routes != [] && r.routes[0].Reads?
  {
    r.(uri := r.routes[0].uri, routes := r.routes[1..] + [Reads(r.uri, Bracket(r.uri.text))])
  }

  /**
   * A strict predecessor loses nothing: preprocessing recovers the Request-URI and `Route` set that
   * preprocessing the loose form gives, exactly when no third leading `Route` is ours too.
   */
  lemma StrictPredecessorRecovered(r: Request, cfg: Config)
    requires r.routes != [] && r.routes[0].Reads? && IsOurRecordRouteValue(cfg, r.routes[0].uri)
    requires !IsOurRecordRouteValue(cfg, r.uri)
    ensures Preprocessed(StrictRewrite(r), cfg).0 == Preprocessed(r, cfg).0
      <==> !(|r.routes| >= 3 && IsOurRoute(cfg, r.routes[1]) && IsOurRoute(cfg, r.routes[2]))
  {
    var strict := StrictRewrite(r);
    var p1 := RecoverStrict(strict, cfg);
    assert strict.routes[..|strict.routes| - 1] == r.routes[1..];
    assert p1 == r.(routes := r.routes[1..]);
    var n, m := PopCount(cfg, p1.routes), PopCount(cfg, r.routes);
    assert p1.routes[n..] == r.routes[1 + n..];
    assert |p1.routes[n..]| == |r.routes| - 1 - n && |r.routes[m..]| == |r.routes| - m;
  }

  /** Whether the `Route` at `i` is there and ours. */
  predicate OursAt(cfg: Config, routes: seq<Reading>, i: nat) {
    i < |routes| && IsOurRoute(cfg, routes[i])
  }

  function TokenAt(routes: seq<Reading>, i: nat): Option<seq<byte>> {
    if i < |routes| && routes[i].Reads? then routes[i].uri.aft else None
  }

  /**
   * The tokens are recovered less often: the value that went into the Request-URI is given up with its token.
   * They are the same exactly when there was no token on the values popped, or when three leading `Route`s of
   * ours carry one and the same.
   */
  lemma StrictPredecessorTokens(r: Request, cfg: Config)
    requires r.routes != [] && r.routes[0].Reads? && IsOurRecordRouteValue(cfg, r.routes[0].uri)
    requires !IsOurRecordRouteValue(cfg, r.uri)
    ensures var routes := r.routes;
      Preprocessed(StrictRewrite(r), cfg).1 == Preprocessed(r, cfg).1 <==>
        || (TokenAt(routes, 0).None? && (OursAt(cfg, routes, 1) ==> TokenAt(routes, 1).None?))
        || (OursAt(cfg, routes, 1) && OursAt(cfg, routes, 2)
            && TokenAt(routes, 0) == TokenAt(routes, 1) && TokenAt(routes, 1) == TokenAt(routes, 2))
  {
    var strict := StrictRewrite(r);
    assert strict.routes[..|strict.routes| - 1] == r.routes[1..];
    assert RecoverStrict(strict, cfg) == r.(routes := r.routes[1..]);
  }

  /** Request and tokens together: nothing at all is lost exactly when no third is ours and no popped value had a token. */
  lemma StrictPredecessorExactly(r: Request, cfg: Config)
    requires r.routes != [] && r.routes[0].Reads? && IsOurRecordRouteValue(cfg, r.routes[0].uri)
    requires !IsOurRecordRouteValue(cfg, r.uri)
    ensures var routes := r.routes;
      Preprocessed(StrictRewrite(r), cfg) == Preprocessed(r, cfg) <==>
        && !(OursAt(cfg, routes, 1) && OursAt(cfg, routes, 2))
        && TokenAt(routes, 0).None? && (OursAt(cfg, routes, 1) ==> TokenAt(routes, 1).None?)
  {
    StrictPredecessorRecovered(r, cfg);
    StrictPredecessorTokens(r, cfg);
  }
}
