/** One proxy and one INVITE for which the runs of `ContextExamples` happen. */
module ProxyExamples {
  import opened Basics
  import opened Messages
  import opened ProxyConfig
  import opened Cookie
  import opened Validation
  import opened Routing
  import opened ContextFacts
  import opened ContextExamples
  import Proxy

  /** Any MAC that tells fork indices apart will do; this one copies them. */
  function IndexMac(message: seq<byte>): Digest {
    seq(32, i requires 0 <= i < 32 => if |message| >= 4 && i < 4 then message[|message| - 4 + i] else 0)
  }

  function Edge(): Config {
    Config([EdgeIdentity("edge.example", None)], [], "edge.example", None, [], ["sip"], 70, 60, 240, IndexMac)
  }

  function Call(): Request {
    Request(Invite, Uri("sip", Some("bob"), Some("b.example"), None, false, None, []), [Via("a.example", None, None, [])],
            Some([1]), CSeq(1), Named(Some([1])), Named(None), [], [], Some(70), Some(60), [], [])
  }

  function Contact(q: u16): Target { Target(Reads(Uri("sip", Some("bob"), Some("c.example"), None, false, None, []), []), [], q) }

  /** A contact nobody can read. */
  function Garbled(q: u16): Target { Target(Unreadable([0]), [], q) }

  lemma IndexShows(message: seq<byte>, index: u32)
    ensures IndexMac(message + Be32(index))[..4] == Be32(index)
  {
    var all := message + Be32(index);
    assert all[|all| - 4..] == Be32(index);
  }

  lemma IndicesTellApart(input: CookieInput)
    ensures IdealMac(Edge(), input, 2)
  {
    var prefix := RoutingBytes(input) + Ascii("/via/") + OrEmpty(input.topVia) + Ascii("/branch/");
    IndexShows(prefix, 0);
    IndexShows(prefix, 1);
    assert UniqueBytes(input, 0) == prefix + Be32(0) && UniqueBytes(input, 1) == prefix + Be32(1);
    var a, b := IndexMac(UniqueBytes(input, 0)), IndexMac(UniqueBytes(input, 1));
    assert a[..4] != b[..4] by {
      assert Be32(0)[3] != Be32(1)[3];
    }
    assert a[..COOKIE_BYTES][..4] == a[..4] && b[..COOKIE_BYTES][..4] == b[..4];
  }

  lemma CallPasses()
    ensures Validate(Call(), Edge()).Ok? && Validate(Call(), Edge()).value.maxBreadth == 60
    ensures Preprocessed(Call(), Edge()) == (Call(), None)
  {
    assert Lower(Edge().schemes[0]) == Lower(Call().uri.scheme);
    assert !IsLoop(Edge(), Call(), CookieFor(Edge(), FromRequest(Call())));
  }

  /** Copies build for a contact that reads, and not for one that does not. */
  lemma ContactsBuild(stamp: Stamp, q: u16)
    requires stamp.tokens.None?
    ensures Builds(stamp, Contact(q)) && !Builds(stamp, Garbled(q))
  {
  }

  /** What makes a proxy and a request a scene. */
  ghost predicate Stage(cfg: Config, r: Request) {
    && Validate(r, cfg).Ok? && Validate(r, cfg).value.maxBreadth >= 2 && Preprocessed(r, cfg) == (r, None) && r.verb.Invite?
    && !IsInDialog(r) && !RouteSetSurvived(r) && r.vias != [] && IdealMac(cfg, Validate(r, cfg).value.cookieInput, 2)
  }

  lemma StageIsScene(cfg: Config, r: Request)
    requires Stage(cfg, r)
    ensures var pipe := Proxy.PipelineOf(cfg);
      && Scene(pipe, r) && pipe.validate(r).value.maxBreadth >= 2 && Kept(pipe, r) == r
      && BranchAt(pipe, r, 0) != BranchAt(pipe, r, 1)
    ensures forall q :: Builds(SceneStamp(Proxy.PipelineOf(cfg), r), Contact(q)) && !Builds(SceneStamp(Proxy.PipelineOf(cfg), r), Garbled(q))
  {
    forall q ensures Builds(SceneStamp(Proxy.PipelineOf(cfg), r), Contact(q)) && !Builds(SceneStamp(Proxy.PipelineOf(cfg), r), Garbled(q)) {
      ContactsBuild(SceneStamp(Proxy.PipelineOf(cfg), r), q);
    }
    Proxy.PipelineIsLawful(cfg);
    BranchesDistinct(cfg, Validate(r, cfg).value.cookieInput, 2, 0, 1);
  }

  /** And there is one: this INVITE at this proxy. */
  lemma CallIsStage()
    ensures Stage(Edge(), Call())
  {
    CallPasses();
    IndicesTellApart(Validate(Call(), Edge()).value.cookieInput);
  }
}
