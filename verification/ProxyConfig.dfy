/** What this proxy is, and what it will accept. */
module ProxyConfig {
  import opened Basics
  import opened Messages

  datatype EdgeIdentity = EdgeIdentity(host: string, port: Option<u16>)

  type Digest = d: seq<byte> | |d| == 32 witness seq(32, _ => 0 as byte)

  /**
   * `mac` is HMAC-SHA256 under the configured cookie key, left uninterpreted. `sentByHost` and
   * `sentByPort` are the host part of the configured `Record-Route`, which the `Via` repeats.
   */
  datatype Config = Config(
    identities: seq<EdgeIdentity>, recordRouteUri: seq<byte>, sentByHost: string, sentByPort: Option<u16>,
    supported: seq<string>, schemes: seq<string>, defaultMaxForwards: u8, defaultMaxBreadth: u32,
    timerC: nat, mac: seq<byte> -> Digest)

  const TIMER_C_FLOOR: nat := 180
  const DEFAULT_TIMER_C: nat := 240

  function EffectiveTimerC(cfg: Config): (after: nat)
    ensures after > TIMER_C_FLOOR
    ensures cfg.timerC > TIMER_C_FLOOR ==> after == cfg.timerC
  {
    if cfg.timerC > TIMER_C_FLOOR then cfg.timerC else DEFAULT_TIMER_C
  }

  /** A host as identities compare it: lower case, without one trailing dot. */
  function Canonical(host: string): string {
    var text := Lower(host);
    if text != "" && text[|text| - 1] == '.' then text[..|text| - 1] else text
  }

  predicate Matches(id: EdgeIdentity, uri: Uri) {
    uri.host.Some? && Canonical(uri.host.value) == id.host && (id.port.None? || uri.port == id.port)
  }

  predicate IsOurs(cfg: Config, uri: Uri) {
    exists i :: 0 <= i < |cfg.identities| && Matches(cfg.identities[i], uri)
  }

  /** A `Via` matches a port-specific identity also when it states no port. */
  predicate MatchesSentBy(id: EdgeIdentity, host: string, port: Option<u16>) {
    id.host == Canonical(host) && (id.port.None? || port.None? || port == id.port)
  }

  predicate IsOurSentBy(cfg: Config, host: string, port: Option<u16>) {
    exists i :: 0 <= i < |cfg.identities| && MatchesSentBy(cfg.identities[i], host, port)
  }

  predicate IsOurVia(cfg: Config, via: ViaLine) {
    via.Via? && IsOurSentBy(cfg, via.host, via.port)
  }

  predicate Supports(cfg: Config, tag: string) {
    exists i :: 0 <= i < |cfg.supported| && Lower(cfg.supported[i]) == Lower(tag)
  }

  predicate UnderstandsScheme(cfg: Config, uri: Uri) {
    exists i :: 0 <= i < |cfg.schemes| && Lower(cfg.schemes[i]) == Lower(uri.scheme)
  }
}
