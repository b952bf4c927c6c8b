/** Registered redirects and the loopback port rule of section 7.3 of RFC 8252. */
module Redirects {
  import opened Prelude

  datatype RedirectKind = Exact | NativeLoopback | AppClaimedHttps

  datatype RegisteredRedirect = RegisteredRedirect(uri: string, kind: RedirectKind)

  /** The host literal of a loopback URI and everything after its authority. */
  datatype LoopbackParts = LoopbackParts(host: string, suffix: string)

  const SCHEME := "http://"
  const IPV6_LOOPBACK := "[::1]"
  const IPV4_LOOPBACK := "127.0.0.1"

  predicate IsDelimiter(c: char) {
    c == '/' || c == '?' || c == '#'
  }

  /** Index of the first delimiter, or the length. */
  function AuthorityEnd(s: string): (n: nat)
    ensures n <= |s|
  {
    if s == [] || IsDelimiter(s[0]) then 0 else 1 + AuthorityEnd(s[1..])
  }

  /** What may follow the host inside a loopback authority: nothing, or a port of 1 to 65535. */
  predicate IsPortText(text: string) {
    text == []
    || (|text| > 1
        && text[0] == ':'
        && AllDigits(text[1..])
        && 0 < Decimal(text[1..]) < 0x1_0000)
  }

  function SplitLoopback(raw: string): Option<LoopbackParts> {
    if !(SCHEME <= raw) then None
    else
      var rest := raw[|SCHEME|..];
      var authority := rest[..AuthorityEnd(rest)];
      var suffix := rest[AuthorityEnd(rest)..];
      if suffix != [] && suffix[0] == '#' then None
      else if IPV6_LOOPBACK <= authority then
        if IsPortText(authority[|IPV6_LOOPBACK|..]) then Some(LoopbackParts(IPV6_LOOPBACK, suffix)) else None
      else if IPV4_LOOPBACK <= authority then
        if IsPortText(authority[|IPV4_LOOPBACK|..]) then Some(LoopbackParts(IPV4_LOOPBACK, suffix)) else None
      else None
  }

  /** `safe` is the verdict of the URL parser on `actual`. */
  predicate RedirectMatches(registered: RegisteredRedirect, actual: string, safe: bool) {
    safe
    && (registered.uri == actual
        || (registered.kind == NativeLoopback
            && SplitLoopback(registered.uri).Some?
            && SplitLoopback(registered.uri) == SplitLoopback(actual)))
  }

  // ---- what the splitting means ----

  predicate IsSuffix(suffix: string) {
    suffix == [] || suffix[0] == '/' || suffix[0] == '?'
  }

  predicate IsLoopbackHost(host: string) {
    host == IPV6_LOOPBACK || host == IPV4_LOOPBACK
  }

  function LoopbackUri(parts: LoopbackParts, port: string): string {
    SCHEME + (parts.host + port + parts.suffix)
  }

  lemma {:induction false} AuthorityStopsAtSuffix(authority: string, suffix: string)
    requires forall i :: 0 <= i < |authority| ==> !IsDelimiter(authority[i])
    requires suffix == [] || IsDelimiter(suffix[0])
    ensures AuthorityEnd(authority + suffix) == |authority|
  {
    if authority == [] {
      assert authority + suffix == suffix;
    } else {
      AuthorityStopsAtSuffix(authority[1..], suffix);
      assert (authority + suffix)[1..] == authority[1..] + suffix;
    }
  }

  lemma {:induction false} AuthorityHasNoDelimiter(s: string)
    ensures forall i :: 0 <= i < AuthorityEnd(s) ==> !IsDelimiter(s[i])
    ensures AuthorityEnd(s) < |s| ==> IsDelimiter(s[AuthorityEnd(s)])
  {
    if s != [] && !IsDelimiter(s[0]) {
      AuthorityHasNoDelimiter(s[1..]);
      forall i | 0 <= i < AuthorityEnd(s) ensures !IsDelimiter(s[i]) {
        if i > 0 { assert s[i] == s[1..][i - 1]; }
      }
    }
  }

  lemma PortTextHasNoDelimiter(port: string)
    requires IsPortText(port)
    ensures forall i :: 0 <= i < |port| ==> !IsDelimiter(port[i])
  {
    forall i | 0 <= i < |port| ensures !IsDelimiter(port[i]) {
      if i > 0 { assert port[i] == port[1..][i - 1]; }
    }
  }

  /** Splitting a URI built from loopback parts recovers them, whatever the port. */
  lemma SplitOfLoopbackUri(parts: LoopbackParts, port: string)
    requires IsLoopbackHost(parts.host) && IsSuffix(parts.suffix) && IsPortText(port)
    ensures SplitLoopback(LoopbackUri(parts, port)) == Some(parts)
  {
    var raw := LoopbackUri(parts, port);
    var authority := parts.host + port;
    PortTextHasNoDelimiter(port);
    assert forall i :: 0 <= i < |parts.host| ==> !IsDelimiter(parts.host[i]);
    AuthorityStopsAtSuffix(authority, parts.suffix);
    var rest := raw[|SCHEME|..];
    assert rest == authority + parts.suffix;
    assert rest[..|authority|] == authority;
    assert rest[|authority|..] == parts.suffix;
    assert authority[|parts.host|..] == port;
    assert parts.host <= authority;
    assert parts.host == IPV4_LOOPBACK ==> authority[0] == '1';
  }

  /** Whatever splits was built from its parts and some port. */
  lemma SplitUriIsBuilt(raw: string, parts: LoopbackParts) returns (port: string)
    requires SplitLoopback(raw) == Some(parts)
    ensures IsLoopbackHost(parts.host) && IsSuffix(parts.suffix) && IsPortText(port) && raw == LoopbackUri(parts, port)
  {
    hide IsPortText, AuthorityEnd;
    var rest := raw[|SCHEME|..];
    AuthorityHasNoDelimiter(rest);
    var authority := rest[..AuthorityEnd(rest)];
    port := authority[|parts.host|..];
    assert authority == parts.host + port;
    assert rest == authority + parts.suffix;
    assert raw == SCHEME + rest;
  }

  /** A URI splits exactly when it is `http://`, a loopback literal, an optional port and a suffix. */
  lemma SplitIffLoopbackUri(raw: string, parts: LoopbackParts)
    ensures SplitLoopback(raw) == Some(parts) <==>
            IsLoopbackHost(parts.host) && IsSuffix(parts.suffix)
            && exists port :: IsPortText(port) && raw == LoopbackUri(parts, port)
  {
    hide SplitLoopback, IsPortText, LoopbackUri, IsLoopbackHost, IsSuffix;
    if SplitLoopback(raw) == Some(parts) {
      var port := SplitUriIsBuilt(raw, parts);
    }
    if IsLoopbackHost(parts.host) && IsSuffix(parts.suffix)
       && exists port :: IsPortText(port) && raw == LoopbackUri(parts, port) {
      var port :| IsPortText(port) && raw == LoopbackUri(parts, port);
      SplitOfLoopbackUri(parts, port);
    }
  }

  /** A port is a colon and a decimal number from 1 to 65535, or missing altogether. */
  lemma PortsAreExact(text: string)
    ensures IsPortText(text) <==>
            text == "" || (text[0] == ':' && |text| >= 2 && AllDigits(text[1..]) && 1 <= Decimal(text[1..]) <= 65_535)
  {
  }

  predicate LoopbackPair(a: string, b: string, parts: LoopbackParts, p: string, q: string) {
    IsLoopbackHost(parts.host) && IsSuffix(parts.suffix) && IsPortText(p) && IsPortText(q)
    && a == LoopbackUri(parts, p) && b == LoopbackUri(parts, q)
  }

  /** Two loopback URIs with the same host literal and suffix. */
  ghost predicate DifferAtMostInPort(a: string, b: string) {
    exists parts: LoopbackParts, p: string, q: string :: LoopbackPair(a, b, parts, p, q)
  }

  /** Apart from byte equality, a redirect is accepted exactly when it differs from a native
      loopback registration in nothing but the port. */
  lemma OnlyTheLoopbackPortMayVary(registered: RegisteredRedirect, actual: string, safe: bool)
    ensures RedirectMatches(registered, actual, safe) <==>
            safe
            && (actual == registered.uri
                || (registered.kind == NativeLoopback && DifferAtMostInPort(registered.uri, actual)))
  {
    if SplitLoopback(registered.uri).Some? && SplitLoopback(registered.uri) == SplitLoopback(actual) {
      var parts := SplitLoopback(registered.uri).value;
      SplitIffLoopbackUri(registered.uri, parts);
      SplitIffLoopbackUri(actual, parts);
      var p :| IsPortText(p) && registered.uri == LoopbackUri(parts, p);
      var q :| IsPortText(q) && actual == LoopbackUri(parts, q);
      assert LoopbackPair(registered.uri, actual, parts, p, q);
    }
    if DifferAtMostInPort(registered.uri, actual) {
      var parts: LoopbackParts, p: string, q: string :| LoopbackPair(registered.uri, actual, parts, p, q);
      SplitOfLoopbackUri(parts, p);
      SplitOfLoopbackUri(parts, q);
    }
  }
}
