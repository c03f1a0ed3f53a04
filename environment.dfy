/** How the client picks its endpoint: a page served from a local host name
    talks to the replica that serves it and must fetch the replica's root key
    before any call; any other page talks to the production boundary node and
    trusts the built-in root key. */
module Environment {
  import opened Common
  import L = Ledger

  /** The parts of `window.location` the client reads. */
  datatype Location = Location(protocol: string, hostname: string, port: string)

  /** `location.host`: the host name, with the port when there is one. */
  function Host(loc: Location): string {
    if loc.port == "" then loc.hostname else loc.hostname + ":" + loc.port
  }

  predicate EndsWith(s: string, suffix: string) {
    |suffix| <= |s| && s[|s| - |suffix|..] == suffix
  }

  const LocalSuffix: string := ".localhost"

  /** `isLocalHost`. */
  predicate IsLocalHost(hostname: string) {
    hostname == "localhost" || hostname == "127.0.0.1" || EndsWith(hostname, LocalSuffix)
  }

  const ProductionHost: string := "https://icp0.io"

  /** The agent host `makeAgent` chooses. */
  function AgentHost(loc: Location): (h: string)
    ensures IsLocalHost(loc.hostname) ==> h == loc.protocol + "//" + Host(loc)
    ensures !IsLocalHost(loc.hostname) ==> h == ProductionHost
  {
    if IsLocalHost(loc.hostname) then loc.protocol + "//" + Host(loc) else ProductionHost
  }

  /** An `HttpAgent` as far as this model needs it: where it sends calls, which
      principal signs them, whether its endpoint needs the root key fetched and
      whether that fetch has completed. */
  datatype Agent = Agent(host: string, principal: L.Principal, needsRootKey: bool, rootKeyFetched: bool)

  /** An agent may issue calls: no root key is pending. */
  predicate Ready(a: Agent) {
    a.needsRootKey ==> a.rootKeyFetched
  }

  /** The principal that signs for an identity; no identity means anonymous. */
  function PrincipalOf(identity: Option<L.Principal>): (p: L.Principal)
    ensures identity.Some? ==> p == identity.value
    ensures identity.None? ==> p == L.Anonymous
  {
    match identity
    case None => L.Anonymous
    case Some(p) => p
  }

  /** `makeAgent(identity)`.  `rootKeyOk` is how the network answers
      `fetchRootKey`; `None` is makeAgent rejecting because that fetch failed. */
  function MakeAgent(identity: Option<L.Principal>, loc: Location, rootKeyOk: bool): (r: Option<Agent>)
    ensures r.Some? <==> (!IsLocalHost(loc.hostname) || rootKeyOk)
    ensures r.Some? ==> Ready(r.value)
    ensures r.Some? ==> r.value.host == AgentHost(loc)
    ensures r.Some? ==> r.value.needsRootKey == IsLocalHost(loc.hostname)
    ensures r.Some? ==> r.value.rootKeyFetched == IsLocalHost(loc.hostname)
    ensures r.Some? ==> r.value.principal == PrincipalOf(identity)
  {
    var local := IsLocalHost(loc.hostname);
    var agent := Agent(AgentHost(loc), PrincipalOf(identity), local, false);
    if local then
      if rootKeyOk then Some(agent.(rootKeyFetched := true)) else None
    else Some(agent)
  }

  /* -------------------- Lemmas -------------------- */

  /** A host name is local exactly when it is `localhost`, `127.0.0.1` or a
      sub-domain of `localhost`. */
  lemma LocalHostIff(h: string)
    ensures IsLocalHost(h) <==>
      h == "localhost" || h == "127.0.0.1" || exists name :: h == name + LocalSuffix
  {
    if EndsWith(h, LocalSuffix) {
      var name := h[..|h| - |LocalSuffix|];
      assert h == name + LocalSuffix;
    }
    if exists name :: h == name + LocalSuffix {
      var name :| h == name + LocalSuffix;
      assert h[|h| - |LocalSuffix|..] == LocalSuffix;
    }
  }

  /** Names that only contain `localhost` are not local. */
  lemma NotLocal()
    ensures !IsLocalHost("localhost.example.com")
    ensures !IsLocalHost("mylocalhost")
    ensures !IsLocalHost("icp0.io")
  {
    assert "localhost.example.com"[11..] != LocalSuffix by {
      assert "localhost.example.com"[11] != LocalSuffix[0];
    }
    assert "mylocalhost"[1..] != LocalSuffix by {
      assert "mylocalhost"[1] != LocalSuffix[0];
    }
  }

  /** The root-key fetch is consulted only for local hosts: off localhost the
      agent does not depend on how the network would answer it. */
  lemma RootKeyOnlyForLocal(identity: Option<L.Principal>, loc: Location)
    requires !IsLocalHost(loc.hostname)
    ensures MakeAgent(identity, loc, true) == MakeAgent(identity, loc, false)
    ensures MakeAgent(identity, loc, false).Some?
    ensures !MakeAgent(identity, loc, false).value.needsRootKey
  {
  }
}
