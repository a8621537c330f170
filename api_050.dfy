/**
  plugins/api_050.py: the user-facing API endpoint server. `initSequences` refuses an
  API host that any other host setting also names, and `createmanifest` writes one
  reverse-proxy vhost per installed service plus a firewall rule for their ports.
*/
module ApiPlugin {
  import opened Text
  import opened Results
  import opened Config
  import opened OrderedSet
  import opened Manifests
  import opened PluginUtils

  // ---------------------------------------------------------------------------
  // initSequences: the host-conflict scan and the registration

  /** `[host.strip() for host in v.split(',')]` */
  function StrippedPieces(v: string): seq<string> {
    var pieces := Split(v, ',');
    seq(|pieces|, i requires 0 <= i < |pieces| => Strip(pieces[i]))
  }

  /** The entry `k = v` names the API host: `k` is another key that mentions `_HOST`
      (so `_HOSTS` keys too), and one stripped piece of `v` is exactly the API host. */
  predicate Conflicts(k: string, v: string, apiHost: string) {
    k != "CONFIG_API_HOST" && IsInfix("_HOST", k) && apiHost in StrippedPieces(v)
  }

  /** The key of the first conflicting entry in `items()` order, if any. */
  function FirstConflict(conf: Conf, apiHost: string): Option<string>
    decreases |conf|
  {
    if |conf| == 0 then None
    else if Conflicts(conf[0].0, conf[0].1, apiHost) then Some(conf[0].0)
    else FirstConflict(conf[1..], apiHost)
  }

  /** `FirstConflict` reports the earliest conflicting entry, and reports nothing
      exactly when no entry conflicts. */
  lemma {:induction false} FirstConflictAt(conf: Conf, apiHost: string) returns (i: nat)
    ensures i <= |conf|
    ensures forall j :: 0 <= j < i ==> !Conflicts(conf[j].0, conf[j].1, apiHost)
    ensures i < |conf| ==> Conflicts(conf[i].0, conf[i].1, apiHost) && FirstConflict(conf, apiHost) == Some(conf[i].0)
    ensures i == |conf| <==> FirstConflict(conf, apiHost) == None
    decreases |conf|
  {
    if |conf| == 0 {
      i := 0;
    } else if Conflicts(conf[0].0, conf[0].1, apiHost) {
      i := 0;
    } else {
      var k := FirstConflictAt(conf[1..], apiHost);
      i := k + 1;
      forall j | 0 <= j < i ensures !Conflicts(conf[j].0, conf[j].1, apiHost) {
        if j > 0 {
          assert conf[j] == conf[1..][j - 1];
        }
      }
    }
  }

  /** The scan over `CONF.items()` of lines 60-65: the key to complain about, if any. */
  method FindConflict(conf: Conf, apiHost: string) returns (r: Option<string>)
    ensures r == FirstConflict(conf, apiHost)
  {
    var i := 0;
    while i < |conf|
      invariant 0 <= i <= |conf|
      invariant FirstConflict(conf, apiHost) == FirstConflict(conf[i..], apiHost)
    {
      var k, v := conf[i].0, conf[i].1;
      assert conf[i..][1..] == conf[i + 1..];
      if k == "CONFIG_API_HOST" {
        i := i + 1;
        continue;
      }
      if !IsInfix("_HOST", k) {
        i := i + 1;
        continue;
      }
      if apiHost in StrippedPieces(v) {
        return Some(k);
      }
      i := i + 1;
    }
    return None;
  }

  function ConflictMessage(k: string): string {
    k + " contains the API server host, they must be different"
  }

  /** The one sequence the plugin registers. */
  function ApiSequence(): Sequence {
    Sequence("Installing OpenStack API", [], [],
             [Step("Creating OS API endpoint server Manifests", [ApiCreateManifest])])
  }

  /** What `initSequences` registers for a given `CONF`, or what it raises. */
  function ApiSequences(conf: Conf): Result<seq<Sequence>> {
    var install :- Lookup(conf, "CONFIG_API_INSTALL");
    if install != "y" then Ok([])
    else
      var apiHost :- Lookup(conf, "CONFIG_API_HOST");
      match FirstConflict(conf, apiHost)
      case Some(k) => Err(PackStackError(ConflictMessage(k)))
      case None => Ok([ApiSequence()])
  }

  /** `initSequences(controller)` */
  method InitSequences(c: Controller) returns (r: Result<()>)
    modifies c`sequences
    ensures ApiSequences(c.conf).Ok? ==> r.Ok? && c.sequences == old(c.sequences) + ApiSequences(c.conf).value
    ensures ApiSequences(c.conf).Err? ==> r == Err(ApiSequences(c.conf).error) && c.sequences == old(c.sequences)
  {
    var install :- Lookup(c.conf, "CONFIG_API_INSTALL");
    if install != "y" {
      return Ok(());
    }
    var apiHost :- Lookup(c.conf, "CONFIG_API_HOST");
    var conflict := FindConflict(c.conf, apiHost);
    if conflict.Some? {
      return Err(PackStackError(ConflictMessage(conflict.value)));
    }
    c.AddSequence("Installing OpenStack API", [], [],
                  [Step("Creating OS API endpoint server Manifests", [ApiCreateManifest])]);
    r := Ok(());
  }

  /** Without the API server nothing is registered and nothing is raised. */
  lemma {:induction false} ApiNotInstalled(conf: Conf)
    requires HasKey(conf, "CONFIG_API_INSTALL") && Get(conf, "CONFIG_API_INSTALL") != Some("y")
    ensures ApiSequences(conf) == Ok([])
  {
  }

  /** With the API server, `initSequences` raises `PackStackError` naming the first
      key that names the API host, and otherwise registers exactly the one sequence. */
  lemma {:induction false} ApiHostConflict(conf: Conf, apiHost: string)
    requires Get(conf, "CONFIG_API_INSTALL") == Some("y") && Get(conf, "CONFIG_API_HOST") == Some(apiHost)
    ensures (exists i :: 0 <= i < |conf| && Conflicts(conf[i].0, conf[i].1, apiHost)) <==>
      ApiSequences(conf).Err?
    ensures ApiSequences(conf).Err? ==>
      (exists i :: 0 <= i < |conf| &&
        Conflicts(conf[i].0, conf[i].1, apiHost) &&
        ApiSequences(conf).error == PackStackError(ConflictMessage(conf[i].0)) &&
        forall j :: 0 <= j < i ==> !Conflicts(conf[j].0, conf[j].1, apiHost))
    ensures ApiSequences(conf).Ok? ==> ApiSequences(conf).value == [ApiSequence()]
  {
    var i := FirstConflictAt(conf, apiHost);
    if i < |conf| {
      assert Conflicts(conf[i].0, conf[i].1, apiHost);
    } else {
      assert ApiSequences(conf) == Ok([ApiSequence()]);
    }
  }

  /** The API host's own key never conflicts, and a key without `_HOST` in it never
      does, whatever its value. */
  lemma {:induction false} OnlyOtherHostKeysConflict(k: string, v: string, apiHost: string)
    requires k == "CONFIG_API_HOST" || !IsInfix("_HOST", k)
    ensures !Conflicts(k, v, apiHost)
  {
  }

  // ---------------------------------------------------------------------------
  // createmanifest: the proxy vhosts and the firewall rule

  /** One `apache::vhost::proxy` resource forwarding `port` to the same port on `host`. */
  datatype Proxy = Proxy(name: string, port: string, host: string)

  function ProxyLine(p: Proxy): string {
    "\napache::vhost::proxy{'" + p.name + "': port => '" + p.port + "', dest => \"http://" +
    p.host + ":" + p.port + "\", }"
  }

  function ProxyLines(ps: seq<Proxy>): string
    decreases |ps|
  {
    if |ps| == 0 then "" else ProxyLines(ps[..|ps| - 1]) + ProxyLine(ps[|ps| - 1])
  }

  /** The `ports` list: the port of each proxy, in order. */
  function Ports(ps: seq<Proxy>): seq<string>
    decreases |ps|
  {
    if |ps| == 0 then [] else Ports(ps[..|ps| - 1]) + [ps[|ps| - 1].port]
  }

  /** `"'%s'" % port` for each port. */
  function Quoted(ports: seq<string>): seq<string> {
    seq(|ports|, i requires 0 <= i < |ports| => "'" + ports[i] + "'")
  }

  function FirewallLine(ports: seq<string>): string {
    "\nfirewall { '001 endpoints incomming': proto    => 'tcp', dport    => [" +
    Join(Quoted(ports), ',') + "], action   => 'accept', }"
  }

  /** An optional service: its install flag, the key of its host, and the
      `(name, port)` of each proxy it gets. */
  datatype ServiceProxies = ServiceProxies(flag: string, hostKey: string, names: seq<(string, string)>)

  /** The configuration keys of the optional services. */
  const GlanceInstall := "CONFIG_GLANCE_INSTALL"
  const GlanceHost := "CONFIG_GLANCE_HOST"
  const NovaInstall := "CONFIG_NOVA_INSTALL"
  const NovaApiHost := "CONFIG_NOVA_API_HOST"
  const CinderInstall := "CONFIG_CINDER_INSTALL"
  const CinderHost := "CONFIG_CINDER_HOST"
  const SwiftInstall := "CONFIG_SWIFT_INSTALL"
  const SwiftProxy := "CONFIG_SWIFT_PROXY"
  const HorizonInstall := "CONFIG_HORIZON_INSTALL"
  const HorizonHost := "CONFIG_HORIZON_HOST"

  /** The optional services in the order `createmanifest` tests them. */
  const Services: seq<ServiceProxies> := [
    ServiceProxies(GlanceInstall, GlanceHost, [("glance", "9292")]),
    ServiceProxies(NovaInstall, NovaApiHost, [("nova-api", "8774"), ("nova-ec2", "8773")]),
    ServiceProxies(CinderInstall, CinderHost, [("cinder", "8776")]),
    ServiceProxies(SwiftInstall, SwiftProxy, [("swift", "8080")]),
    ServiceProxies(HorizonInstall, HorizonHost, [("horizon", "80")])
  ]

  /** The proxies of one optional service: none unless its install flag is "y", in
      which case one per `(name, port)` pair, all to the host under its host key. */
  function Service(conf: Conf, s: ServiceProxies): Result<seq<Proxy>> {
    var install :- Lookup(conf, s.flag);
    if install != "y" then Ok([])
    else
      var host :- Lookup(conf, s.hostKey);
      Ok(NamedProxies(s.names, host))
  }

  /** One proxy per `(name, port)` pair, all to `host`. */
  function NamedProxies(names: seq<(string, string)>, host: string): seq<Proxy>
    decreases |names|
  {
    if |names| == 0 then [] else [Proxy(names[0].0, names[0].1, host)] + NamedProxies(names[1..], host)
  }

  /** `ps` followed by the proxies of the services `ss`, in order. */
  function ProxiesFrom(conf: Conf, ps: seq<Proxy>, ss: seq<ServiceProxies>): Result<seq<Proxy>>
    decreases |ss|
  {
    if |ss| == 0 then Ok(ps)
    else
      var more :- Service(conf, ss[0]);
      ProxiesFrom(conf, ps + more, ss[1..])
  }

  /** Every proxy of `createmanifest`, keystone first, in the order of the source. */
  function ApiProxies(conf: Conf): Result<seq<Proxy>> {
    var keystone :- Lookup(conf, "CONFIG_KEYSTONE_HOST");
    ProxiesFrom(conf, [Proxy("keystone", "5000", keystone)], Services)
  }

  /** The running state of `createmanifest`: the `ports` list and `manifestdata`. */
  datatype Draft = Draft(ports: seq<string>, text: string)

  /** `ports.append(port)` together with `manifestdata += <proxy line>`. */
  function AddProxy(d: Draft, p: Proxy): Draft {
    Draft(d.ports + [p.port], d.text + ProxyLine(p))
  }

  /** `AddProxy` for each `(name, port)` pair of a service, all to `host`. */
  function AddNamed(d: Draft, names: seq<(string, string)>, host: string): Draft
    decreases |names|
  {
    if |names| == 0 then d else AddNamed(AddProxy(d, Proxy(names[0].0, names[0].1, host)), names[1..], host)
  }

  /** The draft after the services `ss`, or the `KeyError` of the first
      missing install flag or host of an installed service. */
  function DraftFrom(conf: Conf, d: Draft, ss: seq<ServiceProxies>): Result<Draft>
    decreases |ss|
  {
    if |ss| == 0 then Ok(d)
    else
      var d' :- ServiceDraft(conf, ss[0], d);
      DraftFrom(conf, d', ss[1..])
  }

  /** One optional-service block: nothing unless the install flag is "y", and then
      one `AddProxy` per `(name, port)` pair to the service's host. */
  function ServiceDraft(conf: Conf, s: ServiceProxies, d: Draft): Result<Draft> {
    var install :- Lookup(conf, s.flag);
    if install != "y" then Ok(d)
    else
      var host :- Lookup(conf, s.hostKey);
      Ok(AddNamed(d, s.names, host))
  }

  /** The draft of `createmanifest` once every service has been considered. */
  function ApiDraft(conf: Conf, render: (string, Conf) -> string): Result<Draft> {
    var keystone :- Lookup(conf, "CONFIG_KEYSTONE_HOST");
    DraftFrom(conf, AddProxy(Draft([], render("api.pp", conf)), Proxy("keystone", "5000", keystone)), Services)
  }

  /** The file name and the text `createmanifest` appends, or what it raises. */
  function ApiManifest(conf: Conf, render: (string, Conf) -> string): Result<(string, string)> {
    var apiHost :- Lookup(conf, "CONFIG_API_HOST");
    Finish(apiHost + "_api.pp", ApiDraft(conf, render))
  }

  /** The finished draft: its text followed by the firewall rule over its ports. */
  function Finish(name: string, d: Result<Draft>): Result<(string, string)> {
    match d
    case Ok(d) => Ok((name, d.text + FirewallLine(d.ports)))
    case Err(e) => Err(e)
  }

  /** `createmanifest()`: compose the text, then append it to `<CONFIG_API_HOST>_api.pp`. */
  method CreateManifest(c: Controller) returns (r: Result<()>)
    requires c.Valid()
    modifies c`manifestFiles, c`files
    ensures c.Valid()
    ensures ApiManifest(c.conf, c.render).Ok? ==>
      (r.Ok? &&
       c.Arts() == Append(old(c.Arts()), PathJoin(c.manifestDir, ApiManifest(c.conf, c.render).value.0),
                          ApiManifest(c.conf, c.render).value.1))
    ensures ApiManifest(c.conf, c.render).Err? ==>
      r == Err(ApiManifest(c.conf, c.render).error) && c.Arts() == old(c.Arts())
  {
    var manifest :- ComposeManifest(c.conf, c.render);
    c.AppendManifestFile(manifest.0, manifest.1);
    r := Ok(());
  }

  /** Lines 73-96 of `createmanifest`: the file name, the `ports` list built by
      `append` and the manifest text built by `+=`. */
  method ComposeManifest(conf: Conf, render: (string, Conf) -> string) returns (r: Result<(string, string)>)
    ensures r == ApiManifest(conf, render)
  {
    var apiHost :- Lookup(conf, "CONFIG_API_HOST");
    var manifestfile := apiHost + "_api.pp";
    var manifestdata := render("api.pp", conf);

    var ports := ["5000"];
    var keystone :- Lookup(conf, "CONFIG_KEYSTONE_HOST");
    manifestdata := manifestdata + ProxyLine(Proxy("keystone", "5000", keystone));
    assert ApiDraft(conf, render) == DraftFrom(conf, Draft(ports, manifestdata), Services) by {
      assert [] + ["5000"] == ports;
    }

    var d :- AddServices(conf, Draft(ports, manifestdata));
    ports, manifestdata := d.ports, d.text;

    manifestdata := manifestdata + FirewallLine(ports);
    r := Ok((manifestfile, manifestdata));
  }

  /** Lines 78-94 of `createmanifest`: the five optional-service blocks, in order. */
  method AddServices(conf: Conf, d0: Draft) returns (r: Result<Draft>)
    ensures r == DraftFrom(conf, d0, Services)
  {
    var d1 :- AddService(conf, Services[0], d0);
    assert DraftFrom(conf, d0, Services) == DraftFrom(conf, d1, Services[1..]);
    var d2 :- AddService(conf, Services[1], d1);
    assert Services[1..][1..] == Services[2..];
    assert DraftFrom(conf, d0, Services) == DraftFrom(conf, d2, Services[2..]);
    var d3 :- AddService(conf, Services[2], d2);
    assert Services[2..][1..] == Services[3..];
    assert DraftFrom(conf, d0, Services) == DraftFrom(conf, d3, Services[3..]);
    var d4 :- AddService(conf, Services[3], d3);
    assert Services[3..][1..] == Services[4..];
    assert DraftFrom(conf, d0, Services) == DraftFrom(conf, d4, Services[4..]);
    var d5 :- AddService(conf, Services[4], d4);
    assert Services[4..][1..] == [];
    r := Ok(d5);
  }

  /** One of the optional-service blocks of lines 78-94: when `CONF[flag] == 'y'`,
      `ports.append(port)` and `manifestdata += <proxy line>` for each of the service's
      proxies, all to `CONF[hostKey]`. */
  method AddService(conf: Conf, s: ServiceProxies, d: Draft) returns (r: Result<Draft>)
    ensures r == ServiceDraft(conf, s, d)
  {
    var ports, manifestdata := d.ports, d.text;
    var install :- Lookup(conf, s.flag);
    if install == "y" {
      var host :- Lookup(conf, s.hostKey);
      for i := 0 to |s.names|
        invariant AddNamed(d, s.names, host) == AddNamed(Draft(ports, manifestdata), s.names[i..], host)
      {
        assert s.names[i..][1..] == s.names[i + 1..];
        ports := ports + [s.names[i].1];
        manifestdata := manifestdata + ProxyLine(Proxy(s.names[i].0, s.names[i].1, host));
      }
    }
    r := Ok(Draft(ports, manifestdata));
  }

  // ---------------------------------------------------------------------------
  // What the composed manifest means

  /** One more proxy adds its line and its port at the end. */
  lemma {:induction false} ProxySnoc(ps: seq<Proxy>, p: Proxy)
    ensures ProxyLines(ps + [p]) == ProxyLines(ps) + ProxyLine(p)
    ensures Ports(ps + [p]) == Ports(ps) + [p.port]
  {
    assert (ps + [p])[..|ps|] == ps;
  }

  /** `ProxyLines` and `Ports` distribute over concatenation. */
  lemma {:induction false} ProxyLinesConcat(a: seq<Proxy>, b: seq<Proxy>)
    ensures ProxyLines(a + b) == ProxyLines(a) + ProxyLines(b)
    ensures Ports(a + b) == Ports(a) + Ports(b)
    decreases |b|
  {
    if |b| > 0 {
      var n := |b| - 1;
      assert a + b == (a + b[..n]) + [b[n]];
      assert b == b[..n] + [b[n]];
      ProxyLinesConcat(a, b[..n]);
      ProxySnoc(a + b[..n], b[n]);
      ProxySnoc(b[..n], b[n]);
      ConcatAssoc(ProxyLines(a), ProxyLines(b[..n]), ProxyLine(b[n]));
      ConcatAssoc(Ports(a), Ports(b[..n]), [b[n].port]);
    } else {
      assert a + b == a;
    }
  }

  /** The draft records exactly the ports and proxy lines of the proxies so far. */
  function DraftOf(base: string, ps: seq<Proxy>): Draft {
    Draft(Ports(ps), base + ProxyLines(ps))
  }

  /** Adding a service's proxies to a draft is drafting the longer list. */
  lemma {:induction false} AddNamedDrafts(base: string, ps: seq<Proxy>, names: seq<(string, string)>, host: string)
    ensures AddNamed(DraftOf(base, ps), names, host) == DraftOf(base, ps + NamedProxies(names, host))
    decreases |names|
  {
    if |names| == 0 {
      assert ps + [] == ps;
    } else {
      var p := Proxy(names[0].0, names[0].1, host);
      assert AddProxy(DraftOf(base, ps), p) == DraftOf(base, ps + [p]) by {
        ProxySnoc(ps, p);
        ConcatAssoc(base, ProxyLines(ps), ProxyLine(p));
      }
      AddNamedDrafts(base, ps + [p], names[1..], host);
      var rest := NamedProxies(names[1..], host);
      assert NamedProxies(names, host) == [p] + rest;
      ConcatAssoc(ps, [p], rest);
    }
  }

  /** The draft of the services from the `n`-th on is the draft of their proxies, and
      both fail with the same error. */
  lemma {:induction false} DraftFromProxies(conf: Conf, base: string, ps: seq<Proxy>, ss: seq<ServiceProxies>)
    ensures DraftFrom(conf, DraftOf(base, ps), ss).Ok? <==> ProxiesFrom(conf, ps, ss).Ok?
    ensures ProxiesFrom(conf, ps, ss).Ok? ==>
      DraftFrom(conf, DraftOf(base, ps), ss).value == DraftOf(base, ProxiesFrom(conf, ps, ss).value)
    ensures ProxiesFrom(conf, ps, ss).Err? ==>
      DraftFrom(conf, DraftOf(base, ps), ss).error == ProxiesFrom(conf, ps, ss).error
    decreases |ss|
  {
    if |ss| > 0 {
      var s := ss[0];
      if Lookup(conf, s.flag).Ok? {
        if Lookup(conf, s.flag).value != "y" {
          assert ps + [] == ps;
          DraftFromProxies(conf, base, ps, ss[1..]);
        } else if Lookup(conf, s.hostKey).Ok? {
          var host := Lookup(conf, s.hostKey).value;
          AddNamedDrafts(base, ps, s.names, host);
          DraftFromProxies(conf, base, ps + NamedProxies(s.names, host), ss[1..]);
        }
      }
    }
  }

  /** `createmanifest` writes `<CONFIG_API_HOST>_api.pp`, and its text is the rendered
      template, one proxy line per proxy of `ApiProxies` in order, and the firewall
      rule over their ports; it fails exactly when a lookup on the way fails. */
  lemma {:induction false} ApiManifestMeaning(conf: Conf, render: (string, Conf) -> string)
    ensures ApiManifest(conf, render).Ok? <==> HasKey(conf, "CONFIG_API_HOST") && ApiProxies(conf).Ok?
    ensures ApiManifest(conf, render).Ok? ==>
      (ApiManifest(conf, render).value.0 == Get(conf, "CONFIG_API_HOST").value + "_api.pp" &&
       ApiManifest(conf, render).value.1 ==
         render("api.pp", conf) + ProxyLines(ApiProxies(conf).value) + FirewallLine(Ports(ApiProxies(conf).value)))
  {
    if Lookup(conf, "CONFIG_KEYSTONE_HOST").Ok? {
      var keystone := Lookup(conf, "CONFIG_KEYSTONE_HOST").value;
      var k := Proxy("keystone", "5000", keystone);
      var base := render("api.pp", conf);
      ProxySnoc([], k);
      assert [] + [k] == [k];
      assert ProxyLines([k]) == ProxyLine(k);
      assert AddProxy(Draft([], base), k) == DraftOf(base, [k]);
      DraftFromProxies(conf, base, [k], Services);
    }
  }

  /** The `ports` list has one entry per proxy line, the port of that proxy. */
  lemma {:induction false} PortsOfProxies(ps: seq<Proxy>)
    ensures |Ports(ps)| == |ps|
    ensures forall i :: 0 <= i < |ps| ==> Ports(ps)[i] == ps[i].port
    decreases |ps|
  {
    if |ps| > 0 {
      var n := |ps| - 1;
      PortsOfProxies(ps[..n]);
      assert forall i :: 0 <= i < n ==> ps[..n][i] == ps[i];
    }
  }

  /** Each proxy's line occurs in the text of its proxies. */
  lemma {:induction false} ProxyLineListed(ps: seq<Proxy>, i: nat)
    requires i < |ps|
    ensures IsInfix(ProxyLine(ps[i]), ProxyLines(ps))
  {
    var pre, post := ps[..i], ps[i + 1..];
    assert ps == (pre + [ps[i]]) + post;
    ProxyLinesConcat(pre + [ps[i]], post);
    ProxySnoc(pre, ps[i]);
    InfixOfConcat(ProxyLines(pre), ProxyLine(ps[i]), ProxyLines(post));
  }

  /** The manifest holds one `apache::vhost::proxy` line for every proxy of
      `ApiProxies`. */
  lemma {:induction false} ApiManifestHasProxies(conf: Conf, render: (string, Conf) -> string, i: nat)
    requires ApiManifest(conf, render).Ok?
    ensures ApiProxies(conf).Ok? && i < |ApiProxies(conf).value| ==>
      IsInfix(ProxyLine(ApiProxies(conf).value[i]), ApiManifest(conf, render).value.1)
  {
    ApiManifestMeaning(conf, render);
    var ps := ApiProxies(conf).value;
    if i < |ps| {
      var base, fw := render("api.pp", conf), FirewallLine(Ports(ps));
      ProxyLineListed(ps, i);
      InfixWithin(ProxyLine(ps[i]), ProxyLines(ps), base, fw);
    }
  }

  /** The firewall rule's `dport` list splits back, at its commas, into exactly the
      quoted ports in order, provided no port holds a comma. */
  lemma {:induction false} FirewallPorts(ports: seq<string>)
    requires |ports| >= 1
    requires forall i :: 0 <= i < |ports| ==> ',' !in ports[i]
    ensures Split(Join(Quoted(ports), ','), ',') == Quoted(ports)
  {
    forall i | 0 <= i < |ports| ensures ',' !in Quoted(ports)[i] {
      assert Quoted(ports)[i] == "'" + ports[i] + "'";
    }
    JoinSplit(Quoted(ports), ',');
  }

  /** `When(b, xs)`: `xs` if `b`, else nothing. */
  function When<T>(b: bool, xs: seq<T>): seq<T> {
    if b then xs else []
  }

  /** `CONF[key] == 'y'` */
  predicate Installed(conf: Conf, flag: string) {
    Get(conf, flag) == Some("y")
  }

  /** The host under `key`, where there is one. */
  function HostAt(conf: Conf, key: string): string {
    if HasKey(conf, key) then Get(conf, key).value else ""
  }

  /** The proxies of the installed services among `ss`, in order. */
  function Enabled(conf: Conf, ss: seq<ServiceProxies>): seq<Proxy>
    decreases |ss|
  {
    if |ss| == 0 then [] else Block(conf, ss[0]) + Enabled(conf, ss[1..])
  }

  /** The proxies of one service if it is installed, else none. */
  function Block(conf: Conf, s: ServiceProxies): seq<Proxy> {
    When(Installed(conf, s.flag), NamedProxies(s.names, HostAt(conf, s.hostKey)))
  }

  /** Every flag of `ss` is set, and so is the host of each installed service. */
  predicate Configured(conf: Conf, ss: seq<ServiceProxies>)
    decreases |ss|
  {
    |ss| == 0 ||
    (HasKey(conf, ss[0].flag) &&
     (Installed(conf, ss[0].flag) ==> HasKey(conf, ss[0].hostKey)) &&
     Configured(conf, ss[1..]))
  }

  /** One service block succeeds exactly when its flag is set and, if it is
      installed, its host too; it then gives its proxies when installed, else none. */
  lemma {:induction false} ServiceEnabled(conf: Conf, s: ServiceProxies)
    ensures Service(conf, s).Ok? <==>
      HasKey(conf, s.flag) && (Installed(conf, s.flag) ==> HasKey(conf, s.hostKey))
    ensures Service(conf, s).Ok? ==> Service(conf, s).value == Block(conf, s)
  {
  }

  /** The services' proxies are collected exactly when they are all configured, and
      they are then the installed services' proxies in order. */
  lemma {:induction false} ProxiesFromEnabled(conf: Conf, ps: seq<Proxy>, ss: seq<ServiceProxies>)
    ensures ProxiesFrom(conf, ps, ss).Ok? <==> Configured(conf, ss)
    ensures ProxiesFrom(conf, ps, ss).Ok? ==> ProxiesFrom(conf, ps, ss).value == ps + Enabled(conf, ss)
    decreases |ss|
  {
    if |ss| == 0 {
      assert ps + [] == ps;
    } else {
      ServiceEnabled(conf, ss[0]);
      if Service(conf, ss[0]).Ok? {
        var more := Service(conf, ss[0]).value;
        ProxiesFromEnabled(conf, ps + more, ss[1..]);
        ConcatAssoc(ps, more, Enabled(conf, ss[1..]));
      }
    }
  }

  /** The proxies of `createmanifest`: keystone on 5000 always, then glance on 9292,
      nova-api on 8774 and nova-ec2 on 8773, cinder on 8776, swift on 8080 and horizon
      on 80, each exactly when its service is installed, in that order, each to the
      host its own key names; and the list exists exactly when the keystone host and
      every flag are set and every installed service has a host. */
  lemma {:induction false} ApiProxiesShape(conf: Conf)
    ensures ApiProxies(conf).Ok? <==> HasKey(conf, "CONFIG_KEYSTONE_HOST") && Configured(conf, Services)
    ensures ApiProxies(conf).Ok? ==>
      ApiProxies(conf).value ==
      [Proxy("keystone", "5000", HostAt(conf, "CONFIG_KEYSTONE_HOST"))] +
      When(Installed(conf, GlanceInstall), [Proxy("glance", "9292", HostAt(conf, GlanceHost))]) +
      When(Installed(conf, NovaInstall),
           [Proxy("nova-api", "8774", HostAt(conf, NovaApiHost)), Proxy("nova-ec2", "8773", HostAt(conf, NovaApiHost))]) +
      When(Installed(conf, CinderInstall), [Proxy("cinder", "8776", HostAt(conf, CinderHost))]) +
      When(Installed(conf, SwiftInstall), [Proxy("swift", "8080", HostAt(conf, SwiftProxy))]) +
      When(Installed(conf, HorizonInstall), [Proxy("horizon", "80", HostAt(conf, HorizonHost))])
  {
    if HasKey(conf, "CONFIG_KEYSTONE_HOST") {
      var k := [Proxy("keystone", "5000", HostAt(conf, "CONFIG_KEYSTONE_HOST"))];
      ProxiesFromEnabled(conf, k, Services);
      EnabledFive(conf, Services);
      ServiceBlocks(conf);
      Regroup6(k, Block(conf, Services[0]), Block(conf, Services[1]), Block(conf, Services[2]),
               Block(conf, Services[3]), Block(conf, Services[4]));
    }
  }

  /** Each entry of the service table, installed or not. */
  lemma {:induction false} ServiceBlocks(conf: Conf)
    ensures Block(conf, Services[0]) == When(Installed(conf, GlanceInstall), [Proxy("glance", "9292", HostAt(conf, GlanceHost))])
    ensures Block(conf, Services[1]) == When(Installed(conf, NovaInstall),
      [Proxy("nova-api", "8774", HostAt(conf, NovaApiHost)), Proxy("nova-ec2", "8773", HostAt(conf, NovaApiHost))])
    ensures Block(conf, Services[2]) == When(Installed(conf, CinderInstall), [Proxy("cinder", "8776", HostAt(conf, CinderHost))])
    ensures Block(conf, Services[3]) == When(Installed(conf, SwiftInstall), [Proxy("swift", "8080", HostAt(conf, SwiftProxy))])
    ensures Block(conf, Services[4]) == When(Installed(conf, HorizonInstall), [Proxy("horizon", "80", HostAt(conf, HorizonHost))])
  {
  }

  /** `Enabled` over five services, written out. */
  lemma {:induction false} EnabledFive(conf: Conf, ss: seq<ServiceProxies>)
    requires |ss| == 5
    ensures Enabled(conf, ss) == Block(conf, ss[0]) + Block(conf, ss[1]) + Block(conf, ss[2]) + Block(conf, ss[3]) + Block(conf, ss[4])
  {
    var b := Block(conf, ss[4]);
    assert ss[4..][1..] == [];
    assert Enabled(conf, ss[4..]) == b + [] == b;
    assert ss[3..][1..] == ss[4..];
    assert Enabled(conf, ss[3..]) == Block(conf, ss[3]) + b;
    assert ss[2..][1..] == ss[3..];
    assert Enabled(conf, ss[2..]) == Block(conf, ss[2]) + (Block(conf, ss[3]) + b);
    assert ss[1..][1..] == ss[2..];
    assert Enabled(conf, ss[1..]) == Block(conf, ss[1]) + (Block(conf, ss[2]) + (Block(conf, ss[3]) + b));
    Regroup5(Block(conf, ss[0]), Block(conf, ss[1]), Block(conf, ss[2]), Block(conf, ss[3]), b);
  }

  lemma {:induction false} Regroup5<T>(a: seq<T>, b: seq<T>, c: seq<T>, d: seq<T>, e: seq<T>)
    ensures a + (b + (c + (d + e))) == a + b + c + d + e
  {
    ConcatAssoc(c, d, e);
    ConcatAssoc(b, c + d, e);
    ConcatAssoc(b, c, d);
    ConcatAssoc(a, b + c + d, e);
    ConcatAssoc(a, b + c, d);
    ConcatAssoc(a, b, c);
  }

  lemma {:induction false} Regroup6<T>(k: seq<T>, a: seq<T>, b: seq<T>, c: seq<T>, d: seq<T>, e: seq<T>)
    ensures k + (a + b + c + d + e) == k + a + b + c + d + e
  {
    ConcatAssoc(k, a + b + c + d, e);
    ConcatAssoc(k, a + b + c, d);
    ConcatAssoc(k, a + b, c);
    ConcatAssoc(k, a, b);
  }
}
