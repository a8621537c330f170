/**
  plugins/nova_300.py: the Nova plugin's sequence registration and its seven
  manifest steps. The compute step configures every compute host through the one
  shared `NovaConfig` options dictionary.
*/
module NovaPlugin {
  import opened Text
  import opened Results
  import opened Config
  import opened OrderedSet
  import opened Manifests
  import opened PluginUtils

  const NovaInstall := "CONFIG_NOVA_INSTALL"
  const NovaApiHost := "CONFIG_NOVA_API_HOST"
  const CertHost := "CONFIG_NOVA_CERT_HOST"
  const ComputeHosts := "CONFIG_NOVA_COMPUTE_HOSTS"
  const ComputePrivif := "CONFIG_NOVA_COMPUTE_PRIVIF"
  const LibvirtType := "CONFIG_LIBVIRT_TYPE"
  const NetworkHost := "CONFIG_NOVA_NETWORK_HOST"
  const NetworkPrivif := "CONFIG_NOVA_NETWORK_PRIVIF"
  const NetworkPubif := "CONFIG_NOVA_NETWORK_PUBIF"
  const SchedHost := "CONFIG_NOVA_SCHED_HOST"

  /** The suffix of the per-host manifest the cert, compute, network and scheduler
      steps share. */
  const NovaSuffix := "_nova.pp"

  // initSequences

  /** The seven steps of "Installing Nova API", one plugin function each. */
  function NovaSteps(): seq<Step> {
    [ Step("Adding Nova API Manifest entries", [NovaCreateApiManifest]),
      Step("Adding Nova Keystone Manifest entries", [NovaCreateKeystoneManifest]),
      Step("Adding Nova Cert Manifest entries", [NovaCreateCertManifest]),
      Step("Adding Nova Compute Manifest entries", [NovaCreateComputeManifest]),
      Step("Adding Nova Network Manifest entries", [NovaCreateNetworkManifest]),
      Step("Adding Nova Scheduler Manifest entries", [NovaCreateSchedManifest]),
      Step("Adding Nova Common Manifest entries", [NovaCreateCommonManifest]) ]
  }

  /** What `initSequences` registers for a given `CONF`, or what it raises. */
  function NovaSequences(conf: Conf): Result<seq<Sequence>> {
    var install :- Lookup(conf, NovaInstall);
    if install != "y" then Ok([]) else Ok([Sequence("Installing Nova API", [], [], NovaSteps())])
  }

  /** `initSequences(controller)` */
  method InitSequences(c: Controller) returns (r: Result<()>)
    modifies c`sequences
    ensures NovaSequences(c.conf).Ok? ==> r.Ok? && c.sequences == old(c.sequences) + NovaSequences(c.conf).value
    ensures NovaSequences(c.conf).Err? ==> r == Err(NovaSequences(c.conf).error) && c.sequences == old(c.sequences)
  {
    var install :- Lookup(c.conf, NovaInstall);
    if install != "y" {
      return Ok(());
    }
    c.AddSequence("Installing Nova API", [], [], NovaSteps());
    r := Ok(());
  }

  /** The plugin functions of a list of steps, in step order. */
  function Units(steps: seq<Step>): seq<Unit>
    decreases |steps|
  {
    if |steps| == 0 then [] else steps[0].functions + Units(steps[1..])
  }

  /** Nothing is registered unless Nova is installed, and only a missing install flag
      raises; otherwise one sequence of seven single-function steps runs the plugin's
      functions in the order api, keystone, cert, compute, network, scheduler, common. */
  lemma {:induction false} NovaSequencesShape(conf: Conf)
    ensures NovaSequences(conf).Ok? <==> HasKey(conf, NovaInstall)
    ensures NovaSequences(conf).Ok? && Get(conf, NovaInstall) != Some("y") ==> NovaSequences(conf).value == []
    ensures Get(conf, NovaInstall) == Some("y") ==>
      (&& |NovaSequences(conf).value| == 1
       && NovaSequences(conf).value[0].title == "Installing Nova API"
       && |NovaSequences(conf).value[0].steps| == 7
       && (forall i :: 0 <= i < 7 ==> |NovaSequences(conf).value[0].steps[i].functions| == 1)
       && Units(NovaSequences(conf).value[0].steps) ==
          [NovaCreateApiManifest, NovaCreateKeystoneManifest, NovaCreateCertManifest, NovaCreateComputeManifest,
           NovaCreateNetworkManifest, NovaCreateSchedManifest, NovaCreateCommonManifest])
  {
    var s := NovaSteps();
    UnitsOfSingles(s);
  }

  /** When every step runs one function, the units are those functions in step order. */
  lemma {:induction false} UnitsOfSingles(steps: seq<Step>)
    requires forall i :: 0 <= i < |steps| ==> |steps[i].functions| == 1
    ensures |Units(steps)| == |steps|
    ensures forall i :: 0 <= i < |steps| ==> Units(steps)[i] == steps[i].functions[0]
    decreases |steps|
  {
    if |steps| > 0 {
      UnitsOfSingles(steps[1..]);
      assert steps[0].functions == [steps[0].functions[0]];
    }
  }

  // The steps that append one rendered template

  /** `createapimanifest()` */
  function ApiFragment(conf: Conf, render: (string, Conf) -> string): Result<(string, string)> {
    Fragment(conf, render, NovaApiHost, "_api_nova.pp", "nova_api.pp")
  }

  method CreateApiManifest(c: Controller) returns (r: Result<()>)
    requires c.Valid()
    modifies c`manifestFiles, c`files
    ensures c.Valid()
    ensures r == Status(ApiFragment(c.conf, c.render))
    ensures c.Arts() == Emitted(old(c.Arts()), c.manifestDir, ApiFragment(c.conf, c.render))
  {
    r := AppendFragment(c, NovaApiHost, "_api_nova.pp", "nova_api.pp");
  }

  /** `createkeystonemanifest()`: the fragment and the `CONF` `setEndpoint` leaves. */
  function KeystoneFragment(conf: Conf, render: (string, Conf) -> string): (Result<(string, string)>, Conf) {
    EndpointFragment(conf, render, NovaApiHost, "keystone_nova.pp")
  }

  method CreateKeystoneManifest(c: Controller) returns (r: Result<()>)
    requires c.Valid()
    modifies c`conf, c`manifestFiles, c`files
    ensures c.Valid()
    ensures c.conf == KeystoneFragment(old(c.conf), c.render).1
    ensures r == Status(KeystoneFragment(old(c.conf), c.render).0)
    ensures c.Arts() == Emitted(old(c.Arts()), c.manifestDir, KeystoneFragment(old(c.conf), c.render).0)
  {
    r := AppendEndpointFragment(c, NovaApiHost, "keystone_nova.pp");
  }

  /** `createcertmanifest()` */
  function CertFragment(conf: Conf, render: (string, Conf) -> string): Result<(string, string)> {
    Fragment(conf, render, CertHost, NovaSuffix, "nova_cert.pp")
  }

  method CreateCertManifest(c: Controller) returns (r: Result<()>)
    requires c.Valid()
    modifies c`manifestFiles, c`files
    ensures c.Valid()
    ensures r == Status(CertFragment(c.conf, c.render))
    ensures c.Arts() == Emitted(old(c.Arts()), c.manifestDir, CertFragment(c.conf, c.render))
  {
    r := AppendFragment(c, CertHost, NovaSuffix, "nova_cert.pp");
  }

  /** `createschedmanifest()` */
  function SchedFragment(conf: Conf, render: (string, Conf) -> string): Result<(string, string)> {
    Fragment(conf, render, SchedHost, NovaSuffix, "nova_sched.pp")
  }

  method CreateSchedManifest(c: Controller) returns (r: Result<()>)
    requires c.Valid()
    modifies c`manifestFiles, c`files
    ensures c.Valid()
    ensures r == Status(SchedFragment(c.conf, c.render))
    ensures c.Arts() == Emitted(old(c.Arts()), c.manifestDir, SchedFragment(c.conf, c.render))
  {
    r := AppendFragment(c, SchedHost, NovaSuffix, "nova_sched.pp");
  }

  /** The keystone step writes `<CONFIG_KEYSTONE_HOST>_keystone.pp` from a template
      rendered against a `CONF` in which `CONFIG_NOVA_API_HOST_EP` is the API host when
      the API server is installed and the Nova API host otherwise. */
  lemma {:induction false} KeystoneSeesEndpoint(conf: Conf, render: (string, Conf) -> string)
    ensures var (f, conf') := KeystoneFragment(conf, render);
      f.Ok? ==>
        (&& HasKey(conf, "CONFIG_KEYSTONE_HOST")
         && f.value.0 == Get(conf, "CONFIG_KEYSTONE_HOST").value + "_keystone.pp"
         && f.value.1 == render("keystone_nova.pp", conf')
         && Get(conf', NovaApiHost + "_EP") ==
            (if Get(conf, "CONFIG_API_INSTALL") == Some("y") then Get(conf, "CONFIG_API_HOST") else Get(conf, NovaApiHost)))
  {
    EndpointFragmentMeaning(conf, render, NovaApiHost, "keystone_nova.pp");
  }

  /** Services that share a host share its `_nova.pp` file: after the cert and the
      scheduler steps on one host, the file holds both fragments in step order and is
      registered once. */
  lemma {:induction false} SharedHostAccumulates(conf: Conf, render: (string, Conf) -> string, a: Artifacts, dir: string)
    requires WellFormed(a)
    requires HasKey(conf, CertHost) && Get(conf, SchedHost) == Get(conf, CertHost)
    ensures var p := PathJoin(dir, Get(conf, CertHost).value + NovaSuffix);
      var a' := Emitted(Emitted(a, dir, CertFragment(conf, render)), dir, SchedFragment(conf, render));
      && Content(a', p) == Content(a, p) + "\n" + render("nova_cert.pp", conf) + "\n" + render("nova_sched.pp", conf)
      && a'.paths == AddNew(a.paths, p)
  {
    var p := PathJoin(dir, Get(conf, CertHost).value + NovaSuffix);
    AppendTwice(a, p, render("nova_cert.pp", conf), render("nova_sched.pp", conf));
  }

  // createcomputemanifest

  /** What configuring one compute host leads to: the outcome, the shared options
      afterwards and the artifacts afterwards. */
  datatype Outcome = Outcome(status: Result<()>, options: Conf, arts: Artifacts)

  /** One pass of the compute loop for `host`, starting from the shared `options`:
      `flat_interface` and an interface check when the host is not the network host,
      `libvirt_cpu_mode` for qemu, the remote checks, then the append of the compute
      template and the `nova_config` block. */
  function ComputeHost(conf: Conf, remote: (string, seq<Command>) -> bool, dir: string, data: string,
                       host: string, options: Conf, a: Artifacts): Outcome
  {
    match Lookup(conf, NetworkHost)
    case Err(e) => Outcome(Err(e), options, a)
    case Ok(network) =>
      if host != network then
        match Lookup(conf, ComputePrivif)
        case Err(e) => Outcome(Err(e), options, a)
        case Ok(privif) =>
          ComputeFinish(conf, remote, dir, data, host, Set(options, "flat_interface", privif), [CheckInterface(privif)], a)
      else ComputeFinish(conf, remote, dir, data, host, options, [], a)
  }

  /** The second half of one pass: the qemu option, `server.execute()` and the append. */
  function ComputeFinish(conf: Conf, remote: (string, seq<Command>) -> bool, dir: string, data: string,
                         host: string, options: Conf, commands: seq<Command>, a: Artifacts): Outcome
  {
    match Lookup(conf, LibvirtType)
    case Err(e) => Outcome(Err(e), options, a)
    case Ok(libvirt) =>
      var options' := if libvirt == "qemu" then Set(options, "libvirt_cpu_mode", "none") else options;
      if !remote(host, commands) then Outcome(Err(ScriptError(host)), options', a)
      else Outcome(Ok(()), options', Append(a, PathJoin(dir, host + NovaSuffix), data + "\n" + EntryText(options')))
  }

  /** The compute loop over the remaining `hosts`, stopping at the first failure. */
  function ComputeFrom(conf: Conf, remote: (string, seq<Command>) -> bool, dir: string, data: string,
                       hosts: seq<string>, options: Conf, a: Artifacts): Outcome
    decreases |hosts|
  {
    if |hosts| == 0 then Outcome(Ok(()), options, a)
    else
      var o := ComputeHost(conf, remote, dir, data, hosts[0], options, a);
      if o.status.Err? then o else ComputeFrom(conf, remote, dir, data, hosts[1..], o.options, o.arts)
  }

  /** `createcomputemanifest()`: the template is rendered once, before the loop, and
      the hosts are `CONF['CONFIG_NOVA_COMPUTE_HOSTS'].split(",")`, not stripped. */
  function ComputeManifests(conf: Conf, render: (string, Conf) -> string, remote: (string, seq<Command>) -> bool,
                            dir: string, options: Conf, a: Artifacts): Outcome
  {
    var data := render("nova_compute.pp", conf);
    match Lookup(conf, ComputeHosts)
    case Err(e) => Outcome(Err(e), options, a)
    case Ok(v) => ComputeFrom(conf, remote, dir, data, Split(v, ','), options, a)
  }

  /** One pass of the loop of lines 200-216; `nc` is the `NovaConfig()` of that pass. */
  method ComputeOneHost(c: Controller, nc: NovaConfig, manifestdata: string, host: string) returns (r: Result<()>)
    requires c.Valid()
    modifies c`manifestFiles, c`files, nc`options
    ensures c.Valid()
    ensures var o := ComputeHost(c.conf, c.remote, c.manifestDir, manifestdata, host, old(nc.options), old(c.Arts()));
      r == o.status && nc.options == o.options && c.Arts() == o.arts
  {
    var manifestfile := host + NovaSuffix;
    var commands: seq<Command> := [];
    var network :- Lookup(c.conf, NetworkHost);
    if host != network {
      var privif :- Lookup(c.conf, ComputePrivif);
      nc.AddOption("flat_interface", privif);
      commands := commands + [CheckInterface(privif)];
      assert commands == [CheckInterface(privif)];
    }
    var libvirt :- Lookup(c.conf, LibvirtType);
    if libvirt == "qemu" {
      nc.AddOption("libvirt_cpu_mode", "none");
    }
    if !c.remote(host, commands) {
      return Err(ScriptError(host));
    }
    var entry := nc.GetManifestEntry();
    c.AppendManifestFile(manifestfile, manifestdata + "\n" + entry);
    r := Ok(());
  }

  /** `createcomputemanifest()`. Every `NovaConfig()` of the loop is `nc`, because the
      options dictionary is a class attribute. */
  method CreateComputeManifest(c: Controller, nc: NovaConfig) returns (r: Result<()>)
    requires c.Valid()
    modifies c`manifestFiles, c`files, nc`options
    ensures c.Valid()
    ensures var o := ComputeManifests(c.conf, c.render, c.remote, c.manifestDir, old(nc.options), old(c.Arts()));
      r == o.status && nc.options == o.options && c.Arts() == o.arts
  {
    var manifestdata := c.render("nova_compute.pp", c.conf);
    var value :- Lookup(c.conf, ComputeHosts);
    var hosts := Split(value, ',');
    for i := 0 to |hosts|
      invariant c.Valid()
      invariant ComputeManifests(c.conf, c.render, c.remote, c.manifestDir, old(nc.options), old(c.Arts())) ==
                ComputeFrom(c.conf, c.remote, c.manifestDir, manifestdata, hosts[i..], nc.options, c.Arts())
    {
      assert hosts[i..][1..] == hosts[i + 1..];
      var ok := ComputeOneHost(c, nc, manifestdata, hosts[i]);
      if ok.Err? {
        return ok;
      }
    }
    r := Ok(());
  }

  /** One compute host, from whatever options earlier hosts left: `flat_interface` is
      set (to the compute private interface) exactly when the host is not the network
      host, and then one interface check is run; `libvirt_cpu_mode` is "none" exactly
      for qemu; other options stay; a failed check leaves the artifacts as they were;
      otherwise `<host>_nova.pp` gains "\n", the template, "\n" and the block of the
      options as they now are. */
  lemma {:induction false} ComputeHostMeaning(conf: Conf, remote: (string, seq<Command>) -> bool, dir: string, data: string,
                           host: string, options: Conf, a: Artifacts, k: string)
    requires HasKey(conf, NetworkHost) && HasKey(conf, ComputePrivif) && HasKey(conf, LibvirtType)
    ensures var o := ComputeHost(conf, remote, dir, data, host, options, a);
      var flat := host != Get(conf, NetworkHost).value;
      var commands := if flat then [CheckInterface(Get(conf, ComputePrivif).value)] else [];
      && (o.status.Ok? <==> remote(host, commands))
      && (o.status.Err? ==> o.status.error == ScriptError(host) && o.arts == a)
      && Get(o.options, "flat_interface") ==
         (if flat then Get(conf, ComputePrivif) else Get(options, "flat_interface"))
      && Get(o.options, "libvirt_cpu_mode") ==
         (if Get(conf, LibvirtType) == Some("qemu") then Some("none") else Get(options, "libvirt_cpu_mode"))
      && (k != "flat_interface" && k != "libvirt_cpu_mode" ==> Get(o.options, k) == Get(options, k))
      && (o.status.Ok? ==>
            o.arts == Append(a, PathJoin(dir, host + NovaSuffix), data + "\n" + EntryText(o.options)))
  {
    var network, privif, libvirt := Get(conf, NetworkHost).value, Get(conf, ComputePrivif).value, Get(conf, LibvirtType).value;
    var o1 := if host != network then Set(options, "flat_interface", privif) else options;
    GetSet(options, "flat_interface", privif, k);
    GetSet(options, "flat_interface", privif, "libvirt_cpu_mode");
    GetSet(options, "flat_interface", privif, "flat_interface");
    GetSet(o1, "libvirt_cpu_mode", "none", k);
    GetSet(o1, "libvirt_cpu_mode", "none", "flat_interface");
    GetSet(o1, "libvirt_cpu_mode", "none", "libvirt_cpu_mode");
  }

  /** A missing key stops the compute loop with that key's `KeyError` before anything
      is written for the host at hand; hosts before it keep their fragments. */
  lemma {:induction false} ComputeHostMissingKey(conf: Conf, remote: (string, seq<Command>) -> bool, dir: string, data: string,
                              host: string, options: Conf, a: Artifacts)
    requires !HasKey(conf, NetworkHost) || !HasKey(conf, LibvirtType) ||
             (host != Get(conf, NetworkHost).value && !HasKey(conf, ComputePrivif))
    ensures ComputeHost(conf, remote, dir, data, host, options, a).status.Err?
    ensures ComputeHost(conf, remote, dir, data, host, options, a).status.error.KeyError?
    ensures ComputeHost(conf, remote, dir, data, host, options, a).arts == a
  {
  }

  // The shared options dictionary

  /** As written, the options a compute host sets stay in the shared dictionary: with
      compute hosts "h,n", where `n` is the network host and `h` is not, the block
      appended to `n`'s manifest still sets `flat_interface`, which the source only
      means to set on hosts other than the network host. */
  lemma {:induction false} SharedOptionsLeak(conf: Conf, remote: (string, seq<Command>) -> bool, dir: string,
                          render: (string, Conf) -> string, a: Artifacts, h: string, n: string)
    requires Get(conf, NetworkHost) == Some(n) && Get(conf, ComputeHosts) == Some(h + "," + n)
    requires h != n && ',' !in h && ',' !in n
    requires HasKey(conf, ComputePrivif) && HasKey(conf, LibvirtType)
    requires remote(h, [CheckInterface(Get(conf, ComputePrivif).value)]) && remote(n, [])
    ensures var o := ComputeManifests(conf, render, remote, dir, [], a);
      && o.status.Ok?
      && IsInfix(OptionLine("flat_interface", Get(conf, ComputePrivif).value), Content(o.arts, PathJoin(dir, n + NovaSuffix)))
  {
    var data := render("nova_compute.pp", conf);
    SplitAfterPiece(h, n, ',');
    SplitNoSeparator(n, ',');
    assert h + "," + n == h + [','] + n;
    LeakIntoNetworkHost(conf, remote, dir, data, a, h, n);
  }

  /** The compute loop over `[h, n]` from empty options, `n` being the network host. */
  lemma {:induction false} LeakIntoNetworkHost(conf: Conf, remote: (string, seq<Command>) -> bool, dir: string, data: string,
                            a: Artifacts, h: string, n: string)
    requires Get(conf, NetworkHost) == Some(n) && h != n
    requires HasKey(conf, ComputePrivif) && HasKey(conf, LibvirtType)
    requires remote(h, [CheckInterface(Get(conf, ComputePrivif).value)]) && remote(n, [])
    ensures var o := ComputeFrom(conf, remote, dir, data, [h, n], [], a);
      && o.status.Ok?
      && IsInfix(OptionLine("flat_interface", Get(conf, ComputePrivif).value), Content(o.arts, PathJoin(dir, n + NovaSuffix)))
  {
    var privif := Get(conf, ComputePrivif).value;
    var o1 := ComputeHost(conf, remote, dir, data, h, [], a);
    ComputeHostMeaning(conf, remote, dir, data, h, [], a, "");
    var o2 := ComputeHost(conf, remote, dir, data, n, o1.options, o1.arts);
    ComputeHostMeaning(conf, remote, dir, data, n, o1.options, o1.arts, "");
    assert o1.status.Ok? && o2.status.Ok?;
    assert [h, n][1..] == [n] && [n][1..] == [];
    assert ComputeFrom(conf, remote, dir, data, [n], o1.options, o1.arts) == o2;
    var p := PathJoin(dir, n + NovaSuffix);
    LeakedLineInBlock(Content(o1.arts, p), data, o2.options, privif);
  }

  /** A block holding `flat_interface` shows its line in the file it is appended to. */
  lemma {:induction false} LeakedLineInBlock(before: string, data: string, options: Conf, privif: string)
    requires Get(options, "flat_interface") == Some(privif)
    ensures IsInfix(OptionLine("flat_interface", privif), before + "\n" + (data + "\n" + EntryText(options)))
  {
    EntryTextHasOptionLine(options, "flat_interface");
    var pre := before + "\n" + (data + "\n");
    InfixWithin(OptionLine("flat_interface", privif), EntryText(options), pre, "");
    ConcatAssoc(before + "\n", data + "\n", EntryText(options));
    assert pre + EntryText(options) + "" == pre + EntryText(options);
  }

  /** The options a host's block is written from when every `NovaConfig()` starts
      empty: `flat_interface` off the network host, then `libvirt_cpu_mode` for qemu. */
  function IntendedOptions(privif: string, network: string, libvirt: string, host: string): Conf {
    (if host != network then [("flat_interface", privif)] else []) +
    (if libvirt == "qemu" then [("libvirt_cpu_mode", "none")] else [])
  }

  /** The compute loop when each host gets a fresh `NovaConfig` with empty options. */
  function IntendedComputeFrom(conf: Conf, remote: (string, seq<Command>) -> bool, dir: string, data: string,
                               hosts: seq<string>, a: Artifacts): (Result<()>, Artifacts)
    decreases |hosts|
  {
    if |hosts| == 0 then (Ok(()), a)
    else
      var o := ComputeHost(conf, remote, dir, data, hosts[0], [], a);
      if o.status.Err? then (o.status, o.arts) else IntendedComputeFrom(conf, remote, dir, data, hosts[1..], o.arts)
  }

  function IntendedComputeManifests(conf: Conf, render: (string, Conf) -> string,
                                    remote: (string, seq<Command>) -> bool, dir: string, a: Artifacts)
    : (Result<()>, Artifacts)
  {
    var data := render("nova_compute.pp", conf);
    match Lookup(conf, ComputeHosts)
    case Err(e) => (Err(e), a)
    case Ok(v) => IntendedComputeFrom(conf, remote, dir, data, Split(v, ','), a)
  }

  /** `createcomputemanifest()` with a `NovaConfig` of its own for every host. */
  method CreateComputeManifestPerHost(c: Controller) returns (r: Result<()>)
    requires c.Valid()
    modifies c`manifestFiles, c`files
    ensures c.Valid()
    ensures (r, c.Arts()) == IntendedComputeManifests(c.conf, c.render, c.remote, c.manifestDir, old(c.Arts()))
  {
    var manifestdata := c.render("nova_compute.pp", c.conf);
    var value :- Lookup(c.conf, ComputeHosts);
    var hosts := Split(value, ',');
    for i := 0 to |hosts|
      invariant c.Valid()
      invariant IntendedComputeManifests(c.conf, c.render, c.remote, c.manifestDir, old(c.Arts())) ==
                IntendedComputeFrom(c.conf, c.remote, c.manifestDir, manifestdata, hosts[i..], c.Arts())
    {
      assert hosts[i..][1..] == hosts[i + 1..];
      var nc := new NovaConfig();
      var ok := ComputeOneHost(c, nc, manifestdata, hosts[i]);
      if ok.Err? {
        return ok;
      }
    }
    r := Ok(());
  }

  /** With a fresh `NovaConfig` per host, each host's block is written from exactly
      its own options: `flat_interface` only off the network host, and
      `libvirt_cpu_mode` only for qemu. */
  lemma {:induction false} IntendedHostOptions(conf: Conf, remote: (string, seq<Command>) -> bool, dir: string, data: string,
                            host: string, a: Artifacts)
    requires HasKey(conf, NetworkHost) && HasKey(conf, ComputePrivif) && HasKey(conf, LibvirtType)
    ensures var o := ComputeHost(conf, remote, dir, data, host, [], a);
      && o.options ==
         IntendedOptions(Get(conf, ComputePrivif).value, Get(conf, NetworkHost).value, Get(conf, LibvirtType).value, host)
      && (o.status.Ok? ==> o.arts == Append(a, PathJoin(dir, host + NovaSuffix), data + "\n" + EntryText(o.options)))
  {
    var network, privif, libvirt := Get(conf, NetworkHost).value, Get(conf, ComputePrivif).value, Get(conf, LibvirtType).value;
    var start: Conf := if host != network then Set([], "flat_interface", privif) else [];
    var options := if libvirt == "qemu" then Set(start, "libvirt_cpu_mode", "none") else start;
    assert options == IntendedOptions(privif, network, libvirt, host) by {
      if libvirt == "qemu" && host != network {
        assert "flat_interface"[0] != "libvirt_cpu_mode"[0];
        assert Set([("flat_interface", privif)], "libvirt_cpu_mode", "none") ==
               [("flat_interface", privif)] + Set([], "libvirt_cpu_mode", "none");
      }
    }
    var o := ComputeHost(conf, remote, dir, data, host, [], a);
    if host != network {
      assert o == ComputeFinish(conf, remote, dir, data, host, start, [CheckInterface(privif)], a);
    } else {
      assert o == ComputeFinish(conf, remote, dir, data, host, start, [], a);
    }
  }

  /** The input of `SharedOptionsLeak` with a `NovaConfig` per host: `h`'s block and
      then `n`'s are appended, each from its own options, and `n`'s sets no
      `flat_interface`. */
  lemma {:induction false} PerHostNoLeak(conf: Conf, remote: (string, seq<Command>) -> bool, dir: string,
                                         render: (string, Conf) -> string, a: Artifacts, h: string, n: string)
    requires Get(conf, NetworkHost) == Some(n) && Get(conf, ComputeHosts) == Some(h + "," + n)
    requires h != n && ',' !in h && ',' !in n
    requires HasKey(conf, ComputePrivif) && HasKey(conf, LibvirtType)
    requires remote(h, [CheckInterface(Get(conf, ComputePrivif).value)]) && remote(n, [])
    ensures var privif, libvirt := Get(conf, ComputePrivif).value, Get(conf, LibvirtType).value;
      var data := render("nova_compute.pp", conf);
      var a1 := Append(a, PathJoin(dir, h + NovaSuffix), data + "\n" + EntryText(IntendedOptions(privif, n, libvirt, h)));
      && IntendedComputeManifests(conf, render, remote, dir, a) ==
         (Ok(()), Append(a1, PathJoin(dir, n + NovaSuffix), data + "\n" + EntryText(IntendedOptions(privif, n, libvirt, n))))
      && Get(IntendedOptions(privif, n, libvirt, n), "flat_interface") == None
  {
    SplitAfterPiece(h, n, ',');
    SplitNoSeparator(n, ',');
    assert h + "," + n == h + [','] + n;
    IntendedTwoHosts(conf, remote, dir, render("nova_compute.pp", conf), a, h, n);
  }

  /** The per-host compute loop over `[h, n]`, `n` being the network host. */
  lemma {:induction false} IntendedTwoHosts(conf: Conf, remote: (string, seq<Command>) -> bool, dir: string, data: string,
                                            a: Artifacts, h: string, n: string)
    requires Get(conf, NetworkHost) == Some(n) && h != n
    requires HasKey(conf, ComputePrivif) && HasKey(conf, LibvirtType)
    requires remote(h, [CheckInterface(Get(conf, ComputePrivif).value)]) && remote(n, [])
    ensures var privif, libvirt := Get(conf, ComputePrivif).value, Get(conf, LibvirtType).value;
      var a1 := Append(a, PathJoin(dir, h + NovaSuffix), data + "\n" + EntryText(IntendedOptions(privif, n, libvirt, h)));
      IntendedComputeFrom(conf, remote, dir, data, [h, n], a) ==
        (Ok(()), Append(a1, PathJoin(dir, n + NovaSuffix), data + "\n" + EntryText(IntendedOptions(privif, n, libvirt, n))))
  {
    var o1 := ComputeHost(conf, remote, dir, data, h, [], a);
    IntendedHostAppends(conf, remote, dir, data, h, a);
    var o2 := ComputeHost(conf, remote, dir, data, n, [], o1.arts);
    IntendedHostAppends(conf, remote, dir, data, n, o1.arts);
    assert [h, n][0] == h && [h, n][1..] == [n];
    assert [n][0] == n && [n][1..] == [];
    assert IntendedComputeFrom(conf, remote, dir, data, [n], o1.arts) == (Ok(()), o2.arts);
    assert IntendedComputeFrom(conf, remote, dir, data, [h, n], a) == IntendedComputeFrom(conf, remote, dir, data, [n], o1.arts);
  }

  /** A host whose checks pass gets its block from its own options. */
  lemma {:induction false} IntendedHostAppends(conf: Conf, remote: (string, seq<Command>) -> bool, dir: string, data: string,
                                               host: string, a: Artifacts)
    requires HasKey(conf, NetworkHost) && HasKey(conf, ComputePrivif) && HasKey(conf, LibvirtType)
    requires remote(host, if host != Get(conf, NetworkHost).value then [CheckInterface(Get(conf, ComputePrivif).value)] else [])
    ensures var o := ComputeHost(conf, remote, dir, data, host, [], a);
      var options := IntendedOptions(Get(conf, ComputePrivif).value, Get(conf, NetworkHost).value, Get(conf, LibvirtType).value, host);
      o.status == Ok(()) && o.arts == Append(a, PathJoin(dir, host + NovaSuffix), data + "\n" + EntryText(options))
  {
    IntendedHostOptions(conf, remote, dir, data, host, a);
    ComputeHostMeaning(conf, remote, dir, data, host, [], a, "");
  }

  // createnetworkmanifest

  /** `createnetworkmanifest()`: both interface checks go to the network host in one
      batch, the private interface's first, and the template is appended only when
      the batch succeeds. */
  function NetworkFragment(conf: Conf, render: (string, Conf) -> string, remote: (string, seq<Command>) -> bool)
    : Result<(string, string)>
  {
    var hostname :- Lookup(conf, NetworkHost);
    var privif :- Lookup(conf, NetworkPrivif);
    var pubif :- Lookup(conf, NetworkPubif);
    if !remote(hostname, [CheckInterface(privif), CheckInterface(pubif)]) then Err(ScriptError(hostname))
    else Ok((hostname + NovaSuffix, render("nova_network.pp", conf)))
  }

  method CreateNetworkManifest(c: Controller) returns (r: Result<()>)
    requires c.Valid()
    modifies c`manifestFiles, c`files
    ensures c.Valid()
    ensures r == Status(NetworkFragment(c.conf, c.render, c.remote))
    ensures c.Arts() == Emitted(old(c.Arts()), c.manifestDir, NetworkFragment(c.conf, c.render, c.remote))
  {
    var hostname :- Lookup(c.conf, NetworkHost);
    var commands: seq<Command> := [];
    var privif :- Lookup(c.conf, NetworkPrivif);
    commands := commands + [CheckInterface(privif)];
    var pubif :- Lookup(c.conf, NetworkPubif);
    commands := commands + [CheckInterface(pubif)];
    assert commands == [CheckInterface(privif), CheckInterface(pubif)];
    if !c.remote(hostname, commands) {
      return Err(ScriptError(hostname));
    }
    var manifestfile := hostname + NovaSuffix;
    var manifestdata := c.render("nova_network.pp", c.conf);
    c.AppendManifestFile(manifestfile, manifestdata);
    r := Ok(());
  }

  /** The network step appends exactly when its three keys are set and both interface
      checks pass, and a failed check names the network host. */
  lemma {:induction false} NetworkChecksBeforeAppend(conf: Conf, render: (string, Conf) -> string, remote: (string, seq<Command>) -> bool)
    requires HasKey(conf, NetworkHost) && HasKey(conf, NetworkPrivif) && HasKey(conf, NetworkPubif)
    ensures var host := Get(conf, NetworkHost).value;
      var checks := [CheckInterface(Get(conf, NetworkPrivif).value), CheckInterface(Get(conf, NetworkPubif).value)];
      && (NetworkFragment(conf, render, remote).Ok? <==> remote(host, checks))
      && (NetworkFragment(conf, render, remote).Err? ==> NetworkFragment(conf, render, remote).error == ScriptError(host))
      && (NetworkFragment(conf, render, remote).Ok? ==>
            NetworkFragment(conf, render, remote).value == (host + NovaSuffix, render("nova_network.pp", conf)))
  {
  }

  // createcommonmanifest

  /** The common step from the `i`-th registered path on: each path ending in
      `_nova.pp` gets the common template appended under its basename. The registry
      it walks is the one it is growing, as Python's list iteration sees appends. */
  function CommonFrom(a: Artifacts, dir: string, data: string, i: nat): Artifacts
    requires i <= |a.paths|
    decreases NonCanonicalCount(dir, a.paths[i..]), |a.paths| - i
  {
    if i == |a.paths| then a
    else if EndsWith(a.paths[i], NovaSuffix) then
      RejoinShrinks(a.paths, dir, i);
      CommonFrom(Append(a, PathJoin(dir, Basename(a.paths[i])), data), dir, data, i + 1)
    else
      CommonFrom(a, dir, data, i + 1)
  }

  /** Re-joining the basename of the `i`-th path registers a canonical path, so either
      no new path appears or the `i`-th path was not canonical and one fewer
      non-canonical path lies ahead. */
  lemma {:induction false} RejoinShrinks(paths: seq<string>, dir: string, i: nat)
    requires i < |paths|
    ensures var paths' := AddNew(paths, PathJoin(dir, Basename(paths[i])));
      || NonCanonicalCount(dir, paths'[i + 1..]) < NonCanonicalCount(dir, paths[i..])
      || (NonCanonicalCount(dir, paths'[i + 1..]) == NonCanonicalCount(dir, paths[i..]) && |paths'| == |paths|)
  {
    var q := PathJoin(dir, Basename(paths[i]));
    var rest := paths[i + 1..];
    NonCanonicalCountHead(dir, paths, i);
    if q in paths {
      assert AddNew(paths, q) == paths;
    } else {
      NewRejoinedNotCanonical(dir, paths, i);
      assert AddNew(paths, q)[i + 1..] == rest + [q];
      AppendRejoined(dir, rest, paths[i]);
    }
  }

  /** The count from the `i`-th path on is that path's share plus the rest. */
  lemma {:induction false} NonCanonicalCountHead(dir: string, paths: seq<string>, i: nat)
    requires i < |paths|
    ensures NonCanonicalCount(dir, paths[i..]) ==
      (if Canonical(dir, paths[i]) then 0 else 1) + NonCanonicalCount(dir, paths[i + 1..])
  {
    assert paths[i..][1..] == paths[i + 1..];
  }

  /** A registered path whose re-joined form is not registered is not canonical. */
  lemma {:induction false} NewRejoinedNotCanonical(dir: string, paths: seq<string>, i: nat)
    requires i < |paths| && PathJoin(dir, Basename(paths[i])) !in paths
    ensures !Canonical(dir, paths[i])
  {
    assert paths[i] in paths;
  }

  /** `createcommonmanifest()` */
  method CreateCommonManifest(c: Controller)
    requires c.Valid()
    modifies c`manifestFiles, c`files
    ensures c.Valid()
    ensures c.Arts() == CommonFrom(old(c.Arts()), c.manifestDir, c.render("nova_common.pp", c.conf), 0)
  {
    ghost var data := c.render("nova_common.pp", c.conf);
    var i := 0;
    while i < |c.manifestFiles|
      invariant i <= |c.manifestFiles|
      invariant c.Valid()
      invariant CommonFrom(old(c.Arts()), c.manifestDir, data, 0) == CommonFrom(c.Arts(), c.manifestDir, data, i)
      decreases NonCanonicalCount(c.manifestDir, c.manifestFiles[i..]), |c.manifestFiles| - i
    {
      ghost var a := c.Arts();
      CommonFromStep(a, c.manifestDir, data, i);
      var manifestfile := c.manifestFiles[i];
      if EndsWith(manifestfile, NovaSuffix) {
        var commondata := c.render("nova_common.pp", c.conf);
        c.AppendManifestFile(Basename(manifestfile), commondata);
      }
      i := i + 1;
    }
  }

  /** One iteration of `createcommonmanifest`: the rest of the walk from the new
      artifacts, and a smaller termination measure. */
  lemma {:induction false} CommonFromStep(a: Artifacts, dir: string, data: string, i: nat)
    requires i < |a.paths|
    ensures var a' := if EndsWith(a.paths[i], NovaSuffix) then Append(a, PathJoin(dir, Basename(a.paths[i])), data) else a;
      && CommonFrom(a, dir, data, i) == CommonFrom(a', dir, data, i + 1)
      && (|| NonCanonicalCount(dir, a'.paths[i + 1..]) < NonCanonicalCount(dir, a.paths[i..])
          || (NonCanonicalCount(dir, a'.paths[i + 1..]) == NonCanonicalCount(dir, a.paths[i..]) && |a'.paths| == |a.paths|))
  {
    RejoinShrinks(a.paths, dir, i);
    if !EndsWith(a.paths[i], NovaSuffix) {
      assert a.paths[i..][1..] == a.paths[i + 1..];
    }
  }

  /** When every registered path is canonical, the common step registers nothing new,
      and a file gains "\n" and the common template exactly when it is registered from
      the `i`-th entry on and ends in `_nova.pp` (so `<api host>_api_nova.pp` too). */
  lemma {:induction false} CommonEffect(a: Artifacts, dir: string, data: string, i: nat, p: string)
    requires i <= |a.paths| && NoDuplicates(a.paths)
    requires forall q :: q in a.paths ==> Canonical(dir, q)
    ensures CommonFrom(a, dir, data, i).paths == a.paths
    ensures Content(CommonFrom(a, dir, data, i), p) ==
      Content(a, p) + (if p in a.paths[i..] && EndsWith(p, NovaSuffix) then "\n" + data else "")
    decreases |a.paths| - i
  {
    if i < |a.paths| {
      var q := a.paths[i];
      var a' := CommonStep(a, dir, data, i);
      CommonEffect(a', dir, data, i + 1, p);
      assert a.paths[i..] == [q] + a.paths[i + 1..];
      assert q !in a.paths[i + 1..];
      if p == q && EndsWith(q, NovaSuffix) {
        ConcatAssoc(Content(a, p), "\n", data);
      }
    }
  }

  /** One step of `CommonFrom` over a canonical path: the path itself gets the data
      when it ends in `_nova.pp`, and the registry stays as it is. */
  lemma {:induction false} CommonStep(a: Artifacts, dir: string, data: string, i: nat) returns (a': Artifacts)
    requires i < |a.paths|
    requires forall q :: q in a.paths ==> Canonical(dir, q)
    ensures a' == (if EndsWith(a.paths[i], NovaSuffix) then Append(a, a.paths[i], data) else a)
    ensures a'.paths == a.paths
    ensures CommonFrom(a, dir, data, i) == CommonFrom(a', dir, data, i + 1)
  {
    var q := a.paths[i];
    assert q in a.paths;
    assert PathJoin(dir, Basename(q)) == q;
    a' := if EndsWith(q, NovaSuffix) then Append(a, q, data) else a;
  }

  /** The Nova API host's manifest is one of the files the common step extends. */
  lemma {:induction false} ApiManifestIsNovaManifest(host: string)
    ensures EndsWith(host + "_api_nova.pp", NovaSuffix)
  {
    var s := host + "_api_nova.pp";
    assert s[|s| - |NovaSuffix|..] == "_nova.pp";
  }

  // __get_libvirt_type_default

  /** `('kvm', 'qemu')['hypervisor' in cpuinfo]` */
  function LibvirtTypeDefault(cpuinfo: string): string {
    ["kvm", "qemu"][if IsInfix("hypervisor", cpuinfo) then 1 else 0]
  }

  /** The default is one of the two values the option accepts, and it is qemu exactly
      on a virtual machine, so a compute host then gets `libvirt_cpu_mode = "none"`. */
  lemma {:induction false} LibvirtDefaultChoice(cpuinfo: string)
    ensures LibvirtTypeDefault(cpuinfo) in ["qemu", "kvm"]
    ensures LibvirtTypeDefault(cpuinfo) == "qemu" <==> IsInfix("hypervisor", cpuinfo)
  {
    assert "kvm" != "qemu" by {
      assert "kvm"[0] != "qemu"[0];
    }
  }
}
