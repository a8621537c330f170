/**
  modules/ospluginutils.py: the shared controller state the plugins write to, the
  manifest accumulator `appendManifestFile`, the endpoint helper `setEndpoint`, the
  host resolver `gethostlist` and the `nova_config` block builder `NovaConfig`.
*/
module PluginUtils {
  import opened Text
  import opened Results
  import opened Config
  import opened OrderedSet
  import opened Manifests

  /** The plugin functions a step can name. */
  datatype Unit =
    | ApiCreateManifest
    | NovaCreateApiManifest
    | NovaCreateKeystoneManifest
    | NovaCreateCertManifest
    | NovaCreateComputeManifest
    | NovaCreateNetworkManifest
    | NovaCreateSchedManifest
    | NovaCreateCommonManifest
    | GlanceCreateKeystoneManifest
    | GlanceCreateManifest

  /** `{'title': ..., 'functions': [...]}` */
  datatype Step = Step(title: string, functions: seq<Unit>)

  /** One `controller.addSequence(title, before, after, steps)` call. */
  datatype Sequence = Sequence(title: string, before: seq<string>, after: seq<string>, steps: seq<Step>)

  /** A command queued on a `ScriptRunner`; `r_validateIF(server, iface)` queues a
      check that the interface exists on the host. */
  datatype Command = CheckInterface(iface: string)

  /**
    The process-wide controller: `CONF` (scalar entries), its list-valued entry
    `CONFIG_MANIFESTFILES`, the manifest files in `PUPPET_MANIFEST_DIR`, and the
    sequences registered so far. Rendering a template against `CONF` and running a
    batch of commands on a host are collaborators, given as functions.
  */
  class Controller {
    var conf: Conf
    var manifestFiles: seq<string>
    var files: map<string, string>
    var sequences: seq<Sequence>
    const manifestDir: string
    const render: (string, Conf) -> string
    const remote: (string, seq<Command>) -> bool

    function Arts(): Artifacts
      reads this
    {
      Artifacts(manifestFiles, files)
    }

    ghost predicate Valid()
      reads this
    {
      DistinctKeys(conf) && WellFormed(Arts())
    }

    constructor (dir: string, conf0: Conf, files0: map<string, string>,
                 render: (string, Conf) -> string, remote: (string, seq<Command>) -> bool)
      requires DistinctKeys(conf0)
      ensures Valid()
      ensures conf == conf0 && manifestFiles == [] && files == files0 && sequences == []
      ensures manifestDir == dir && this.render == render && this.remote == remote
    {
      conf := conf0;
      manifestFiles := [];
      files := files0;
      sequences := [];
      manifestDir := dir;
      this.render := render;
      this.remote := remote;
    }

    /** Registration of a sequence, recorded in call order. */
    method AddSequence(title: string, before: seq<string>, after: seq<string>, steps: seq<Step>)
      modifies this`sequences
      ensures sequences == old(sequences) + [Sequence(title, before, after, steps)]
    {
      sequences := sequences + [Sequence(title, before, after, steps)];
    }

    /** `appendManifestFile(manifest_name, data)` */
    method AppendManifestFile(manifestName: string, data: string)
      requires Valid()
      modifies this`manifestFiles, this`files
      ensures Valid()
      ensures Arts() == Append(old(Arts()), PathJoin(manifestDir, manifestName), data)
    {
      var manifestfile := PathJoin(manifestDir, manifestName);
      if manifestfile !in manifestFiles {
        manifestFiles := manifestFiles + [manifestfile];
      }
      var before := if manifestfile in files then files[manifestfile] else "";
      files := files[manifestfile := before + "\n"];
      files := files[manifestfile := files[manifestfile] + data];
      AppendWellFormed(old(Arts()), manifestfile, data);
    }

    /** `setEndpoint(CONF, host)`: the `CONF` argument is not used, the shared
        `controller.CONF` is. */
    method SetEndpoint(host: string) returns (r: Result<()>)
      requires Valid()
      modifies this`conf
      ensures Valid()
      ensures (r, conf) == SetEndpointConf(old(conf), host)
    {
      var hostEp := host + "_EP";
      var value :- Lookup(conf, host);
      SetDistinct(conf, hostEp, value);
      conf := Set(conf, hostEp, value);
      var install :- Lookup(conf, "CONFIG_API_INSTALL");
      if install == "y" {
        var apiHost :- Lookup(conf, "CONFIG_API_HOST");
        SetDistinct(conf, hostEp, apiHost);
        conf := Set(conf, hostEp, apiHost);
      }
      r := Ok(());
    }
  }

  /** The outcome and the new `CONF` of `setEndpoint(CONF, host)`, including the
      write that has already happened when a later lookup raises. */
  function SetEndpointConf(conf: Conf, host: string): (Result<()>, Conf) {
    var hostEp := host + "_EP";
    match Lookup(conf, host)
    case Err(e) => (Err(e), conf)
    case Ok(value) =>
      var c1 := Set(conf, hostEp, value);
      match Lookup(c1, "CONFIG_API_INSTALL")
      case Err(e) => (Err(e), c1)
      case Ok(install) =>
        if install != "y" then (Ok(()), c1)
        else
          match Lookup(c1, "CONFIG_API_HOST")
          case Err(e) => (Err(e), c1)
          case Ok(apiHost) => (Ok(()), Set(c1, hostEp, apiHost))
  }

  /** `setEndpoint` succeeds exactly when the keys it reads are there; it then sets
      `<host>_EP` to the API host when the API server is installed and to `CONF[host]`
      otherwise, and leaves every other key, `host` itself included, as it was. */
  lemma {:induction false} SetEndpointEffect(conf: Conf, host: string)
    ensures var (r, conf') := SetEndpointConf(conf, host);
      r.Ok? <==> (HasKey(conf, host) && HasKey(conf, "CONFIG_API_INSTALL") &&
                  (Get(conf, "CONFIG_API_INSTALL") == Some("y") ==> HasKey(conf, "CONFIG_API_HOST")))
    ensures var (r, conf') := SetEndpointConf(conf, host);
      r.Ok? ==> (Get(conf', host + "_EP") ==
                 if Get(conf, "CONFIG_API_INSTALL") == Some("y") then Get(conf, "CONFIG_API_HOST") else Get(conf, host))
    ensures var (r, conf') := SetEndpointConf(conf, host);
      forall k :: k != host + "_EP" ==> Get(conf', k) == Get(conf, k)
  {
    var hostEp := host + "_EP";
    assert hostEp[|hostEp| - 1] == 'P';
    assert hostEp != "CONFIG_API_INSTALL" && hostEp != "CONFIG_API_HOST";
    if HasKey(conf, host) {
      var value := Get(conf, host).value;
      var c1 := Set(conf, hostEp, value);
      forall k ensures Get(c1, k) == if k == hostEp then Some(value) else Get(conf, k) {
        GetSet(conf, hostEp, value, k);
      }
      if Get(c1, "CONFIG_API_INSTALL") == Some("y") && HasKey(c1, "CONFIG_API_HOST") {
        var apiHost := Get(c1, "CONFIG_API_HOST").value;
        forall k ensures Get(Set(c1, hostEp, apiHost), k) == if k == hostEp then Some(apiHost) else Get(c1, k) {
          GetSet(c1, hostEp, apiHost, k);
        }
      }
    }
  }

  // The shape of the plugins' `create*manifest` steps: look up a host, name the file
  // after it, render a template and append the text to that file.

  /** `manifestfile = "%s<suffix>" % CONF[key]` and `manifestdata =
      getManifestTemplate(template)`: the file name and the text, or the `KeyError`. */
  function Fragment(conf: Conf, render: (string, Conf) -> string, key: string, suffix: string, template: string)
    : Result<(string, string)>
  {
    var host :- Lookup(conf, key);
    Ok((host + suffix, render(template, conf)))
  }

  /** The artifacts after a step has appended its fragment, or unchanged when composing
      the fragment raised. */
  function Emitted(a: Artifacts, dir: string, f: Result<(string, string)>): Artifacts {
    if f.Ok? then Append(a, PathJoin(dir, f.value.0), f.value.1) else a
  }

  /** A step that names its file after `CONF[key]` and appends the rendered `template`. */
  method AppendFragment(c: Controller, key: string, suffix: string, template: string) returns (r: Result<()>)
    requires c.Valid()
    modifies c`manifestFiles, c`files
    ensures c.Valid()
    ensures r == Status(Fragment(c.conf, c.render, key, suffix, template))
    ensures c.Arts() == Emitted(old(c.Arts()), c.manifestDir, Fragment(c.conf, c.render, key, suffix, template))
  {
    var host :- Lookup(c.conf, key);
    var manifestfile := host + suffix;
    var manifestdata := c.render(template, c.conf);
    c.AppendManifestFile(manifestfile, manifestdata);
    r := Ok(());
  }

  /** A keystone step: `setEndpoint(CONF, key)`, then the fragment for
      `<CONFIG_KEYSTONE_HOST>_keystone.pp` rendered from `template` against the `CONF`
      `setEndpoint` left; together with that `CONF`. */
  function EndpointFragment(conf: Conf, render: (string, Conf) -> string, key: string, template: string)
    : (Result<(string, string)>, Conf)
  {
    var (ok, conf') := SetEndpointConf(conf, key);
    if ok.Err? then (Err(ok.error), conf')
    else (Fragment(conf', render, "CONFIG_KEYSTONE_HOST", "_keystone.pp", template), conf')
  }

  method AppendEndpointFragment(c: Controller, key: string, template: string) returns (r: Result<()>)
    requires c.Valid()
    modifies c`conf, c`manifestFiles, c`files
    ensures c.Valid()
    ensures c.conf == EndpointFragment(old(c.conf), c.render, key, template).1
    ensures r == Status(EndpointFragment(old(c.conf), c.render, key, template).0)
    ensures c.Arts() == Emitted(old(c.Arts()), c.manifestDir, EndpointFragment(old(c.conf), c.render, key, template).0)
  {
    var ok :- c.SetEndpoint(key);
    r := AppendFragment(c, "CONFIG_KEYSTONE_HOST", "_keystone.pp", template);
  }

  /** A keystone step writes `<CONFIG_KEYSTONE_HOST>_keystone.pp`, where the keystone
      host is read after `setEndpoint` but is the one `CONF` held before it; the template
      is rendered against a `CONF` whose `<key>_EP` is the API host when the API server
      is installed and `CONF[key]` otherwise; it fails exactly when `setEndpoint` or the
      keystone host lookup does. */
  lemma {:induction false} EndpointFragmentMeaning(conf: Conf, render: (string, Conf) -> string, key: string, template: string)
    ensures var (f, _) := EndpointFragment(conf, render, key, template);
      f.Ok? <==> SetEndpointConf(conf, key).0.Ok? && HasKey(conf, "CONFIG_KEYSTONE_HOST")
    ensures var (f, conf') := EndpointFragment(conf, render, key, template);
      f.Ok? ==>
        (&& f.value.0 == Get(conf, "CONFIG_KEYSTONE_HOST").value + "_keystone.pp"
         && f.value.1 == render(template, conf')
         && Get(conf', key + "_EP") ==
            (if Get(conf, "CONFIG_API_INSTALL") == Some("y") then Get(conf, "CONFIG_API_HOST") else Get(conf, key)))
  {
    SetEndpointEffect(conf, key);
    var hostEp := key + "_EP";
    assert hostEp[|hostEp| - 1] == 'P';
    assert hostEp != "CONFIG_KEYSTONE_HOST";
  }


  /** The hosts a `_HOSTS` value lists: each comma-separated piece, stripped and cut
      at its first '/'. */
  function ListHosts(pieces: seq<string>): seq<string>
    decreases |pieces|
  {
    if |pieces| == 0 then [] else ListHosts(pieces[..|pieces| - 1]) + [Cut(Strip(pieces[|pieces| - 1]))]
  }

  /** `ListHosts` maps each piece to its stripped and cut host, position by position. */
  lemma {:induction false} ListHostsAt(pieces: seq<string>)
    ensures |ListHosts(pieces)| == |pieces|
    ensures forall i :: 0 <= i < |pieces| ==> ListHosts(pieces)[i] == Cut(Strip(pieces[i]))
    decreases |pieces|
  {
    if |pieces| > 0 {
      ListHostsAt(pieces[..|pieces| - 1]);
    }
  }

  /** The hosts one `CONF` entry contributes, in the order `gethostlist` meets them. */
  function KeyHosts(key: string, value: string): seq<string> {
    (if EndsWith(key, "_HOST") then [Cut(value)] else []) +
    (if EndsWith(key, "_HOSTS") then ListHosts(Split(value, ',')) else [])
  }

  /** Every host reference in `CONF`, repetitions included, in `items()` order. */
  function HostCandidates(conf: Conf): seq<string>
    decreases |conf|
  {
    if |conf| == 0 then []
    else HostCandidates(conf[..|conf| - 1]) + KeyHosts(conf[|conf| - 1].0, conf[|conf| - 1].1)
  }

  /** A key cannot end in both `_HOST` and `_HOSTS`. */
  lemma {:induction false} HostSuffixesExclusive(key: string)
    ensures EndsWith(key, "_HOST") ==> !EndsWith(key, "_HOSTS")
  {
    if EndsWith(key, "_HOST") && |key| >= 6 {
      assert key[|key| - 1] == key[|key| - 5..][4] == 'T';
      assert key[|key| - 6..][5] == key[|key| - 1];
    }
  }

  /** A host is listed exactly when some piece strips and cuts to it. */
  lemma {:induction false} ListHostsMembers(pieces: seq<string>, h: string)
    ensures h in ListHosts(pieces) <==> exists p :: p in pieces && h == Cut(Strip(p))
  {
    ListHostsAt(pieces);
    if h in ListHosts(pieces) {
      var i :| 0 <= i < |pieces| && ListHosts(pieces)[i] == h;
      assert pieces[i] in pieces;
    }
    if exists p :: p in pieces && h == Cut(Strip(p)) {
      var p :| p in pieces && h == Cut(Strip(p));
      var i :| 0 <= i < |pieces| && pieces[i] == p;
      assert ListHosts(pieces)[i] == h;
    }
  }

  /** What one entry contributes: its `_HOST` value cut at '/', or each stripped and
      cut piece of its `_HOSTS` value, and nothing for any other key. */
  lemma {:induction false} KeyHostsMeaning(key: string, value: string, h: string)
    ensures h in KeyHosts(key, value) <==>
      (EndsWith(key, "_HOST") && h == Cut(value)) ||
      (EndsWith(key, "_HOSTS") && exists p :: p in Split(value, ',') && h == Cut(Strip(p)))
  {
    var pieces := Split(value, ',');
    HostSuffixesExclusive(key);
    ListHostsMembers(pieces, h);
    if EndsWith(key, "_HOST") {
      assert KeyHosts(key, value) == [Cut(value)];
    } else if EndsWith(key, "_HOSTS") {
      assert KeyHosts(key, value) == ListHosts(pieces);
    } else {
      assert KeyHosts(key, value) == [];
    }
  }

  /** Every host an entry contributes is a candidate. */
  lemma {:induction false} EntryHostIsCandidate(conf: Conf, i: nat, h: string)
    requires i < |conf| && h in KeyHosts(conf[i].0, conf[i].1)
    ensures h in HostCandidates(conf)
    decreases |conf|
  {
    var n := |conf| - 1;
    var before, last := HostCandidates(conf[..n]), KeyHosts(conf[n].0, conf[n].1);
    assert HostCandidates(conf) == before + last;
    if i < n {
      assert conf[..n][i] == conf[i];
      EntryHostIsCandidate(conf[..n], i, h);
      assert h in before;
    } else {
      assert h in last;
    }
  }

  /** Every candidate comes from some entry. */
  lemma {:induction false} CandidateHasEntry(conf: Conf, h: string) returns (i: nat)
    requires h in HostCandidates(conf)
    ensures i < |conf| && h in KeyHosts(conf[i].0, conf[i].1)
    decreases |conf|
  {
    var n := |conf| - 1;
    if h in HostCandidates(conf[..n]) {
      i := CandidateHasEntry(conf[..n], h);
      assert conf[..n][i] == conf[i];
    } else {
      i := n;
    }
  }

  /** One more piece of a `_HOSTS` value extends the deduplicated list as
      `if host not in hosts: hosts.append(host)` does. */
  lemma {:induction false} AddPieceHost(seen: seq<string>, pieces: seq<string>, j: nat, hosts: seq<string>)
    requires j < |pieces|
    requires hosts == Dedup(seen + ListHosts(pieces[..j]))
    ensures AddNew(hosts, Cut(Strip(pieces[j]))) == Dedup(seen + ListHosts(pieces[..j + 1]))
  {
    var host := Cut(Strip(pieces[j]));
    var done := seen + ListHosts(pieces[..j]);
    assert ListHosts(pieces[..j + 1]) == ListHosts(pieces[..j]) + [host] by {
      assert pieces[..j + 1][..j] == pieces[..j];
    }
    ConcatAssoc(seen, ListHosts(pieces[..j]), [host]);
    DedupSnoc(done, host);
  }

  /** Which of the two tests of `gethostlist` an entry passes decides what it contributes. */
  lemma {:induction false} KeyHostsCases(key: string, value: string)
    ensures EndsWith(key, "_HOST") ==> KeyHosts(key, value) == [Cut(value)]
    ensures !EndsWith(key, "_HOST") && EndsWith(key, "_HOSTS") ==>
      KeyHosts(key, value) == ListHosts(Split(value, ','))
    ensures !EndsWith(key, "_HOST") && !EndsWith(key, "_HOSTS") ==> KeyHosts(key, value) == []
  {
    HostSuffixesExclusive(key);
  }

  /** One more entry of `CONF` extends the candidates by the hosts it contributes. */
  lemma {:induction false} HostCandidatesSnoc(conf: Conf, i: nat)
    requires i < |conf|
    ensures HostCandidates(conf[..i + 1]) == HostCandidates(conf[..i]) + KeyHosts(conf[i].0, conf[i].1)
  {
    assert conf[..i + 1][..i] == conf[..i];
  }

  /** The deduplicated candidates hold no host twice, hold exactly the hosts the
      entries contribute, and list them in first-seen order. */
  lemma {:induction false} DedupCandidates(conf: Conf)
    ensures NoDuplicates(Dedup(HostCandidates(conf)))
    ensures forall h :: h in Dedup(HostCandidates(conf)) <==>
      exists i :: 0 <= i < |conf| && h in KeyHosts(conf[i].0, conf[i].1)
    ensures forall i, j :: 0 <= i < j < |Dedup(HostCandidates(conf))| ==>
      IndexOf(HostCandidates(conf), Dedup(HostCandidates(conf))[i]) <
      IndexOf(HostCandidates(conf), Dedup(HostCandidates(conf))[j])
  {
    var cands := HostCandidates(conf);
    AddAllNoDuplicates([], cands);
    forall h ensures h in Dedup(cands) <==> exists i :: 0 <= i < |conf| && h in KeyHosts(conf[i].0, conf[i].1) {
      AddAllElements([], cands, h);
      if h in cands {
        var i := CandidateHasEntry(conf, h);
      }
      if exists i :: 0 <= i < |conf| && h in KeyHosts(conf[i].0, conf[i].1) {
        var i :| 0 <= i < |conf| && h in KeyHosts(conf[i].0, conf[i].1);
        EntryHostIsCandidate(conf, i, h);
      }
    }
    DedupFirstSeenOrder(cands);
  }

  /** The inner loop of `gethostlist` over the pieces of one `_HOSTS` value: each
      stripped and cut piece is appended unless already listed. */
  method AddListedHosts(hosts: seq<string>, value: string, ghost seen: seq<string>) returns (r: seq<string>)
    requires hosts == Dedup(seen)
    ensures r == Dedup(seen + ListHosts(Split(value, ',')))
  {
    r := hosts;
    var pieces := Split(value, ',');
    var j := 0;
    assert seen + ListHosts(pieces[..0]) == seen;
    while j < |pieces|
      invariant 0 <= j <= |pieces|
      invariant r == Dedup(seen + ListHosts(pieces[..j]))
    {
      AddPieceHost(seen, pieces, j, r);
      var host := pieces[j];
      host := Strip(host);
      host := Cut(host);
      if host !in r {
        r := r + [host];
      }
      j := j + 1;
    }
    assert pieces[..|pieces|] == pieces;
  }

  /** `gethostlist(CONF)` */
  method GetHostList(conf: Conf) returns (hosts: seq<string>)
    ensures hosts == Dedup(HostCandidates(conf))
    ensures NoDuplicates(hosts)
    ensures forall h :: h in hosts <==> exists i :: 0 <= i < |conf| && h in KeyHosts(conf[i].0, conf[i].1)
    ensures forall i, j :: 0 <= i < j < |hosts| ==>
      IndexOf(HostCandidates(conf), hosts[i]) < IndexOf(HostCandidates(conf), hosts[j])
  {
    hosts := [];
    var i := 0;
    while i < |conf|
      invariant 0 <= i <= |conf|
      invariant hosts == Dedup(HostCandidates(conf[..i]))
    {
      var key, value := conf[i].0, conf[i].1;
      ghost var seen := HostCandidates(conf[..i]);
      // The source tests the two suffixes in two independent `if`s; no key has both.
      KeyHostsCases(key, value);
      if EndsWith(key, "_HOST") {
        var host := Cut(value);
        if host !in hosts {
          hosts := hosts + [host];
        }
        DedupSnoc(seen, host);
      } else if EndsWith(key, "_HOSTS") {
        hosts := AddListedHosts(hosts, value, seen);
      } else {
        assert seen + [] == seen;
      }
      assert hosts == Dedup(seen + KeyHosts(key, value));
      HostCandidatesSnoc(conf, i);
      i := i + 1;
    }
    assert conf[..|conf|] == conf;
    DedupCandidates(conf);
  }

  /** One line of a `nova_config` block. */
  function OptionLine(name: string, value: string): string {
    "    \"" + name + "\": value => \"" + value + "\";\n"
  }

  function OptionLines(options: Conf): string
    decreases |options|
  {
    if |options| == 0 then ""
    else
      var last := options[|options| - 1];
      OptionLines(options[..|options| - 1]) + OptionLine(last.0, last.1)
  }

  lemma {:induction false} OptionLinesConcat(a: Conf, b: Conf)
    ensures OptionLines(a + b) == OptionLines(a) + OptionLines(b)
    decreases |b|
  {
    if |b| > 0 {
      var n := |b| - 1;
      assert (a + b)[..|a + b| - 1] == a + b[..n];
      assert (a + b)[|a + b| - 1] == b[n];
      OptionLinesConcat(a, b[..n]);
      assert OptionLines(a + b) == OptionLines(a + b[..n]) + OptionLine(b[n].0, b[n].1);
      assert OptionLines(b) == OptionLines(b[..n]) + OptionLine(b[n].0, b[n].1);
    } else {
      assert a + b == a;
    }
  }

  lemma {:induction false} GetFindsEntry(c: Conf, k: string) returns (i: nat)
    requires HasKey(c, k)
    ensures i < |c| && c[i] == (k, Get(c, k).value)
    decreases |c|
  {
    if c[0].0 == k {
      i := 0;
    } else {
      var j := GetFindsEntry(c[1..], k);
      i := j + 1;
    }
  }

  lemma {:induction false} Regroup(h: string, a: string, l: string, b: string, t: string)
    ensures h + (a + (l + b)) + t == (h + a) + l + (b + t)
  {
  }

  /** The `nova_config` block for a set of options, as `getManifestEntry` builds it. */
  function EntryText(options: Conf): string {
    if |options| == 0 then "" else "nova_config{\n" + OptionLines(options) + "}"
  }

  /** Every option set is written into the block as its own line. */
  lemma {:induction false} EntryTextHasOptionLine(options: Conf, name: string)
    requires HasKey(options, name)
    ensures IsInfix(OptionLine(name, Get(options, name).value), EntryText(options))
  {
    var i := GetFindsEntry(options, name);
    var line := OptionLine(name, Get(options, name).value);
    OptionLinesAround(options, i);
    var a, b := OptionLines(options[..i]), OptionLines(options[i + 1..]);
    var head, tail := "nova_config{\n", "}";
    Regroup(head, a, line, b, tail);
    InfixOfConcat(head + a, line, b + tail);
  }

  /** The lines of a dictionary are those before an entry, the entry's, and those after. */
  lemma {:induction false} OptionLinesAround(options: Conf, i: nat)
    requires i < |options|
    ensures OptionLines(options) ==
      OptionLines(options[..i]) + (OptionLine(options[i].0, options[i].1) + OptionLines(options[i + 1..]))
  {
    var pre, x, post := options[..i], [options[i]], options[i + 1..];
    var line := OptionLine(options[i].0, options[i].1);
    assert OptionLines(x) == line by {
      assert x[..0] == [];
      assert OptionLines(x) == OptionLines(x[..0]) + line;
      assert "" + line == line;
    }
    assert OptionLines(x + post) == OptionLines(x) + OptionLines(post) by {
      OptionLinesConcat(x, post);
    }
    assert OptionLines(pre + (x + post)) == OptionLines(pre) + OptionLines(x + post) by {
      OptionLinesConcat(pre, x + post);
    }
    assert options == pre + (x + post);
  }

  /**
    `NovaConfig`. Its `options` dictionary is a class attribute, so every instance
    the plugins create shares it: one `NovaConfig` object stands for all of them,
    and its constructor is the class definition's `options = {}`.
  */
  class NovaConfig {
    var options: Conf

    constructor ()
      ensures options == []
    {
      options := [];
    }

    /** `addOption(n, v)` */
    method AddOption(n: string, v: string)
      modifies this`options
      ensures options == Set(old(options), n, v)
    {
      options := Set(options, n, v);
    }

    /** `getManifestEntry()` */
    method GetManifestEntry() returns (entry: string)
      ensures entry == EntryText(options)
      ensures entry == "" <==> options == []
      ensures options != [] ==> "nova_config{\n" <= entry && EndsWith(entry, "}")
      ensures forall n :: HasKey(options, n) ==> IsInfix(OptionLine(n, Get(options, n).value), entry)
    {
      entry := "";
      if options == [] {
        return;
      }
      entry := entry + "nova_config{\n";
      var i := 0;
      while i < |options|
        invariant 0 <= i <= |options|
        invariant entry == "nova_config{\n" + OptionLines(options[..i])
      {
        entry := entry + OptionLine(options[i].0, options[i].1);
        assert options[..i + 1][..i] == options[..i];
        i := i + 1;
      }
      assert options[..|options|] == options;
      entry := entry + "}";
      forall n | HasKey(options, n) ensures IsInfix(OptionLine(n, Get(options, n).value), entry) {
        EntryTextHasOptionLine(options, n);
      }
    }
  }
}
