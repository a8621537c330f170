/**
  plugins/glance_200.py: the Glance plugin's sequence registration, its keystone
  step and its own manifest.
*/
module GlancePlugin {
  import opened Text
  import opened Results
  import opened Config
  import opened OrderedSet
  import opened Manifests
  import opened PluginUtils

  const GlanceInstall := "CONFIG_GLANCE_INSTALL"
  const GlanceHost := "CONFIG_GLANCE_HOST"

  /** The two steps of "Installing Glance"; the second title is spelled as the
      installer prints it. */
  function GlanceSteps(): seq<Step> {
    [ Step("Adding Glance Keystone Manifest entries", [GlanceCreateKeystoneManifest]),
      Step("Creating Galnce Manifest", [GlanceCreateManifest]) ]
  }

  /** What `initSequences` registers for a given `CONF`, or what it raises. */
  function GlanceSequences(conf: Conf): Result<seq<Sequence>> {
    var install :- Lookup(conf, GlanceInstall);
    if install != "y" then Ok([]) else Ok([Sequence("Installing Glance", [], [], GlanceSteps())])
  }

  /** `initSequences(controller)` */
  method InitSequences(c: Controller) returns (r: Result<()>)
    modifies c`sequences
    ensures GlanceSequences(c.conf).Ok? ==> r.Ok? && c.sequences == old(c.sequences) + GlanceSequences(c.conf).value
    ensures GlanceSequences(c.conf).Err? ==> r == Err(GlanceSequences(c.conf).error) && c.sequences == old(c.sequences)
  {
    var install :- Lookup(c.conf, GlanceInstall);
    if install != "y" {
      return Ok(());
    }
    c.AddSequence("Installing Glance", [], [], GlanceSteps());
    r := Ok(());
  }

  /** Nothing is registered unless Glance is installed, and only a missing install flag
      raises; otherwise one sequence runs the keystone step, then the glance step. */
  lemma {:induction false} GlanceSequencesShape(conf: Conf)
    ensures GlanceSequences(conf).Ok? <==> HasKey(conf, GlanceInstall)
    ensures GlanceSequences(conf).Ok? && Get(conf, GlanceInstall) != Some("y") ==> GlanceSequences(conf).value == []
    ensures Get(conf, GlanceInstall) == Some("y") ==>
      (&& |GlanceSequences(conf).value| == 1
       && GlanceSequences(conf).value[0].title == "Installing Glance"
       && |GlanceSequences(conf).value[0].steps| == 2
       && GlanceSequences(conf).value[0].steps[0].functions == [GlanceCreateKeystoneManifest]
       && GlanceSequences(conf).value[0].steps[1].functions == [GlanceCreateManifest])
  {
  }

  /** `createkeystonemanifest()`: the fragment and the `CONF` `setEndpoint` leaves. */
  function KeystoneFragment(conf: Conf, render: (string, Conf) -> string): (Result<(string, string)>, Conf) {
    EndpointFragment(conf, render, GlanceHost, "keystone_glance.pp")
  }

  method CreateKeystoneManifest(c: Controller) returns (r: Result<()>)
    requires c.Valid()
    modifies c`conf, c`manifestFiles, c`files
    ensures c.Valid()
    ensures c.conf == KeystoneFragment(old(c.conf), c.render).1
    ensures r == Status(KeystoneFragment(old(c.conf), c.render).0)
    ensures c.Arts() == Emitted(old(c.Arts()), c.manifestDir, KeystoneFragment(old(c.conf), c.render).0)
  {
    r := AppendEndpointFragment(c, GlanceHost, "keystone_glance.pp");
  }

  /** `createmanifest()` */
  function GlanceFragment(conf: Conf, render: (string, Conf) -> string): Result<(string, string)> {
    Fragment(conf, render, GlanceHost, "_glance.pp", "glance.pp")
  }

  method CreateManifest(c: Controller) returns (r: Result<()>)
    requires c.Valid()
    modifies c`manifestFiles, c`files
    ensures c.Valid()
    ensures r == Status(GlanceFragment(c.conf, c.render))
    ensures c.Arts() == Emitted(old(c.Arts()), c.manifestDir, GlanceFragment(c.conf, c.render))
  {
    r := AppendFragment(c, GlanceHost, "_glance.pp", "glance.pp");
  }

  /** The keystone step sets `CONFIG_GLANCE_HOST_EP` (to the API host when the API
      server is installed, to the Glance host otherwise) and changes no other key, and
      writes `<CONFIG_KEYSTONE_HOST>_keystone.pp` from the template rendered after it. */
  lemma {:induction false} KeystoneSetsEndpoint(conf: Conf, render: (string, Conf) -> string, k: string)
    ensures var (f, conf') := KeystoneFragment(conf, render);
      && (k != GlanceHost + "_EP" ==> Get(conf', k) == Get(conf, k))
      && (f.Ok? ==>
            (&& HasKey(conf, "CONFIG_KEYSTONE_HOST")
             && f.value.0 == Get(conf, "CONFIG_KEYSTONE_HOST").value + "_keystone.pp"
             && f.value.1 == render("keystone_glance.pp", conf')
             && Get(conf', GlanceHost + "_EP") ==
                (if Get(conf, "CONFIG_API_INSTALL") == Some("y") then Get(conf, "CONFIG_API_HOST") else Get(conf, GlanceHost))))
  {
    EndpointFragmentMeaning(conf, render, GlanceHost, "keystone_glance.pp");
    SetEndpointEffect(conf, GlanceHost);
  }

  /** The two steps in sequence order on a fresh registry: when both succeed, the
      keystone manifest is registered first and the glance manifest second (a single
      entry when the two names coincide), and the glance manifest is named after the
      Glance host, which `setEndpoint` leaves as it was. */
  lemma {:induction false} KeystoneBeforeGlance(conf: Conf, render: (string, Conf) -> string, dir: string, files: map<string, string>)
    ensures var (k, conf') := KeystoneFragment(conf, render);
      var g := GlanceFragment(conf', render);
      k.Ok? && g.Ok? ==>
        (&& HasKey(conf, GlanceHost)
         && g.value.0 == Get(conf, GlanceHost).value + "_glance.pp"
         && Emitted(Emitted(Artifacts([], files), dir, k), dir, g).paths ==
            Dedup([PathJoin(dir, k.value.0), PathJoin(dir, g.value.0)]))
  {
    var (k, conf') := KeystoneFragment(conf, render);
    SetEndpointEffect(conf, GlanceHost);
    var hostEp := GlanceHost + "_EP";
    assert hostEp[|hostEp| - 1] == 'P';
    assert hostEp != GlanceHost;
    var g := GlanceFragment(conf', render);
    if k.Ok? && g.Ok? {
      var p, q := PathJoin(dir, k.value.0), PathJoin(dir, g.value.0);
      DedupSnoc([p], q);
      DedupSnoc([], p);
      assert [p] + [q] == [p, q];
      assert [] + [p] == [p];
    }
  }
}
