# packstack plugin core, modelled in Dafny

This project models the core of packstack, the OpenStack installer. That core is the
helpers in `modules/ospluginutils.py` and three plugins: the API endpoint server
(`plugins/api_050.py`), Nova (`plugins/nova_300.py`) and Glance (`plugins/glance_200.py`).
Each plugin has an `initSequences` that registers its installation steps with the
controller. Each step function reads `CONF`, renders a Puppet template and appends the
result to a per-host manifest through `appendManifestFile`. That call also records the
file in `CONF['CONFIG_MANIFESTFILES']`.

The modules are:

- `Results` (results.dfy): the `Result` type with `:-`, and the errors the core raises.
  These are `KeyError` for a missing `CONF` key, `PackStackError`, and a failed remote
  script.
- `Config` (config.dfy): `CONF` as an ordered association list, in `items()` order, with
  lookup and assignment.
- `Text` (text.dfy): the parts of Python's string and path library that the core uses.
  These are `split`, `join`, `strip`, `os.path.join` and the second half of
  `os.path.split`.
- `OrderedSet` (ordered_set.dfy): "append unless already present" lists.
- `Manifests` (manifests.dfy): the manifest registry and the manifest files, as a value.
- `PluginUtils` (ospluginutils.dfy):
  - the `Controller` class, holding `CONF`, the registry, the files and the sequences;
  - `appendManifestFile`, `setEndpoint` and `gethostlist`;
  - the `NovaConfig` class.
- `ApiPlugin`, `NovaPlugin` and `GlancePlugin` (api_050.dfy, nova_300.dfy,
  glance_200.dfy): each plugin's `initSequences` and manifest steps, as methods on the
  controller.

Each method is proved against a function of the old state, and the lemmas state what
those functions mean.

## Model

| member | source | states |
|---|---|---|
| Text.Split | modules/ospluginutils.py:55 | `str.split(sep)` gives at least one piece, and no piece contains the separator |
| Text.SplitJoin | modules/ospluginutils.py:55 | joining the pieces of `split(sep)` with `sep` gives back the original string |
| Text.JoinSplit | plugins/api_050.py:96 | splitting a join of separator-free pieces gives back exactly those pieces |
| Text.SplitNoSeparator | plugins/nova_300.py:200 | a string without the separator splits into itself alone |
| Text.SplitAfterPiece | plugins/nova_300.py:200 | splitting `p + sep + t`, where `p` has no separator, gives `p` followed by the pieces of `t` |
| Text.SplitHead | modules/ospluginutils.py:51 | the first piece of a split is a prefix of the string and, when shorter, is followed by the separator |
| Text.CutIsPrefixBeforeSlash | modules/ospluginutils.py:51 | `value.split('/')[0]` is the '/'-free prefix of `value`; it is all of `value` exactly when `value` has no '/', and otherwise a '/' follows it |
| Text.StripLeftIsSuffix | modules/ospluginutils.py:56 | stripping on the left removes only leading whitespace and leaves a suffix that is empty or starts with non-whitespace |
| Text.StripRightIsPrefix | modules/ospluginutils.py:56 | stripping on the right removes only trailing whitespace and leaves a prefix that is empty or ends with non-whitespace |
| Text.StripIsTrimmedSlice | modules/ospluginutils.py:56 | `strip()` is the slice `s[i..j]` with only whitespace before `i` and after `j`, and its ends are not whitespace |
| Text.BasenameIsLastSegment | plugins/nova_300.py:239 | `os.path.split(p)[1]` has no '/', is a suffix of `p`, and a '/' comes right before it unless it is all of `p` |
| Text.BasenameAfterSlash | plugins/nova_300.py:239 | the basename of a directory ending in '/' followed by a '/'-free name is that name |
| Text.BasenameOfPathJoin | modules/ospluginutils.py:40 | the basename of `os.path.join(dir, name)` is `name` whenever `name` has no '/' |
| Config.GetSet | modules/ospluginutils.py:66 | after `CONF[k] = v`, reading `k` gives `v` and reading any other key gives what it gave before |
| Config.SetOverwrite | modules/ospluginutils.py:66-68 | the second of two assignments to one key is the one that stays |
| Config.SetKeepsOrder | modules/ospluginutils.py:19 | assigning an existing key keeps the length and the key order; assigning a new key appends it at the end |
| Config.SetDistinct | modules/ospluginutils.py:19 | assignment keeps keys distinct |
| OrderedSet.DedupSnoc | modules/ospluginutils.py:52-53 | deduplicating one more element adds it at the end exactly when it is new |
| OrderedSet.AddAllKeepsPrefix | modules/ospluginutils.py:41-42 | appending-unless-present never drops or reorders what is already listed |
| OrderedSet.AddAllElements | modules/ospluginutils.py:58-59 | an element ends up listed exactly when it was listed before or was added |
| OrderedSet.AddAllNoDuplicates | modules/ospluginutils.py:58-59 | appending-unless-present keeps a list free of duplicates |
| OrderedSet.DedupFirstSeenOrder | modules/ospluginutils.py:47-60 | deduplication lists elements in the order of their first occurrence |
| Manifests.AppendWellFormed | modules/ospluginutils.py:39-45 | after an append, the path is registered once and its file is non-empty, and every registered path still names a written file |
| Manifests.AppendTwice | modules/ospluginutils.py:39-45 | two appends to one path register it once and leave the file holding the old text, then "\n" and the first data, then "\n" and the second |
| Manifests.AppendAllEffect | modules/ospluginutils.py:39-45 | a series of appends registers the new targets in first-call order and extends each file with its fragments in call order |
| Manifests.JoinedNameIsCanonical | modules/ospluginutils.py:40 | a path joined from the manifest directory and a '/'-free name rejoins to itself |
| Manifests.RejoinedIsCanonical | plugins/nova_300.py:239 | rejoining the basename of any path to the manifest directory gives a path that rejoins to itself |
| PluginUtils.Controller.constructor | modules/ospluginutils.py:7 | a fresh controller has the given `CONF` and files, an empty registry and no sequences |
| PluginUtils.Controller.AddSequence | plugins/api_050.py:70 | `addSequence` records one more sequence at the end, with its title, before and after lists, and steps |
| PluginUtils.Controller.AppendManifestFile | modules/ospluginutils.py:39-45 | the path is `PUPPET_MANIFEST_DIR/<name>`, registered if new; the file gains "\n" and the data; the registry stays duplicate-free |
| PluginUtils.Controller.SetEndpoint | modules/ospluginutils.py:64-68 | the outcome and new `CONF` are those of `SetEndpointConf`, including the write that is already made when a later lookup raises |
| PluginUtils.SetEndpointEffect | modules/ospluginutils.py:64-68 | success exactly when `host`, `CONFIG_API_INSTALL` and, when installed, `CONFIG_API_HOST` exist; `<host>_EP` becomes the API host if the API is installed, `CONF[host]` otherwise; no other key changes |
| PluginUtils.AppendFragment | plugins/glance_200.py:74-77 | a step appends the rendered template to `<CONF[key]><suffix>`, or raises the `KeyError` without writing anything |
| PluginUtils.AppendEndpointFragment | plugins/glance_200.py:66-72 | a keystone step runs `setEndpoint` first, then appends to `<CONFIG_KEYSTONE_HOST>_keystone.pp` |
| PluginUtils.EndpointFragmentMeaning | plugins/nova_300.py:185-191 | a keystone step fails exactly when `setEndpoint` or the keystone-host lookup does; its template is rendered against the `CONF` whose `_EP` key `setEndpoint` set |
| PluginUtils.ListHostsAt | modules/ospluginutils.py:55-57 | a `_HOSTS` value gives one host per comma piece, stripped and cut at '/' |
| PluginUtils.HostSuffixesExclusive | modules/ospluginutils.py:50-54 | no key ends in both `_HOST` and `_HOSTS`, so the two tests never both fire |
| PluginUtils.ListHostsMembers | modules/ospluginutils.py:55-57 | a host is listed exactly when some piece strips and cuts to it |
| PluginUtils.KeyHostsMeaning | modules/ospluginutils.py:50-59 | an entry contributes `h` exactly when the key ends in `_HOST` and `h` is the value cut at '/', or the key ends in `_HOSTS` and some comma piece gives `h` |
| PluginUtils.KeyHostsCases | modules/ospluginutils.py:50-59 | a `_HOST` key contributes one host, a `_HOSTS` key contributes its list, and any other key contributes none |
| PluginUtils.EntryHostIsCandidate | modules/ospluginutils.py:49-59 | every host an entry contributes is among the candidates |
| PluginUtils.CandidateHasEntry | modules/ospluginutils.py:49-59 | every candidate comes from some entry |
| PluginUtils.DedupCandidates | modules/ospluginutils.py:47-60 | the deduplicated candidates have no duplicates, are exactly the hosts some entry contributes, and follow first-seen order |
| PluginUtils.AddListedHosts | modules/ospluginutils.py:55-59 | the inner loop extends the list with the hosts of one `_HOSTS` value, keeping it deduplicated |
| PluginUtils.GetHostList | modules/ospluginutils.py:47-60 | `gethostlist` returns each host named by a `_HOST` or `_HOSTS` key exactly once, nothing else, in first-seen `items()` order |
| PluginUtils.OptionLinesConcat | modules/ospluginutils.py:27-28 | the option lines of two dictionaries in sequence are the lines of the first, then those of the second |
| PluginUtils.OptionLinesAround | modules/ospluginutils.py:27-28 | the option lines are the lines before an entry, then that entry's line, then the lines after it |
| PluginUtils.EntryTextHasOptionLine | modules/ospluginutils.py:21-30 | every option's `"name": value => "value";` line appears in the `nova_config` block |
| PluginUtils.NovaConfig.constructor | modules/ospluginutils.py:17 | the class attribute `options` starts empty |
| PluginUtils.NovaConfig.AddOption | modules/ospluginutils.py:18-19 | `addOption` assigns the option in the shared dictionary |
| PluginUtils.NovaConfig.GetManifestEntry | modules/ospluginutils.py:21-30 | the entry is empty exactly when there are no options; otherwise it starts with `nova_config{` and a newline, ends with `}`, and contains every option's line |
| ApiPlugin.FirstConflictAt | plugins/api_050.py:59-65 | the reported key is the earliest entry that conflicts, and nothing is reported exactly when no entry conflicts |
| ApiPlugin.FindConflict | plugins/api_050.py:59-65 | the scan skips `CONFIG_API_HOST` and keys without `_HOST`, and finds the first key whose stripped comma pieces include the API host |
| ApiPlugin.InitSequences | plugins/api_050.py:52-70 | registers the API sequence or raises, as `ApiSequences` says, and registers nothing when it raises |
| ApiPlugin.ApiNotInstalled | plugins/api_050.py:53-54 | without the API server nothing is registered or raised |
| ApiPlugin.ApiHostConflict | plugins/api_050.py:59-70 | with the API server, `PackStackError` is raised exactly when some other host key names the API host, and it names the first such key; otherwise exactly the one sequence is registered |
| ApiPlugin.OnlyOtherHostKeysConflict | plugins/api_050.py:61-62 | `CONFIG_API_HOST` itself and keys without `_HOST` never conflict |
| ApiPlugin.CreateManifest | plugins/api_050.py:72-98 | on success, appends `ApiManifest` to the registry and files; on failure, raises its error and writes nothing |
| ApiPlugin.ComposeManifest | plugins/api_050.py:73-96 | the text built step by step is `ApiManifest` |
| ApiPlugin.AddServices | plugins/api_050.py:78-94 | the five optional-service blocks run in table order |
| ApiPlugin.AddService | plugins/api_050.py:78-80 | one block adds nothing unless its flag is 'y', and otherwise adds a port and a proxy line per service endpoint |
| ApiPlugin.AddNamedDrafts | plugins/api_050.py:82-85 | adding a service's proxies to the draft gives the draft of the longer proxy list |
| ApiPlugin.DraftFromProxies | plugins/api_050.py:76-94 | the draft after the services holds exactly the ports and proxy lines of the collected proxies, and fails with the same error when they fail |
| ApiPlugin.ApiManifestMeaning | plugins/api_050.py:72-98 | the file is `<CONFIG_API_HOST>_api.pp`; its text is the template, a proxy line per proxy in order, then the firewall rule over their ports; it fails exactly when a lookup does |
| ApiPlugin.PortsOfProxies | plugins/api_050.py:76-93 | the `ports` list has one entry per proxy line, each the port of that proxy |
| ApiPlugin.ApiManifestHasProxies | plugins/api_050.py:77-94 | every proxy's vhost line appears in the manifest |
| ApiPlugin.FirewallPorts | plugins/api_050.py:96 | the firewall `dport` list splits back into exactly the quoted ports |
| ApiPlugin.ServiceEnabled | plugins/api_050.py:78-80 | a service block succeeds exactly when its flag exists and, if installed, its host too; it yields its proxies only when installed |
| ApiPlugin.ProxiesFromEnabled | plugins/api_050.py:78-94 | the services' proxies are collected exactly when every flag and needed host exists, and they are the installed services' proxies in order |
| ApiPlugin.ApiProxiesShape | plugins/api_050.py:76-94 | keystone:5000 always, then glance:9292, nova-api:8774 and nova-ec2:8773, cinder:8776, swift:8080 and horizon:80, each exactly when installed, each to its own host |
| ApiPlugin.ServiceBlocks | plugins/api_050.py:78-94 | each row of the service table gives the ports, names and host keys of the source |
| NovaPlugin.InitSequences | plugins/nova_300.py:165-178 | registers what `NovaSequences` says, or raises and registers nothing |
| NovaPlugin.NovaSequencesShape | plugins/nova_300.py:165-178 | nothing unless Nova is installed, and only a missing flag raises; otherwise one "Installing Nova API" sequence of seven single-function steps: api, keystone, cert, compute, network, scheduler, common |
| NovaPlugin.CreateApiManifest | plugins/nova_300.py:180-183 | appends `nova_api.pp` to `<CONFIG_NOVA_API_HOST>_api_nova.pp`, or raises without writing |
| NovaPlugin.CreateKeystoneManifest | plugins/nova_300.py:185-191 | runs `setEndpoint` on `CONFIG_NOVA_API_HOST`, then appends `keystone_nova.pp` to the keystone host's manifest |
| NovaPlugin.CreateCertManifest | plugins/nova_300.py:193-196 | appends `nova_cert.pp` to `<CONFIG_NOVA_CERT_HOST>_nova.pp` |
| NovaPlugin.CreateSchedManifest | plugins/nova_300.py:230-233 | appends `nova_sched.pp` to `<CONFIG_NOVA_SCHED_HOST>_nova.pp` |
| NovaPlugin.KeystoneSeesEndpoint | plugins/nova_300.py:185-191 | the keystone template sees `CONFIG_NOVA_API_HOST_EP` set to the API host when the API server is installed, and to the Nova API host otherwise |
| NovaPlugin.SharedHostAccumulates | plugins/nova_300.py:193-233 | cert and scheduler on one host share one `_nova.pp`, registered once and holding both fragments in step order |
| NovaPlugin.ComputeOneHost | plugins/nova_300.py:201-216 | one loop pass updates the shared options and the artifacts as `ComputeHost` says |
| NovaPlugin.CreateComputeManifest | plugins/nova_300.py:198-216 | the loop over the unstripped comma pieces, with one shared options dictionary, stops at the first failure |
| NovaPlugin.ComputeHostMeaning | plugins/nova_300.py:204-216 | `flat_interface` is set and one interface check runs exactly off the network host; `libvirt_cpu_mode` is "none" exactly for qemu; other options stay; a failed check writes nothing; otherwise the host's file gains the template and the block |
| NovaPlugin.ComputeHostMissingKey | plugins/nova_300.py:204-212 | a missing key raises `KeyError` before the host's manifest is written |
| NovaPlugin.SharedOptionsLeak | plugins/nova_300.py:204-207 | as written: with compute hosts "h,n" and network host n, n's manifest still gets the `flat_interface` line |
| NovaPlugin.LeakIntoNetworkHost | plugins/nova_300.py:200-216 | the loop over `[h, n]` from empty options succeeds and leaves the `flat_interface` line in n's file |
| NovaPlugin.LeakedLineInBlock | plugins/nova_300.py:216 | a block whose options hold `flat_interface` shows that line in the file it is appended to |
| NovaPlugin.CreateComputeManifestPerHost | plugins/nova_300.py:198-216 | the compute loop with a fresh `NovaConfig` per host |
| NovaPlugin.IntendedHostOptions | plugins/nova_300.py:204-213 | with a fresh `NovaConfig`, a host's block has `flat_interface` only off the network host and `libvirt_cpu_mode` only for qemu |
| NovaPlugin.PerHostNoLeak | plugins/nova_300.py:204-207 | on the same "h,n" input, per-host options append h's block and then n's, and n's sets no `flat_interface` |
| NovaPlugin.CreateNetworkManifest | plugins/nova_300.py:218-228 | checks both interfaces on the network host in one batch, then appends `nova_network.pp`; a failed batch writes nothing |
| NovaPlugin.NetworkChecksBeforeAppend | plugins/nova_300.py:218-228 | the step appends exactly when both checks pass, and a failure names the network host |
| NovaPlugin.RejoinShrinks | plugins/nova_300.py:236-239 | a rejoined path is either already registered, or it replaces a non-canonical path ahead, so walking a growing registry ends |
| NovaPlugin.CreateCommonManifest | plugins/nova_300.py:235-239 | walks the registry while it grows and appends the common template under the basename of each `_nova.pp` path |
| NovaPlugin.CommonEffect | plugins/nova_300.py:235-239 | with canonical paths, nothing new is registered, and a file gains "\n" and the template exactly when it is registered and ends in `_nova.pp` |
| NovaPlugin.ApiManifestIsNovaManifest | plugins/nova_300.py:237 | `<host>_api_nova.pp` ends in `_nova.pp`, so the common step extends it too |
| NovaPlugin.LibvirtDefaultChoice | plugins/nova_300.py:241-243 | the default is "kvm" or "qemu", and "qemu" exactly when cpuinfo mentions `hypervisor` |
| GlancePlugin.InitSequences | plugins/glance_200.py:56-64 | registers what `GlanceSequences` says, or raises and registers nothing |
| GlancePlugin.GlanceSequencesShape | plugins/glance_200.py:56-64 | nothing unless Glance is installed, and only a missing flag raises; otherwise one "Installing Glance" sequence: the keystone step, then the glance step |
| GlancePlugin.CreateKeystoneManifest | plugins/glance_200.py:66-72 | runs `setEndpoint` on `CONFIG_GLANCE_HOST`, then appends `keystone_glance.pp` to the keystone host's manifest |
| GlancePlugin.CreateManifest | plugins/glance_200.py:74-77 | appends `glance.pp` to `<CONFIG_GLANCE_HOST>_glance.pp` |
| GlancePlugin.KeystoneSetsEndpoint | plugins/glance_200.py:66-72 | only `CONFIG_GLANCE_HOST_EP` changes, to the API host or the Glance host; the keystone manifest is named from the keystone host |
| GlancePlugin.KeystoneBeforeGlance | plugins/glance_200.py:60-77 | on a fresh registry, the keystone manifest is registered before the Glance one, and the Glance manifest is named from the unchanged Glance host |

## Left out

- Template files: `getManifestTemplate` reads a file and applies `%` substitution with `CONF`. This is modelled as a function `render(template, CONF)` that the controller is given. A missing template and formatting errors are not modelled.
- File I/O: the manifest files are a map from path to text, and a file that is not in the map reads as empty. `PUPPET_MANIFEST_DIR` is the controller's `manifestDir`.
- Remote scripts: `utils.ScriptRunner` and `validate.r_validateIF` are modelled as a function `remote(host, commands)` that says whether the batch succeeds. The commands are only the queued interface checks.
- `/proc/cpuinfo`: its text is a parameter of `LibvirtTypeDefault`.
- Parameter tables: the `addGroup` parameter tables and `initConfig` are not modelled, because they are declarative data for the setup controller.
- Logging is not modelled.
- `setup_controller.Controller` is not part of this model. `addSequence` only records the sequence; running the sequences is not modelled.
- Python dictionary order: `CONF.items()` and `NovaConfig.options.items()` follow insertion order here. Python 2 leaves that order unspecified, so the order of the `nova_config` lines and of `gethostlist`'s result is stated against this order.
- `CONF['CONFIG_MANIFESTFILES']`: this is the only list-valued entry. It is the controller's separate `manifestFiles` field, and it never takes part in the `_HOST` scans.
- `setEndpoint(CONF, host)`: its first argument is unused in the source, which reads and writes `controller.CONF`. The model does the same.

## Findings

| source | as written | input that shows it | evidently intended | confidence | as-written member | corrected member |
|---|---|---|---|---|---|---|
| plugins/nova_300.py:204 | `options` is a class attribute of `NovaConfig` (modules/ospluginutils.py:17), so every `NovaConfig()` shares one dictionary. Options set for one compute host stay set for the hosts after it | `CONFIG_NOVA_COMPUTE_HOSTS` = "h,n" with `CONFIG_NOVA_NETWORK_HOST` = "n": n's `_nova.pp` gets `flat_interface`, although lines 206-207 set it only off the network host | each host's block is built from that host's own options | not executed | NovaPlugin.SharedOptionsLeak | NovaPlugin.PerHostNoLeak |
