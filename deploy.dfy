/**
 * The Kubernetes objects the end-to-end test suite deploys: container image references,
 * the linkerd annotations that ask for proxy injection, and the names and labels of the
 * test namespace, the runner job and the server deployment. Only the fields this suite
 * sets are modelled; everything else of the Kubernetes types stays at its default.
 */
module Deploy {
  import opened Wrappers
  import Text

  /** A container image: repository and optional tag. */
  datatype Image = Image(repo: string, tag: Option<string>)

  /** `Display for Image`: `repo:tag`, with `latest` for a missing tag. */
  function ImageDisplay(i: Image): (s: string)
    ensures i.tag.None? ==> s == i.repo + ":latest"
    ensures i.tag.Some? ==> s == i.repo + ":" + i.tag.value
  {
    i.repo + ":" + (if i.tag.Some? then i.tag.value else "latest")
  }

  /**
   * The image reference reads back: the text after the last colon is the tag (`latest`
   * when none was given) and the text before it the repository, which may itself hold a
   * colon (a registry port).
   */
  lemma ImageDisplaySplits(i: Image)
    requires i.tag.Some? ==> ':' !in i.tag.value
    ensures i.tag.Some? ==> Text.SplitLast(ImageDisplay(i), ':') == Some((i.repo, i.tag.value))
    ensures i.tag.None? ==> Text.SplitLast(ImageDisplay(i), ':') == Some((i.repo, "latest"))
  {
    if i.tag.Some? {
      Text.SplitLastOfJoin(i.repo, ':', i.tag.value);
    } else {
      assert ImageDisplay(i) == i.repo + [':'] + "latest";
      Text.SplitLastOfJoin(i.repo, ':', "latest");
    }
  }

  /** How a workload is meshed, with extra proxy configuration keyed by annotation suffix. */
  datatype LinkerdConfig =
    | Enabled(config: map<string, string>)
    | Ingress(config: map<string, string>)

  /** `Default for LinkerdConfig`: injection enabled, no extra configuration. */
  function DefaultLinkerdConfig(): (c: LinkerdConfig)
    ensures c.Enabled? && c.config == map[]
  {
    Enabled(map[])
  }

  const InjectKey: string := "linkerd.io/inject"
  const ConfigPrefix: string := "config.linkerd.io/"
  const ProxyImageKey: string := ConfigPrefix + "proxy-image"
  const ProxyVersionKey: string := ConfigPrefix + "proxy-version"

  /** The value of the inject annotation for a configuration. */
  function InjectValue(c: LinkerdConfig): (v: string)
    ensures c.Enabled? ==> v == "enabled"
    ensures c.Ingress? ==> v == "ingress"
  {
    match c
    case Enabled(_) => "enabled"
    case Ingress(_) => "ingress"
  }

  /** A key with the configuration prefix determines its suffix. */
  lemma PrefixInjective(a: string, b: string)
    ensures ConfigPrefix + a == ConfigPrefix + b ==> a == b
  {
    if ConfigPrefix + a == ConfigPrefix + b {
      assert a == (ConfigPrefix + a)[|ConfigPrefix|..];
      assert b == (ConfigPrefix + b)[|ConfigPrefix|..];
    }
  }

  /** The keys of `keys`, each under the configuration prefix. */
  function PrefixedKeys(keys: set<string>): set<string>
  {
    set k | k in keys :: ConfigPrefix + k
  }

  /** The configuration entries for the given keys of `config`, each under the configuration prefix. */
  function ConfigEntries(config: map<string, string>, keys: set<string>): map<string, string>
    requires keys <= config.Keys
  {
    map key | key in PrefixedKeys(keys) :: config[key[|ConfigPrefix|..]]
  }

  /** `ConfigEntries` holds exactly the prefixed keys, each with its configured value. */
  lemma ConfigEntriesLookup(config: map<string, string>, keys: set<string>, k: string)
    requires keys <= config.Keys
    ensures ConfigPrefix + k in ConfigEntries(config, keys) <==> k in keys
    ensures k in keys ==> ConfigEntries(config, keys)[ConfigPrefix + k] == config[k]
  {
    assert (ConfigPrefix + k)[|ConfigPrefix|..] == k;
    if ConfigPrefix + k in PrefixedKeys(keys) {
      var j :| j in keys && ConfigPrefix + k == ConfigPrefix + j;
      PrefixInjective(j, k);
    }
  }

  lemma ConfigEntriesEmpty(config: map<string, string>)
    ensures ConfigEntries(config, {}) == map[]
  {
    assert PrefixedKeys({}) == {};
  }

  /** Adding one more key adds its one prefixed entry. */
  lemma ConfigEntriesStep(config: map<string, string>, done: set<string>, k: string)
    requires done <= config.Keys && k in config && k !in done
    ensures ConfigEntries(config, done + {k}) == ConfigEntries(config, done)[ConfigPrefix + k := config[k]]
  {
    var m := ConfigEntries(config, done);
    var m' := ConfigEntries(config, done + {k});
    var u := m[ConfigPrefix + k := config[k]];
    forall key | key in m'
      ensures key in u && m'[key] == u[key]
    {
      var j :| j in done + {k} && key == ConfigPrefix + j;
      ConfigEntriesLookup(config, done + {k}, j);
      if j != k {
        ConfigEntriesLookup(config, done, j);
      }
    }
    forall key | key in u
      ensures key in m'
    {
      if key != ConfigPrefix + k {
        var j :| j in done && key == ConfigPrefix + j;
        ConfigEntriesLookup(config, done + {k}, j);
      } else {
        ConfigEntriesLookup(config, done + {k}, k);
      }
    }
  }

  /**
   * The annotations `to_annotations` produces, in the order it inserts them: the inject
   * annotation, every configuration entry under the prefix, then the proxy image, then the
   * proxy version when the image has a tag. A later insert replaces an earlier one.
   */
  function Annotations(c: LinkerdConfig, image: Image): map<string, string>
  {
    var withConfig := map[InjectKey := InjectValue(c)] + ConfigEntries(c.config, c.config.Keys);
    var withImage := withConfig[ProxyImageKey := image.repo];
    if image.tag.Some? then withImage[ProxyVersionKey := image.tag.value] else withImage
  }

  /**
   * `LinkerdConfig::to_annotations`: inserts into an empty map, visiting the configuration in
   * whatever order the map yields its entries; the outcome does not depend on that order.
   */
  method ToAnnotations(c: LinkerdConfig, image: Image) returns (annotations: map<string, string>)
    ensures annotations == Annotations(c, image)
  {
    annotations := map[];
    annotations := annotations[InjectKey := InjectValue(c)];
    var base := annotations;
    var done: set<string> := {};
    var remaining := c.config.Keys;
    ConfigEntriesEmpty(c.config);
    while remaining != {}
      invariant remaining == c.config.Keys - done && done <= c.config.Keys
      invariant annotations == base + ConfigEntries(c.config, done)
      decreases remaining
    {
      var k :| k in remaining;
      ConfigEntriesStep(c.config, done, k);
      UnionUpdate(base, ConfigEntries(c.config, done), ConfigPrefix + k, c.config[k]);
      annotations := annotations[ConfigPrefix + k := c.config[k]];
      done := done + {k};
      remaining := remaining - {k};
    }
    assert done == c.config.Keys;
    annotations := annotations[ProxyImageKey := image.repo];
    if image.tag.Some? {
      annotations := annotations[ProxyVersionKey := image.tag.value];
    }
  }

  /** Updating the right operand of a union is updating the union. */
  lemma UnionUpdate<K, V>(base: map<K, V>, m: map<K, V>, key: K, v: V)
    ensures base + m[key := v] == (base + m)[key := v]
  {
  }

  /** The inject key does not carry the configuration prefix, so no configuration entry can replace it. */
  lemma InjectKeyNotPrefixed(k: string)
    ensures InjectKey != ConfigPrefix + k
  {
    assert InjectKey[0] != (ConfigPrefix + k)[0];
  }

  /** Every key of the annotations is the inject key or a configuration-prefixed key. */
  lemma AnnotationKeys(c: LinkerdConfig, image: Image, key: string)
    requires key in Annotations(c, image)
    ensures key == InjectKey || (|ConfigPrefix| <= |key| && key[..|ConfigPrefix|] == ConfigPrefix)
  {
    if key != InjectKey && key != ProxyImageKey && key != ProxyVersionKey {
      var k :| k in c.config && key == ConfigPrefix + k;
      assert key[..|ConfigPrefix|] == ConfigPrefix;
    }
  }

  /**
   * The values: injection as the configuration asks, the proxy image from the repository,
   * the proxy version from the tag when there is one and otherwise only from a configuration
   * entry, and each other configuration entry under its prefixed key.
   */
  lemma AnnotationValues(c: LinkerdConfig, image: Image)
    ensures InjectKey in Annotations(c, image) && Annotations(c, image)[InjectKey] == InjectValue(c)
    ensures ProxyImageKey in Annotations(c, image) && Annotations(c, image)[ProxyImageKey] == image.repo
    ensures image.tag.Some? ==> ProxyVersionKey in Annotations(c, image) && Annotations(c, image)[ProxyVersionKey] == image.tag.value
    ensures image.tag.None? ==> (ProxyVersionKey in Annotations(c, image) <==> "proxy-version" in c.config)
    ensures image.tag.None? && "proxy-version" in c.config ==> Annotations(c, image)[ProxyVersionKey] == c.config["proxy-version"]
    ensures forall k :: k in c.config && k != "proxy-image" && (image.tag.Some? ==> k != "proxy-version") ==>
      ConfigPrefix + k in Annotations(c, image) && Annotations(c, image)[ConfigPrefix + k] == c.config[k]
  {
    var a := Annotations(c, image);
    var entries := ConfigEntries(c.config, c.config.Keys);
    forall k | k in c.config
      ensures InjectKey != ConfigPrefix + k
    {
      InjectKeyNotPrefixed(k);
    }
    assert InjectKey !in entries;
    if image.tag.None? {
      assert ProxyVersionKey == ConfigPrefix + "proxy-version";
      if ProxyVersionKey in entries {
        var j :| j in c.config && ProxyVersionKey == ConfigPrefix + j;
        PrefixInjective(j, "proxy-version");
      }
      if "proxy-version" in c.config {
        assert ProxyVersionKey in entries;
      }
    }
    forall k | k in c.config && k != "proxy-image" && (image.tag.Some? ==> k != "proxy-version")
      ensures ConfigPrefix + k in a && a[ConfigPrefix + k] == c.config[k]
    {
      PrefixInjective(k, "proxy-image");
      PrefixInjective(k, "proxy-version");
      assert ConfigPrefix + k in entries;
      InjectKeyNotPrefixed(k);
    }
  }

  /** Exactly the keys described: nothing else is annotated. */
  lemma AnnotationKeySet(c: LinkerdConfig, image: Image, key: string)
    ensures key in Annotations(c, image) <==>
      || key == InjectKey
      || key == ProxyImageKey
      || (image.tag.Some? && key == ProxyVersionKey)
      || (exists k :: k in c.config && key == ConfigPrefix + k)
  {
  }

  // === Objects ===

  /** The metadata fields the test suite sets. */
  datatype ObjectMeta = ObjectMeta(namespace: Option<string>, name: Option<string>,
                                   labels: map<string, string>, annotations: map<string, string>)

  /** A container port, named so that probes can refer to it. */
  datatype ContainerPort = ContainerPort(name: Option<string>, containerPort: int)

  /** An HTTP GET probe against a named container port. */
  datatype Probe = Probe(path: Option<string>, port: string)

  datatype Container = Container(name: string, image: Option<string>, args: seq<string>,
                                 ports: seq<ContainerPort>, livenessProbe: Option<Probe>, readinessProbe: Option<Probe>)

  datatype PodTemplate = PodTemplate(metadata: ObjectMeta, containers: seq<Container>)

  datatype Job = Job(metadata: ObjectMeta, template: PodTemplate)

  datatype Deployment = Deployment(metadata: ObjectMeta, selectorLabels: map<string, string>, template: PodTemplate)

  datatype Namespace = NamespaceObject(metadata: ObjectMeta)

  /** `TestNs`: a test run's id, the test image and the proxy image. */
  datatype TestNs = TestNs(id: string, image: Image, proxyImage: Image)

  const NamespacePrefix: string := "linkerd-k8s-test-"

  /** The pod annotations for an optional linkerd configuration: none when there is no configuration. */
  function PodAnnotations(linkerd: Option<LinkerdConfig>, proxyImage: Image): (a: map<string, string>)
    ensures linkerd.None? ==> a == map[]
    ensures linkerd.Some? ==> a == Annotations(linkerd.value, proxyImage)
  {
    match linkerd
    case None => map[]
    case Some(c) => Annotations(c, proxyImage)
  }

  /** `TestNs::namespace`: the test's own namespace. */
  function TestNamespace(t: TestNs): (ns: Namespace)
    ensures ns.metadata.name == Some(NamespacePrefix + t.id)
    ensures ns.metadata.namespace.None? && ns.metadata.labels == map[] && ns.metadata.annotations == map[]
  {
    NamespaceObject(ObjectMeta(None, Some(NamespacePrefix + t.id), map[], map[]))
  }

  /** `TestNs::runner`: a job labelled `runner=<name>` running the test image as `runner`. */
  function Runner(t: TestNs, name: string, linkerd: Option<LinkerdConfig>): (j: Job)
    ensures j.metadata == ObjectMeta(Some(NamespacePrefix + t.id), Some("runner-" + name), map["runner" := name], map[])
    ensures j.template.metadata == ObjectMeta(None, None, map["runner" := name], PodAnnotations(linkerd, t.proxyImage))
    ensures j.template.containers == [Container("main", Some(ImageDisplay(t.image)), ["runner"], [], None, None)]
  {
    var labels := map["runner" := name];
    Job(
      ObjectMeta(Some(NamespacePrefix + t.id), Some("runner-" + name), labels, map[]),
      PodTemplate(
        ObjectMeta(None, None, labels, PodAnnotations(linkerd, t.proxyImage)),
        [Container("main", Some(ImageDisplay(t.image)), ["runner"], [], None, None)]))
  }

  const AdminPort := ContainerPort(Some("admin-http"), 9080)
  const TestPort := ContainerPort(Some("test-http"), 8080)

  /**
   * `TestNs::server`: a deployment labelled `server=<name>` running the test image as
   * `server`, with an admin port probed for liveness and readiness and a test port.
   */
  function Server(t: TestNs, name: string, linkerd: Option<LinkerdConfig>): (d: Deployment)
    ensures d.metadata == ObjectMeta(Some(NamespacePrefix + t.id), Some("server-" + name), map["server" := name], map[])
    ensures d.selectorLabels == map["server" := name]
    ensures d.template.metadata == ObjectMeta(None, None, map["server" := name], PodAnnotations(linkerd, t.proxyImage))
    ensures |d.template.containers| == 1
    ensures d.template.containers[0] == Container("main", Some(ImageDisplay(t.image)), ["server"], [AdminPort, TestPort],
                                                 Some(Probe(Some("/live"), "admin-http")), Some(Probe(Some("/ready"), "admin-http")))
  {
    var labels := map["server" := name];
    Deployment(
      ObjectMeta(Some(NamespacePrefix + t.id), Some("server-" + name), labels, map[]),
      labels,
      PodTemplate(
        ObjectMeta(None, None, labels, PodAnnotations(linkerd, t.proxyImage)),
        [Container("main", Some(ImageDisplay(t.image)), ["server"], [AdminPort, TestPort],
                   Some(Probe(Some("/live"), "admin-http")), Some(Probe(Some("/ready"), "admin-http")))]))
  }

  /** Whether a container declares a port of the given name. */
  predicate DeclaresPort(c: Container, portName: string)
  {
    exists i :: 0 <= i < |c.ports| && c.ports[i].name == Some(portName)
  }

  /**
   * The objects fit together: the runner and the server live in the test's namespace, the
   * deployment's selector selects its own pods, both probes name a declared port (the admin
   * port, 9080), and the port names are distinct.
   */
  lemma ObjectsConsistent(t: TestNs, name: string, linkerd: Option<LinkerdConfig>)
    ensures Runner(t, name, linkerd).metadata.namespace == TestNamespace(t).metadata.name
    ensures Server(t, name, linkerd).metadata.namespace == TestNamespace(t).metadata.name
    ensures Server(t, name, linkerd).selectorLabels == Server(t, name, linkerd).template.metadata.labels
    ensures var c := Server(t, name, linkerd).template.containers[0];
      && DeclaresPort(c, c.livenessProbe.value.port)
      && DeclaresPort(c, c.readinessProbe.value.port)
      && c.ports[0].containerPort == 9080 && c.ports[0].name == Some(c.livenessProbe.value.port)
      && c.ports[0].name != c.ports[1].name
  {
    var c := Server(t, name, linkerd).template.containers[0];
    assert c.ports[0].name == Some("admin-http");
  }

  /** Object names read back: stripping the fixed prefixes gives the id and the name. */
  lemma NamesDetermineInputs(t: TestNs, name: string, linkerd: Option<LinkerdConfig>)
    ensures TestNamespace(t).metadata.name.value[|NamespacePrefix|..] == t.id
    ensures Runner(t, name, linkerd).metadata.name.value[|"runner-"|..] == name
    ensures Server(t, name, linkerd).metadata.name.value[|"server-"|..] == name
  {
  }
}
