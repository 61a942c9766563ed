/** The Rancher management plane, installed from its Helm chart; its TLS
    certificate comes from one of three sources. */
module Rancher {
  import opened Values
  import opened Resources
  import opened BaseComponents

  const DefaultName := "rancher"
  const DefaultNamespace := "cattle-system"
  const DefaultVersion := "2.11.2"
  const DefaultRepository := "https://releases.rancher.com/server-charts/stable"
  const IngressClassKey := "kubernetes.io/ingress.class"
  const IssuerKey := "cert-manager.io/cluster-issuer"
  const EditInPlaceKey := "acme.cert-manager.io/http01-edit-in-place"
  const EmailRequired := "acme_email is required when using Let's Encrypt"

  /** The `tls_source` option: "rancher", "letsEncrypt", "secret" or anything else. */
  function TlsSource(kwargs: Options): Value
  {
    Get(kwargs, "tls_source", Str("rancher"))
  }

  /** Let's Encrypt is chosen but no usable contact email is given. */
  predicate MissingAcmeEmail(kwargs: Options)
  {
    TlsSource(kwargs) == Str("letsEncrypt") && !Truthy(Get(kwargs, "acme_email", Null))
  }

  /** The ingress annotations once the TLS source has been applied. */
  function Annotations(kwargs: Options): Tree
  {
    var ingressClass := Get(kwargs, "ingress_class", Str("nginx"));
    if TlsSource(kwargs) == Str("letsEncrypt") then
      map[IngressClassKey := ingressClass, IssuerKey := Str("letsencrypt-prod"), EditInPlaceKey := Str("true")]
    else
      map[IngressClassKey := ingressClass, IssuerKey := Str("rancher-selfsigned")]
  }

  /** The ingress `tls` block for the chosen TLS source. */
  function Tls(name: string, kwargs: Options): Value
  {
    var source := TlsSource(kwargs);
    if source == Str("letsEncrypt") then
      Map(map["source" := Str("letsEncrypt"), "acme" := Map(map["email" := Get(kwargs, "acme_email", Null)])])
    else if source == Str("secret") then
      Map(map["source" := Str("secret"), "secretName" := Get(kwargs, "tls_secret_name", Str(name + "-tls"))])
    else
      Map(map["source" := source])
  }

  /** The values the component computes before the caller's `values` apply. */
  function ComputedValues(name: string, kwargs: Options): Tree
  {
    map[
      "replicas" := Get(kwargs, "replicas", Int(1)),
      "hostname" := Get(kwargs, "hostname", Str("rancher.local")),
      "ingress" := Map(map[
        "enabled" := Bool(true),
        "extraAnnotations" := Map(Annotations(kwargs)),
        "tls" := Tls(name, kwargs)]),
      "bootstrapPassword" := Get(kwargs, "bootstrap_password", Str("admin123"))]
  }

  /** The Helm values handed to the chart, or the exception `deploy` raises:
      only the missing Let's Encrypt email and a non-dict `values` can fail. */
  function HelmValues(name: string, kwargs: Options): (r: Result<Tree>)
    ensures r.Err? ==> r.error == ValueError(EmailRequired) || r.error == TypeError(NotAMapping)
  {
    if MissingAcmeEmail(kwargs) then Err(ValueError(EmailRequired))
    else
      match CallerValues(kwargs)
      case Ok(over) => Ok(Update(ComputedValues(name, kwargs), over))
      case Err(e) => Err(e)
  }

  /** The arguments of the Helm release `deploy` creates: chart "rancher" in
      the component's namespace with the Helm values, and neither
      `create_namespace` nor a Helm timeout; it fails exactly as the values do. */
  function ReleaseArgsFor(name: string, namespaceName: string, kwargs: Options): (r: Result<ReleaseArgs>)
    ensures r.Err? <==> HelmValues(name, kwargs).Err?
    ensures r.Err? ==> r.error == HelmValues(name, kwargs).error
    ensures r.Ok? ==> && r.value.chart == "rancher" && r.value.namespace == namespaceName
                      && r.value.values == HelmValues(name, kwargs).value
                      && r.value.createNamespace == None && r.value.timeout == None
  {
    match HelmValues(name, kwargs)
    case Ok(values) =>
      Ok(ReleaseArgs("rancher", Get(kwargs, "version", Str(DefaultVersion)), namespaceName,
                     Get(kwargs, "repository", Str(DefaultRepository)), values, None, None))
    case Err(e) => Err(e)
  }

  /** The release's resource options: a dependency edge only on a given release. */
  function OptionsFor(dependsOnRelease: Release?): (o: ResourceOptions)
    ensures dependsOnRelease != null ==> o.dependsOn == Some([dependsOnRelease])
    ensures dependsOnRelease == null ==> o.dependsOn == None
    ensures o.customTimeouts == None
  {
    ResourceOptions(if dependsOnRelease != null then Some([dependsOnRelease]) else None, None)
  }

  /** With no options: chart "rancher" 2.11.2 from the stable repository, one
      replica at rancher.local behind an nginx ingress with a self-signed
      certificate, and the default bootstrap password. */
  lemma Defaults(name: string, namespaceName: string)
    ensures ReleaseArgsFor(name, namespaceName, map[]) == Ok(ReleaseArgs(
      "rancher", Str("2.11.2"), namespaceName,
      Str("https://releases.rancher.com/server-charts/stable"),
      map[
        "replicas" := Int(1),
        "hostname" := Str("rancher.local"),
        "ingress" := Map(map[
          "enabled" := Bool(true),
          "extraAnnotations" := Map(map[IngressClassKey := Str("nginx"), IssuerKey := Str("rancher-selfsigned")]),
          "tls" := Map(map["source" := Str("rancher")])]),
        "bootstrapPassword" := Str("admin123")],
      None, None))
  {
    UpdateEmpty(ComputedValues(name, map[]));
    assert HelmValues(name, map[]) == Ok(ComputedValues(name, map[]));
  }

  /** The top-level keys are the four computed ones and whatever keys the
      caller's `values` add. */
  lemma TopLevelKeys(name: string, kwargs: Options)
    requires !MissingAcmeEmail(kwargs) && CallerValues(kwargs).Ok?
    ensures HelmValues(name, kwargs).Ok?
    ensures HelmValues(name, kwargs).value.Keys ==
              {"replicas", "hostname", "ingress", "bootstrapPassword"} + CallerValues(kwargs).value.Keys
  {
  }

  /** `deploy` fails exactly when Let's Encrypt lacks an email or `values` is
      not a dict; the missing email is reported first, whatever `values` holds. */
  lemma Failures(name: string, namespaceName: string, kwargs: Options)
    ensures ReleaseArgsFor(name, namespaceName, kwargs).Err? <==>
              MissingAcmeEmail(kwargs) || CallerValues(kwargs).Err?
    ensures MissingAcmeEmail(kwargs) ==>
              ReleaseArgsFor(name, namespaceName, kwargs) == Err(ValueError(EmailRequired))
  {
  }

  /** Let's Encrypt with an email: the issuer becomes letsencrypt-prod, the
      edit-in-place annotation is added, the ingress class is kept, and the
      tls block names the source and the email, unless the caller replaces `ingress`. */
  lemma LetsEncrypt(name: string, kwargs: Options)
    requires TlsSource(kwargs) == Str("letsEncrypt") && Truthy(Get(kwargs, "acme_email", Null))
    requires CallerValues(kwargs).Ok? && "ingress" !in CallerValues(kwargs).value
    ensures HelmValues(name, kwargs).Ok?
    ensures At(HelmValues(name, kwargs).value, ["ingress", "extraAnnotations"]) == Some(Map(map[
              IngressClassKey := Get(kwargs, "ingress_class", Str("nginx")),
              IssuerKey := Str("letsencrypt-prod"),
              EditInPlaceKey := Str("true")]))
    ensures At(HelmValues(name, kwargs).value, ["ingress", "tls"]) == Some(Map(map[
              "source" := Str("letsEncrypt"),
              "acme" := Map(map["email" := kwargs["acme_email"]])]))
  {
    var v := HelmValues(name, kwargs).value;
    assert v["ingress"] == ComputedValues(name, kwargs)["ingress"];
    At2(v, "ingress", "extraAnnotations");
    Lookup1(v["ingress"], "extraAnnotations");
    At2(v, "ingress", "tls");
    Lookup1(v["ingress"], "tls");
  }

  /** A pre-existing secret: the tls block names it, defaulting to
      "<name>-tls", and the annotations stay self-signed. */
  lemma Secret(name: string, kwargs: Options)
    requires TlsSource(kwargs) == Str("secret")
    requires CallerValues(kwargs).Ok? && "ingress" !in CallerValues(kwargs).value
    ensures HelmValues(name, kwargs).Ok?
    ensures At(HelmValues(name, kwargs).value, ["ingress", "extraAnnotations"]) == Some(Map(map[
              IngressClassKey := Get(kwargs, "ingress_class", Str("nginx")),
              IssuerKey := Str("rancher-selfsigned")]))
    ensures At(HelmValues(name, kwargs).value, ["ingress", "tls"]) == Some(Map(map[
              "source" := Str("secret"),
              "secretName" := if "tls_secret_name" in kwargs then kwargs["tls_secret_name"]
                              else Str(name + "-tls")]))
  {
    var v := HelmValues(name, kwargs).value;
    assert v["ingress"] == ComputedValues(name, kwargs)["ingress"];
    At2(v, "ingress", "extraAnnotations");
    Lookup1(v["ingress"], "extraAnnotations");
    At2(v, "ingress", "tls");
    Lookup1(v["ingress"], "tls");
  }

  /** Any other source, recognised or not, is accepted and passed through
      with the self-signed issuer. */
  lemma OtherSource(name: string, kwargs: Options)
    requires TlsSource(kwargs) != Str("letsEncrypt") && TlsSource(kwargs) != Str("secret")
    requires CallerValues(kwargs).Ok? && "ingress" !in CallerValues(kwargs).value
    ensures HelmValues(name, kwargs).Ok?
    ensures At(HelmValues(name, kwargs).value, ["ingress", "extraAnnotations", IssuerKey]) ==
              Some(Str("rancher-selfsigned"))
    ensures At(HelmValues(name, kwargs).value, ["ingress", "tls"]) == Some(Map(map["source" := TlsSource(kwargs)]))
  {
    var v := HelmValues(name, kwargs).value;
    assert v["ingress"] == ComputedValues(name, kwargs)["ingress"];
    At3(v, "ingress", "extraAnnotations", IssuerKey);
    Lookup1(v["ingress"].entries["extraAnnotations"], IssuerKey);
    At2(v, "ingress", "tls");
    Lookup1(v["ingress"], "tls");
  }

  /** The caller's `values` replace top-level keys wholesale: a caller
      `ingress` discards the computed TLS block, and keys the caller does not
      give keep their computed values. */
  lemma CallerValuesReplaceTopLevelKeys(name: string, kwargs: Options, key: string, path: seq<string>)
    requires !MissingAcmeEmail(kwargs) && CallerValues(kwargs).Ok?
    ensures HelmValues(name, kwargs).Ok?
    ensures key in CallerValues(kwargs).value ==>
              At(HelmValues(name, kwargs).value, [key] + path) == Lookup(CallerValues(kwargs).value[key], path)
    ensures key !in CallerValues(kwargs).value ==>
              At(HelmValues(name, kwargs).value, [key] + path) == At(ComputedValues(name, kwargs), [key] + path)
  {
    AtUpdate(ComputedValues(name, kwargs), CallerValues(kwargs).value, [key] + path);
    assert ([key] + path)[1..] == path;
  }

  /** The values as `deploy` builds them: the defaults first, then the TLS
      source's changes made in place, then the caller's `values`. */
  method BuildHelmValues(name: string, kwargs: Options) returns (r: Result<Tree>)
    ensures r == HelmValues(name, kwargs)
  {
    var values: Tree := map[
      "replicas" := Get(kwargs, "replicas", Int(1)),
      "hostname" := Get(kwargs, "hostname", Str("rancher.local")),
      "ingress" := Map(map[
        "enabled" := Bool(true),
        "extraAnnotations" := Map(map[
          IngressClassKey := Get(kwargs, "ingress_class", Str("nginx")),
          IssuerKey := Str("rancher-selfsigned")]),
        "tls" := Map(map["source" := Get(kwargs, "tls_source", Str("rancher"))])]),
      "bootstrapPassword" := Get(kwargs, "bootstrap_password", Str("admin123"))];

    var tlsSource := Get(kwargs, "tls_source", Str("rancher"));
    if tlsSource == Str("letsEncrypt") {
      var acmeEmail := Get(kwargs, "acme_email", Null);
      if !Truthy(acmeEmail) {
        return Err(ValueError(EmailRequired));
      }
      var ingress := values["ingress"].entries;
      var annotations := Update(ingress["extraAnnotations"].entries,
                                map[IssuerKey := Str("letsencrypt-prod"), EditInPlaceKey := Str("true")]);
      ingress := ingress["extraAnnotations" := Map(annotations)];
      ingress := ingress["tls" := Map(map["source" := Str("letsEncrypt"), "acme" := Map(map["email" := acmeEmail])])];
      assert annotations == Annotations(kwargs);
      assert Map(ingress) == ComputedValues(name, kwargs)["ingress"];
      values := values["ingress" := Map(ingress)];
    } else if tlsSource == Str("secret") {
      var ingress := values["ingress"].entries;
      ingress := ingress["tls" := Map(map[
        "source" := Str("secret"),
        "secretName" := Get(kwargs, "tls_secret_name", Str(name + "-tls"))])];
      assert Map(ingress) == ComputedValues(name, kwargs)["ingress"];
      values := values["ingress" := Map(ingress)];
    }
    assert values == ComputedValues(name, kwargs);
    UpdateEmpty(values);

    if "values" in kwargs {
      var over := kwargs["values"];
      if !over.Map? {
        return Err(TypeError(NotAMapping));
      }
      values := Update(values, over.entries);
    }
    r := Ok(values);
  }

  class RancherComponent {
    const base: BaseComponent

    constructor (name: string := DefaultName, namespace: Option<string> := Some(DefaultNamespace))
      ensures fresh(base) && base.Valid()
      ensures base.name == name && base.namespaceName == NamespaceNameFor(name, namespace)
      ensures base.cachedNamespace == None && base.resource == null
    {
      base := new BaseComponent(name, namespace);
    }

    /** Builds the values step by step, validating the TLS source before
        anything is created, then creates the release and records it. */
    method Deploy(dependsOnRelease: Release? := null, kwargs: Options := map[])
      returns (r: Result<(Release, Namespace)>)
      requires base.Valid()
      modifies base
      ensures base.Valid() && base.IdentityUnchanged()
      ensures ReleaseArgsFor(base.name, base.namespaceName, kwargs).Err? ==>
                r == Err(ReleaseArgsFor(base.name, base.namespaceName, kwargs).error) && unchanged(base)
      ensures ReleaseArgsFor(base.name, base.namespaceName, kwargs).Ok? ==>
                && r.Ok?
                && fresh(r.value.0)
                && r.value.0.name == base.name
                && r.value.0.args == ReleaseArgsFor(base.name, base.namespaceName, kwargs).value
                && r.value.0.opts == Some(OptionsFor(dependsOnRelease))
                && base.resource == r.value.0
                && base.Resolved(r.value.1)
    {
      var chartVersion := Get(kwargs, "version", Str(DefaultVersion));
      var repository := Get(kwargs, "repository", Str(DefaultRepository));

      var built := BuildHelmValues(base.name, kwargs);
      if built.Err? {
        return Err(built.error);
      }
      var values := built.value;

      var ns := base.GetNamespace();
      var release := new Release(base.name,
        ReleaseArgs("rancher", chartVersion, ns.name, repository, values, None, None),
        Some(ResourceOptions(if dependsOnRelease != null then Some([dependsOnRelease]) else None, None)));
      base.resource := release;
      ns := base.GetNamespace();
      r := Ok((release, ns));
    }
  }
}
