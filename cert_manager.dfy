/** cert-manager, installed from the Jetstack Helm chart into its own namespace. */
module CertManager {
  import opened Values
  import opened Resources
  import opened BaseComponents

  const DefaultName := "cert-manager"
  const DefaultVersion := "v1.17.2"
  const DefaultRepository := "https://charts.jetstack.io"

  /** `{"installCRDs": install_crds, **values}`: the caller's keys are spread
      last; only a non-dict `values` fails, and `installCRDs` is always set. */
  function HelmValues(kwargs: Options): (r: Result<Tree>)
    ensures r.Err? <==> CallerValues(kwargs).Err?
    ensures r.Err? ==> r.error == TypeError(NotAMapping)
    ensures r.Ok? ==> "installCRDs" in r.value
  {
    match CallerValues(kwargs)
    case Ok(over) => Ok(Update(map["installCRDs" := Get(kwargs, "install_crds", Bool(true))], over))
    case Err(e) => Err(e)
  }

  /** The arguments of the Helm release `deploy` creates: chart
      "cert-manager" in the component's namespace, which Helm creates, with
      the Helm values and no timeout; it fails exactly as the values do. */
  function ReleaseArgsFor(namespaceName: string, kwargs: Options): (r: Result<ReleaseArgs>)
    ensures r.Err? <==> HelmValues(kwargs).Err?
    ensures r.Err? ==> r.error == HelmValues(kwargs).error
    ensures r.Ok? ==> && r.value.chart == "cert-manager" && r.value.namespace == namespaceName
                      && r.value.values == HelmValues(kwargs).value
                      && r.value.createNamespace == Some(true) && r.value.timeout == None
  {
    match HelmValues(kwargs)
    case Ok(values) =>
      Ok(ReleaseArgs("cert-manager", Get(kwargs, "version", Str(DefaultVersion)), namespaceName,
                     Get(kwargs, "repository", Str(DefaultRepository)), values, Some(true), None))
    case Err(e) => Err(e)
  }

  /** The component is named "cert-manager" and, without a namespace, its
      namespace is named the same. */
  lemma DefaultNamespaceName()
    ensures NamespaceNameFor(DefaultName, None) == "cert-manager"
    ensures NamespaceNameFor(DefaultName, Some("")) == "cert-manager"
  {
  }

  /** `installCRDs` is `install_crds` (default True) unless the caller's
      `values` give it, in which case the caller wins; every caller key
      appears unchanged and nothing else is added. */
  lemma InstallCrdsPrecedence(kwargs: Options)
    requires CallerValues(kwargs).Ok?
    ensures HelmValues(kwargs).Ok?
    ensures var over := CallerValues(kwargs).value;
            var v := HelmValues(kwargs).value;
            && v.Keys == over.Keys + {"installCRDs"}
            && (forall k :: k in over ==> v[k] == over[k])
            && ("installCRDs" !in over ==>
                  v["installCRDs"] == if "install_crds" in kwargs then kwargs["install_crds"] else Bool(true))
  {
  }

  /** `deploy` fails only when `values` is not a dict. */
  lemma Failures(namespaceName: string, kwargs: Options)
    ensures ReleaseArgsFor(namespaceName, kwargs).Err? <==> CallerValues(kwargs).Err?
  {
  }

  /** The release is chart "cert-manager", asks Helm to create the
      component's namespace, and takes version v1.17.2 from the Jetstack
      repository unless told otherwise; with no options its values are
      just `installCRDs: True`. */
  lemma ReleaseShape(namespaceName: string, kwargs: Options)
    requires CallerValues(kwargs).Ok?
    ensures ReleaseArgsFor(namespaceName, kwargs).Ok?
    ensures var args := ReleaseArgsFor(namespaceName, kwargs).value;
            && args.chart == "cert-manager"
            && args.namespace == namespaceName
            && args.createNamespace == Some(true)
            && args.timeout == None
            && args.version == (if "version" in kwargs then kwargs["version"] else Str("v1.17.2"))
            && args.repo == (if "repository" in kwargs then kwargs["repository"]
                             else Str("https://charts.jetstack.io"))
    ensures ReleaseArgsFor(namespaceName, map[]).Ok?
    ensures ReleaseArgsFor(namespaceName, map[]).value.values == map["installCRDs" := Bool(true)]
  {
    UpdateEmpty(map["installCRDs" := Bool(true)]);
  }

  class CertManagerComponent {
    const base: BaseComponent

    constructor (name: string := DefaultName, namespace: Option<string> := None)
      ensures fresh(base) && base.Valid()
      ensures base.name == name && base.namespaceName == NamespaceNameFor(name, namespace)
      ensures base.cachedNamespace == None && base.resource == null
    {
      base := new BaseComponent(name, namespace);
    }

    /** Computes the values, then creates the release (without resource
        options, so without dependencies) and records it. */
    method Deploy(kwargs: Options := map[]) returns (r: Result<(Release, Namespace)>)
      requires base.Valid()
      modifies base
      ensures base.Valid() && base.IdentityUnchanged()
      ensures ReleaseArgsFor(base.namespaceName, kwargs).Err? ==>
                r == Err(ReleaseArgsFor(base.namespaceName, kwargs).error) && unchanged(base)
      ensures ReleaseArgsFor(base.namespaceName, kwargs).Ok? ==>
                && r.Ok?
                && fresh(r.value.0)
                && r.value.0.name == base.name
                && r.value.0.args == ReleaseArgsFor(base.namespaceName, kwargs).value
                && r.value.0.opts == None
                && base.resource == r.value.0
                && base.Resolved(r.value.1)
    {
      var chartVersion := Get(kwargs, "version", Str(DefaultVersion));
      var repository := Get(kwargs, "repository", Str(DefaultRepository));
      var values := HelmValues(kwargs);
      if values.Err? {
        return Err(values.error);
      }

      var ns := base.GetNamespace();
      var release := new Release(base.name,
        ReleaseArgs("cert-manager", chartVersion, ns.name, repository, values.value, Some(true), None),
        None);
      base.resource := release;
      ns := base.GetNamespace();
      r := Ok((release, ns));
    }
  }
}
