# Pulumi quickstart components, modelled in Dafny

The quickstart stack deploys four Kubernetes workloads through small Python
component classes: a plain nginx Deployment, cert-manager, Rancher and the
NGINX ingress controller. The last three are Helm releases. Every component
inherits from `BaseComponent`, which holds:

- the component's name;
- its namespace name (`namespace or name`);
- a namespace resource, created lazily on first access and then reused;
- the resource that `deploy` produced.

Each `deploy` reads its `**kwargs`, builds a Helm values tree (or a
Deployment spec), merges in any caller `values`, creates the resource and
records it.

The model has one module per component source file (`BaseComponents`,
`Rancher`, `Ingress`, `CertManager`, `Nginx`) and three more: `Values` and
`Resources`, which the components share, and `Walkthrough`, which uses them:

- `Values` (`values.dfy`) holds the Python values that flow through the
  components: `Value` (None, bool, int, str, list, dict), truthiness,
  `kwargs.get`, and the shallow merge that `dict.update` and a trailing `**`
  spread both perform. It also holds the one way a caller's `values` can
  fail: a non-dict raises `TypeError`. Finally it has `Lookup`/`At` for
  reading a key path out of a tree.
- `Resources` (`resources.dfy`) holds the library resources the components
  create: `Namespace`, `Release` and `Deployment`. Their constructors only
  record their arguments. `ReleaseArgs`, `ResourceOptions` and
  `CustomTimeouts` are plain values.
- `BaseComponents` (`base_component.dfy`) is `BaseComponent` as a class. It
  has the mutable fields of the source and a ghost count of the namespaces
  it has created. Its `Valid()` invariant ties the cached namespace to the
  namespace name. `GetNamespace` is the `namespace` property.
- `Rancher`, `Ingress`, `CertManager` and `Nginx` each contain:
  - pure functions that state what `deploy` computes (`HelmValues`,
    `ReleaseArgsFor`, `DeploymentSpec`);
  - lemmas for the properties of those functions;
  - for Rancher and ingress, a `BuildHelmValues` method that builds the
    values step by step, mirroring the source's in-place updates on
    immutable maps held in local variables, proved equal to `HelmValues`;
  - the component class itself. Python inheritance becomes composition:
    the class holds its `BaseComponent` in `base`, and its `Deploy`
    modifies `base` and is proved against `ReleaseArgsFor`.
- `Walkthrough` (`walkthrough.dfy`) has callers that use the contracts in
  the order the stack uses the components. First nginx with its defaults,
  then cert-manager, then Rancher depending on the cert-manager release.

An exception that `deploy` raises becomes `Err` in a `Result`. The
exceptions are `ValueError` (Let's Encrypt without `acme_email`),
`TypeError` (a non-dict `values`) and `NotImplementedError` (the base
class's `deploy`). When `deploy` raises, its contract says the component
is left unchanged: no namespace is created and no resource is recorded.

Three consequences of the code are worth stating plainly:

- Caller `values` replace top-level keys (`dict.update`, `**`), and nothing
  merges recursively. A caller `ingress` or `controller` block replaces the
  computed one entirely (the `CallerValuesReplaceTopLevelKeys` lemmas).
- Any `tls_source` other than `letsEncrypt` or `secret` is accepted and
  passed through with the self-signed issuer (`Rancher.OtherSource`).
- `__main__.py` calls `deploy` in a fixed order: nginx, cert-manager, then
  Rancher with the cert-manager release. Nothing else orders the
  components.

## Model

| member | source | states |
|---|---|---|
| Values.Update | quickstart/components/rancher.py:92-93 | the merged keys are the union of both key sets; every caller key has the caller's value, and every other key keeps its computed value |
| Values.Truthy | quickstart/components/rancher.py:73 | the falsy values are exactly None, False, 0, "", [] and {}; every other value is truthy |
| Values.Get | quickstart/components/rancher.py:46-66 | `kwargs.get(key, default)`: the passed value when the key is present, an explicit None included, and the default otherwise |
| Values.CallerValues | quickstart/components/cert_manager.py:40 | no `values` option is the empty dict, a dict is used as given, and anything else is the TypeError that `**` and `dict.update` raise |
| Values.UpdateIdempotent | quickstart/components/ingress.py:227-228 | merging the same caller values a second time changes nothing |
| Values.UpdateEmpty | quickstart/components/cert_manager.py:38-41 | merging an empty dict leaves the values as they were |
| Values.AtUpdate | quickstart/components/ingress.py:227-228 | after the merge, a key path whose first key the caller gave reads the caller's subtree; any other path reads the computed tree |
| BaseComponents.NamespaceNameFor | quickstart/components/base_component.py:17 | a non-empty namespace is used as given; a missing or empty one falls back to the component name |
| BaseComponents.BaseComponent.constructor | quickstart/components/base_component.py:9-19 | name and namespace name are set, and no namespace or resource exists yet |
| BaseComponents.BaseComponent.CreateNamespace | quickstart/components/base_component.py:21-38 | always creates a fresh namespace named after the namespace name and caches it; the creation count goes up by one; identity and resource are untouched |
| BaseComponents.BaseComponent.GetNamespace | quickstart/components/base_component.py:40-45 | the first access creates exactly one namespace; later accesses return the cached one and change nothing |
| BaseComponents.BaseComponent.Deploy | quickstart/components/base_component.py:52-54 | always raises NotImplementedError("Subclasses must implement deploy()") |
| Rancher.RancherComponent.constructor | quickstart/components/rancher.py:15-22 | defaults to name "rancher" in namespace "cattle-system"; nothing is created yet |
| Rancher.OptionsFor | quickstart/components/rancher.py:106-108 | a dependency edge to exactly the given release, or none without one; no custom timeouts |
| Rancher.HelmValues | quickstart/components/rancher.py:46-93 | defines the Helm values `deploy` passes; the only errors are the missing-email ValueError and the non-dict TypeError; its properties are Defaults, Failures, TopLevelKeys, LetsEncrypt, Secret, OtherSource and CallerValuesReplaceTopLevelKeys |
| Rancher.ReleaseArgsFor | quickstart/components/rancher.py:95-105 | chart "rancher" in the component's namespace with HelmValues' values, no create_namespace and no Helm timeout; fails exactly when HelmValues does, with the same error |
| Rancher.TopLevelKeys | quickstart/components/rancher.py:53-93 | on success the top-level keys are replicas, hostname, ingress, bootstrapPassword and the caller's keys, nothing more |
| Rancher.Defaults | quickstart/components/rancher.py:46-67 | with no options: chart rancher 2.11.2 from the stable repository, one replica, host rancher.local, nginx ingress class, self-signed issuer, TLS source "rancher", bootstrap password admin123 |
| Rancher.Failures | quickstart/components/rancher.py:70-74 | deploy fails exactly when Let's Encrypt has no truthy acme_email or values is not a dict; a missing email is reported first, as the ValueError |
| Rancher.LetsEncrypt | quickstart/components/rancher.py:71-84 | Let's Encrypt with an email switches the issuer to letsencrypt-prod, adds the edit-in-place annotation, keeps the ingress class, and puts source and email in the tls block |
| Rancher.Secret | quickstart/components/rancher.py:85-89 | a secret source names tls_secret_name, defaulting to "<name>-tls", and keeps the self-signed annotations |
| Rancher.OtherSource | quickstart/components/rancher.py:53-70 | any other TLS source, recognised or not, is passed through unchanged with the self-signed issuer |
| Rancher.CallerValuesReplaceTopLevelKeys | quickstart/components/rancher.py:91-93 | a caller key replaces the computed subtree wholesale, at every path under it; keys the caller omits keep their computed values |
| Rancher.BuildHelmValues | quickstart/components/rancher.py:52-93 | the values built by in-place mutation equal HelmValues, and the email check comes before the values merge |
| Rancher.RancherComponent.Deploy | quickstart/components/rancher.py:24-111 | on failure, the component is unchanged; on success, a fresh release with ReleaseArgsFor's arguments and OptionsFor's options, recorded as the resource, in the memoised namespace |
| Ingress.IngressComponent.constructor | quickstart/components/ingress.py:15-22 | defaults to name and namespace "ingress-nginx"; nothing is created yet |
| Ingress.TuningLeavesComputedKeys | quickstart/components/ingress.py:46-190 | the fixed controller settings do not contain metrics, extraArgs, kind, hostNetwork or hostPort, so the keys the component computes are not shadowed |
| Ingress.Controller | quickstart/components/ingress.py:47-190 | defines the controller block (fixed settings, DaemonSet shape, metrics, extraArgs); its properties are ControllerContents, MetricsFlag, DefaultTls and DaemonSetShape |
| Ingress.ControllerContents | quickstart/components/ingress.py:47-224 | the controller's keys are the fixed settings, kind, hostNetwork, hostPort, metrics, and extraArgs exactly when default_tls is truthy; kind is DaemonSet, hostNetwork True, metrics the metrics block, and every other setting keeps its value |
| Ingress.HelmValues | quickstart/components/ingress.py:46-228 | defines the Helm values `deploy` passes; the only error is the non-dict TypeError; its properties are TopLevelKeys, MetricsFlag, DefaultTls, DaemonSetShape, CallerValuesReplaceTopLevelKeys and OnlyMetricsTlsAndValuesRead |
| Ingress.ReleaseArgsFor | quickstart/components/ingress.py:239-250 | chart "ingress-nginx" in the component's namespace with HelmValues' values, a 600 s Helm timeout and no create_namespace; fails exactly when HelmValues does, with the same error |
| Ingress.TopLevelKeys | quickstart/components/ingress.py:46-228 | on success the top-level keys are controller, defaultBackend and the caller's keys, nothing more |
| Ingress.ReleaseShape | quickstart/components/ingress.py:239-250 | chart ingress-nginx in the component's namespace with a 600 s Helm timeout; version and repository default to 4.9.1 and the ingress-nginx repository |
| Ingress.Failures | quickstart/components/ingress.py:227-228 | deploy fails exactly when values is not a dict |
| Ingress.MetricsFlag | quickstart/components/ingress.py:80-85 | metrics.enabled is enable_metrics (default False) and the ServiceMonitor stays disabled, unless the caller replaces controller |
| Ingress.DefaultTls | quickstart/components/ingress.py:220-224 | a truthy default_tls (the default) adds default-ssl-certificate "<namespace>/tls-secret"; a falsy one adds no extraArgs |
| Ingress.DaemonSetShape | quickstart/components/ingress.py:46-129 | for every option, the controller is a host-network DaemonSet with host ports 80 and 443, unless the caller replaces controller |
| Ingress.CallerValuesReplaceTopLevelKeys | quickstart/components/ingress.py:226-228 | a caller controller replaces every controller default, extraArgs included; defaultBackend stays as computed unless the caller gives one |
| Ingress.OnlyMetricsTlsAndValuesRead | quickstart/components/ingress.py:24-43 | only enable_metrics, default_tls and values shape the Helm values; the documented controller_replicas changes no release argument |
| Ingress.BuildHelmValues | quickstart/components/ingress.py:46-228 | the values built with extraArgs set in place, then merged, equal HelmValues |
| Ingress.IngressComponent.Deploy | quickstart/components/ingress.py:24-254 | on failure, the component is unchanged; on success, a fresh release with ReleaseArgsFor's arguments and custom timeouts 10m/10m/5m, recorded as the resource, in the memoised namespace |
| CertManager.CertManagerComponent.constructor | quickstart/components/cert_manager.py:14-21 | defaults to name "cert-manager"; the namespace defaults to the name; nothing is created yet |
| CertManager.DefaultNamespaceName | quickstart/components/cert_manager.py:14-21 | without a namespace, or with an empty one, the namespace is "cert-manager" |
| CertManager.HelmValues | quickstart/components/cert_manager.py:38-41 | defines the Helm values; fails exactly when values is not a dict, with the TypeError, and installCRDs is always present; its properties are InstallCrdsPrecedence and ReleaseShape |
| CertManager.ReleaseArgsFor | quickstart/components/cert_manager.py:43-55 | chart "cert-manager" in the component's namespace, created by Helm, with HelmValues' values and no timeout; fails exactly when HelmValues does, with the same error |
| CertManager.InstallCrdsPrecedence | quickstart/components/cert_manager.py:38-41 | installCRDs is install_crds (default True) unless the caller's values give it, in which case the caller's value wins; every caller key appears unchanged and nothing else is added |
| CertManager.Failures | quickstart/components/cert_manager.py:38-41 | deploy fails exactly when values is not a dict |
| CertManager.ReleaseShape | quickstart/components/cert_manager.py:36-55 | chart cert-manager, created namespace, no Helm timeout, version v1.17.2 and the Jetstack repository unless overridden; with no options the values are just installCRDs: True |
| CertManager.CertManagerComponent.Deploy | quickstart/components/cert_manager.py:23-57 | on failure, the component is unchanged; on success, a fresh release with ReleaseArgsFor's arguments and no resource options, recorded as the resource, in the memoised namespace |
| Nginx.NginxComponent.constructor | quickstart/components/nginx.py:12-20 | defaults to name "nginx"; app_labels is {"app": name}; nothing is created yet |
| Nginx.DeploymentSpec | quickstart/components/nginx.py:34-62 | the spec holds exactly selector, replicas and template; its properties are SelectorMatchesTemplate, Defaults, OnlyReplicasAndImageRead and OneContainer |
| Nginx.Container | quickstart/components/nginx.py:40-58 | the container holds exactly name, image, ports, resources and the two probes; its properties are ContainerFixed and Defaults |
| Nginx.SelectorMatchesTemplate | quickstart/components/nginx.py:35-38 | the selector's match_labels equal the pod template's labels |
| Nginx.Defaults | quickstart/components/nginx.py:36-42 | replicas defaults to 1 and image to nginx:latest |
| Nginx.OnlyReplicasAndImageRead | quickstart/components/nginx.py:31-63 | two option sets that agree on replicas and image give the same spec |
| Nginx.OneContainer | quickstart/components/nginx.py:39-59 | the pod runs exactly one container and restart policy Always |
| Nginx.ContainerFixed | quickstart/components/nginx.py:40-57 | the container is named after the component and exposes port 80 only; liveness and readiness probes are GET / on port 80 after 30 s and 5 s, both with a 5 s timeout |
| Nginx.NginxComponent.Deploy | quickstart/components/nginx.py:22-65 | a fresh Deployment named after the component, in the namespace's metadata, with DeploymentSpec's spec, recorded as the resource, in the memoised namespace |

## Left out

- `quickstart/__main__.py` is not part of this model. It calls `deploy` on
  the modules rather than on component instances. `Walkthrough` shows the
  intended order instead.
- Pulumi itself is not modelled: resource registration, `Output` values
  (`metadata["name"]` is read as the plain namespace name), `pulumi.export`
  and the Helm and Kubernetes APIs. The library constructors are opaque
  classes that record their arguments.
- BaseComponents.BaseComponent.CreateNamespace: does not model the `opts`
  keyword or `additional_secret_outputs`. They only feed Pulumi's resource
  options, which are not modelled, and no caller passes `opts`.
- Rancher.RancherComponent.Deploy: `depends_on_release` is a `Release` or
  nothing. A falsy object of another kind, which the source would also
  treat as "no dependency", is not modelled.
- Values.CallerValues: a `values` option that is not a dict is always a
  `TypeError`. `dict.update` also accepts an iterable of key/value pairs;
  that form is not modelled.
- Dict key order is not modelled. Trees are maps, so the order Helm sees
  the keys in is not captured.
- Ingress.ControllerTuning: the ingress lemmas are stated for any fixed
  controller settings (`tuning`), not for the 17-key constant alone.
  `DefaultTls` assumes only that the tuning has no `extraArgs`.
  `TuningLeavesComputedKeys` shows the constant meets that assumption and
  shadows none of the computed keys. `Deploy` is proved with the constant
  itself.
- The `resource` property is the `resource` field, and the `namespace`
  property is `GetNamespace`. Python's truthiness test on a cached
  namespace is modelled as "present", because a resource object is always
  truthy.
