/** The NGINX ingress controller, installed from its Helm chart as a
    host-network DaemonSet. */
module Ingress {
  import opened Values
  import opened Resources
  import opened BaseComponents

  const DefaultName := "ingress-nginx"
  const DefaultNamespace := "ingress-nginx"
  const DefaultVersion := "4.9.1"
  const DefaultRepository := "https://kubernetes.github.io/ingress-nginx"
  /** The Helm timeout, in seconds. */
  const HelmTimeout := 600
  /** The longer create/update/delete timeouts of the release. */
  const Timeouts := CustomTimeouts("10m", "10m", "5m")

  /** A requests/limits block. */
  function ResourceBlock(requestCpu: string, requestMemory: string, limitCpu: string, limitMemory: string): Value
  {
    Map(map[
      "requests" := Map(map["cpu" := Str(requestCpu), "memory" := Str(requestMemory)]),
      "limits" := Map(map["cpu" := Str(limitCpu), "memory" := Str(limitMemory)])])
  }

  /** An enabled HTTP health probe on /healthz. */
  function HealthProbe(initialDelaySeconds: int, periodSeconds: int, port: int): Value
  {
    Map(map[
      "enabled" := Bool(true),
      "initialDelaySeconds" := Int(initialDelaySeconds),
      "periodSeconds" := Int(periodSeconds),
      "timeoutSeconds" := Int(2),
      "failureThreshold" := Int(3),
      "httpGet" := Map(map["path" := Str("/healthz"), "port" := Int(port), "scheme" := Str("HTTP")])])
  }

  /** A toleration of a NoSchedule taint on the given node-role key. */
  function Toleration(key: string): Value
  {
    Map(map["key" := Str(key), "operator" := Str("Exists"), "effect" := Str("NoSchedule")])
  }

  /** The security context the controller's pod and container run with (user and group 101). */
  function SecurityContext(): Tree
  {
    map["runAsUser" := Int(101), "runAsGroup" := Int(101), "runAsNonRoot" := Bool(true)]
  }

  /** The controller's nginx configuration, passed through as strings. */
  const ControllerConfig: Tree := map[
    "enable-real-ip" := Str("true"),
    "use-forwarded-headers" := Str("true"),
    "compute-full-forwarded-for" := Str("true"),
    "use-proxy-protocol" := Str("false"),
    "proxy-body-size" := Str("50m"),
    "keep-alive" := Str("75"),
    "keep-alive-requests" := Str("100"),
    "upstream-keepalive-connections" := Str("100"),
    "upstream-keepalive-timeout" := Str("60"),
    "client-header-timeout" := Str("60s"),
    "client-body-timeout" := Str("60s"),
    "proxy-connect-timeout" := Str("60s"),
    "proxy-read-timeout" := Str("60s"),
    "proxy-send-timeout" := Str("60s")]

  /** The controller's tuning, which no option changes: image, scheduling,
      resources, security contexts, nginx configuration, service, admission
      webhooks, update strategy and probes. */
  const ControllerTuning: Tree := map[
    "name" := Str("controller"),
    "image" := Map(map["allowPrivilegeEscalation" := Bool(false)]),
    "dnsPolicy" := Str("ClusterFirstWithHostNet"),
    "nodeSelector" := Map(map["kubernetes.io/os" := Str("linux")]),
    "tolerations" := List([Toleration("node-role.kubernetes.io/master"),
                           Toleration("node-role.kubernetes.io/control-plane")]),
    "resources" := ResourceBlock("50m", "90Mi", "200m", "256Mi"),
    "podSecurityContext" := Map(SecurityContext()["fsGroup" := Int(101)]),
    "containerSecurityContext" := Map(SecurityContext()[
      "allowPrivilegeEscalation" := Bool(true)][
      "capabilities" := Map(map["drop" := List([Str("ALL")]), "add" := List([Str("NET_BIND_SERVICE")])])]),
    "config" := Map(ControllerConfig),
    "service" := Map(map["enabled" := Bool(true), "type" := Str("NodePort"), "externalTrafficPolicy" := Str("Local")]),
    "admissionWebhooks" := Map(map[
      "enabled" := Bool(true),
      "patch" := Map(map["enabled" := Bool(true), "resources" := ResourceBlock("50m", "50Mi", "100m", "100Mi")])]),
    "minReadySeconds" := Int(0),
    "updateStrategy" := Map(map["type" := Str("RollingUpdate"), "rollingUpdate" := Map(map["maxUnavailable" := Int(1)])]),
    "terminationGracePeriodSeconds" := Int(30),
    "startupProbe" := HealthProbe(5, 5, 10254),
    "readinessProbe" := HealthProbe(5, 5, 10254),
    "livenessProbe" := HealthProbe(10, 10, 10254)]

  /** The controller's deployment shape, which no option changes: a
      DaemonSet on the host network, with host ports 80 and 443. */
  const ControllerShape: Tree := map[
    "kind" := Str("DaemonSet"),
    "hostNetwork" := Bool(true),
    "hostPort" := Map(map["enabled" := Bool(true), "ports" := Map(map["http" := Int(80), "https" := Int(443)])])]

  /** The keys the component sets itself are not among the tuning keys. */
  lemma TuningLeavesComputedKeys()
    ensures "metrics" !in ControllerTuning && "extraArgs" !in ControllerTuning
    ensures "kind" !in ControllerTuning && "hostNetwork" !in ControllerTuning && "hostPort" !in ControllerTuning
  {
  }

  /** The default backend, which no option changes. */
  const DefaultBackend: Value := Map(map[
    "enabled" := Bool(true),
    "replicaCount" := Int(1),
    "resources" := ResourceBlock("10m", "20Mi", "20m", "40Mi"),
    "minReadySeconds" := Int(0),
    "startupProbe" := HealthProbe(5, 5, 8080)])

  /** The metrics block: enabled as `enable_metrics` says, never a ServiceMonitor. */
  function Metrics(kwargs: Options): Value
  {
    Map(map[
      "enabled" := Get(kwargs, "enable_metrics", Bool(false)),
      "serviceMonitor" := Map(map["enabled" := Bool(false)])])
  }

  /** The default certificate argument, naming the secret in the component's namespace. */
  function DefaultCertificateArgs(namespaceName: string): Value
  {
    Map(map["default-ssl-certificate" := Str(namespaceName + "/tls-secret")])
  }

  /** The controller block: the given tuning (the component passes
      `ControllerTuning`), the DaemonSet shape, the metrics block, and the
      default certificate argument while `default_tls` is truthy. The
      lemmas below hold for any tuning, so they say nothing about which
      tuning keys the component fixes. */
  function Controller(tuning: Tree, namespaceName: string, kwargs: Options): Tree
  {
    var controller := (tuning + ControllerShape)["metrics" := Metrics(kwargs)];
    if Truthy(Get(kwargs, "default_tls", Bool(true))) then
      controller["extraArgs" := DefaultCertificateArgs(namespaceName)]
    else
      controller
  }

  /** The values the component computes before the caller's `values` apply. */
  function ComputedValues(tuning: Tree, namespaceName: string, kwargs: Options): Tree
  {
    map["controller" := Map(Controller(tuning, namespaceName, kwargs)), "defaultBackend" := DefaultBackend]
  }

  /** The controller block holds exactly the tuning keys, the DaemonSet
      shape, `metrics`, and `extraArgs` while `default_tls` is truthy; the
      shape and the metrics block win over the tuning, and every other
      tuning key keeps its value. */
  lemma ControllerContents(tuning: Tree, namespaceName: string, kwargs: Options)
    ensures var c := Controller(tuning, namespaceName, kwargs);
            && c.Keys == tuning.Keys + ControllerShape.Keys + {"metrics"} +
                         (if Truthy(Get(kwargs, "default_tls", Bool(true))) then {"extraArgs"} else {})
            && c["kind"] == Str("DaemonSet") && c["hostNetwork"] == Bool(true)
            && c["metrics"] == Metrics(kwargs)
            && (forall k :: k in tuning && k !in ControllerShape && k != "metrics" && k != "extraArgs" ==>
                              c[k] == tuning[k])
  {
  }

  /** The Helm values handed to the chart, or the exception `deploy` raises:
      only a non-dict `values` fails. */
  function HelmValues(tuning: Tree, namespaceName: string, kwargs: Options): (r: Result<Tree>)
    ensures r.Err? <==> CallerValues(kwargs).Err?
    ensures r.Err? ==> r.error == TypeError(NotAMapping)
  {
    match CallerValues(kwargs)
    case Ok(over) => Ok(Update(ComputedValues(tuning, namespaceName, kwargs), over))
    case Err(e) => Err(e)
  }

  /** The arguments of the Helm release `deploy` creates: chart
      "ingress-nginx" in the component's namespace with the Helm values, a
      600 second Helm timeout and no `create_namespace`; it fails exactly as
      the values do. */
  function ReleaseArgsFor(tuning: Tree, namespaceName: string, kwargs: Options): (r: Result<ReleaseArgs>)
    ensures r.Err? <==> HelmValues(tuning, namespaceName, kwargs).Err?
    ensures r.Err? ==> r.error == HelmValues(tuning, namespaceName, kwargs).error
    ensures r.Ok? ==> && r.value.chart == "ingress-nginx" && r.value.namespace == namespaceName
                      && r.value.values == HelmValues(tuning, namespaceName, kwargs).value
                      && r.value.createNamespace == None && r.value.timeout == Some(600)
  {
    match HelmValues(tuning, namespaceName, kwargs)
    case Ok(values) =>
      Ok(ReleaseArgs("ingress-nginx", Get(kwargs, "version", Str(DefaultVersion)), namespaceName,
                     Get(kwargs, "repository", Str(DefaultRepository)), values, None, Some(HelmTimeout)))
    case Err(e) => Err(e)
  }

  /** The release's resource options: the longer timeouts and no dependency. */
  const ReleaseOptions := ResourceOptions(None, Some(Timeouts))

  /** The caller has not replaced the `controller` block. */
  predicate KeepsController(kwargs: Options)
  {
    CallerValues(kwargs).Ok? && "controller" !in CallerValues(kwargs).value
  }

  /** The top-level keys are `controller`, `defaultBackend` and whatever
      keys the caller's `values` add. */
  lemma TopLevelKeys(tuning: Tree, namespaceName: string, kwargs: Options)
    requires CallerValues(kwargs).Ok?
    ensures HelmValues(tuning, namespaceName, kwargs).Ok?
    ensures HelmValues(tuning, namespaceName, kwargs).value.Keys ==
              {"controller", "defaultBackend"} + CallerValues(kwargs).value.Keys
  {
  }

  /** The release is always chart "ingress-nginx" in the component's
      namespace with a 600 second Helm timeout; version and repository
      default to 4.9.1 and the ingress-nginx chart repository. */
  lemma ReleaseShape(tuning: Tree, namespaceName: string, kwargs: Options)
    requires CallerValues(kwargs).Ok?
    ensures ReleaseArgsFor(tuning, namespaceName, kwargs).Ok?
    ensures var args := ReleaseArgsFor(tuning, namespaceName, kwargs).value;
            && args.chart == "ingress-nginx"
            && args.namespace == namespaceName
            && args.timeout == Some(600)
            && args.createNamespace == None
            && args.version == (if "version" in kwargs then kwargs["version"] else Str("4.9.1"))
            && args.repo == (if "repository" in kwargs then kwargs["repository"]
                             else Str("https://kubernetes.github.io/ingress-nginx"))
  {
  }

  /** `deploy` fails only when `values` is not a dict. */
  lemma Failures(tuning: Tree, namespaceName: string, kwargs: Options)
    ensures ReleaseArgsFor(tuning, namespaceName, kwargs).Err? <==> CallerValues(kwargs).Err?
  {
  }

  /** `controller.metrics.enabled` is `enable_metrics` (default False) and the
      ServiceMonitor stays disabled, unless the caller replaces `controller`. */
  lemma MetricsFlag(tuning: Tree, namespaceName: string, kwargs: Options)
    requires KeepsController(kwargs)
    ensures HelmValues(tuning, namespaceName, kwargs).Ok?
    ensures At(HelmValues(tuning, namespaceName, kwargs).value, ["controller", "metrics", "enabled"]) ==
              Some(if "enable_metrics" in kwargs then kwargs["enable_metrics"] else Bool(false))
    ensures At(HelmValues(tuning, namespaceName, kwargs).value, ["controller", "metrics", "serviceMonitor"]) ==
              Some(Map(map["enabled" := Bool(false)]))
  {
    var v := HelmValues(tuning, namespaceName, kwargs).value;
    assert v["controller"] == Map(Controller(tuning, namespaceName, kwargs));
    assert Controller(tuning, namespaceName, kwargs)["metrics"] == Metrics(kwargs);
    At3(v, "controller", "metrics", "enabled");
    Lookup1(Metrics(kwargs), "enabled");
    At3(v, "controller", "metrics", "serviceMonitor");
    Lookup1(Metrics(kwargs), "serviceMonitor");
  }

  /** A truthy `default_tls` (the default) adds exactly the default
      certificate argument for "<namespace>/tls-secret"; a falsy one leaves
      no `extraArgs` at all. */
  lemma DefaultTls(tuning: Tree, namespaceName: string, kwargs: Options)
    requires "extraArgs" !in tuning && KeepsController(kwargs)
    ensures HelmValues(tuning, namespaceName, kwargs).Ok?
    ensures Truthy(Get(kwargs, "default_tls", Bool(true))) ==>
              At(HelmValues(tuning, namespaceName, kwargs).value, ["controller", "extraArgs"]) ==
                Some(Map(map["default-ssl-certificate" := Str(namespaceName + "/tls-secret")]))
    ensures !Truthy(Get(kwargs, "default_tls", Bool(true))) ==>
              At(HelmValues(tuning, namespaceName, kwargs).value, ["controller", "extraArgs"]) == None
  {
    var v := HelmValues(tuning, namespaceName, kwargs).value;
    assert v["controller"] == Map(Controller(tuning, namespaceName, kwargs));
    At2(v, "controller", "extraArgs");
    Lookup1(v["controller"], "extraArgs");
  }

  /** Whatever the options, the controller stays a DaemonSet on the host
      network with host ports 80 and 443, unless the caller replaces `controller`. */
  lemma DaemonSetShape(tuning: Tree, namespaceName: string, kwargs: Options)
    requires KeepsController(kwargs)
    ensures HelmValues(tuning, namespaceName, kwargs).Ok?
    ensures At(HelmValues(tuning, namespaceName, kwargs).value, ["controller", "kind"]) == Some(Str("DaemonSet"))
    ensures At(HelmValues(tuning, namespaceName, kwargs).value, ["controller", "hostNetwork"]) == Some(Bool(true))
    ensures At(HelmValues(tuning, namespaceName, kwargs).value, ["controller", "hostPort", "ports"]) ==
              Some(Map(map["http" := Int(80), "https" := Int(443)]))
  {
    var v := HelmValues(tuning, namespaceName, kwargs).value;
    var c := Controller(tuning, namespaceName, kwargs);
    assert v["controller"] == Map(c);
    assert c["kind"] == Str("DaemonSet") && c["hostNetwork"] == Bool(true);
    assert c["hostPort"] == Map(map["enabled" := Bool(true), "ports" := Map(map["http" := Int(80), "https" := Int(443)])]);
    At2(v, "controller", "kind");
    Lookup1(Map(c), "kind");
    At2(v, "controller", "hostNetwork");
    Lookup1(Map(c), "hostNetwork");
    At3(v, "controller", "hostPort", "ports");
    Lookup1(c["hostPort"], "ports");
  }

  /** The caller's `values` replace top-level keys wholesale: a caller
      `controller` discards every controller default, `extraArgs` included,
      and `defaultBackend` stays as computed unless the caller gives one. */
  lemma CallerValuesReplaceTopLevelKeys(tuning: Tree, namespaceName: string, kwargs: Options)
    requires CallerValues(kwargs).Ok?
    ensures HelmValues(tuning, namespaceName, kwargs).Ok?
    ensures "controller" in CallerValues(kwargs).value ==>
              At(HelmValues(tuning, namespaceName, kwargs).value, ["controller"]) == Some(CallerValues(kwargs).value["controller"])
    ensures "defaultBackend" !in CallerValues(kwargs).value ==>
              At(HelmValues(tuning, namespaceName, kwargs).value, ["defaultBackend"]) == Some(DefaultBackend)
  {
    var v := HelmValues(tuning, namespaceName, kwargs).value;
    Lookup1(Map(v), "controller");
    Lookup1(Map(v), "defaultBackend");
  }

  /** Only `enable_metrics`, `default_tls` and `values` shape the Helm
      values; in particular the documented `controller_replicas` option is
      never read, so setting it changes no release argument. */
  lemma OnlyMetricsTlsAndValuesRead(tuning: Tree, namespaceName: string, kwargs: Options, kwargs': Options,
                                    replicas: Value)
    requires Get(kwargs, "enable_metrics", Bool(false)) == Get(kwargs', "enable_metrics", Bool(false))
    requires Get(kwargs, "default_tls", Bool(true)) == Get(kwargs', "default_tls", Bool(true))
    requires Get(kwargs, "values", Map(map[])) == Get(kwargs', "values", Map(map[]))
    ensures HelmValues(tuning, namespaceName, kwargs) == HelmValues(tuning, namespaceName, kwargs')
    ensures ReleaseArgsFor(tuning, namespaceName, kwargs["controller_replicas" := replicas]) ==
            ReleaseArgsFor(tuning, namespaceName, kwargs)
  {
    var withReplicas := kwargs["controller_replicas" := replicas];
    assert Get(withReplicas, "enable_metrics", Bool(false)) == Get(kwargs, "enable_metrics", Bool(false));
    assert Get(withReplicas, "default_tls", Bool(true)) == Get(kwargs, "default_tls", Bool(true));
    assert Get(withReplicas, "values", Map(map[])) == Get(kwargs, "values", Map(map[]));
    assert Get(withReplicas, "version", Str(DefaultVersion)) == Get(kwargs, "version", Str(DefaultVersion));
    assert Get(withReplicas, "repository", Str(DefaultRepository)) == Get(kwargs, "repository", Str(DefaultRepository));
  }

  /** The values as `deploy` builds them: the default tree, then the
      certificate argument set in place, then the caller's `values`. */
  method BuildHelmValues(tuning: Tree, namespaceName: string, kwargs: Options) returns (r: Result<Tree>)
    ensures r == HelmValues(tuning, namespaceName, kwargs)
  {
    var values: Tree := map[
      "controller" := Map((tuning + ControllerShape)["metrics" := Map(map[
        "enabled" := Get(kwargs, "enable_metrics", Bool(false)),
        "serviceMonitor" := Map(map["enabled" := Bool(false)])])]),
      "defaultBackend" := DefaultBackend];

    if Truthy(Get(kwargs, "default_tls", Bool(true))) {
      var controller := values["controller"].entries;
      controller := controller["extraArgs" := Map(map["default-ssl-certificate" := Str(namespaceName + "/tls-secret")])];
      assert controller == Controller(tuning, namespaceName, kwargs);
      values := values["controller" := Map(controller)];
    } else {
      assert values["controller"].entries == Controller(tuning, namespaceName, kwargs);
    }
    assert values == ComputedValues(tuning, namespaceName, kwargs);
    UpdateEmpty(values);

    if "values" in kwargs {
      var over := kwargs["values"];
      if !over.Map? {
        return Err(TypeError(NotAMapping));
      }
      values := Update(values, over.entries);
    }
    r := Ok(values);
  }

  class IngressComponent {
    const base: BaseComponent

    constructor (name: string := DefaultName, namespace: Option<string> := Some(DefaultNamespace))
      ensures fresh(base) && base.Valid()
      ensures base.name == name && base.namespaceName == NamespaceNameFor(name, namespace)
      ensures base.cachedNamespace == None && base.resource == null
    {
      base := new BaseComponent(name, namespace);
    }

    /** Builds the values, then creates the release with the longer timeouts and records it. */
    method Deploy(kwargs: Options := map[]) returns (r: Result<(Release, Namespace)>)
      requires base.Valid()
      modifies base
      ensures base.Valid() && base.IdentityUnchanged()
      ensures ReleaseArgsFor(ControllerTuning, base.namespaceName, kwargs).Err? ==>
                r == Err(ReleaseArgsFor(ControllerTuning, base.namespaceName, kwargs).error) && unchanged(base)
      ensures ReleaseArgsFor(ControllerTuning, base.namespaceName, kwargs).Ok? ==>
                && r.Ok?
                && fresh(r.value.0)
                && r.value.0.name == base.name
                && r.value.0.args == ReleaseArgsFor(ControllerTuning, base.namespaceName, kwargs).value
                && r.value.0.opts == Some(ReleaseOptions)
                && base.resource == r.value.0
                && base.Resolved(r.value.1)
    {
      var chartVersion := Get(kwargs, "version", Str(DefaultVersion));
      var repository := Get(kwargs, "repository", Str(DefaultRepository));
      var built := BuildHelmValues(ControllerTuning, base.namespaceName, kwargs);
      if built.Err? {
        return Err(built.error);
      }
      var values := built.value;
      assert ReleaseArgsFor(ControllerTuning, base.namespaceName, kwargs) ==
             Ok(ReleaseArgs("ingress-nginx", chartVersion, base.namespaceName, repository, values, None, Some(600)));

      var resourceOptions := ResourceOptions(None, Some(CustomTimeouts("10m", "10m", "5m")));
      var ns := base.GetNamespace();
      var release := new Release(base.name,
        ReleaseArgs("ingress-nginx", chartVersion, ns.name, repository, values, None, Some(600)),
        Some(resourceOptions));
      base.resource := release;
      ns := base.GetNamespace();
      r := Ok((release, ns));
    }
  }
}
