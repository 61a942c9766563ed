/** A plain nginx web server, declared directly as a Kubernetes Deployment. */
module Nginx {
  import opened Values
  import opened Resources
  import opened BaseComponents

  const DefaultName := "nginx"

  /** An HTTP GET probe of "/" on port 80 that times out after 5 seconds. */
  function RootProbe(initialDelaySeconds: int): Value
  {
    Map(map[
      "http_get" := Map(map["path" := Str("/"), "port" := Int(80)]),
      "initial_delay_seconds" := Int(initialDelaySeconds),
      "timeout_seconds" := Int(5)])
  }

  /** The single nginx container, named after the component: its name,
      image, ports, resources and two probes, and nothing else. */
  function Container(name: string, kwargs: Options): (r: Value)
    ensures r.Map?
    ensures r.entries.Keys == {"name", "image", "ports", "resources", "liveness_probe", "readiness_probe"}
  {
    Map(map[
      "name" := Str(name),
      "image" := Get(kwargs, "image", Str("nginx:latest")),
      "ports" := List([Map(map["container_port" := Int(80)])]),
      "resources" := Map(map[
        "requests" := Map(map["cpu" := Str("100m"), "memory" := Str("128Mi")]),
        "limits" := Map(map["cpu" := Str("200m"), "memory" := Str("256Mi")])]),
      "liveness_probe" := RootProbe(30),
      "readiness_probe" := RootProbe(5)])
  }

  /** The Deployment spec: the app labels select the pods the template
      labels; it holds a selector, a replica count and a pod template only. */
  function DeploymentSpec(name: string, appLabels: Tree, kwargs: Options): (r: Value)
    ensures r.Map? && r.entries.Keys == {"selector", "replicas", "template"}
  {
    Map(map[
      "selector" := Map(map["match_labels" := Map(appLabels)]),
      "replicas" := Get(kwargs, "replicas", Int(1)),
      "template" := Map(map[
        "metadata" := Map(map["labels" := Map(appLabels)]),
        "spec" := Map(map[
          "containers" := List([Container(name, kwargs)]),
          "restart_policy" := Str("Always")])])])
  }

  /** The selector matches exactly the labels the pod template carries. */
  lemma SelectorMatchesTemplate(name: string, appLabels: Tree, kwargs: Options)
    ensures Lookup(DeploymentSpec(name, appLabels, kwargs), ["selector", "match_labels"]) == Some(Map(appLabels))
    ensures Lookup(DeploymentSpec(name, appLabels, kwargs), ["template", "metadata", "labels"]) == Some(Map(appLabels))
  {
    var spec := DeploymentSpec(name, appLabels, kwargs);
    At2(spec.entries, "selector", "match_labels");
    Lookup1(spec.entries["selector"], "match_labels");
    At3(spec.entries, "template", "metadata", "labels");
    Lookup1(spec.entries["template"].entries["metadata"], "labels");
  }

  /** `replicas` defaults to 1 and `image` to nginx:latest. */
  lemma Defaults(name: string, appLabels: Tree)
    ensures Lookup(DeploymentSpec(name, appLabels, map[]), ["replicas"]) == Some(Int(1))
    ensures Lookup(Container(name, map[]), ["image"]) == Some(Str("nginx:latest"))
  {
    Lookup1(DeploymentSpec(name, appLabels, map[]), "replicas");
    Lookup1(Container(name, map[]), "image");
  }

  /** No option but `replicas` and `image` affects the spec. */
  lemma OnlyReplicasAndImageRead(name: string, appLabels: Tree, kwargs: Options, kwargs': Options)
    requires Get(kwargs, "replicas", Int(1)) == Get(kwargs', "replicas", Int(1))
    requires Get(kwargs, "image", Str("nginx:latest")) == Get(kwargs', "image", Str("nginx:latest"))
    ensures DeploymentSpec(name, appLabels, kwargs) == DeploymentSpec(name, appLabels, kwargs')
  {
  }

  /** The pod runs exactly one container and restarts always. */
  lemma OneContainer(name: string, appLabels: Tree, kwargs: Options)
    ensures Lookup(DeploymentSpec(name, appLabels, kwargs), ["template", "spec", "containers"]) ==
              Some(List([Container(name, kwargs)]))
    ensures Lookup(DeploymentSpec(name, appLabels, kwargs), ["template", "spec", "restart_policy"]) ==
              Some(Str("Always"))
  {
    var spec := DeploymentSpec(name, appLabels, kwargs);
    At3(spec.entries, "template", "spec", "containers");
    Lookup1(spec.entries["template"].entries["spec"], "containers");
    At3(spec.entries, "template", "spec", "restart_policy");
    Lookup1(spec.entries["template"].entries["spec"], "restart_policy");
  }

  /** The container is named after the component, exposes port 80 only, and
      is probed with GET / on port 80: liveness after 30 seconds, readiness
      after 5, both timing out after 5 seconds. */
  lemma ContainerFixed(name: string, kwargs: Options)
    ensures Lookup(Container(name, kwargs), ["name"]) == Some(Str(name))
    ensures Lookup(Container(name, kwargs), ["ports"]) == Some(List([Map(map["container_port" := Int(80)])]))
    ensures Lookup(Container(name, kwargs), ["liveness_probe", "http_get"]) ==
              Some(Map(map["path" := Str("/"), "port" := Int(80)]))
    ensures Lookup(Container(name, kwargs), ["liveness_probe", "initial_delay_seconds"]) == Some(Int(30))
    ensures Lookup(Container(name, kwargs), ["liveness_probe", "timeout_seconds"]) == Some(Int(5))
    ensures Lookup(Container(name, kwargs), ["readiness_probe", "http_get"]) ==
              Some(Map(map["path" := Str("/"), "port" := Int(80)]))
    ensures Lookup(Container(name, kwargs), ["readiness_probe", "initial_delay_seconds"]) == Some(Int(5))
    ensures Lookup(Container(name, kwargs), ["readiness_probe", "timeout_seconds"]) == Some(Int(5))
  {
    var c := Container(name, kwargs).entries;
    Lookup1(Map(c), "name");
    Lookup1(Map(c), "ports");
    At2(c, "liveness_probe", "http_get");
    At2(c, "liveness_probe", "initial_delay_seconds");
    At2(c, "liveness_probe", "timeout_seconds");
    At2(c, "readiness_probe", "http_get");
    At2(c, "readiness_probe", "initial_delay_seconds");
    At2(c, "readiness_probe", "timeout_seconds");
    Lookup1(RootProbe(30), "http_get");
    Lookup1(RootProbe(30), "initial_delay_seconds");
    Lookup1(RootProbe(30), "timeout_seconds");
    Lookup1(RootProbe(5), "http_get");
    Lookup1(RootProbe(5), "initial_delay_seconds");
    Lookup1(RootProbe(5), "timeout_seconds");
  }

  class NginxComponent {
    const base: BaseComponent
    /** `app_labels`, set once by the constructor. */
    var appLabels: Tree

    constructor (name: string := DefaultName, namespace: Option<string> := None)
      ensures fresh(base) && base.Valid()
      ensures base.name == name && base.namespaceName == NamespaceNameFor(name, namespace)
      ensures base.cachedNamespace == None && base.resource == null
      ensures appLabels == map["app" := Str(name)]
    {
      base := new BaseComponent(name, namespace);
      appLabels := map["app" := Str(name)];
    }

    /** Declares the Deployment in the component's namespace and records it. */
    method Deploy(kwargs: Options := map[]) returns (r: (Deployment, Namespace))
      requires base.Valid()
      modifies base
      ensures base.Valid() && base.IdentityUnchanged()
      ensures fresh(r.0)
      ensures r.0.name == base.name
      ensures r.0.metadata == map["namespace" := Str(base.namespaceName)]
      ensures r.0.spec == DeploymentSpec(base.name, appLabels, kwargs)
      ensures base.resource == r.0
      ensures base.Resolved(r.1)
    {
      var ns := base.GetNamespace();
      var deployment := new Deployment(base.name,
        map["namespace" := Str(ns.name)],
        DeploymentSpec(base.name, appLabels, kwargs));
      base.resource := deployment;
      ns := base.GetNamespace();
      r := (deployment, ns);
    }
  }
}
