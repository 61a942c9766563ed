/** Callers of the components, showing what their contracts let a caller
    conclude: the order the quickstart stack intends, nginx first and
    Rancher after cert-manager. */
module Walkthrough {
  import opened Values
  import opened Resources
  import Nginx
  import CertManager
  import Rancher

  /** nginx with its defaults lives in namespace "nginx" and exposes port 80. */
  method DeployNginx() {
    var nginx := new Nginx.NginxComponent();
    var deployed := nginx.Deploy(map["replicas" := Int(1), "image" := Str("nginx:latest")]);
    assert deployed.1.name == "nginx";
    assert deployed.0.metadata == map["namespace" := Str("nginx")];
    assert nginx.base.resource == deployed.0;
    Nginx.OneContainer("nginx", nginx.appLabels, map["replicas" := Int(1), "image" := Str("nginx:latest")]);
    Nginx.ContainerFixed("nginx", map["replicas" := Int(1), "image" := Str("nginx:latest")]);
    assert Lookup(Nginx.Container("nginx", map["replicas" := Int(1), "image" := Str("nginx:latest")]), ["ports"])
        == Some(List([Map(map["container_port" := Int(80)])]));

    var again := nginx.Deploy();
    assert again.1 == deployed.1 && nginx.base.namespacesCreated == 1;
  }

  /** cert-manager with its defaults installs its CRDs into namespace "cert-manager". */
  method DeployCertManager() {
    var certManager := new CertManager.CertManagerComponent();
    CertManager.ReleaseShape(certManager.base.namespaceName, map[]);
    var installed := certManager.Deploy();
    assert installed.Ok?;
    assert installed.value.0.args.namespace == "cert-manager";
    assert installed.value.0.args.values == map["installCRDs" := Bool(true)];
  }

  /** Let's Encrypt without an email is refused before anything is created. */
  method RancherNeedsAcmeEmail(certManagerRelease: Release) {
    var rancher := new Rancher.RancherComponent();
    var kwargs := map["tls_source" := Str("letsEncrypt")];
    Rancher.Failures(rancher.base.name, rancher.base.namespaceName, kwargs);
    var refused := rancher.Deploy(certManagerRelease, kwargs);
    assert refused == Err(ValueError(Rancher.EmailRequired));
    assert rancher.base.cachedNamespace == None && rancher.base.resource == null;
  }

  /** A secret source for the default Rancher defaults to the secret "rancher-tls". */
  method RancherWithSecret() {
    var kwargs := map["tls_source" := Str("secret")];
    assert "tls_secret_name" !in kwargs;
    Rancher.Secret(Rancher.DefaultName, kwargs);
    assert "rancher" + "-tls" == "rancher-tls";
    assert At(Rancher.HelmValues(Rancher.DefaultName, kwargs).value, ["ingress", "tls"]) ==
           Some(Map(map["source" := Str("secret"), "secretName" := Str("rancher-tls")]));
  }

  /** Rancher's release depends on the cert-manager release it is given and
      lives in namespace "cattle-system". */
  method RancherAfterCertManager(certManagerRelease: Release) {
    var rancher := new Rancher.RancherComponent();
    Rancher.Defaults(rancher.base.name, rancher.base.namespaceName);
    var deployed := rancher.Deploy(certManagerRelease);
    assert deployed.Ok?;
    assert deployed.value.0.opts == Some(ResourceOptions(Some([certManagerRelease]), None));
    assert deployed.value.1.name == "cattle-system";
    assert deployed.value.0.args.version == Str("2.11.2");
  }
}
