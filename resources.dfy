/** The library resources the components create. Their constructors are
    foreign calls: each is modelled as an object that records the arguments
    it was given and has an identity of its own. */
module Resources {
  import opened Values

  /** A `core.Namespace`; `name` is both its resource name and its metadata name. */
  class Namespace {
    const name: string

    constructor (name: string)
      ensures this.name == name
    {
      this.name := name;
    }
  }

  /** `pulumi.CustomTimeouts`, kept as the unparsed duration strings. */
  datatype CustomTimeouts = CustomTimeouts(create: string, update: string, delete: string)

  /** `pulumi.ResourceOptions` as the components use them. */
  datatype ResourceOptions = ResourceOptions(dependsOn: Option<seq<Release>>, customTimeouts: Option<CustomTimeouts>)

  /** `helm.ReleaseArgs`; `createNamespace` and `timeout` are None where the
      component does not pass them and the library default applies. */
  datatype ReleaseArgs = ReleaseArgs(
    chart: string,
    version: Value,
    namespace: string,
    repo: Value,
    values: Tree,
    createNamespace: Option<bool>,
    timeout: Option<int>)

  /** A `helm.Release`; `opts` is None where no ResourceOptions are passed. */
  class Release {
    const name: string
    const args: ReleaseArgs
    const opts: Option<ResourceOptions>

    constructor (name: string, args: ReleaseArgs, opts: Option<ResourceOptions>)
      ensures this.name == name && this.args == args && this.opts == opts
    {
      this.name := name;
      this.args := args;
      this.opts := opts;
    }
  }

  /** An `apps.v1.Deployment`. */
  class Deployment {
    const name: string
    const metadata: Tree
    const spec: Value

    constructor (name: string, metadata: Tree, spec: Value)
      ensures this.name == name && this.metadata == metadata && this.spec == spec
    {
      this.name := name;
      this.metadata := metadata;
      this.spec := spec;
    }
  }
}
