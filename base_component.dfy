/** The state every component shares: its identity, its lazily created
    namespace and the resource its `deploy` produced. */
module BaseComponents {
  import opened Values
  import opened Resources

  /** `namespace or name`: a missing or empty namespace falls back to the name. */
  function NamespaceNameFor(name: string, namespace: Option<string>): (r: string)
    ensures namespace.Some? && namespace.value != "" ==> r == namespace.value
    ensures namespace.None? || namespace.value == "" ==> r == name
  {
    if namespace.Some? && namespace.value != "" then namespace.value else name
  }

  class BaseComponent {
    var name: string
    var namespaceName: string
    /** `_namespace`: the memoised namespace resource. */
    var cachedNamespace: Option<Namespace>
    /** `_resource`, read through the `resource` property. */
    var resource: object?
    /** How many namespaces this component has created so far. */
    ghost var namespacesCreated: nat

    /** A cached namespace carries the component's namespace name, and one
        is cached exactly when at least one has been created. */
    ghost predicate Valid()
      reads this
    {
      && (cachedNamespace.Some? ==> cachedNamespace.value.name == namespaceName)
      && (cachedNamespace.None? <==> namespacesCreated == 0)
    }

    /** `name` and `namespace_name` keep the values the constructor gave them. */
    twostate predicate IdentityUnchanged()
      reads this
    {
      name == old(name) && namespaceName == old(namespaceName)
    }

    /** What an access to the `namespace` property leaves behind: `n` is
        cached and named after the component; it is the namespace cached
        before if there was one, and otherwise the one new namespace created. */
    twostate predicate Resolved(new n: Namespace)
      reads this
    {
      && cachedNamespace == Some(n)
      && n.name == namespaceName
      && (old(cachedNamespace).Some? ==>
            n == old(cachedNamespace).value && namespacesCreated == old(namespacesCreated))
      && (old(cachedNamespace).None? ==>
            fresh(n) && namespacesCreated == old(namespacesCreated) + 1)
    }

    constructor (name: string, namespace: Option<string> := None)
      ensures this.name == name && namespaceName == NamespaceNameFor(name, namespace)
      ensures cachedNamespace == None && resource == null && namespacesCreated == 0
      ensures Valid()
    {
      this.name := name;
      namespaceName := NamespaceNameFor(name, namespace);
      cachedNamespace := None;
      resource := null;
      namespacesCreated := 0;
    }

    /** Always creates a new namespace, caching it in place of any earlier one. */
    method CreateNamespace() returns (n: Namespace)
      requires Valid()
      modifies this
      ensures Valid() && IdentityUnchanged() && resource == old(resource)
      ensures fresh(n) && n.name == namespaceName && cachedNamespace == Some(n)
      ensures namespacesCreated == old(namespacesCreated) + 1
    {
      n := new Namespace(namespaceName);
      cachedNamespace := Some(n);
      namespacesCreated := namespacesCreated + 1;
    }

    /** The `namespace` property: creates the namespace on first access only. */
    method GetNamespace() returns (n: Namespace)
      requires Valid()
      modifies this
      ensures Valid() && IdentityUnchanged() && resource == old(resource)
      ensures Resolved(n)
      ensures old(cachedNamespace).Some? ==> unchanged(this)
    {
      if cachedNamespace.None? {
        n := CreateNamespace();
        cachedNamespace := Some(n);
      }
      n := cachedNamespace.value;
    }

    /** The base class leaves deploying to its subclasses. */
    method Deploy() returns (r: Result<()>)
      ensures r == Err(NotImplementedError("Subclasses must implement deploy()"))
    {
      r := Err(NotImplementedError("Subclasses must implement deploy()"));
    }
  }
}
