/** Python values as they travel through the components: keyword arguments,
    Helm values trees and the labels of a Deployment spec. */
module Values {

  datatype Option<+T> = None | Some(value: T)

  /** The exceptions the components raise. */
  datatype PyError =
    | ValueError(message: string)
    | TypeError(message: string)
    | NotImplementedError(message: string)

  /** Either the value an operation returns or the exception it raises. */
  datatype Result<+T> = Ok(value: T) | Err(error: PyError)

  /** A JSON-like Python value: None, bool, int, str, list or dict with string keys. */
  datatype Value =
    | Null
    | Bool(b: bool)
    | Int(i: int)
    | Str(s: string)
    | List(items: seq<Value>)
    | Map(entries: map<string, Value>)

  /** A dict with string keys: a Helm values tree, a labels dict. */
  type Tree = map<string, Value>

  /** The `**kwargs` a caller passes to a `deploy` method. */
  type Options = map<string, Value>

  /** Python truthiness: None, False, 0 and empty containers are false,
      and every other value is true. */
  predicate Truthy(v: Value)
    ensures !Truthy(v) <==> v in {Null, Bool(false), Int(0), Str(""), List([]), Map(map[])}
  {
    match v
    case Null => false
    case Bool(b) => b
    case Int(i) => i != 0
    case Str(s) => s != ""
    case List(items) => items != []
    case Map(entries) => entries != map[]
  }

  /** `kwargs.get(key, default)`: an explicitly passed None is returned as is. */
  function Get(kwargs: Options, key: string, default: Value): (r: Value)
    ensures key in kwargs ==> r == kwargs[key]
    ensures key !in kwargs ==> r == default
  {
    if key in kwargs then kwargs[key] else default
  }

  /** Shallow override, as `dict.update` and a trailing `**` spread do: every
      top-level key of `over` replaces the same key of `base` wholesale,
      nested dicts included; no key is merged recursively. */
  function Update(base: Tree, over: Tree): (r: Tree)
    ensures r.Keys == base.Keys + over.Keys
    ensures forall k :: k in over ==> r[k] == over[k]
    ensures forall k :: k in base && k !in over ==> r[k] == base[k]
  {
    base + over
  }

  /** The TypeError a non-dict `values` option raises. */
  const NotAMapping := "values must be a mapping"

  /** The caller's `values` option as a dict: absent means `{}`; anything that
      is not a dict cannot be spread or used to update a dict. */
  function CallerValues(kwargs: Options): (r: Result<Tree>)
    ensures "values" !in kwargs ==> r == Ok(map[])
    ensures "values" in kwargs && kwargs["values"].Map? ==> r == Ok(kwargs["values"].entries)
    ensures "values" in kwargs && !kwargs["values"].Map? ==> r == Err(TypeError(NotAMapping))
  {
    match Get(kwargs, "values", Map(map[]))
    case Map(entries) => Ok(entries)
    case _ => Err(TypeError(NotAMapping))
  }

  /** `v[path[0]][path[1]]...`: the value at a chain of dict keys, or None
      where a key is missing or a step is not a dict (a KeyError in Python). */
  function Lookup(v: Value, path: seq<string>): Option<Value>
  {
    if path == [] then Some(v)
    else if v.Map? && path[0] in v.entries then Lookup(v.entries[path[0]], path[1..])
    else None
  }

  /** Lookup from the top of a values tree. */
  function At(t: Tree, path: seq<string>): Option<Value>
  {
    Lookup(Map(t), path)
  }

  /** Applying the same override twice changes nothing more. */
  lemma UpdateIdempotent(base: Tree, over: Tree)
    ensures Update(Update(base, over), over) == Update(base, over)
  {
  }

  /** An empty override leaves the tree as it was. */
  lemma UpdateEmpty(base: Tree)
    ensures Update(base, map[]) == base
  {
  }

  /** Under a shallow override every path is read either wholly from the
      override (when its first key is overridden) or wholly from the base. */
  lemma {:induction false} AtUpdate(base: Tree, over: Tree, path: seq<string>)
    requires path != []
    ensures path[0] in over ==> At(Update(base, over), path) == Lookup(over[path[0]], path[1..])
    ensures path[0] !in over ==> At(Update(base, over), path) == At(base, path)
  {
  }

  /** A lookup along `p + q` is a lookup along `p` followed by one along `q`. */
  lemma {:induction false} LookupAppend(v: Value, p: seq<string>, q: seq<string>)
    ensures Lookup(v, p + q) == match Lookup(v, p) case Some(w) => Lookup(w, q) case None => None
    decreases |p|
  {
    if p == [] {
      assert p + q == q;
    } else {
      assert (p + q)[0] == p[0];
      assert (p + q)[1..] == p[1..] + q;
      if v.Map? && p[0] in v.entries {
        LookupAppend(v.entries[p[0]], p[1..], q);
      }
    }
  }

  /** One key deep. */
  lemma {:induction false} Lookup1(v: Value, a: string)
    ensures Lookup(v, [a]) == if v.Map? && a in v.entries then Some(v.entries[a]) else None
  {
    if v.Map? && a in v.entries {
      assert Lookup(v.entries[a], [a][1..]) == Some(v.entries[a]);
    }
  }

  /** Two keys deep from the top of a tree. */
  lemma {:induction false} At2(t: Tree, a: string, b: string)
    ensures At(t, [a, b]) == if a in t then Lookup(t[a], [b]) else None
  {
    assert [a, b][0] == a && [a, b][1..] == [b];
  }

  /** Three keys deep from the top of a tree. */
  lemma {:induction false} At3(t: Tree, a: string, b: string, c: string)
    ensures At(t, [a, b, c]) ==
              if a in t && t[a].Map? && b in t[a].entries then Lookup(t[a].entries[b], [c]) else None
  {
    assert [a, b, c] == [a, b] + [c];
    LookupAppend(Map(t), [a, b], [c]);
    At2(t, a, b);
    if a in t {
      Lookup1(t[a], b);
    }
  }
}
