/**
 * Resource types of a view: a category name of the shape
 * `<view scope>/<local name>`, such as `MY_VIEW{1.0.0}/myType`.
 */
module ResourceTypes {
  import opened Wrappers

  /** Identified by its full name; two types are equal when their names are. */
  datatype ResourceType = ResourceType(name: string)

  /** The separator between a type's view scope and its local name. */
  const Separator: char := '/'

  /** The position of the last `c` in `s`, or -1 when `s` holds no `c`. */
  function LastIndexOf(s: string, c: char): (r: int)
    ensures -1 <= r < |s|
    ensures r == -1 <==> c !in s
    ensures 0 <= r ==> s[r] == c
    ensures forall j :: r < j < |s| ==> s[j] != c
  {
    if |s| == 0 then -1
    else if s[|s| - 1] == c then |s| - 1
    else LastIndexOf(s[..|s| - 1], c)
  }

  /** The part of the type name after its last separator (the whole name when there is none). */
  function LocalName(t: ResourceType): (r: string)
    ensures Separator !in r
    ensures |r| <= |t.name| && t.name[|t.name| - |r|..] == r
    ensures Separator !in t.name ==> r == t.name
  {
    var i := LastIndexOf(t.name, Separator);
    t.name[i + 1..]
  }

  /** The part of the type name before its last separator; None when there is no separator. */
  function ScopeOf(t: ResourceType): (r: Option<string>)
    ensures r.Some? <==> Separator in t.name
    ensures r.Some? ==> r.value + [Separator] + LocalName(t) == t.name
  {
    var i := LastIndexOf(t.name, Separator);
    if i < 0 then None
    else
      assert t.name == t.name[..i] + [Separator] + t.name[i + 1..];
      Some(t.name[..i])
  }

  /** The type named `scope/local`. */
  function ScopedType(scope: string, local: string): ResourceType {
    ResourceType(scope + [Separator] + local)
  }

  /** Splitting a scoped type gives back its scope and its local name. */
  lemma {:induction false} SplitScopedType(scope: string, local: string)
    requires Separator !in local
    ensures LocalName(ScopedType(scope, local)) == local
    ensures ScopeOf(ScopedType(scope, local)) == Some(scope)
  {
    var s := ScopedType(scope, local).name;
    var i := |scope|;
    assert s[i] == Separator;
    forall j | i < j < |s|
      ensures s[j] != Separator
    {
      assert s[j] == local[j - i - 1];
    }
    assert LastIndexOf(s, Separator) == i;
    assert s[i + 1..] == local;
    assert s[..i] == scope;
  }

  /** A type with a scope is the scoped type built from its two parts. */
  lemma JoinScopeAndLocalName(t: ResourceType)
    requires ScopeOf(t).Some?
    ensures Separator !in LocalName(t)
    ensures ScopedType(ScopeOf(t).value, LocalName(t)) == t
  {
  }

  /** Two scoped types with separator-free local names are equal exactly when both parts are. */
  lemma ScopedTypeInjective(s1: string, l1: string, s2: string, l2: string)
    requires Separator !in l1 && Separator !in l2
    ensures ScopedType(s1, l1) == ScopedType(s2, l2) <==> s1 == s2 && l1 == l2
  {
    SplitScopedType(s1, l1);
    SplitScopedType(s2, l2);
  }
}
