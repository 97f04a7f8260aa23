/**
 * A view instance: one named deployment of a versioned view definition,
 * owning a property map, a service registry, a resource provider registry
 * and user-partitioned instance data. The current user is read from the
 * instance's user name provider on every data operation.
 *
 * S is the type of service objects and P the type of resource providers;
 * both are opaque and only compared for equality.
 */
module ViewInstanceEntity {
  import opened Wrappers
  import opened ResourceTypes
  import Store = InstanceDataStore

  /** The parent view definition shared by all instances of a view. */
  datatype ViewDefinition = ViewDefinition(name: string, version: string, displayLabel: string)

  /** An already-parsed instance descriptor: name, optional label and declared properties in order. */
  datatype InstanceConfig = InstanceConfig(name: string, displayLabel: Option<string>, properties: seq<(string, string)>)

  /** The source of the current user name; it can be replaced or re-pointed between calls. */
  datatype UserNameProvider = UserNameProvider(user: string)

  /**
   * One persisted instance data record, as returned by a single-key read.
   * `viewName` is the view's versioned name `name{version}`, so a record tells
   * apart instances of two versions of the same view.
   */
  datatype InstanceDataRecord = InstanceDataRecord(
    viewName: string, instanceName: string, user: string, key: string, value: string)

  datatype ConstructionError = MissingInstanceName

  datatype ViewInstance<S, P> = ViewInstance(
    view: ViewDefinition,
    config: InstanceConfig,
    name: string,
    properties: map<string, string>,
    services: map<string, S>,
    resourceProviders: map<ResourceType, P>,
    data: Store.Store,
    userNameProvider: UserNameProvider)

  /** The prefix under which every view instance is mounted; its value is not part of this model. */
  const ViewsContextPathPrefix: string

  /** The index of the last declaration of `name` in `ps`, if it is declared at all. */
  ghost predicate IsLastDeclaration(ps: seq<(string, string)>, name: string, i: int) {
    0 <= i < |ps| && ps[i].0 == name && forall j :: i < j < |ps| ==> ps[j].0 != name
  }

  /** Seeding one more declaration onto a correctly seeded prefix gives a correctly seeded map. */
  lemma SeedStep(ps: seq<(string, string)>, prefix: map<string, string>, r: map<string, string>)
    requires |ps| > 0 && r == prefix[ps[|ps| - 1].0 := ps[|ps| - 1].1]
    requires forall i :: 0 <= i < |ps| - 1 ==> ps[i].0 in prefix
    requires forall k :: k in prefix ==> exists i :: IsLastDeclaration(ps[..|ps| - 1], k, i) && prefix[k] == ps[i].1
    ensures forall i :: 0 <= i < |ps| ==> ps[i].0 in r
    ensures forall k :: k in r ==> exists i :: IsLastDeclaration(ps, k, i) && r[k] == ps[i].1
  {
  }

  /** The declared properties as a map; a later declaration of a name overrides an earlier one. */
  function SeedProperties(ps: seq<(string, string)>): (r: map<string, string>)
    ensures forall i :: 0 <= i < |ps| ==> ps[i].0 in r
    ensures forall k :: k in r ==> exists i :: IsLastDeclaration(ps, k, i) && r[k] == ps[i].1
  {
    if |ps| == 0 then map[]
    else
      var prefix := SeedProperties(ps[..|ps| - 1]);
      var r := prefix[ps[|ps| - 1].0 := ps[|ps| - 1].1];
      SeedStep(ps, prefix, r);
      r
  }

  /**
   * Builds the instance of `view` described by `config`. The name comes from
   * the configuration and is required; properties are seeded from the
   * configuration; the registries and the data start empty; the user name
   * provider is the default one, which answers `sessionUser`.
   */
  function Construct<S, P>(view: ViewDefinition, config: InstanceConfig, sessionUser: string): (r: Result<ViewInstance<S, P>, ConstructionError>)
    ensures r.Failure? <==> config.name == ""
    ensures r.Failure? ==> r.error == MissingInstanceName
    ensures r.Success? ==>
      && GetViewEntity(r.value) == view
      && GetConfiguration(r.value) == config
      && GetName(r.value) == config.name
      && GetPropertyMap(r.value) == SeedProperties(config.properties)
      && r.value.services.Keys == {}
      && r.value.resourceProviders.Keys == {}
      && (forall u :: Store.Partition(r.value.data, u).Keys == {})
      && CurrentUser(r.value) == sessionUser
  {
    if config.name == "" then Failure(MissingInstanceName)
    else
      var e := ViewInstance(view, config, config.name, SeedProperties(config.properties),
                            map[], map[], map[], UserNameProvider(sessionUser));
      Success(e)
  }

  // ----- identity, label and mount path -----

  function GetViewEntity<S, P>(e: ViewInstance<S, P>): ViewDefinition { e.view }

  function GetConfiguration<S, P>(e: ViewInstance<S, P>): InstanceConfig { e.config }

  function GetName<S, P>(e: ViewInstance<S, P>): string { e.name }

  /** The instance label when the configuration declares a non-empty one, otherwise the view's label. */
  function GetLabel<S, P>(e: ViewInstance<S, P>): (r: string)
    ensures (e.config.displayLabel.Some? && e.config.displayLabel.value != "") ==> r == e.config.displayLabel.value
    ensures !(e.config.displayLabel.Some? && e.config.displayLabel.value != "") ==> r == e.view.displayLabel
    ensures e.view.displayLabel != "" ==> r != ""
  {
    match e.config.displayLabel
    case Some(l) => if l != "" then l else e.view.displayLabel
    case None => e.view.displayLabel
  }

  /** The mount path: the fixed prefix, then view name, version and instance name separated by `/`. */
  function GetContextPath<S, P>(e: ViewInstance<S, P>): (r: string)
    ensures ViewsContextPathPrefix <= r
    ensures r[|ViewsContextPathPrefix|..] == e.view.name + "/" + e.view.version + "/" + e.name
  {
    ViewsContextPathPrefix + InstancePath(e)
  }

  /** The part of the mount path after the prefix: `viewName/version/instanceName`. */
  function InstancePath<S, P>(e: ViewInstance<S, P>): string {
    e.view.name + "/" + (e.view.version + "/" + e.name)
  }

  /** `a`, `sep`, `b` splits uniquely when `a` holds no `sep`. */
  lemma SplitAtFirst(sep: char, a: string, b: string, c: string, d: string)
    requires sep !in a && sep !in c
    requires a + [sep] + b == c + [sep] + d
    ensures a == c && b == d
  {
    var s := a + [sep] + b;
    assert s[|a|] == sep && s[|c|] == sep;
    assert forall j :: 0 <= j < |a| ==> s[j] == a[j] != sep;
    assert forall j :: 0 <= j < |c| ==> s[j] == c[j] != sep;
    assert |a| == |c|;
    assert a == s[..|a|] == c;
    assert b == s[|a| + 1..] == d;
  }

  /** Separator-free names give distinct mount paths to instances with distinct (view, version, instance) triples. */
  lemma {:induction false} ContextPathInjective<S, P>(e1: ViewInstance<S, P>, e2: ViewInstance<S, P>)
    requires '/' !in e1.view.name && '/' !in e1.view.version
    requires '/' !in e2.view.name && '/' !in e2.view.version
    requires GetContextPath(e1) == GetContextPath(e2)
    ensures e1.view.name == e2.view.name
    ensures e1.view.version == e2.view.version
    ensures GetName(e1) == GetName(e2)
  {
    var p := ViewsContextPathPrefix;
    assert InstancePath(e1) == (p + InstancePath(e1))[|p|..] == (p + InstancePath(e2))[|p|..] == InstancePath(e2);
    SplitAtFirst('/', e1.view.name, e1.view.version + "/" + e1.name,
                 e2.view.name, e2.view.version + "/" + e2.name);
    SplitAtFirst('/', e1.view.version, e1.name, e2.view.version, e2.name);
  }

  // ----- properties -----

  function GetPropertyMap<S, P>(e: ViewInstance<S, P>): map<string, string> { e.properties }

  /** Sets property `key` to `value`; nothing but the property map changes. */
  function PutProperty<S, P>(e: ViewInstance<S, P>, key: string, value: string): (r: ViewInstance<S, P>)
    ensures GetPropertyMap(r) == GetPropertyMap(e)[key := value]
    ensures r == e.(properties := r.properties)
  {
    e.(properties := e.properties[key := value])
  }

  /** Putting a property adds or overwrites only that key: no other property is evicted or changed. */
  lemma PutPropertyKeepsOthers<S, P>(e: ViewInstance<S, P>, key: string, value: string)
    ensures GetPropertyMap(PutProperty(e, key, value)).Keys == GetPropertyMap(e).Keys + {key}
    ensures GetPropertyMap(PutProperty(e, key, value))[key] == value
    ensures forall k :: k in GetPropertyMap(e) && k != key ==>
      GetPropertyMap(PutProperty(e, key, value))[k] == GetPropertyMap(e)[k]
  {
  }

  // ----- services -----

  /** Registers `service` under `key`, replacing an earlier registration of that key. */
  function AddService<S, P>(e: ViewInstance<S, P>, key: string, service: S): (r: ViewInstance<S, P>)
    ensures r == e.(services := r.services)
  {
    e.(services := e.services[key := service])
  }

  /** The service registered under `key`, or None when there is none. */
  function GetService<S, P>(e: ViewInstance<S, P>, key: string): (r: Option<S>)
    ensures r.Some? <==> key in e.services
    ensures r.Some? ==> r.value == e.services[key]
  {
    Lookup(e.services, key)
  }

  /** A service is found under the key it was added with, and adding it leaves every other key's lookup alone. */
  lemma ServiceRoundTrip<S, P>(e: ViewInstance<S, P>, key: string, service: S, other: string)
    requires other != key
    ensures GetService(AddService(e, key, service), key) == Some(service)
    ensures GetService(AddService(e, key, service), other) == GetService(e, other)
  {
  }

  // ----- resource providers -----

  /** The scope of this view's own resource types, such as `MY_VIEW{1.0.0}`. */
  function ViewScope(view: ViewDefinition): string {
    view.name + "{" + view.version + "}"
  }

  /** A view name without `{` gives distinct scopes to distinct (name, version) pairs. */
  lemma {:induction false} ViewScopeInjective(v1: ViewDefinition, v2: ViewDefinition)
    requires '{' !in v1.name && '{' !in v2.name
    ensures ViewScope(v1) == ViewScope(v2) <==> v1.name == v2.name && v1.version == v2.version
  {
    if ViewScope(v1) == ViewScope(v2) {
      var s1, s2 := ViewScope(v1), ViewScope(v2);
      assert s1[..|s1| - 1] == v1.name + "{" + v1.version;
      assert s2[..|s2| - 1] == v2.name + "{" + v2.version;
      SplitAtFirst('{', v1.name, v1.version, v2.name, v2.version);
    }
  }

  /** Registers `provider` for `t`, replacing an earlier binding of `t`. */
  function AddResourceProvider<S, P>(e: ViewInstance<S, P>, t: ResourceType, provider: P): (r: ViewInstance<S, P>)
    ensures r == e.(resourceProviders := r.resourceProviders)
  {
    e.(resourceProviders := e.resourceProviders[t := provider])
  }

  /** The provider bound to exactly `t`. */
  function GetResourceProvider<S, P>(e: ViewInstance<S, P>, t: ResourceType): (r: Option<P>)
    ensures r.Some? <==> t in e.resourceProviders
    ensures r.Some? ==> r.value == e.resourceProviders[t]
  {
    Lookup(e.resourceProviders, t)
  }

  /** The provider for local name `local`, resolved within this instance's own view scope. */
  function GetResourceProviderByName<S, P>(e: ViewInstance<S, P>, local: string): (r: Option<P>)
    ensures r.Some? <==> ScopedType(ViewScope(e.view), local) in e.resourceProviders
    ensures r.Some? ==> r.value == e.resourceProviders[ScopedType(ViewScope(e.view), local)]
  {
    GetResourceProvider(e, ScopedType(ViewScope(e.view), local))
  }

  /** A provider bound under a type of this view's scope is found both by the type and by its local name. */
  lemma DualAddressing<S, P>(e: ViewInstance<S, P>, t: ResourceType)
    requires ScopeOf(t) == Some(ViewScope(e.view))
    ensures GetResourceProviderByName(e, LocalName(t)) == GetResourceProvider(e, t)
  {
    JoinScopeAndLocalName(t);
  }

  /** A name lookup only ever answers with a provider bound under this view's scope and that local name. */
  lemma ByNameFindsOwnScope<S, P>(e: ViewInstance<S, P>, local: string)
    requires Separator !in local
    requires GetResourceProviderByName(e, local).Some?
    ensures exists t :: (t in e.resourceProviders
      && ScopeOf(t) == Some(ViewScope(e.view)) && LocalName(t) == local
      && e.resourceProviders[t] == GetResourceProviderByName(e, local).value)
  {
    var t := ScopedType(ViewScope(e.view), local);
    SplitScopedType(ViewScope(e.view), local);
    assert t in e.resourceProviders;
  }

  /** Registering under a type of another scope does not change any name lookup. */
  lemma ForeignScopeInvisibleByName<S, P>(e: ViewInstance<S, P>, t: ResourceType, provider: P, local: string)
    requires Separator !in local
    requires ScopeOf(t) != Some(ViewScope(e.view))
    ensures GetResourceProviderByName(AddResourceProvider(e, t, provider), local) == GetResourceProviderByName(e, local)
  {
    SplitScopedType(ViewScope(e.view), local);
  }

  /**
   * After adding, the provider is found by its type and, for a type of this view's scope,
   * by its local name; every other type keeps its binding.
   */
  lemma ResourceProviderRoundTrip<S, P>(e: ViewInstance<S, P>, t: ResourceType, provider: P, other: ResourceType)
    ensures GetResourceProvider(AddResourceProvider(e, t, provider), t) == Some(provider)
    ensures other != t ==> GetResourceProvider(AddResourceProvider(e, t, provider), other) == GetResourceProvider(e, other)
    ensures ScopeOf(t) == Some(ViewScope(e.view)) ==>
      GetResourceProviderByName(AddResourceProvider(e, t, provider), LocalName(t)) == Some(provider)
  {
    if ScopeOf(t) == Some(ViewScope(e.view)) {
      DualAddressing(AddResourceProvider(e, t, provider), t);
    }
  }

  // ----- user name provider -----

  /** The user every data operation acts for: whatever the current provider answers now. */
  function CurrentUser<S, P>(e: ViewInstance<S, P>): string { e.userNameProvider.user }

  /** Replaces the user name provider; nothing else about the instance changes. */
  function SetUserNameProvider<S, P>(e: ViewInstance<S, P>, p: UserNameProvider): (r: ViewInstance<S, P>)
    ensures CurrentUser(r) == p.user
    ensures r.data == e.data
    ensures r == e.(userNameProvider := r.userNameProvider)
  {
    e.(userNameProvider := p)
  }

  /** Re-points the provider the instance holds at `user`, as the test provider's setter does. */
  function SetUser<S, P>(e: ViewInstance<S, P>, user: string): (r: ViewInstance<S, P>)
    ensures CurrentUser(r) == user
    ensures r.data == e.data
    ensures r == e.(userNameProvider := r.userNameProvider)
  {
    e.(userNameProvider := e.userNameProvider.(user := user))
  }

  // ----- instance data, always under the current user -----

  /** Writes `value` under `key` for the current user, overwriting that user's earlier value. */
  function PutInstanceData<S, P>(e: ViewInstance<S, P>, key: string, value: string): (r: ViewInstance<S, P>)
    ensures CurrentUser(r) == CurrentUser(e)
    ensures GetInstanceDataMap(r) == GetInstanceDataMap(e)[key := value]
    ensures r == e.(data := r.data)
  {
    Store.PartitionAfterPut(e.data, CurrentUser(e), key, value);
    e.(data := Store.Put(e.data, CurrentUser(e), key, value))
  }

  /** The current user's record for `key`, or None when that user has none. */
  function GetInstanceData<S, P>(e: ViewInstance<S, P>, key: string): (r: Option<InstanceDataRecord>)
    ensures r.Some? <==> key in GetInstanceDataMap(e)
    ensures r.Some? ==> (r.value.user == CurrentUser(e) && r.value.key == key
      && r.value.value == GetInstanceDataMap(e)[key]
      && r.value.viewName == ViewScope(e.view) && r.value.instanceName == e.name)
  {
    match Store.Get(e.data, CurrentUser(e), key)
    case Some(v) => Some(InstanceDataRecord(ViewScope(e.view), e.name, CurrentUser(e), key, v))
    case None => None
  }

  /** Deletes the current user's value for `key`, if any. */
  function RemoveInstanceData<S, P>(e: ViewInstance<S, P>, key: string): (r: ViewInstance<S, P>)
    ensures CurrentUser(r) == CurrentUser(e)
    ensures GetInstanceDataMap(r) == GetInstanceDataMap(e) - {key}
    ensures r == e.(data := r.data)
  {
    Store.PartitionAfterRemove(e.data, CurrentUser(e), key);
    e.(data := Store.Remove(e.data, CurrentUser(e), key))
  }

  /** Everything the current user has stored, as a flat map; other users' values never appear. */
  function GetInstanceDataMap<S, P>(e: ViewInstance<S, P>): map<string, string> {
    Store.Partition(e.data, CurrentUser(e))
  }

  /** The data map holds exactly the current user's records, each with the value a single-key read returns. */
  lemma InstanceDataMapIsOwnRecords<S, P>(e: ViewInstance<S, P>)
    ensures forall k :: k in GetInstanceDataMap(e) <==> Store.HasRecord(e.data, CurrentUser(e), k)
    ensures forall k :: k in GetInstanceDataMap(e) ==>
      GetInstanceData(e, k) == Some(InstanceDataRecord(ViewScope(e.view), e.name, CurrentUser(e), k, GetInstanceDataMap(e)[k]))
  {
  }

  /** A read after a write of the same key returns the written value, owned by the writing user. */
  lemma PutGetRoundTrip<S, P>(e: ViewInstance<S, P>, key: string, value: string)
    ensures GetInstanceData(PutInstanceData(e, key, value), key)
      == Some(InstanceDataRecord(ViewScope(e.view), e.name, CurrentUser(e), key, value))
  {
  }

  /** Equal records come from instances of the same view name, version and instance name. */
  lemma {:induction false} RecordIdentifiesInstance<S, P>(e1: ViewInstance<S, P>, e2: ViewInstance<S, P>, k1: string, k2: string)
    requires '{' !in e1.view.name && '{' !in e2.view.name
    requires GetInstanceData(e1, k1).Some? && GetInstanceData(e1, k1) == GetInstanceData(e2, k2)
    ensures e1.view.name == e2.view.name && e1.view.version == e2.view.version && GetName(e1) == GetName(e2)
  {
    ViewScopeInjective(e1.view, e2.view);
  }

  /** A write by the current user leaves every other user's map untouched. */
  lemma PutKeepsOtherUsers<S, P>(e: ViewInstance<S, P>, key: string, value: string, other: string)
    requires other != CurrentUser(e)
    ensures Store.Partition(PutInstanceData(e, key, value).data, other) == Store.Partition(e.data, other)
  {
  }

  /** A removal by the current user leaves every other user's map untouched. */
  lemma RemoveKeepsOtherUsers<S, P>(e: ViewInstance<S, P>, key: string, other: string)
    requires other != CurrentUser(e)
    ensures Store.Partition(RemoveInstanceData(e, key).data, other) == Store.Partition(e.data, other)
  {
  }

  /** What the instance shows after the user changes is the new user's own partition, with no carry-over. */
  lemma SwitchUserShowsOwnPartition<S, P>(e: ViewInstance<S, P>, user: string)
    ensures GetInstanceDataMap(SetUser(e, user)) == Store.Partition(e.data, user)
    ensures forall k :: k in GetInstanceDataMap(SetUser(e, user)) <==> Store.HasRecord(e.data, user, k)
  {
  }
}
