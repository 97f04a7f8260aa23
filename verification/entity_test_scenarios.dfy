/**
 * The scenarios of the ViewInstanceEntity tests, replayed against the
 * model. The shared fixture is the view MY_VIEW, version 1.0.0, labelled
 * "My View!", and an instance configuration named INSTANCE1; where the
 * fixture's other settings are not known, the scenario holds for every
 * configuration with that name.
 */
module ViewInstanceEntityScenarios {
  import opened Wrappers
  import opened ResourceTypes
  import opened ViewInstanceEntity
  import Store = InstanceDataStore

  function MyView(): ViewDefinition {
    ViewDefinition("MY_VIEW", "1.0.0", "My View!")
  }

  /** The instance of the descriptor that declares an instance label. */
  function ConfigWithLabel(): InstanceConfig {
    InstanceConfig("INSTANCE1", Some("My Instance 1!"), [])
  }

  /** The instance of the descriptor that declares no instance label. */
  function ConfigWithoutLabel(): InstanceConfig {
    InstanceConfig("INSTANCE1", None, [])
  }

  /** The fixture instance of MY_VIEW built from `config`, with the default user name provider. */
  method NewFixture<S, P>(config: InstanceConfig, sessionUser: string) returns (e: ViewInstance<S, P>)
    requires config.name == "INSTANCE1"
    ensures GetViewEntity(e) == MyView() && GetConfiguration(e) == config
    ensures GetName(e) == "INSTANCE1"
    ensures GetPropertyMap(e) == SeedProperties(config.properties)
    ensures e.services == map[] && e.resourceProviders == map[]
    ensures forall u :: Store.Partition(e.data, u) == map[]
    ensures CurrentUser(e) == sessionUser
  {
    var r := Construct<S, P>(MyView(), config, sessionUser);
    e := r.value;
  }

  /** The instance keeps the view definition and the configuration it was built from. */
  method GetViewEntityAndConfigurationTest<S, P>(config: InstanceConfig, sessionUser: string)
    returns (view: ViewDefinition, configuration: InstanceConfig)
    requires config.name == "INSTANCE1"
    ensures view == MyView()
    ensures configuration == config
  {
    var e := NewFixture<S, P>(config, sessionUser);
    view := GetViewEntity(e);
    configuration := GetConfiguration(e);
  }

  method GetNameTest<S, P>(config: InstanceConfig, sessionUser: string) returns (name: string)
    requires config.name == "INSTANCE1"
    ensures name == "INSTANCE1"
  {
    var e := NewFixture<S, P>(config, sessionUser);
    name := GetName(e);
  }

  /** The declared instance label wins; without one the view's label is used. */
  method GetLabelTest<S, P>(sessionUser: string) returns (withLabel: string, withoutLabel: string)
    ensures withLabel == "My Instance 1!"
    ensures withoutLabel == "My View!"
  {
    var e := NewFixture<S, P>(ConfigWithLabel(), sessionUser);
    withLabel := GetLabel(e);
    e := NewFixture<S, P>(ConfigWithoutLabel(), sessionUser);
    withoutLabel := GetLabel(e);
  }

  /** Seeding from declarations of p1, p2 and p3 only gives a map over those names only. */
  lemma SeededWithinP1P3(ps: seq<(string, string)>)
    requires forall i :: 0 <= i < |ps| ==> ps[i].0 in {"p1", "p2", "p3"}
    ensures SeedProperties(ps).Keys <= {"p1", "p2", "p3"}
  {
  }

  /** Putting p1, p2 and p3 over a map of those names only leaves exactly the three new values. */
  lemma ThreeProperties(seeded: map<string, string>, properties: map<string, string>)
    requires seeded.Keys <= {"p1", "p2", "p3"}
    requires properties == seeded["p1" := "v1"]["p2" := "v2"]["p3" := "v3"]
    ensures properties == map["p1" := "v1", "p2" := "v2", "p3" := "v3"]
    ensures |properties| == 3
  {
    assert properties.Keys == {"p1", "p2", "p3"};
  }

  /** Three puts give exactly those three properties, for a fixture declaring none beyond p1, p2, p3. */
  method AddGetPropertyTest<S, P>(config: InstanceConfig, sessionUser: string) returns (properties: map<string, string>)
    requires config.name == "INSTANCE1"
    requires forall i :: 0 <= i < |config.properties| ==> config.properties[i].0 in {"p1", "p2", "p3"}
    ensures |properties| == 3
    ensures properties == map["p1" := "v1", "p2" := "v2", "p3" := "v3"]
  {
    var e := NewFixture<S, P>(config, sessionUser);
    SeededWithinP1P3(config.properties);
    var seeded := GetPropertyMap(e);
    e := PutProperty(e, "p1", "v1");
    e := PutProperty(e, "p2", "v2");
    e := PutProperty(e, "p3", "v3");
    properties := GetPropertyMap(e);
    ThreeProperties(seeded, properties);
  }

  /** Two services under two keys come back each under its own key. */
  method AddGetServiceTest<S, P>(config: InstanceConfig, sessionUser: string, service: S, service2: S)
    returns (resources: Option<S>, subresources: Option<S>)
    requires config.name == "INSTANCE1"
    ensures resources == Some(service)
    ensures subresources == Some(service2)
  {
    var e := NewFixture<S, P>(config, sessionUser);
    e := AddService(e, "resources", service);
    e := AddService(e, "subresources", service2);
    resources := GetService(e, "resources");
    subresources := GetService(e, "subresources");
  }

  /** The test's resource type is the local name myType in MY_VIEW's own scope. */
  lemma MyTypeIsScoped()
    ensures ResourceType("MY_VIEW{1.0.0}/myType") == ScopedType(ViewScope(MyView()), "myType")
  {
  }

  /** A provider bound to MY_VIEW{1.0.0}/myType is found by that type and by the name myType. */
  method AddGetResourceProviderTest<S, P>(config: InstanceConfig, sessionUser: string, provider: P)
    returns (byType: Option<P>, byName: Option<P>)
    requires config.name == "INSTANCE1"
    ensures byType == Some(provider)
    ensures byName == Some(provider)
  {
    var e := NewFixture<S, P>(config, sessionUser);
    var t := ResourceType("MY_VIEW{1.0.0}/myType");
    MyTypeIsScoped();
    SplitScopedType(ViewScope(MyView()), "myType");
    ResourceProviderRoundTrip(e, t, provider, t);
    e := AddResourceProvider(e, t, provider);
    byType := GetResourceProvider(e, t);
    byName := GetResourceProviderByName(e, "myType");
  }

  /** The fixture's path below the prefix, spelled out. */
  lemma FixtureInstancePath()
    ensures "MY_VIEW" + "/" + ("1.0.0" + "/" + "INSTANCE1") == "MY_VIEW/1.0.0/INSTANCE1"
  {
  }

  method ContextPathTest<S, P>(config: InstanceConfig, sessionUser: string) returns (path: string)
    requires config.name == "INSTANCE1"
    ensures path == ViewsContextPathPrefix + "MY_VIEW/1.0.0/INSTANCE1"
  {
    var e := NewFixture<S, P>(config, sessionUser);
    path := GetContextPath(e);
    FixtureInstancePath();
  }

  /** Removing key3 from user1's five entries leaves the other four. */
  lemma RemoveKey3(m: map<string, string>)
    requires m == map["key1" := "foo", "key2" := "bar", "key3" := "baz", "key4" := "monkey", "key5" := "runner"]
    ensures m - {"key3"} == map["key1" := "foo", "key2" := "bar", "key4" := "monkey", "key5" := "runner"]
  {
  }

  /** user1's five writes, reading key1 back after the first. */
  method User1Puts<S, P>(e0: ViewInstance<S, P>)
    returns (e: ViewInstance<S, P>, record: Option<InstanceDataRecord>, fiveKeys: map<string, string>)
    requires CurrentUser(e0) == "user1" && GetInstanceDataMap(e0) == map[]
    ensures CurrentUser(e) == "user1"
    ensures record.Some? && record.value.value == "foo" && record.value.user == "user1"
    ensures fiveKeys == map["key1" := "foo", "key2" := "bar", "key3" := "baz", "key4" := "monkey", "key5" := "runner"]
    ensures GetInstanceDataMap(e) == fiveKeys
    ensures Store.Partition(e.data, "user2") == Store.Partition(e0.data, "user2")
  {
    PutGetRoundTrip(e0, "key1", "foo");
    e := PutInstanceData(e0, "key1", "foo");
    record := GetInstanceData(e, "key1");
    e := PutInstanceData(e, "key2", "bar");
    e := PutInstanceData(e, "key3", "baz");
    e := PutInstanceData(e, "key4", "monkey");
    e := PutInstanceData(e, "key5", "runner");
    fiveKeys := GetInstanceDataMap(e);
  }

  /** user1's part of the instance data scenario: five writes, then removal of key3. */
  method User1Writes<S, P>(e0: ViewInstance<S, P>)
    returns (e: ViewInstance<S, P>, record: Option<InstanceDataRecord>,
             fiveKeys: map<string, string>, afterRemove: map<string, string>)
    requires CurrentUser(e0) == "user1" && GetInstanceDataMap(e0) == map[]
    ensures CurrentUser(e) == "user1"
    ensures record.Some? && record.value.value == "foo" && record.value.user == "user1"
    ensures fiveKeys == map["key1" := "foo", "key2" := "bar", "key3" := "baz", "key4" := "monkey", "key5" := "runner"]
    ensures afterRemove == map["key1" := "foo", "key2" := "bar", "key4" := "monkey", "key5" := "runner"]
    ensures GetInstanceDataMap(e) == afterRemove
    ensures Store.Partition(e.data, "user2") == Store.Partition(e0.data, "user2")
  {
    e, record, fiveKeys := User1Puts(e0);
    RemoveKeepsOtherUsers(e, "key3", "user2");
    e := RemoveInstanceData(e, "key3");
    afterRemove := GetInstanceDataMap(e);
    RemoveKey3(fiveKeys);
  }

  /** user2's part of the instance data scenario: three writes to key names user1 also uses. */
  method User2Writes<S, P>(e0: ViewInstance<S, P>) returns (e: ViewInstance<S, P>, user2Map: map<string, string>)
    requires CurrentUser(e0) == "user2"
    ensures user2Map == GetInstanceDataMap(e0)["key1" := "aaa"]["key2" := "bbb"]["key3" := "ccc"]
    ensures Store.Partition(e.data, "user1") == Store.Partition(e0.data, "user1")
    ensures e.userNameProvider == e0.userNameProvider
  {
    e := PutInstanceData(e0, "key1", "aaa");
    e := PutInstanceData(e, "key2", "bbb");
    e := PutInstanceData(e, "key3", "ccc");
    user2Map := GetInstanceDataMap(e);
  }

  /** The sizes the test asserts for the scenario's three maps. */
  lemma ScenarioMapSizes()
    ensures |map["key1" := "foo", "key2" := "bar", "key3" := "baz", "key4" := "monkey", "key5" := "runner"]| == 5
    ensures |map["key1" := "foo", "key2" := "bar", "key4" := "monkey", "key5" := "runner"]| == 4
    ensures |map["key1" := "aaa", "key2" := "bbb", "key3" := "ccc"]| == 3
  {
  }

  /**
   * Instance data under a swappable user: user1 writes five keys and removes
   * key3; user2 starts empty and writes three keys with the same names; user1
   * then finds its four entries unchanged.
   */
  method InstanceDataTest<S, P>(config: InstanceConfig, sessionUser: string)
    returns (record: Option<InstanceDataRecord>, fiveKeys: map<string, string>, afterRemove: map<string, string>,
             user2Initial: map<string, string>, user2Map: map<string, string>, user1Again: map<string, string>)
    requires config.name == "INSTANCE1"
    ensures record.Some? && record.value.value == "foo" && record.value.user == "user1"
    ensures |fiveKeys| == 5
    ensures fiveKeys == map["key1" := "foo", "key2" := "bar", "key3" := "baz", "key4" := "monkey", "key5" := "runner"]
    ensures |afterRemove| == 4 && "key3" !in afterRemove
    ensures user2Initial == map[]
    ensures |user2Map| == 3
    ensures user2Map == map["key1" := "aaa", "key2" := "bbb", "key3" := "ccc"]
    ensures |user1Again| == 4
    ensures user1Again == map["key1" := "foo", "key2" := "bar", "key4" := "monkey", "key5" := "runner"]
  {
    var e := NewFixture<S, P>(config, sessionUser);
    e := SetUserNameProvider(e, UserNameProvider("user1"));
    e, record, fiveKeys, afterRemove := User1Writes(e);

    e := SetUser(e, "user2");
    user2Initial := GetInstanceDataMap(e);
    var user1Data := e.data;

    e, user2Map := User2Writes(e);

    e := SetUser(e, "user1");
    user1Again := GetInstanceDataMap(e);
    assert user1Again == Store.Partition(user1Data, "user1");
    ScenarioMapSizes();
  }
}
