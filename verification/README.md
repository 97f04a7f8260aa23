# ViewInstanceEntity — a Dafny model

This project models the contract of Ambari's `ViewInstanceEntity` as its unit
test `ViewInstanceEntityTest` pins it down. A view instance is one named
deployment of a versioned view (a pluggable UI extension). It is built from a
view definition (name, version, label) and an already-parsed instance
configuration (name, optional label, declared properties). It then holds:

- its identity: the instance name, the effective label, and the mount path
  `VIEWS_CONTEXT_PATH_PREFIX + viewName/version/instanceName`;
- a property map, a service registry, and a resource provider registry keyed by
  resource type (`MY_VIEW{1.0.0}/myType`). A provider can also be found by the
  bare local name after the `/`;
- instance data partitioned by user. Every put, get, remove and map read works
  under the user that the instance's user name provider reports at that moment.
  The provider can be replaced or re-pointed between calls.

The entity is modelled as an immutable datatype. Each operation is a pure
function from one state to the next.

Modules:

- `Wrappers`: `Option` (the Java `null` of a failed lookup) and `Result`.
- `ResourceTypes`: resource type names, and splitting them into scope and local name.
- `InstanceDataStore`: the per-user data store. It is held as user → (key → value), so a record is identified by (user, key).
- `ViewInstanceEntity`: the aggregate and its operations.
- `Sessions`: sequences of calls with user switches in between. Holds the general partition-isolation theorem.
- `ViewInstanceEntityScenarios`: each test method of `ViewInstanceEntityTest` replayed as a Dafny method. Its `ensures` are the test's assertions.

Behaviour the model fixes beyond what the test exercises:

- The test covers only a present and an absent instance label. The model also treats an empty instance label as absent.
- Construction fails with `MissingInstanceName` when the configuration's name is empty. The test never exercises this.
- Declared properties seed the property map, and a later declaration of a name wins.
- A data record names its view by the versioned name `name{version}`, as in `MY_VIEW{1.0.0}`. So records of two versions of one view differ.

## Model

| member | source | states |
|---|---|---|
| ViewInstanceEntity.Construct | ambari-server/src/test/java/org/apache/ambari/server/orm/entities/ViewInstanceEntityTest.java:56-72 | Construction keeps the supplied view definition and configuration and takes the name from the configuration. It seeds the properties from the declarations, with the last declaration of a name winning. Registries start empty, every user's data map starts empty, and the current user is the default provider's. It fails exactly when the name is empty. |
| ViewInstanceEntityScenarios.NewFixture | ambari-server/src/test/java/org/apache/ambari/server/orm/entities/ViewInstanceEntityTest.java:217-221 | The fixture instance of MY_VIEW 1.0.0 named INSTANCE1, with empty registries and no data. |
| ViewInstanceEntityScenarios.GetViewEntityAndConfigurationTest | ambari-server/src/test/java/org/apache/ambari/server/orm/entities/ViewInstanceEntityTest.java:56-72 | The instance returns the exact view definition and configuration it was built from. |
| ViewInstanceEntity.GetViewEntity | ambari-server/src/test/java/org/apache/ambari/server/orm/entities/ViewInstanceEntityTest.java:62 | Returns the view definition the instance was built from. `Construct` and `Sessions.RunKeepsIdentity` fix its value. |
| ViewInstanceEntity.GetConfiguration | ambari-server/src/test/java/org/apache/ambari/server/orm/entities/ViewInstanceEntityTest.java:71 | Returns the configuration the instance was built from. `Construct` and `Sessions.RunKeepsIdentity` fix its value. |
| ViewInstanceEntity.GetName | ambari-server/src/test/java/org/apache/ambari/server/orm/entities/ViewInstanceEntityTest.java:78 | Returns the instance name, which `Construct` takes from the configuration and no call changes. |
| ViewInstanceEntityScenarios.GetNameTest | ambari-server/src/test/java/org/apache/ambari/server/orm/entities/ViewInstanceEntityTest.java:74-79 | The fixture's name is INSTANCE1. |
| ViewInstanceEntity.GetLabel | ambari-server/src/test/java/org/apache/ambari/server/orm/entities/ViewInstanceEntityTest.java:81-97 | The label is the instance label when one is declared and non-empty, and the view label otherwise. It is never empty when the view label is not. |
| ViewInstanceEntityScenarios.GetLabelTest | ambari-server/src/test/java/org/apache/ambari/server/orm/entities/ViewInstanceEntityTest.java:81-97 | With the instance label the result is "My Instance 1!". Without it the result is "My View!". |
| ViewInstanceEntity.SeedProperties | ambari-server/src/test/java/org/apache/ambari/server/orm/entities/ViewInstanceEntityTest.java:99-114 | Every declared property name is in the seeded map, and each entry holds the value of the last declaration of its name. |
| ViewInstanceEntity.PutProperty | ambari-server/src/test/java/org/apache/ambari/server/orm/entities/ViewInstanceEntityTest.java:103-105 | After a put, the property map is the previous map with that key set to the new value, and nothing else about the instance changes. |
| ViewInstanceEntity.GetPropertyMap | ambari-server/src/test/java/org/apache/ambari/server/orm/entities/ViewInstanceEntityTest.java:107 | Returns the property map: the seeded declarations, updated by `PutProperty`. |
| ViewInstanceEntity.PutPropertyKeepsOthers | ambari-server/src/test/java/org/apache/ambari/server/orm/entities/ViewInstanceEntityTest.java:99-114 | A put adds or overwrites only its key. Every other property keeps its value, so no key is evicted. |
| ViewInstanceEntityScenarios.AddGetPropertyTest | ambari-server/src/test/java/org/apache/ambari/server/orm/entities/ViewInstanceEntityTest.java:99-114 | After putting p1, p2 and p3, the property map is exactly {p1:v1, p2:v2, p3:v3}, which has size 3. |
| ViewInstanceEntity.AddService | ambari-server/src/test/java/org/apache/ambari/server/orm/entities/ViewInstanceEntityTest.java:122-126 | Adding a service changes only the service registry. |
| ViewInstanceEntity.GetService | ambari-server/src/test/java/org/apache/ambari/server/orm/entities/ViewInstanceEntityTest.java:128-129 | A service comes back exactly when one is registered under the key, and it is the one registered there. |
| ViewInstanceEntity.ServiceRoundTrip | ambari-server/src/test/java/org/apache/ambari/server/orm/entities/ViewInstanceEntityTest.java:116-130 | A service is found under its own key, and adding it leaves every other key's lookup unchanged. |
| ViewInstanceEntityScenarios.AddGetServiceTest | ambari-server/src/test/java/org/apache/ambari/server/orm/entities/ViewInstanceEntityTest.java:116-130 | "resources" and "subresources" each return the service added under that key. |
| ResourceTypes.SplitScopedType | ambari-server/src/test/java/org/apache/ambari/server/orm/entities/ViewInstanceEntityTest.java:137 | The type scope/local, with no '/' in local, splits back into exactly that scope and that local name. |
| ResourceTypes.LastIndexOf | ambari-server/src/test/java/org/apache/ambari/server/orm/entities/ViewInstanceEntityTest.java:137 | Gives the position of the last occurrence of the character, or -1 exactly when there is none. No later position holds it. |
| ResourceTypes.LocalName | ambari-server/src/test/java/org/apache/ambari/server/orm/entities/ViewInstanceEntityTest.java:137 | The local name is a suffix of the type name and holds no '/'. A name without '/' is its own local name. |
| ResourceTypes.ScopeOf | ambari-server/src/test/java/org/apache/ambari/server/orm/entities/ViewInstanceEntityTest.java:137 | A type has a scope exactly when its name holds a '/'. The scope, a '/' and the local name then rebuild the name. |
| ResourceTypes.JoinScopeAndLocalName | ambari-server/src/test/java/org/apache/ambari/server/orm/entities/ViewInstanceEntityTest.java:137 | A type that has a scope is rebuilt exactly from its scope and local name. The local name holds no '/'. |
| ResourceTypes.ScopedTypeInjective | ambari-server/src/test/java/org/apache/ambari/server/orm/entities/ViewInstanceEntityTest.java:137 | Two scoped types are equal if and only if their scopes and local names are equal. |
| ViewInstanceEntity.AddResourceProvider | ambari-server/src/test/java/org/apache/ambari/server/orm/entities/ViewInstanceEntityTest.java:139 | Adding a provider changes only the provider registry. |
| ViewInstanceEntity.GetResourceProvider | ambari-server/src/test/java/org/apache/ambari/server/orm/entities/ViewInstanceEntityTest.java:141 | A provider comes back exactly when one is bound to the type, and it is the one bound there. |
| ViewInstanceEntity.GetResourceProviderByName | ambari-server/src/test/java/org/apache/ambari/server/orm/entities/ViewInstanceEntityTest.java:142 | A provider comes back exactly when one is bound to the type `name{version}/local` of the view's own scope, and it is that binding. |
| ViewInstanceEntity.DualAddressing | ambari-server/src/test/java/org/apache/ambari/server/orm/entities/ViewInstanceEntityTest.java:141-142 | For a type in the view's own scope name{version}, the lookup by local name and the lookup by full type give the same result. |
| ViewInstanceEntity.ByNameFindsOwnScope | ambari-server/src/test/java/org/apache/ambari/server/orm/entities/ViewInstanceEntityTest.java:142 | A successful lookup by local name returns the provider bound to a registered type of this view's scope with that local name. |
| ViewInstanceEntity.ForeignScopeInvisibleByName | ambari-server/src/test/java/org/apache/ambari/server/orm/entities/ViewInstanceEntityTest.java:142 | Binding a type of another scope changes no lookup by local name. |
| ViewInstanceEntity.ResourceProviderRoundTrip | ambari-server/src/test/java/org/apache/ambari/server/orm/entities/ViewInstanceEntityTest.java:132-143 | An added provider is returned by its type. For a type of the own scope it is also returned by its local name. Every other type keeps its binding. |
| ViewInstanceEntityScenarios.AddGetResourceProviderTest | ambari-server/src/test/java/org/apache/ambari/server/orm/entities/ViewInstanceEntityTest.java:132-143 | The provider bound to MY_VIEW{1.0.0}/myType is returned both by that type and by "myType". |
| ViewInstanceEntity.ContextPathInjective | ambari-server/src/test/java/org/apache/ambari/server/orm/entities/ViewInstanceEntityTest.java:145-151 | When view name and version hold no '/', equal mount paths imply equal view name, version and instance name. |
| ViewInstanceEntityScenarios.ContextPathTest | ambari-server/src/test/java/org/apache/ambari/server/orm/entities/ViewInstanceEntityTest.java:145-151 | The fixture's mount path is the prefix followed by "MY_VIEW/1.0.0/INSTANCE1". |
| ViewInstanceEntity.GetContextPath | ambari-server/src/test/java/org/apache/ambari/server/orm/entities/ViewInstanceEntityTest.java:145-151 | The mount path starts with the fixed prefix, followed by view name, version and instance name separated by '/'. |
| ViewInstanceEntity.SetUserNameProvider | ambari-server/src/test/java/org/apache/ambari/server/orm/entities/ViewInstanceEntityTest.java:223-228 | After the swap, the current user is the new provider's user. The data and everything else except the provider are unchanged. |
| ViewInstanceEntity.SetUser | ambari-server/src/test/java/org/apache/ambari/server/orm/entities/ViewInstanceEntityTest.java:230-246 | Re-pointing the provider makes the given user current and changes nothing else. |
| ViewInstanceEntity.CurrentUser | ambari-server/src/test/java/org/apache/ambari/server/orm/entities/ViewInstanceEntityTest.java:242-245 | The user of every data operation is whatever the provider held at that moment answers. |
| ViewInstanceEntity.PutInstanceData | ambari-server/src/test/java/org/apache/ambari/server/orm/entities/ViewInstanceEntityTest.java:159-171 | The current user stays the same. The current user's map gains or overwrites exactly that key, and nothing but the data changes. |
| ViewInstanceEntity.GetInstanceData | ambari-server/src/test/java/org/apache/ambari/server/orm/entities/ViewInstanceEntityTest.java:161-166 | A record exists exactly when the key is in the current user's map. It carries that value, the key, the current user as owner, the versioned view name `name{version}` and the instance name. |
| ViewInstanceEntity.RemoveInstanceData | ambari-server/src/test/java/org/apache/ambari/server/orm/entities/ViewInstanceEntityTest.java:183-186 | The current user stays the same, the current user's map loses exactly that key, and nothing but the data changes. |
| ViewInstanceEntity.GetInstanceDataMap | ambari-server/src/test/java/org/apache/ambari/server/orm/entities/ViewInstanceEntityTest.java:173 | Returns the current user's partition of the data. |
| ViewInstanceEntity.InstanceDataMapIsOwnRecords | ambari-server/src/test/java/org/apache/ambari/server/orm/entities/ViewInstanceEntityTest.java:173-181 | The data map holds exactly the keys the current user has records for. For each, a single-key read returns the record with that value. |
| ViewInstanceEntity.ViewScope | ambari-server/src/test/java/org/apache/ambari/server/orm/entities/ViewInstanceEntityTest.java:137 | The view's versioned name `name{version}`, such as `MY_VIEW{1.0.0}`. It is the scope of the view's own resource types and the view name in data records. |
| ViewInstanceEntity.ViewScopeInjective | ambari-server/src/test/java/org/apache/ambari/server/orm/entities/ViewInstanceEntityTest.java:137 | When view names hold no '{', two views have the same scope `name{version}` exactly when their names and versions are equal. |
| ViewInstanceEntity.RecordIdentifiesInstance | ambari-server/src/test/java/org/apache/ambari/server/orm/entities/ViewInstanceEntityTest.java:161-166 | Equal records come from instances with the same view name, version and instance name. |
| ViewInstanceEntity.PutGetRoundTrip | ambari-server/src/test/java/org/apache/ambari/server/orm/entities/ViewInstanceEntityTest.java:159-166 | Reading a key right after writing it returns the written value, owned by the user who wrote it. |
| ViewInstanceEntity.PutKeepsOtherUsers | ambari-server/src/test/java/org/apache/ambari/server/orm/entities/ViewInstanceEntityTest.java:193-203 | A put by the current user leaves every other user's map unchanged. |
| ViewInstanceEntity.RemoveKeepsOtherUsers | ambari-server/src/test/java/org/apache/ambari/server/orm/entities/ViewInstanceEntityTest.java:183-191 | A remove by the current user leaves every other user's map unchanged. |
| ViewInstanceEntity.SwitchUserShowsOwnPartition | ambari-server/src/test/java/org/apache/ambari/server/orm/entities/ViewInstanceEntityTest.java:188-191 | After switching users, the data map is the new user's own partition: exactly the keys that user has records for. |
| InstanceDataStore.Put | ambari-server/src/test/java/org/apache/ambari/server/orm/entities/ViewInstanceEntityTest.java:159 | After a put the (user, key) record exists. Every existing record is kept, and no other record appears. |
| InstanceDataStore.Remove | ambari-server/src/test/java/org/apache/ambari/server/orm/entities/ViewInstanceEntityTest.java:183 | After a remove the (user, key) record is gone, and every other record is kept. |
| InstanceDataStore.Get | ambari-server/src/test/java/org/apache/ambari/server/orm/entities/ViewInstanceEntityTest.java:161 | A value is returned exactly when a (user, key) record exists, and it is that record's value. |
| InstanceDataStore.PartitionAfterPut | ambari-server/src/test/java/org/apache/ambari/server/orm/entities/ViewInstanceEntityTest.java:168-181 | A put by a user changes exactly that key in that user's map, and a read then returns the value. |
| InstanceDataStore.PartitionAfterRemove | ambari-server/src/test/java/org/apache/ambari/server/orm/entities/ViewInstanceEntityTest.java:183-186 | A removal by a user takes exactly that key out of that user's map, and a read then returns nothing. |
| InstanceDataStore.PartitionIsolated | ambari-server/src/test/java/org/apache/ambari/server/orm/entities/ViewInstanceEntityTest.java:188-203 | Puts and removes by one user leave every other user's map unchanged. |
| InstanceDataStore.PutExistingKeepsSize | ambari-server/src/test/java/org/apache/ambari/server/orm/entities/ViewInstanceEntityTest.java:193-203 | Overwriting a key the user already has keeps the size of that user's map, so no record is duplicated. |
| Sessions.ApplyIsolates | ambari-server/src/test/java/org/apache/ambari/server/orm/entities/ViewInstanceEntityTest.java:153-214 | One call moves the current user as the provider changes dictate. It changes the acting user's map as the reference replay does and leaves other users' maps alone. |
| Sessions.RunIsolatesUsers | ambari-server/src/test/java/org/apache/ambari/server/orm/entities/ViewInstanceEntityTest.java:153-214 | After any sequence of calls and user switches, each user's map equals a reference replay on a plain map of only the puts and removes made while that user was current. |
| Sessions.ReplayWithoutWrites | ambari-server/src/test/java/org/apache/ambari/server/orm/entities/ViewInstanceEntityTest.java:205-214 | The reference replay leaves a map unchanged when no put or remove is made as its user. |
| Sessions.UntouchedPartitionUnchanged | ambari-server/src/test/java/org/apache/ambari/server/orm/entities/ViewInstanceEntityTest.java:205-214 | A user who made no put or remove while others acted finds their map exactly as they left it. |
| Sessions.RunKeepsIdentity | ambari-server/src/test/java/org/apache/ambari/server/orm/entities/ViewInstanceEntityTest.java:74-97 | No call changes an instance's view definition, configuration, name, label or mount path. |
| ViewInstanceEntityScenarios.User1Puts | ambari-server/src/test/java/org/apache/ambari/server/orm/entities/ViewInstanceEntityTest.java:159-181 | user1 writes key1..key5 and reads key1 back as ("foo", user1). The map is then exactly the five entries, and user2's partition is untouched. |
| ViewInstanceEntityScenarios.User1Writes | ambari-server/src/test/java/org/apache/ambari/server/orm/entities/ViewInstanceEntityTest.java:159-186 | user1 writes key1..key5, reads key1 back as ("foo", user1), gets the 5-entry map, and after removing key3 gets the 4-entry map. user2's partition is untouched. |
| ViewInstanceEntityScenarios.User2Writes | ambari-server/src/test/java/org/apache/ambari/server/orm/entities/ViewInstanceEntityTest.java:193-203 | user2's three writes give its map plus those three entries. user1's partition is untouched. |
| ViewInstanceEntityScenarios.InstanceDataTest | ambari-server/src/test/java/org/apache/ambari/server/orm/entities/ViewInstanceEntityTest.java:153-215 | This is the whole instance-data test. user1 gets the record, then the 5-entry map, then the 4-entry map without key3. user2 starts with an empty map and then has exactly aaa/bbb/ccc. Back as user1, the four entries are unchanged. |

## Left out

- Parsing view XML descriptors into an instance configuration is not modelled. The configuration is an already-built record, and the label is an `Option`.
- The `ViewEntityTest.getViewEntity()` fixture is a plain view definition: MY_VIEW, 1.0.0, "My View!".
- The EasyMock provider and the service objects are opaque type parameters, compared only by equality.
- JPA persistence of instance data records is a map. Backing-store failures are not modelled.
- The default user name provider reads the authenticated session, which is not part of this model. The session user is a parameter of `Construct`.
- A `null` user name is not modelled. User names are strings, and the empty string is an ordinary partition of its own.
- The value of `VIEWS_CONTEXT_PATH_PREFIX` is not part of this model. It is an abstract constant, and every statement holds for any prefix.
- `Resource.Type` is modelled only as a name that splits at its last '/'.
- The lookup by local name resolves only within the view's own scope `name{version}`. A fallback scan for a type of another scope with the same local name is not modelled, because the test exercises only the own-scope lookup.
- Thread safety and locking are not modelled.
- ViewInstanceEntityScenarios.AddGetPropertyTest: requires the configuration to declare no property names other than p1, p2 and p3. The default fixture's declarations are not part of this model, and with seeding, the test's exact size of 3 holds only under this condition.
- ViewInstanceEntityScenarios.NewFixture: takes the fixture configuration as a parameter, requiring only its name INSTANCE1. The default fixture's label and properties are not part of this model.
