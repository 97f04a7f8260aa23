/**
 * A view instance over its lifetime: a sequence of calls made by callers,
 * interleaved with changes of the acting user. The theorems here say that
 * what one user sees is exactly what that user's own writes and removals
 * made of it, whatever other users did in between, and that an instance's
 * identity never changes.
 */
module Sessions {
  import opened ResourceTypes
  import Store = InstanceDataStore
  import opened ViewInstanceEntity

  /** The mutating calls a caller can make on a view instance. */
  datatype Call<S, P> =
    | PutPropertyCall(key: string, value: string)
    | AddServiceCall(key: string, service: S)
    | AddResourceProviderCall(resourceType: ResourceType, provider: P)
    | PutInstanceDataCall(key: string, value: string)
    | RemoveInstanceDataCall(key: string)
    | SetUserCall(user: string)
    | SetUserNameProviderCall(userNameProvider: UserNameProvider)

  function Apply<S, P>(e: ViewInstance<S, P>, c: Call<S, P>): ViewInstance<S, P> {
    match c
    case PutPropertyCall(k, v) => PutProperty(e, k, v)
    case AddServiceCall(k, s) => AddService(e, k, s)
    case AddResourceProviderCall(t, p) => AddResourceProvider(e, t, p)
    case PutInstanceDataCall(k, v) => PutInstanceData(e, k, v)
    case RemoveInstanceDataCall(k) => RemoveInstanceData(e, k)
    case SetUserCall(u) => SetUser(e, u)
    case SetUserNameProviderCall(p) => SetUserNameProvider(e, p)
  }

  /** The instance after making `calls` in order. */
  function Run<S, P>(e: ViewInstance<S, P>, calls: seq<Call<S, P>>): ViewInstance<S, P>
    decreases |calls|
  {
    if |calls| == 0 then e else Run(Apply(e, calls[0]), calls[1..])
  }

  /** The acting user once `c` has been made while `current` was acting. */
  function NextUser<S, P>(current: string, c: Call<S, P>): string {
    match c
    case SetUserCall(u) => u
    case SetUserNameProviderCall(p) => p.user
    case _ => current
  }

  /** What a data call made by the acting user does to that user's own flat map. */
  function ApplyOwn<S, P>(m: map<string, string>, c: Call<S, P>): map<string, string> {
    match c
    case PutInstanceDataCall(k, v) => m[k := v]
    case RemoveInstanceDataCall(k) => m - {k}
    case _ => m
  }

  /**
   * Reference definition of what `user` sees: starting from `m`, replay on a
   * plain map only the calls made while `user` was acting; `current` is the
   * user acting when `calls` begin.
   */
  function Replay<S, P>(user: string, current: string, calls: seq<Call<S, P>>, m: map<string, string>)
    : map<string, string>
    decreases |calls|
  {
    if |calls| == 0 then m
    else
      var m' := if current == user then ApplyOwn(m, calls[0]) else m;
      Replay(user, NextUser(current, calls[0]), calls[1..], m')
  }

  /** Whether any data call in `calls` is made while `user` is acting. */
  predicate WritesAs<S, P>(user: string, current: string, calls: seq<Call<S, P>>)
    decreases |calls|
  {
    if |calls| == 0 then false
    else
      (current == user && (calls[0].PutInstanceDataCall? || calls[0].RemoveInstanceDataCall?))
      || WritesAs(user, NextUser(current, calls[0]), calls[1..])
  }

  /** One call moves the acting user as NextUser says and changes each user's map as the reference does. */
  lemma ApplyIsolates<S, P>(e: ViewInstance<S, P>, c: Call<S, P>, user: string)
    ensures CurrentUser(Apply(e, c)) == NextUser(CurrentUser(e), c)
    ensures Store.Partition(Apply(e, c).data, user)
      == (if CurrentUser(e) == user then ApplyOwn(Store.Partition(e.data, user), c)
          else Store.Partition(e.data, user))
  {
  }

  /**
   * Partition isolation: after any sequence of calls, the map of every user
   * is exactly the reference replay of the calls made while that user was
   * acting; other users' calls, even on the same key names, never show.
   */
  lemma {:induction false} RunIsolatesUsers<S, P>(e: ViewInstance<S, P>, calls: seq<Call<S, P>>, user: string)
    ensures Store.Partition(Run(e, calls).data, user)
      == Replay(user, CurrentUser(e), calls, Store.Partition(e.data, user))
    decreases |calls|
  {
    if |calls| > 0 {
      ApplyIsolates(e, calls[0], user);
      RunIsolatesUsers(Apply(e, calls[0]), calls[1..], user);
    }
  }

  /** The reference replay leaves a map alone when none of the calls is made by its user. */
  lemma {:induction false} ReplayWithoutWrites<S, P>(user: string, current: string, calls: seq<Call<S, P>>, m: map<string, string>)
    requires !WritesAs(user, current, calls)
    ensures Replay(user, current, calls, m) == m
    decreases |calls|
  {
    if |calls| > 0 {
      ReplayWithoutWrites(user, NextUser(current, calls[0]), calls[1..], m);
    }
  }

  /** Switching away and back: a user who wrote nothing in between finds their map exactly as they left it. */
  lemma UntouchedPartitionUnchanged<S, P>(e: ViewInstance<S, P>, calls: seq<Call<S, P>>, user: string)
    requires !WritesAs(user, CurrentUser(e), calls)
    ensures Store.Partition(Run(e, calls).data, user) == Store.Partition(e.data, user)
  {
    RunIsolatesUsers(e, calls, user);
    ReplayWithoutWrites(user, CurrentUser(e), calls, Store.Partition(e.data, user));
  }

  /** A single call keeps the view definition, the configuration and the name. */
  lemma ApplyKeepsIdentity<S, P>(e: ViewInstance<S, P>, c: Call<S, P>)
    ensures Apply(e, c).view == e.view
    ensures Apply(e, c).config == e.config
    ensures Apply(e, c).name == e.name
  {
  }

  /** No call changes an instance's view, configuration, name, label or mount path. */
  lemma {:induction false} RunKeepsIdentity<S, P>(e: ViewInstance<S, P>, calls: seq<Call<S, P>>)
    ensures GetViewEntity(Run(e, calls)) == GetViewEntity(e)
    ensures GetConfiguration(Run(e, calls)) == GetConfiguration(e)
    ensures GetName(Run(e, calls)) == GetName(e)
    ensures GetLabel(Run(e, calls)) == GetLabel(e)
    ensures GetContextPath(Run(e, calls)) == GetContextPath(e)
    decreases |calls|
  {
    if |calls| > 0 {
      ApplyKeepsIdentity(e, calls[0]);
      RunKeepsIdentity(Apply(e, calls[0]), calls[1..]);
    }
  }
}
