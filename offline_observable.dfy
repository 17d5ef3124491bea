/**
 * The reactive field store (`OfflineObservable`). It keeps one field state per
 * distinct field descriptor, counts the observers of each, merges the states
 * of an observed list of descriptors into one snapshot, and keeps each state
 * fresh either by polling on a TTL timer (pull mode) or through a push
 * subscription (push mode).
 *
 * Asynchrony is made explicit: every promise the source awaits is a pending
 * operation that a later method call completes, and a timer firing is `Tick`.
 * Every run of the source is some order of those calls; not every order is a
 * run of the source.
 */
module OfflineObservable {
  import opened Values
  import opened DurableCache

  /**
   * A field descriptor: a plain name (`"bio"`) or a structured value
   * `{key, ...parameters}`. Two descriptors are the same field exactly when
   * they are equal as values; parameters form a map, so their order does not
   * matter. This equality plays the part of the canonical hash.
   */
  datatype Field = Name(name: string) | Keyed(key: string, params: map<string, Value>)

  /** Pull: `fetch` and `ttl` are configured, `subscribe` is not. Push: `subscribe` is configured. */
  datatype Mode = Pull | Push

  /**
   * The state kept for one descriptor. `intervalId` is the TTL timer (pull
   * mode) and `subscribeDispose` the push subscription (push mode).
   */
  datatype FieldState = FieldState(
    data: Value,
    loading: bool,
    error: Option<Error>,
    observerCount: int,
    intervalId: Option<nat>,
    subscribeDispose: Option<nat>)

  /**
   * A payload handed to the push callback. `data == Undefined` and `None` mark
   * a property that is absent; `error == Some(None)` is an explicit `null`.
   */
  datatype Payload = Payload(data: Value, loading: Option<bool>, error: Option<Option<Error>>)

  /** The callback given to `subscribe` for `field`, with its own `first` flag. */
  datatype Listener = Listener(field: Field, first: bool)

  /** A promise the store awaits. */
  datatype Pending =
      /** `fetchField` awaiting the cache's `fetch`, which read `initial` and maybe started a refresh. */
    | Reading(field: Field, initial: Value, refresh: Option<Refresh<Field>>)
      /** A refresh in flight; `awaited` is false when `fetchField` gave up before awaiting it. */
    | Refreshing(field: Field, awaited: bool)
      /** `subscribeField` awaiting the cache's `get`, which read `initial`. */
    | Seeding(field: Field, initial: Value)

  /** Errors of several fields combined into one; its message joins theirs with "; ". */
  datatype CombinedError = CombinedError(errors: seq<Error>) {
    function Message(): (r: string)
      ensures |errors| == 1 ==> r == errors[0].message
      ensures |errors| > 0 ==> errors[0].message <= r
    {
      Join(Messages(errors), "; ")
    }
  }

  function Messages(errors: seq<Error>): (r: seq<string>)
    ensures |r| == |errors| && forall i :: 0 <= i < |errors| ==> r[i] == errors[i].message
  {
    if errors == [] then [] else [errors[0].message] + Messages(errors[1..])
  }

  /** The merged view of a list of descriptors that an observer receives. */
  datatype Snapshot = Snapshot(data: map<string, Value>, loading: bool, error: Option<CombinedError>)

  /** What the observed loop of `getData` has accumulated so far. */
  datatype Accumulated = Accumulated(data: map<string, Value>, loading: bool, errors: seq<Error>)

  /** The `forEach` of `getData` over `fields`, one descriptor at a time. */
  function Collect(store: map<Field, FieldState>, fieldKey: Field -> string, fields: seq<Field>): Accumulated
    decreases |fields|
  {
    if fields == [] then Accumulated(map[], false, [])
    else
      var acc := Collect(store, fieldKey, fields[..|fields| - 1]);
      var f := fields[|fields| - 1];
      if f !in store then acc
      else
        Accumulated(
          acc.data[fieldKey(f) := store[f].data],
          acc.loading || store[f].loading,
          acc.errors + (if store[f].error.Some? then [store[f].error.value] else []))
  }

  /**
   * `getData(fields)`: the snapshot of `fields` in `store`. It has no error
   * exactly when no observed existing state has one; otherwise its error
   * combines all of them in descriptor order.
   */
  function SnapshotOf(store: map<Field, FieldState>, fieldKey: Field -> string, fields: seq<Field>): (r: Snapshot)
    ensures r.error.None? <==> forall i :: 0 <= i < |fields| && fields[i] in store ==> store[fields[i]].error.None?
    ensures r.error.Some? ==> r.error.value.errors == ErrorsOf(store, fields)
  {
    CollectErrors(store, fieldKey, fields);
    ErrorsOfEmpty(store, fields);
    var acc := Collect(store, fieldKey, fields);
    Snapshot(acc.data, acc.loading, if |acc.errors| > 0 then Some(CombinedError(acc.errors)) else None)
  }

  /** The errors held by the existing states of `fields`, in descriptor order. */
  function ErrorsOf(store: map<Field, FieldState>, fields: seq<Field>): seq<Error> {
    if fields == [] then []
    else
      (if fields[0] in store && store[fields[0]].error.Some? then [store[fields[0]].error.value] else [])
      + ErrorsOf(store, fields[1..])
  }

  lemma {:induction false} ErrorsOfAppend(store: map<Field, FieldState>, fields: seq<Field>, f: Field)
    ensures ErrorsOf(store, fields + [f])
         == ErrorsOf(store, fields) + (if f in store && store[f].error.Some? then [store[f].error.value] else [])
  {
    if fields == [] {
      assert fields + [f] == [f];
    } else {
      assert (fields + [f])[1..] == fields[1..] + [f];
      ErrorsOfAppend(store, fields[1..], f);
    }
  }

  /**
   * Combining one more error appends "; " and its message: the combined
   * message lists the messages in order, separated by "; ".
   */
  lemma MessageAppend(errors: seq<Error>, e: Error)
    requires |errors| > 0
    ensures CombinedError(errors + [e]).Message() == CombinedError(errors).Message() + "; " + e.message
  {
    assert Messages(errors + [e]) == Messages(errors) + [e.message];
    JoinAppend(Messages(errors), e.message, "; ");
  }

  /** The snapshot's `data` holds a key exactly when some observed descriptor with that key has a state. */
  lemma {:induction false} SnapshotDataKeys(store: map<Field, FieldState>, fieldKey: Field -> string, fields: seq<Field>, k: string)
    ensures k in SnapshotOf(store, fieldKey, fields).data
        <==> exists i :: 0 <= i < |fields| && fields[i] in store && fieldKey(fields[i]) == k
  {
    if fields != [] {
      var init := fields[..|fields| - 1];
      SnapshotDataKeys(store, fieldKey, init, k);
      if k in SnapshotOf(store, fieldKey, init).data {
        var i :| 0 <= i < |init| && init[i] in store && fieldKey(init[i]) == k;
        assert fields[i] == init[i];
      }
      if exists i :: 0 <= i < |fields| && fields[i] in store && fieldKey(fields[i]) == k {
        var i :| 0 <= i < |fields| && fields[i] in store && fieldKey(fields[i]) == k;
        if i < |init| {
          assert init[i] == fields[i];
        }
      }
    }
  }

  /**
   * Under key `k` the snapshot holds the data of the LAST observed descriptor
   * with that key whose state exists: later descriptors overwrite earlier ones.
   */
  lemma {:induction false} SnapshotDataValue(store: map<Field, FieldState>, fieldKey: Field -> string, fields: seq<Field>, k: string)
    requires k in SnapshotOf(store, fieldKey, fields).data
    ensures exists i :: (0 <= i < |fields| && fields[i] in store && fieldKey(fields[i]) == k
      && SnapshotOf(store, fieldKey, fields).data[k] == store[fields[i]].data
      && forall j :: i < j < |fields| && fields[j] in store ==> fieldKey(fields[j]) != k)
  {
    var init := fields[..|fields| - 1];
    var f := fields[|fields| - 1];
    if f in store && fieldKey(f) == k {
      assert fields[|fields| - 1] == f;
    } else {
      SnapshotDataValue(store, fieldKey, init, k);
      var i :| 0 <= i < |init| && init[i] in store && fieldKey(init[i]) == k
        && SnapshotOf(store, fieldKey, init).data[k] == store[init[i]].data
        && forall j :: i < j < |init| && init[j] in store ==> fieldKey(init[j]) != k;
      assert fields[i] == init[i];
      forall j | i < j < |fields| && fields[j] in store ensures fieldKey(fields[j]) != k {
        if j < |init| { assert fields[j] == init[j]; }
      }
    }
  }

  /** The snapshot is loading exactly when some observed existing state is loading. */
  lemma {:induction false} SnapshotLoading(store: map<Field, FieldState>, fieldKey: Field -> string, fields: seq<Field>)
    ensures SnapshotOf(store, fieldKey, fields).loading
        <==> exists i :: 0 <= i < |fields| && fields[i] in store && store[fields[i]].loading
  {
    if fields != [] {
      var init := fields[..|fields| - 1];
      SnapshotLoading(store, fieldKey, init);
      if SnapshotOf(store, fieldKey, init).loading {
        var i :| 0 <= i < |init| && init[i] in store && store[init[i]].loading;
        assert fields[i] == init[i];
      }
      if exists i :: 0 <= i < |fields| && fields[i] in store && store[fields[i]].loading {
        var i :| 0 <= i < |fields| && fields[i] in store && store[fields[i]].loading;
        if i < |init| {
          assert init[i] == fields[i];
        }
      }
    }
  }

  lemma {:induction false} CollectErrors(store: map<Field, FieldState>, fieldKey: Field -> string, fields: seq<Field>)
    ensures Collect(store, fieldKey, fields).errors == ErrorsOf(store, fields)
  {
    if fields != [] {
      var init := fields[..|fields| - 1];
      CollectErrors(store, fieldKey, init);
      ErrorsOfAppend(store, init, fields[|fields| - 1]);
      assert init + [fields[|fields| - 1]] == fields;
    }
  }

  lemma {:induction false} ErrorsOfEmpty(store: map<Field, FieldState>, fields: seq<Field>)
    ensures ErrorsOf(store, fields) == []
        <==> forall i :: 0 <= i < |fields| && fields[i] in store ==> store[fields[i]].error.None?
  {
    if fields != [] {
      ErrorsOfEmpty(store, fields[1..]);
      forall i | 1 <= i < |fields| ensures fields[i] == fields[1..][i - 1] { }
    }
  }

  /** The errors of two existing states, in order. */
  lemma ErrorsOfPair(store: map<Field, FieldState>, f: Field, g: Field, e: Error, e': Error)
    requires f in store && store[f].error == Some(e) && g in store && store[g].error == Some(e')
    ensures ErrorsOf(store, [f, g]) == [e, e']
  {
    assert [f, g][1..] == [g] && [g][1..] == [];
    assert ErrorsOf(store, [g]) == [e'] + ErrorsOf(store, []);
  }

  /** The message combining two errors. */
  lemma MessagePair(e: Error, e': Error)
    ensures CombinedError([e, e']).Message() == e.message + "; " + e'.message
  {
    assert Messages([e, e']) == [e.message, e'.message];
    assert [e.message, e'.message][..1] == [e.message];
  }

  /** Two failing fields `bio` and `website` report one error "test error; test error 2". */
  lemma CombinedMessageExample(fieldKey: Field -> string, bio: FieldState, website: FieldState)
    requires bio.error == Some(Error("test error")) && website.error == Some(Error("test error 2"))
    ensures var s := SnapshotOf(map[Name("bio") := bio, Name("website") := website], fieldKey, [Name("bio"), Name("website")]);
      s.error.Some? && s.error.value.Message() == "test error; test error 2"
  {
    var store := map[Name("bio") := bio, Name("website") := website];
    var fields := [Name("bio"), Name("website")];
    ErrorsOfPair(store, Name("bio"), Name("website"), Error("test error"), Error("test error 2"));
    assert fields[0] in store && store[fields[0]].error.Some?;
    var s := SnapshotOf(store, fieldKey, fields);
    assert s.error == Some(CombinedError([Error("test error"), Error("test error 2")]));
    MessagePair(Error("test error"), Error("test error 2"));
    ExampleMessage();
  }

  /**
   * The two messages of the example joined with "; ". A helper of
   * `CombinedMessageExample`: the literal concatenation on its own keeps that
   * lemma's proof small.
   */
  lemma ExampleMessage()
    ensures "test error" + "; " + "test error 2" == "test error; test error 2"
  {
  }

  /** A state that an operation on the data leaves registered exactly as before. */
  predicate SameRegistration(s: FieldState, t: FieldState) {
    s.observerCount == t.observerCount && s.intervalId == t.intervalId && s.subscribeDispose == t.subscribeDispose
  }

  /**
   * `fetchField` resuming after the cache's `fetch`: the cached value becomes
   * the data, and the state stays loading only while a refresh is in flight.
   */
  function Resumed(s: FieldState, initial: Value, refreshing: bool): (r: FieldState)
    ensures r.data == initial && r.loading == refreshing && r.error == s.error
    ensures SameRegistration(r, s)
  {
    s.(data := initial, loading := refreshing)
  }

  /**
   * A refresh settling: a result replaces the data, a failure sets the error
   * and keeps the stale data, and either way loading ends.
   */
  function Settled(s: FieldState, outcome: Result<Value, Error>): (r: FieldState)
    ensures !r.loading && SameRegistration(r, s)
    ensures outcome.Success? ==> r.data == outcome.value && r.error == s.error
    ensures outcome.Failure? ==> r.data == s.data && r.error == Some(outcome.error)
  {
    match outcome
    case Success(v) => s.(data := v, loading := false)
    case Failure(e) => s.(error := Some(e), loading := false)
  }

  /** The offline seed: applied, with loading set, only while the data is still undefined. */
  function Seeded(s: FieldState, initial: Value): (r: FieldState)
    ensures s.data != Undefined ==> r == s
    ensures s.data == Undefined ==> r.data == initial && r.loading && r.error == s.error
    ensures SameRegistration(r, s)
  {
    if s.data == Undefined then s.(data := initial, loading := true) else s
  }

  /**
   * The push handler: the first payload clears loading, and only the parts
   * that the payload defines overwrite the state.
   */
  function Pushed(s: FieldState, first: bool, p: Payload): (r: FieldState)
    ensures p.data == Undefined ==> r.data == s.data
    ensures p.data != Undefined ==> r.data == p.data
    ensures p.loading.Some? ==> r.loading == p.loading.value
    ensures p.loading.None? ==> r.loading == (s.loading && !first)
    ensures p.error.None? ==> r.error == s.error
    ensures p.error.Some? ==> r.error == p.error.value
    ensures SameRegistration(r, s)
  {
    var s1 := if first then s.(loading := false) else s;
    var s2 := if p.data != Undefined then s1.(data := p.data) else s1;
    var s3 := if p.loading.Some? then s2.(loading := p.loading.value) else s2;
    if p.error.Some? then s3.(error := p.error.value) else s3
  }

  /** A payload that defines nothing changes nothing, once the first payload has been seen. */
  lemma EmptyPayloadKeepsState(s: FieldState)
    ensures Pushed(s, false, Payload(Undefined, None, None)) == s
  {
  }

  /** How many observers the state of `f` has; a descriptor without a state has none. */
  function ObserverCount(store: map<Field, FieldState>, f: Field): int {
    if f in store then store[f].observerCount else 0
  }

  /** Every identifier in `ids` was handed out before `bound`. */
  ghost predicate Below<T>(ids: map<nat, T>, bound: nat) {
    forall id :: id in ids ==> id < bound
  }

  /** Every state has at least one observer: the dispose that brings the count to zero deletes it. */
  ghost predicate Observed(store: map<Field, FieldState>) {
    forall f :: f in store ==> store[f].observerCount >= 1
  }

  /** Every open subscription has its callback, for the same field. */
  ghost predicate Listening(subscriptions: map<nat, Field>, listeners: map<nat, Listener>) {
    forall sid :: sid in subscriptions ==> sid in listeners && listeners[sid].field == subscriptions[sid]
  }

  /** The TTL timer the state of `f` holds, if it has a state and a timer. */
  function IntervalOf(store: map<Field, FieldState>, f: Field): Option<nat> {
    if f in store then store[f].intervalId else None
  }

  /** The push subscription the state of `f` holds, if it has a state and a subscription. */
  function DisposerOf(store: map<Field, FieldState>, f: Field): Option<nat> {
    if f in store then store[f].subscribeDispose else None
  }

  /** Pull mode: each state owns exactly one running TTL timer, and each running timer belongs to a state. */
  ghost predicate Timed(store: map<Field, FieldState>, timers: map<nat, Field>) {
    && (forall f {:trigger IntervalOf(store, f)} :: f in store ==>
          IntervalOf(store, f).Some? && IntervalOf(store, f).value in timers && timers[IntervalOf(store, f).value] == f)
    && (forall t {:trigger timers[t]} :: t in timers ==> timers[t] in store && IntervalOf(store, timers[t]) == Some(t))
  }

  /** Push mode: each state owns exactly one open subscription, and each open subscription belongs to a state. */
  ghost predicate Subscribed(store: map<Field, FieldState>, subscriptions: map<nat, Field>) {
    && (forall f {:trigger DisposerOf(store, f)} :: f in store ==>
          DisposerOf(store, f).Some? && DisposerOf(store, f).value in subscriptions
          && subscriptions[DisposerOf(store, f).value] == f)
    && (forall sid {:trigger subscriptions[sid]} :: sid in subscriptions ==>
          subscriptions[sid] in store && DisposerOf(store, subscriptions[sid]) == Some(sid))
  }

  /** A new state with a fresh timer keeps the pairing. */
  lemma TimedInsert(store: map<Field, FieldState>, timers: map<nat, Field>, f: Field, s: FieldState, t: nat)
    requires Timed(store, timers) && f !in store && t !in timers && s.intervalId == Some(t)
    ensures Timed(store[f := s], timers[t := f])
  {
    var store', timers' := store[f := s], timers[t := f];
    forall g | g in store'
      ensures IntervalOf(store', g).Some? && IntervalOf(store', g).value in timers' && timers'[IntervalOf(store', g).value] == g
    {
      if g != f {
        assert IntervalOf(store', g) == IntervalOf(store, g);
      }
    }
    forall u | u in timers' ensures timers'[u] in store' && IntervalOf(store', timers'[u]) == Some(u) {
      if u != t {
        assert IntervalOf(store, timers[u]) == Some(u);
      }
    }
  }

  /** Deleting a state and clearing its timer keeps the pairing. */
  lemma TimedRemove(store: map<Field, FieldState>, timers: map<nat, Field>, f: Field)
    requires Timed(store, timers) && f in store
    ensures IntervalOf(store, f).Some? && Timed(store - {f}, timers - {IntervalOf(store, f).value})
  {
    var t := IntervalOf(store, f).value;
    var store', timers' := store - {f}, timers - {t};
    forall g | g in store'
      ensures IntervalOf(store', g).Some? && IntervalOf(store', g).value in timers' && timers'[IntervalOf(store', g).value] == g
    {
      assert IntervalOf(store', g) == IntervalOf(store, g);
    }
    forall u | u in timers' ensures timers'[u] in store' && IntervalOf(store', timers'[u]) == Some(u) {
      assert IntervalOf(store, timers[u]) == Some(u);
    }
  }

  /** The running timers are determined by the states that own them. */
  lemma TimedUnique(store: map<Field, FieldState>, timers: map<nat, Field>, timers': map<nat, Field>)
    requires Timed(store, timers) && Timed(store, timers')
    ensures timers == timers'
  {
    forall t | t in timers ensures t in timers' && timers'[t] == timers[t] {
      assert IntervalOf(store, timers[t]) == Some(t);
    }
    forall t | t in timers' ensures t in timers {
      assert IntervalOf(store, timers'[t]) == Some(t);
    }
  }

  /** A new state with a fresh subscription keeps the pairing. */
  lemma SubscribedInsert(store: map<Field, FieldState>, subscriptions: map<nat, Field>, f: Field, s: FieldState, sid: nat)
    requires Subscribed(store, subscriptions) && f !in store && sid !in subscriptions && s.subscribeDispose == Some(sid)
    ensures Subscribed(store[f := s], subscriptions[sid := f])
  {
    var store', subscriptions' := store[f := s], subscriptions[sid := f];
    forall g | g in store'
      ensures DisposerOf(store', g).Some? && DisposerOf(store', g).value in subscriptions'
        && subscriptions'[DisposerOf(store', g).value] == g
    {
      if g != f {
        assert DisposerOf(store', g) == DisposerOf(store, g);
      }
    }
    forall u | u in subscriptions' ensures subscriptions'[u] in store' && DisposerOf(store', subscriptions'[u]) == Some(u) {
      if u != sid {
        assert DisposerOf(store, subscriptions[u]) == Some(u);
      }
    }
  }

  /** Deleting a state and disposing its subscription keeps the pairing. */
  lemma SubscribedRemove(store: map<Field, FieldState>, subscriptions: map<nat, Field>, f: Field)
    requires Subscribed(store, subscriptions) && f in store
    ensures DisposerOf(store, f).Some? && Subscribed(store - {f}, subscriptions - {DisposerOf(store, f).value})
  {
    var sid := DisposerOf(store, f).value;
    var store', subscriptions' := store - {f}, subscriptions - {sid};
    forall g | g in store'
      ensures DisposerOf(store', g).Some? && DisposerOf(store', g).value in subscriptions'
        && subscriptions'[DisposerOf(store', g).value] == g
    {
      assert DisposerOf(store', g) == DisposerOf(store, g);
    }
    forall u | u in subscriptions' ensures subscriptions'[u] in store' && DisposerOf(store', subscriptions'[u]) == Some(u) {
      assert DisposerOf(store, subscriptions[u]) == Some(u);
    }
  }

  /** The open subscriptions are determined by the states that own them. */
  lemma SubscribedUnique(store: map<Field, FieldState>, subscriptions: map<nat, Field>, subscriptions': map<nat, Field>)
    requires Subscribed(store, subscriptions) && Subscribed(store, subscriptions')
    ensures subscriptions == subscriptions'
  {
    forall sid | sid in subscriptions ensures sid in subscriptions' && subscriptions'[sid] == subscriptions[sid] {
      assert DisposerOf(store, subscriptions[sid]) == Some(sid);
    }
    forall sid | sid in subscriptions' ensures sid in subscriptions {
      assert DisposerOf(store, subscriptions'[sid]) == Some(sid);
    }
  }

  /** Replacing a state by one holding the same timer and subscription keeps every invariant on the states. */
  lemma Reregistered(store: map<Field, FieldState>, timers: map<nat, Field>, subscriptions: map<nat, Field>, f: Field, s: FieldState)
    requires f in store && s.intervalId == store[f].intervalId && s.subscribeDispose == store[f].subscribeDispose
    ensures Observed(store) && s.observerCount >= 1 ==> Observed(store[f := s])
    ensures Timed(store, timers) ==> Timed(store[f := s], timers)
    ensures Subscribed(store, subscriptions) ==> Subscribed(store[f := s], subscriptions)
  {
    var store' := store[f := s];
    assert forall g :: IntervalOf(store', g) == IntervalOf(store, g);
    assert forall g :: DisposerOf(store', g) == DisposerOf(store, g);
  }

  /** What the JavaScript runtime holds for a store besides the states themselves. */
  datatype Runtime = Runtime(
    timers: map<nat, Field>,        // running TTL timers (pull mode), with the descriptor each refetches
    subscriptions: map<nat, Field>, // push subscriptions not yet disposed
    listeners: map<nat, Listener>,  // every callback handed to `subscribe`, kept after its subscription is disposed
    unsubscribed: seq<nat>,         // the subscriptions whose dispose function has been called, in call order
    pending: map<nat, Pending>,     // promises the store awaits
    nextId: nat)                    // the next fresh identifier for a timer, subscription or promise

  /**
   * The store's invariant: identifiers are fresh, every state is observed,
   * every open subscription has its callback, and each state owns exactly the
   * one timer (pull) or subscription (push) it started.
   */
  ghost predicate Consistent(mode: Mode, store: map<Field, FieldState>, rt: Runtime) {
    && Below(rt.timers, rt.nextId) && Below(rt.listeners, rt.nextId) && Below(rt.pending, rt.nextId)
    && Observed(store)
    && Listening(rt.subscriptions, rt.listeners)
    && (mode.Pull? ==> rt.subscriptions == map[] && Timed(store, rt.timers))
    && (mode.Push? ==> rt.timers == map[] && Subscribed(store, rt.subscriptions))
  }

  /** A state as `registerFieldWatch` creates it, with its first observer. */
  const Created := FieldState(Undefined, false, None, 1, None, None)

  /**
   * The bookkeeping of `registerFieldWatch(f)`: one more observer of `f`'s
   * state, created if needed. Only the registration that creates the state
   * starts a timer (pull) or a subscription (push), and a subscription starts
   * the offline seed, which reads `seed` from the cache.
   */
  function Watch(mode: Mode, store: map<Field, FieldState>, rt: Runtime, f: Field, seed: Value): (r: (map<Field, FieldState>, Runtime))
    ensures ObserverCount(r.0, f) == ObserverCount(store, f) + 1
    ensures f in r.0 && r.0 == store[f := r.0[f]]
    ensures f in store ==> r.0[f] == store[f].(observerCount := store[f].observerCount + 1) && r.1 == rt
    ensures f !in store ==> r.0[f].data == Undefined && !r.0[f].loading && r.0[f].error.None?
    ensures f !in store && mode.Pull? ==>
      && r.0[f].intervalId.Some? && r.0[f].subscribeDispose.None?
      && r.1.timers == rt.timers[r.0[f].intervalId.value := f] && r.1.pending == rt.pending
      && r.1.subscriptions == rt.subscriptions && r.1.listeners == rt.listeners
    ensures f !in store && mode.Push? ==>
      && r.0[f].subscribeDispose.Some? && r.0[f].intervalId.None?
      && r.1.timers == rt.timers
      && r.1.subscriptions == rt.subscriptions[r.0[f].subscribeDispose.value := f]
      && r.1.listeners == rt.listeners[r.0[f].subscribeDispose.value := Listener(f, true)]
      && r.1.pending == rt.pending[rt.nextId := Seeding(f, seed)]
    ensures rt.nextId <= r.1.nextId && r.1.unsubscribed == rt.unsubscribed
  {
    if f in store then
      (store[f := store[f].(observerCount := store[f].observerCount + 1)], rt)
    else if mode.Push? then
      var seedOp, sid := rt.nextId, rt.nextId + 1;
      (store[f := Created.(subscribeDispose := Some(sid))],
       rt.(pending := rt.pending[seedOp := Seeding(f, seed)],
           listeners := rt.listeners[sid := Listener(f, true)],
           subscriptions := rt.subscriptions[sid := f],
           nextId := rt.nextId + 2))
    else
      var t := rt.nextId;
      (store[f := Created.(intervalId := Some(t))], rt.(timers := rt.timers[t := f], nextId := rt.nextId + 1))
  }

  /** Registering keeps the invariant: a started timer or subscription is fresh and owned by the new state. */
  lemma WatchConsistent(mode: Mode, store: map<Field, FieldState>, rt: Runtime, f: Field, seed: Value)
    requires Consistent(mode, store, rt)
    ensures Consistent(mode, Watch(mode, store, rt, f, seed).0, Watch(mode, store, rt, f, seed).1)
  {
    var r := Watch(mode, store, rt, f, seed);
    if f in store {
      Reregistered(store, rt.timers, rt.subscriptions, f, r.0[f]);
    } else if mode.Push? {
      SubscribedInsert(store, rt.subscriptions, f, r.0[f], rt.nextId + 1);
    } else {
      TimedInsert(store, rt.timers, f, r.0[f], rt.nextId);
    }
  }

  /**
   * A registration's dispose function on the existing state of `f`: one
   * observer fewer, and at zero the timer is cleared, the subscription's
   * dispose function called, and the state deleted. Nothing else changes.
   */
  function Release(store: map<Field, FieldState>, rt: Runtime, f: Field): (r: (map<Field, FieldState>, Runtime))
    requires f in store
    ensures store[f].observerCount >= 1 ==> ObserverCount(r.0, f) == ObserverCount(store, f) - 1
    ensures r.0.Keys <= store.Keys && forall g :: g in store && g != f ==> g in r.0 && r.0[g] == store[g]
    ensures store[f].observerCount > 1 ==> r.0[f] == store[f].(observerCount := store[f].observerCount - 1) && r.1 == rt
    ensures store[f].observerCount <= 1 ==>
      && f !in r.0
      && r.1.timers == (if store[f].intervalId.Some? then rt.timers - {store[f].intervalId.value} else rt.timers)
      && r.1.subscriptions == (if store[f].subscribeDispose.Some? then rt.subscriptions - {store[f].subscribeDispose.value} else rt.subscriptions)
      && r.1.unsubscribed == rt.unsubscribed + (if store[f].subscribeDispose.Some? then [store[f].subscribeDispose.value] else [])
    ensures r.1.pending == rt.pending && r.1.listeners == rt.listeners && r.1.nextId == rt.nextId
  {
    var s := store[f];
    if s.observerCount - 1 <= 0 then
      (store - {f},
       rt.(timers := if s.intervalId.Some? then rt.timers - {s.intervalId.value} else rt.timers,
           subscriptions := if s.subscribeDispose.Some? then rt.subscriptions - {s.subscribeDispose.value} else rt.subscriptions,
           unsubscribed := rt.unsubscribed + (if s.subscribeDispose.Some? then [s.subscribeDispose.value] else [])))
    else
      (store[f := s.(observerCount := s.observerCount - 1)], rt)
  }

  /** Disposing keeps the invariant: the last dispose removes exactly the state's own timer or subscription. */
  lemma ReleaseConsistent(mode: Mode, store: map<Field, FieldState>, rt: Runtime, f: Field)
    requires Consistent(mode, store, rt) && f in store
    ensures Consistent(mode, Release(store, rt, f).0, Release(store, rt, f).1)
  {
    var r := Release(store, rt, f);
    if store[f].observerCount == 1 {
      if mode.Pull? {
        TimedRemove(store, rt.timers, f);
      } else {
        SubscribedRemove(store, rt.subscriptions, f);
      }
    } else {
      Reregistered(store, rt.timers, rt.subscriptions, f, r.0[f]);
    }
  }

  /**
   * Registering and then disposing a descriptor gives back the states, the
   * running timers and the open subscriptions as they were, whenever every
   * state is observed and the next identifier is fresh (as `Consistent` keeps).
   */
  lemma WatchThenRelease(mode: Mode, store: map<Field, FieldState>, rt: Runtime, f: Field, seed: Value)
    requires Observed(store) && Below(rt.timers, rt.nextId) && Below(rt.subscriptions, rt.nextId)
    ensures var w := Watch(mode, store, rt, f, seed);
      var r := Release(w.0, w.1, f);
      r.0 == store && r.1.timers == rt.timers && r.1.subscriptions == rt.subscriptions
  {
    var w := Watch(mode, store, rt, f, seed);
    var r := Release(w.0, w.1, f);
    if f in store {
      assert w.0[f].observerCount > 1;
      assert r.0 == store[f := store[f]];
    } else {
      assert r.0 == store;
      if mode.Pull? {
        assert rt.nextId !in rt.timers;
        assert r.1.timers == rt.timers[rt.nextId := f] - {rt.nextId};
      } else {
        assert rt.nextId + 1 !in rt.subscriptions;
        assert r.1.subscriptions == rt.subscriptions[rt.nextId + 1 := f] - {rt.nextId + 1};
      }
    }
  }

  /** Changing the bookkeeping of awaited promises and callbacks keeps the invariant. */
  lemma Reclocked(mode: Mode, store: map<Field, FieldState>, rt: Runtime, rt': Runtime)
    requires Consistent(mode, store, rt)
    requires rt'.timers == rt.timers && rt'.subscriptions == rt.subscriptions && rt.nextId <= rt'.nextId
    requires rt'.listeners.Keys == rt.listeners.Keys
    requires forall sid :: sid in rt.listeners ==> rt'.listeners[sid].field == rt.listeners[sid].field
    requires Below(rt'.pending, rt'.nextId)
    ensures Consistent(mode, store, rt')
  {
  }

  /** `rt` awaiting one more promise `p`, under a fresh identifier. */
  function Await(rt: Runtime, p: Pending): Runtime {
    rt.(pending := rt.pending[rt.nextId := p], nextId := rt.nextId + 1)
  }

  lemma PrefixStep<T>(s: seq<T>, i: nat)
    requires i < |s|
    ensures s[..i + 1] == s[..i] + [s[i]]
  {
  }

  /** `after` holds, for each descriptor it shares with `before`, the same state up to its observer count. */
  ghost predicate Recounted(before: map<Field, FieldState>, after: map<Field, FieldState>) {
    forall g :: g in after && g in before ==> after[g] == before[g].(observerCount := after[g].observerCount)
  }

  /** `after` is `before` with one more registration of each listed descriptor: new states start empty. */
  ghost predicate Registered(before: map<Field, FieldState>, after: map<Field, FieldState>, fields: seq<Field>) {
    && (forall g :: ObserverCount(after, g) == ObserverCount(before, g) + multiset(fields)[g])
    && before.Keys <= after.Keys && Recounted(before, after)
    && (forall g :: g in after && g !in before ==> after[g].data == Undefined && !after[g].loading && after[g].error.None?)
  }

  /** One more `Watch` of `f` extends the registrations of `fields` by `f`. */
  lemma RegisteredStep(before: map<Field, FieldState>, mid: map<Field, FieldState>, fields: seq<Field>,
                       mode: Mode, rt: Runtime, f: Field, seed: Value)
    requires Registered(before, mid, fields)
    ensures Registered(before, Watch(mode, mid, rt, f, seed).0, fields + [f])
  {
    assert multiset(fields + [f]) == multiset(fields) + multiset{f};
  }

  /** `after` is `before` with one registration of each listed descriptor disposed. */
  ghost predicate Released(before: map<Field, FieldState>, after: map<Field, FieldState>, fields: seq<Field>) {
    && (forall g :: ObserverCount(after, g) == ObserverCount(before, g) - multiset(fields)[g])
    && (forall g :: multiset(fields)[g] <= ObserverCount(before, g))
    && after.Keys <= before.Keys && Recounted(before, after)
  }

  lemma ReleasedStep(before: map<Field, FieldState>, mid: map<Field, FieldState>, after: map<Field, FieldState>,
                     fields: seq<Field>, f: Field)
    requires Released(before, mid, fields) && f in mid && mid[f].observerCount >= 1
    requires mid[f].observerCount == 1 ==> after == mid - {f}
    requires mid[f].observerCount != 1 ==> after == mid[f := mid[f].(observerCount := mid[f].observerCount - 1)]
    ensures Released(before, after, fields + [f])
  {
    assert multiset(fields + [f]) == multiset(fields) + multiset{f};
  }

  /** A dispose that finds no state means the list names its descriptor more often than it had observers. */
  lemma ReleasedStuck(before: map<Field, FieldState>, mid: map<Field, FieldState>, fields: seq<Field>, i: nat)
    requires i < |fields| && Released(before, mid, fields[..i]) && fields[i] !in mid
    ensures multiset(fields)[fields[i]] > ObserverCount(before, fields[i])
  {
    assert fields == fields[..i] + [fields[i]] + fields[i + 1..];
    assert multiset(fields) == multiset(fields[..i]) + multiset{fields[i]} + multiset(fields[i + 1..]);
  }

  /**
   * The observable store of field states (`this.store`), together with what
   * the JavaScript runtime keeps for it. A dispose function returned by
   * `registerFieldWatch(f)` is `Dispose(f)`: it captures nothing but the field.
   */
  class FieldStore {
    const fieldKey: Field -> string
    const ttl: Field -> Option<int>
    /**
     * The configured `fetch`: what it resolves or rejects with for a
     * descriptor, when called by the fetch that started as operation `op`.
     * Indexing by the call lets the backend answer differently over time.
     * Push stores have no `fetch`, and never call this.
     */
    const fetch: (Field, nat) -> Result<Value, Error>
    const mode: Mode
    const offlineFetcher: OfflineStorage<Field>

    /** The field states, by descriptor. */
    var store: map<Field, FieldState>
    /** Timers, subscriptions, callbacks and awaited promises. */
    var runtime: Runtime

    ghost predicate Valid()
      reads this
    {
      Consistent(mode, store, runtime)
    }

    constructor (fieldKey: Field -> string, ttl: Field -> Option<int>, fetch: (Field, nat) -> Result<Value, Error>,
                 mode: Mode, offlineFetcher: OfflineStorage<Field>)
      ensures Valid()
      ensures this.fieldKey == fieldKey && this.ttl == ttl && this.fetch == fetch
      ensures this.mode == mode && this.offlineFetcher == offlineFetcher
      ensures store == map[] && runtime == Runtime(map[], map[], map[], [], map[], 0)
    {
      this.fieldKey := fieldKey;
      this.ttl := ttl;
      this.fetch := fetch;
      this.mode := mode;
      this.offlineFetcher := offlineFetcher;
      store := map[];
      runtime := Runtime(map[], map[], map[], [], map[], 0);
    }

    /** `getData(fields)`: the merged snapshot of the current states of `fields`. */
    function GetData(fields: seq<Field>): Snapshot
      reads this
    {
      SnapshotOf(store, fieldKey, fields)
    }

    /**
     * What `offlineFetcher.fetch(f, ttl(f), …)` resolves to at this moment:
     * the cached data, with a refresh exactly when the entry is stale.
     */
    function Lookup(f: Field): (r: Pending)
      reads offlineFetcher
      ensures r.Reading? && r.field == f && r.initial == offlineFetcher.Get(f).data
      ensures r.refresh.Some? <==> IsStale(offlineFetcher.medium, offlineFetcher.now, f, ttl(f))
      ensures r.refresh.Some? ==> r.refresh.value.key == f
    {
      Reading(f, offlineFetcher.Get(f).data,
        if IsStale(offlineFetcher.medium, offlineFetcher.now, f, ttl(f)) then Some(Refresh(f)) else None)
    }

    /**
     * The synchronous part of `fetchField`: it asks the cache for the field,
     * which may start a backend refresh, and awaits the answer. Push stores
     * have no `fetch` and return at once.
     */
    method FetchField(f: Field) returns (op: Option<nat>)
      requires Valid()
      modifies this
      ensures Valid() && store == old(store)
      ensures mode.Push? ==> op.None? && runtime == old(runtime)
      ensures mode.Pull? ==> op == Some(old(runtime).nextId) && runtime == Await(old(runtime), Lookup(f))
    {
      if mode.Push? {
        return None;
      }
      var initial, refresh := offlineFetcher.Fetch(f, ttl(f));
      op := Some(runtime.nextId);
      Reclocked(mode, store, runtime, Await(runtime, Reading(f, initial, refresh)));
      runtime := Await(runtime, Reading(f, initial, refresh));
    }

    /**
     * `registerFieldWatch(f)`: the bookkeeping of `Watch`, then, in pull mode,
     * a fetch on every registration. `op` is the seed or fetch started.
     */
    method RegisterFieldWatch(f: Field) returns (op: Option<nat>)
      requires Valid()
      modifies this
      ensures Valid()
      ensures var w := Watch(mode, old(store), old(runtime), f, offlineFetcher.Get(f).data);
        && store == w.0
        && (mode.Push? ==> runtime == w.1 && (f in old(store) ==> op.None?) && (f !in old(store) ==> op == Some(old(runtime).nextId)))
        && (mode.Pull? ==> op == Some(w.1.nextId) && runtime == Await(w.1, Lookup(f)))
    {
      var seed := offlineFetcher.Get(f).data;
      var w := Watch(mode, store, runtime, f, seed);
      WatchConsistent(mode, store, runtime, f, seed);
      op := if f in store || mode.Pull? then None else Some(runtime.nextId);
      store, runtime := w.0, w.1;
      if mode.Pull? {
        op := FetchField(f);
      }
    }

    /**
     * The dispose function of a registration of `f`: `Release` on its state.
     * With no state left to decrement it throws a TypeError and changes nothing.
     */
    method Dispose(f: Field) returns (thrown: Option<Error>)
      requires Valid()
      modifies this
      ensures Valid()
      ensures f !in old(store) ==> thrown == Some(Member(Undefined, "observerCount").error) && store == old(store) && runtime == old(runtime)
      ensures f in old(store) ==> thrown.None? && (store, runtime) == Release(old(store), old(runtime), f)
    {
      if f !in store {
        return Some(Member(Undefined, "observerCount").error);
      }
      ReleaseConsistent(mode, store, runtime, f);
      var r := Release(store, runtime, f);
      store, runtime := r.0, r.1;
      thrown := None;
    }

    /**
     * `observe(fields, callback)`: one registration per listed descriptor, in
     * order, and the snapshot of the listed descriptors that is sent first.
     * The source sends it on the next tick; here it is taken when the
     * registrations are done.
     */
    method Observe(fields: seq<Field>) returns (first: Snapshot)
      requires Valid()
      modifies this
      ensures Valid()
      ensures Registered(old(store), store, fields)
      ensures first == SnapshotOf(store, fieldKey, fields)
      ensures runtime.unsubscribed == old(runtime).unsubscribed
    {
      ghost var store0 := store;
      var i := 0;
      while i < |fields|
        invariant 0 <= i <= |fields|
        invariant Valid()
        invariant Registered(store0, store, fields[..i])
        invariant runtime.unsubscribed == old(runtime).unsubscribed
      {
        RegisterNext(store0, fields, i);
        i := i + 1;
      }
      assert fields[..i] == fields;
      first := GetData(fields);
    }

    /** One step of `observe`'s registrations: the `i`-th listed descriptor is registered. */
    method RegisterNext(ghost store0: map<Field, FieldState>, fields: seq<Field>, i: nat)
      requires Valid() && i < |fields| && Registered(store0, store, fields[..i])
      modifies this
      ensures Valid() && Registered(store0, store, fields[..i + 1])
      ensures runtime.unsubscribed == old(runtime).unsubscribed
    {
      PrefixStep(fields, i);
      RegisteredStep(store0, store, fields[..i], mode, runtime, fields[i], offlineFetcher.Get(fields[i]).data);
      var op := RegisterFieldWatch(fields[i]);
    }

    /** One step of the dispose function `observe` returns: the `i`-th listed descriptor is disposed. */
    method DisposeNext(ghost store0: map<Field, FieldState>, fields: seq<Field>, i: nat) returns (thrown: Option<Error>)
      requires Valid() && i < |fields| && Released(store0, store, fields[..i])
      modifies this
      ensures Valid()
      ensures thrown.None? ==> Released(store0, store, fields[..i + 1])
      ensures thrown.Some? ==> multiset(fields)[fields[i]] > ObserverCount(store0, fields[i]) && store == old(store)
      ensures runtime.pending == old(runtime).pending && runtime.listeners == old(runtime).listeners
    {
      ghost var mid := store;
      thrown := Dispose(fields[i]);
      if thrown.Some? {
        ReleasedStuck(store0, mid, fields, i);
        return;
      }
      PrefixStep(fields, i);
      ReleasedStep(store0, mid, store, fields[..i], fields[i]);
    }

    /**
     * The dispose function `observe` returns: the registrations' dispose
     * functions in order, stopping at the first that throws. None throws
     * exactly when every descriptor has at least as many observers as it is
     * listed.
     */
    method Unobserve(fields: seq<Field>) returns (thrown: Option<Error>)
      requires Valid()
      modifies this
      ensures Valid()
      ensures thrown.None? <==> forall g :: multiset(fields)[g] <= ObserverCount(old(store), g)
      ensures thrown.None? ==> forall g :: ObserverCount(store, g) == ObserverCount(old(store), g) - multiset(fields)[g]
      ensures store.Keys <= old(store).Keys && Recounted(old(store), store)
      ensures runtime.pending == old(runtime).pending && runtime.listeners == old(runtime).listeners
    {
      ghost var store0 := store;
      thrown := None;
      var i := 0;
      while i < |fields|
        invariant 0 <= i <= |fields|
        invariant Valid() && thrown.None?
        invariant Released(store0, store, fields[..i])
        invariant runtime.pending == old(runtime).pending && runtime.listeners == old(runtime).listeners
      {
        thrown := DisposeNext(store0, fields, i);
        if thrown.Some? {
          return;
        }
        i := i + 1;
      }
      assert fields[..i] == fields;
    }

    /**
     * Observing a list of descriptors and disposing at once leaves the states,
     * the running timers and the open subscriptions exactly as they were.
     */
    method ObserveThenUnobserve(fields: seq<Field>) returns (first: Snapshot)
      requires Valid()
      modifies this
      ensures Valid()
      ensures store == old(store) && runtime.timers == old(runtime).timers && runtime.subscriptions == old(runtime).subscriptions
    {
      ghost var store0, rt0 := store, runtime;
      first := Observe(fields);
      var thrown := Unobserve(fields);
      forall g | g in store0 ensures g in store && store[g] == store0[g] {
        assert ObserverCount(store, g) == store0[g].observerCount;
      }
      forall g | g in store ensures g in store0 {
        assert ObserverCount(store, g) == ObserverCount(store0, g);
      }
      assert store == store0;
      if mode.Pull? {
        TimedUnique(store, runtime.timers, rt0.timers);
      } else {
        SubscribedUnique(store, runtime.subscriptions, rt0.subscriptions);
      }
    }

    /** The TTL timer `t` firing: it fetches its field again, unless it has been cleared. */
    method Tick(t: nat) returns (op: Option<nat>)
      requires Valid()
      modifies this
      ensures Valid() && store == old(store)
      ensures t in old(runtime).timers ==> op == Some(old(runtime).nextId) && runtime == Await(old(runtime), Lookup(old(runtime).timers[t]))
      ensures t !in old(runtime).timers ==> op.None? && runtime == old(runtime)
    {
      op := None;
      if t in runtime.timers {
        op := FetchField(runtime.timers[t]);
      }
    }

    /**
     * `fetchField` resuming after the cache's `fetch`. If the state still
     * exists it takes the cached data, loading while a refresh is in flight.
     * If it was disposed, the write throws, the throw is caught, and nothing
     * changes; a refresh then goes on without the store awaiting it.
     */
    method ResumeFetch(op: nat)
      requires Valid() && op in runtime.pending && runtime.pending[op].Reading?
      modifies this
      ensures Valid()
      ensures var p := old(runtime).pending[op];
        && (p.field in old(store) ==> store == old(store)[p.field := Resumed(old(store)[p.field], p.initial, p.refresh.Some?)])
        && (p.field !in old(store) ==> store == old(store))
        && runtime == old(runtime).(pending :=
             if p.refresh.Some? then old(runtime).pending[op := Refreshing(p.field, p.field in old(store))]
             else old(runtime).pending - {op})
    {
      var p := runtime.pending[op];
      var f := p.field;
      var present := f in store;
      var rt := runtime.(pending := if p.refresh.Some? then runtime.pending[op := Refreshing(f, present)] else runtime.pending - {op});
      Reclocked(mode, store, runtime, rt);
      runtime := rt;
      if present {
        var s := Resumed(store[f], p.initial, p.refresh.Some?);
        Reregistered(store, runtime.timers, runtime.subscriptions, f, s);
        store := store[f := s];
      }
    }

    /**
     * `fetchField` resuming with the cache's `fetch` rejected with `e` (its
     * stored entry could not be read) instead: the error is recorded and
     * loading ends, when the state still exists.
     */
    method RejectFetch(op: nat, e: Error)
      requires Valid() && op in runtime.pending && runtime.pending[op].Reading?
      modifies this
      ensures Valid()
      ensures var f := old(runtime).pending[op].field;
        && (f in old(store) ==> store == old(store)[f := Settled(old(store)[f], Failure(e))])
        && (f !in old(store) ==> store == old(store))
      ensures runtime == old(runtime).(pending := old(runtime).pending - {op})
    {
      var f := runtime.pending[op].field;
      Reclocked(mode, store, runtime, runtime.(pending := runtime.pending - {op}));
      runtime := runtime.(pending := runtime.pending - {op});
      if f in store {
        var s := Settled(store[f], Failure(e));
        Reregistered(store, runtime.timers, runtime.subscriptions, f, s);
        store := store[f := s];
      }
    }

    /**
     * A refresh settling with what `fetch` gave for this call. The cache
     * persists a result whatever the store does. The store writes only if it awaited the
     * refresh and the state still exists: the data on success, the error on
     * failure (keeping the data), and loading false either way.
     */
    method CompleteRefresh(op: nat)
      requires Valid() && op in runtime.pending && runtime.pending[op].Refreshing?
      modifies this, offlineFetcher
      ensures Valid()
      ensures var p := old(runtime).pending[op];
        var outcome := fetch(p.field, op);
        && (p.awaited && p.field in old(store) ==> store == old(store)[p.field := Settled(old(store)[p.field], outcome)])
        && (!(p.awaited && p.field in old(store)) ==> store == old(store))
        && (outcome.Success? ==> offlineFetcher.medium == Write(old(offlineFetcher.medium), offlineFetcher.now, p.field, outcome.value))
        && (outcome.Failure? ==> offlineFetcher.medium == old(offlineFetcher.medium))
      ensures offlineFetcher.now == old(offlineFetcher.now)
      ensures runtime == old(runtime).(pending := old(runtime).pending - {op})
    {
      var p := runtime.pending[op];
      var f := p.field;
      var outcome := fetch(f, op);
      Reclocked(mode, store, runtime, runtime.(pending := runtime.pending - {op}));
      runtime := runtime.(pending := runtime.pending - {op});
      var settled := offlineFetcher.Settle(Refresh(f), outcome);
      if p.awaited && f in store {
        var s := Settled(store[f], outcome);
        Reregistered(store, runtime.timers, runtime.subscriptions, f, s);
        store := store[f := s];
      }
    }

    /**
     * The offline seed arriving for a push subscription. It has no existence
     * guard: on a disposed state the write throws and nothing changes.
     */
    method CompleteSeed(op: nat)
      requires Valid() && op in runtime.pending && runtime.pending[op].Seeding?
      modifies this
      ensures Valid()
      ensures var p := old(runtime).pending[op];
        && (p.field in old(store) ==> store == old(store)[p.field := Seeded(old(store)[p.field], p.initial)])
        && (p.field !in old(store) ==> store == old(store))
      ensures runtime == old(runtime).(pending := old(runtime).pending - {op})
    {
      var p := runtime.pending[op];
      var f := p.field;
      Reclocked(mode, store, runtime, runtime.(pending := runtime.pending - {op}));
      runtime := runtime.(pending := runtime.pending - {op});
      if f in store {
        var s := Seeded(store[f], p.initial);
        Reregistered(store, runtime.timers, runtime.subscriptions, f, s);
        store := store[f := s];
      }
    }

    /**
     * The backend calling the push callback `sid`. Nothing happens if the
     * field's state is gone. Otherwise the payload is applied, its defined
     * data persisted, and the callback's first call has been seen.
     */
    method Push(sid: nat, payload: Payload)
      requires Valid() && sid in runtime.listeners
      modifies this, offlineFetcher
      ensures Valid()
      ensures var l := old(runtime).listeners[sid];
        && (l.field !in old(store) ==>
              store == old(store) && runtime == old(runtime) && offlineFetcher.medium == old(offlineFetcher.medium))
        && (l.field in old(store) ==>
              && store == old(store)[l.field := Pushed(old(store)[l.field], l.first, payload)]
              && runtime == old(runtime).(listeners := old(runtime).listeners[sid := l.(first := false)])
              && (payload.data != Undefined ==>
                    offlineFetcher.medium == Write(old(offlineFetcher.medium), offlineFetcher.now, l.field, payload.data))
              && (payload.data == Undefined ==> offlineFetcher.medium == old(offlineFetcher.medium)))
      ensures offlineFetcher.now == old(offlineFetcher.now)
    {
      var l := runtime.listeners[sid];
      var f := l.field;
      if f in store {
        var rt := runtime.(listeners := runtime.listeners[sid := l.(first := false)]);
        Reclocked(mode, store, runtime, rt);
        var s := Pushed(store[f], l.first, payload);
        Reregistered(store, rt.timers, rt.subscriptions, f, s);
        store, runtime := store[f := s], rt;
        if payload.data != Undefined {
          offlineFetcher.Update(f, payload.data);
        }
      }
    }
  }
}
