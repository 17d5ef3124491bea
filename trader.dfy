/**
 * The trader's profile fields (`Trader`): how a field descriptor is named,
 * how long each field stays fresh, which backend answers for it, and the
 * account writes that are passed through. The trader's `observe` is a
 * pull-mode field store built from these.
 */
module TraderFields {
  import opened Values
  import opened DurableCache
  import opened OfflineObservable

  /** `Trader.fieldKey`: a plain descriptor names itself, a structured one names its `key`. */
  function FieldKey(f: Field): (k: string)
    ensures f.Name? ==> k == f.name
    ensures f.Keyed? ==> k == f.key
  {
    match f
    case Name(name) => name
    case Keyed(key, _) => key
  }

  const Minute := 60 * 1000
  const Hour := 60 * Minute

  /** The `fieldTTL` table, in milliseconds; a key that is not in it has no TTL. */
  function FieldTtl(key: string): Option<int> {
    if key == "bio" || key == "website" then Some(2 * Hour)
    else if key == "exchangeKeys" then Some(30 * 1000)
    else if key == "score" || key == "rank" || key == "scores" then Some(Minute)
    else None
  }

  /** `ttl(field)`: the TTL of the field's key. */
  function Ttl(f: Field): (r: Option<int>)
    ensures r.Some? ==> r.value > 0
    ensures FieldKey(f) in {"bio", "website"} ==> r == Some(7200000)
    ensures FieldKey(f) == "exchangeKeys" ==> r == Some(30000)
    ensures FieldKey(f) in {"score", "rank", "scores"} ==> r == Some(60000)
    ensures FieldKey(f) !in {"bio", "website", "exchangeKeys", "score", "rank", "scores"} ==> r.None?
  {
    FieldTtl(FieldKey(f))
  }

  /** The backends a trader's fields come from. */
  datatype Backend = TraderScoreService | AccountService

  /** A read a backend is asked for: `getTraderData(id, fields)` or `getUserData(id, fields)`. */
  datatype Request = Request(backend: Backend, id: string, fields: seq<Field>)

  /** The keys `fetch` asks the trader-score service for. */
  const ScoreKeys := {"scores", "score", "rank"}

  /** The keys `fetch` asks the account service for. */
  const AccountKeys := {"bio", "website", "exchangeKeys"}

  /** The backend that owns a field key, if any: the routing table of `fetch`. */
  function Owner(key: string): (r: Option<Backend>)
    ensures key in ScoreKeys <==> r == Some(TraderScoreService)
    ensures key in AccountKeys <==> r == Some(AccountService)
    ensures key !in ScoreKeys + AccountKeys <==> r.None?
  {
    if key == "scores" || key == "score" || key == "rank" then Some(TraderScoreService)
    else if key == "bio" || key == "website" || key == "exchangeKeys" then Some(AccountService)
    else None
  }

  /** The request `fetch(f)` makes for trader `id`: the owning backend, asked for just this field. */
  function FetchRequest(id: string, f: Field): (r: Option<Request>)
    ensures FieldKey(f) in ScoreKeys ==> r == Some(Request(TraderScoreService, id, [f]))
    ensures FieldKey(f) in AccountKeys ==> r == Some(Request(AccountService, id, [f]))
    ensures FieldKey(f) !in ScoreKeys + AccountKeys ==> r.None?
  {
    match Owner(FieldKey(f))
    case None => None
    case Some(backend) => Some(Request(backend, id, [f]))
  }

  /**
   * `fetch(f)` for trader `id`, with `respond` the backends' answers: the
   * field's key read from the owner's response (a TypeError when the response
   * is `undefined` or `null`), the owner's rejection passed on, and `null`
   * without asking anyone when no backend owns the key.
   */
  function Fetch(id: string, f: Field, respond: Request -> Result<Value, Error>): (r: Result<Value, Error>)
    ensures FieldKey(f) !in ScoreKeys + AccountKeys ==> r == Success(Null)
    ensures FieldKey(f) in ScoreKeys ==> Answered(r, respond(Request(TraderScoreService, id, [f])), FieldKey(f))
    ensures FieldKey(f) in AccountKeys ==> Answered(r, respond(Request(AccountService, id, [f])), FieldKey(f))
  {
    match FetchRequest(id, f)
    case None => Success(Null)
    case Some(request) =>
      match respond(request)
      case Failure(e) => Failure(e)
      case Success(rsp) => Member(rsp, FieldKey(f))
  }

  /**
   * `r` is what `fetch` makes of the owner's answer `rsp` for `key`: a
   * rejection unchanged, an object's property under `key` (undefined when it
   * lacks one), and a TypeError for an `undefined` or `null` response.
   */
  predicate Answered(r: Result<Value, Error>, rsp: Result<Value, Error>, key: string) {
    && (rsp.Failure? ==> r == rsp)
    && (rsp.Success? && rsp.value.Obj? ==> r == Success(if key in rsp.value.props then rsp.value.props[key] else Undefined))
    && (rsp.Success? && (rsp.value == Undefined || rsp.value == Null) ==> r.Failure?)
  }

  /** A field no backend owns is answered with `null`, whatever the backends would say. */
  lemma UnownedFetchIsNull(id: string, f: Field)
    requires Owner(FieldKey(f)).None?
    ensures forall respond :: Fetch(id, f, respond) == Success(Null)
  {
  }

  /** An owned field reads its own key from the owner's object answer. */
  lemma OwnedFetchReadsKey(id: string, f: Field, respond: Request -> Result<Value, Error>, m: map<string, Value>)
    requires Owner(FieldKey(f)).Some?
    requires respond(Request(Owner(FieldKey(f)).value, id, [f])) == Success(Obj(m))
    ensures Fetch(id, f, respond) == Success(Prop(Obj(m), FieldKey(f)))
  {
  }

  /** An owner's rejection reaches the store unchanged. */
  lemma OwnedFetchPassesRejection(id: string, f: Field, respond: Request -> Result<Value, Error>, e: Error)
    requires Owner(FieldKey(f)).Some?
    requires respond(Request(Owner(FieldKey(f)).value, id, [f])) == Failure(e)
    ensures Fetch(id, f, respond) == Failure(e)
  {
  }

  /** Exactly the fields a backend owns are refreshed on a TTL: each keyed field has both or neither. */
  lemma {:induction false} TtlIffOwned(f: Field)
    ensures Ttl(f).Some? <==> Owner(FieldKey(f)).Some?
  {
    var k := FieldKey(f);
    if Owner(k).Some? {
      assert k in {"bio", "website", "exchangeKeys", "score", "rank", "scores"};
    }
  }

  /**
   * A backend answer stored for a field is fresh until its TTL has passed:
   * no refetch is started at the time of the write, nor at any later time up
   * to `ttl` milliseconds on.
   */
  lemma FreshWithinTtl(medium: map<Field, Entry>, t0: int, f: Field, v: Value, now: int)
    requires v != Undefined && Ttl(f).Some? && now <= t0 + Ttl(f).value
    ensures !IsStale(Write(medium, t0, f, v), now, f, Ttl(f))
  {
    assert Normalize(v) != Undefined;
  }

  /** An account write the trader passes through. */
  datatype AccountCall = UpdateUserCall(data: Value) | AddExchangeKeyCall(data: Value) | DeleteExchangeKeyCall(data: Value)

  /** `update(data)`: the account service's `updateUser(data)`, its result or rejection unchanged. */
  function Update(data: Value, send: AccountCall -> Result<Value, Error>): Result<Value, Error> {
    send(UpdateUserCall(data))
  }

  /** `addExchangeKey(data)`: the account service's `addExchangeKey(data)`, its result or rejection unchanged. */
  function AddExchangeKey(data: Value, send: AccountCall -> Result<Value, Error>): Result<Value, Error> {
    send(AddExchangeKeyCall(data))
  }

  /** `deleteExchangeKey(data)`: the account service's `deleteExchangeKey(data)`, its result or rejection unchanged. */
  function DeleteExchangeKey(data: Value, send: AccountCall -> Result<Value, Error>): Result<Value, Error> {
    send(DeleteExchangeKeyCall(data))
  }

  /**
   * The trader's field store, as its constructor builds it for trader `id`:
   * pull mode, keyed by `FieldKey`, refreshed on `Ttl`, over the given cache,
   * with `Fetch` as its `fetch`. `respond(op)` is how the backends answer the
   * requests of the fetch that started as operation `op`.
   */
  method NewTraderStore(id: string, respond: nat -> Request -> Result<Value, Error>, cache: OfflineStorage<Field>)
    returns (s: FieldStore)
    ensures fresh(s) && s.Valid()
    ensures s.mode == Pull && s.fieldKey == FieldKey && s.ttl == Ttl && s.offlineFetcher == cache
    ensures forall f, op :: s.fetch(f, op) == Fetch(id, f, respond(op))
    ensures s.store == map[]
  {
    s := new FieldStore(FieldKey, Ttl, (f: Field, op: nat) => Fetch(id, f, respond(op)), Pull, cache);
  }

  /**
   * A refresh of a field no backend owns settles the trader's field with
   * `null`, keeping its error, whatever the backends would answer.
   */
  lemma UnownedRefreshIsNull(id: string, respond: nat -> Request -> Result<Value, Error>, s: FieldState, f: Field, op: nat)
    requires Owner(FieldKey(f)).None?
    ensures Settled(s, Fetch(id, f, respond(op))) == s.(data := Null, loading := false)
  {
  }
}
