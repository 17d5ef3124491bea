/**
 * The data side of the exchange-key settings (`ExchangeKeysContainer`): the
 * exchange label table, the user's keys labelled from it, and the variables
 * of the add and delete mutations.
 */
module ExchangeKeys {
  import opened Values

  /** An exchange the backend supports. */
  datatype Exchange = Exchange(exchangeID: string, exchangeLabel: Value)

  /** One of the user's exchange keys: the exchange it is for and its other properties. */
  datatype ExchangeKey = ExchangeKey(exchangeID: string, props: map<string, Value>) {
    /** The key as an object, `exchangeID` included. */
    function Object(): map<string, Value> {
      props["exchangeID" := Str(exchangeID)]
    }
  }

  /** The `reduce` into the label table: each exchange's label under its id; a later exchange with the same id wins. */
  function Labels(exchanges: seq<Exchange>): (m: map<string, Value>)
    ensures forall id :: id in m <==> exists e :: e in exchanges && e.exchangeID == id
    decreases |exchanges|
  {
    if exchanges == [] then map[]
    else
      var init, last := exchanges[..|exchanges| - 1], exchanges[|exchanges| - 1];
      assert forall e :: e in exchanges <==> e in init || e == last;
      Labels(init)[last.exchangeID := last.exchangeLabel]
  }

  /** The label kept for an id is that of its last exchange in the list. */
  lemma {:induction false} LastLabelWins(exchanges: seq<Exchange>, k: nat)
    requires k < |exchanges| && forall j :: k < j < |exchanges| ==> exchanges[j].exchangeID != exchanges[k].exchangeID
    ensures Labels(exchanges)[exchanges[k].exchangeID] == exchanges[k].exchangeLabel
  {
    var n := |exchanges| - 1;
    if k < n {
      LastLabelWins(exchanges[..n], k);
    }
  }

  /** `exchangesMap`: the label table, absent when the exchanges are. */
  function ExchangesMap(exchanges: Option<seq<Exchange>>): (r: Option<map<string, Value>>)
    ensures r.Some? <==> exchanges.Some?
    ensures r.Some? ==> r.value == Labels(exchanges.value)
  {
    if exchanges.Some? then Some(Labels(exchanges.value)) else None
  }

  /** A key with its exchange's label added; an exchange missing from the table gives an undefined label. */
  function Labelled(key: ExchangeKey, table: map<string, Value>): (r: map<string, Value>)
    ensures r.Keys == key.Object().Keys + {"exchangeLabel"}
    ensures r["exchangeLabel"] == (if key.exchangeID in table then table[key.exchangeID] else Undefined)
    ensures forall p :: p in r && p != "exchangeLabel" ==> r[p] == key.Object()[p]
  {
    key.Object()["exchangeLabel" := if key.exchangeID in table then table[key.exchangeID] else Undefined]
  }

  /**
   * `keys`: the user's keys, each labelled from the table, in the same order.
   * Absent keys stay absent. Without a table, labelling a key reads a
   * property of `undefined` and throws a TypeError; with no keys nothing is
   * read.
   */
  function Keys(exchangeKeys: Option<seq<ExchangeKey>>, table: Option<map<string, Value>>): (r: Result<Option<seq<map<string, Value>>>, Error>)
    ensures exchangeKeys.None? ==> r == Success(None)
    ensures exchangeKeys.Some? && exchangeKeys.value != [] && table.None? ==>
      r == Failure(Member(Undefined, exchangeKeys.value[0].exchangeID).error)
    ensures exchangeKeys.Some? && (exchangeKeys.value == [] || table.Some?) ==>
      && r.Success? && r.value.Some?
      && |r.value.value| == |exchangeKeys.value|
      && forall i :: 0 <= i < |exchangeKeys.value| ==>
           r.value.value[i] == Labelled(exchangeKeys.value[i], if table.Some? then table.value else map[])
  {
    if exchangeKeys.None? then Success(None)
    else if exchangeKeys.value == [] then Success(Some([]))
    else if table.None? then Failure(Member(Undefined, exchangeKeys.value[0].exchangeID).error)
    else
      var ks := exchangeKeys.value;
      Success(Some(seq(|ks|, i requires 0 <= i < |ks| => Labelled(ks[i], table.value))))
  }

  /**
   * A labelled key keeps every property of the key, and its label is that of
   * the last exchange listed with its id.
   */
  lemma LabelledKey(key: ExchangeKey, exchanges: seq<Exchange>, k: nat, p: string)
    requires k < |exchanges| && exchanges[k].exchangeID == key.exchangeID
    requires forall j :: k < j < |exchanges| ==> exchanges[j].exchangeID != key.exchangeID
    ensures var r := Labelled(key, Labels(exchanges));
      && r["exchangeLabel"] == exchanges[k].exchangeLabel
      && (p != "exchangeLabel" ==> (p in r <==> p in key.Object()) && (p in r ==> r[p] == key.Object()[p]))
  {
    LastLabelWins(exchanges, k);
  }

  /**
   * The variables of the add-key mutation: the input object with the
   * signed-in user's id. The input's own properties come after it, so an
   * input that carries `userID` keeps its own.
   */
  function AddKeyVariables(userID: Value, input: map<string, Value>): (v: map<string, Value>)
    ensures v.Keys == {"input"} && v["input"].Obj?
    ensures v["input"].props.Keys == input.Keys + {"userID"}
    ensures forall p :: p in input ==> v["input"].props[p] == input[p]
    ensures "userID" !in input ==> v["input"].props["userID"] == userID
  {
    map["input" := Obj(map["userID" := userID] + input)]
  }

  /**
   * The variables of the delete-key mutation: the signed-in user's `id`,
   * then the input's properties, which win over it.
   */
  function DeleteKeyVariables(id: Value, input: map<string, Value>): (v: map<string, Value>)
    ensures v.Keys == input.Keys + {"id"}
    ensures forall p :: p in input ==> v[p] == input[p]
    ensures "id" !in input ==> v["id"] == id
  {
    map["id" := id] + input
  }
}
