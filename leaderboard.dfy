/**
 * The data side of the leaderboard (`LeaderboardContainer`): the user ids to
 * look up for the three top-trader lists, and the join of a ranked list with
 * the user records that come back.
 */
module Leaderboard {
  import opened Values

  /** One entry of a top-traders list: the trader's id, rank and score history. */
  datatype TopTrader = TopTrader(id: string, rank: Value, scores: Value)

  /** The top-traders query's data; a list that is absent or null is `None`. */
  datatype TopTradersData = TopTradersData(
    allTime: Option<seq<TopTrader>>,
    weekly: Option<seq<TopTrader>>,
    daily: Option<seq<TopTrader>>)

  /** A user record: its id and its other properties. */
  datatype UserInfo = UserInfo(id: string, props: map<string, Value>) {
    /** The record as an object, its id included. */
    function Object(): map<string, Value> {
      props["id" := Str(id)]
    }
  }

  /** `list || []`. */
  function OrEmpty(list: Option<seq<TopTrader>>): seq<TopTrader> {
    if list.Some? then list.value else []
  }

  /** `traders.map(trader => trader.id)`. */
  function Ids(traders: seq<TopTrader>): (r: seq<string>)
    ensures |r| == |traders| && forall i :: 0 <= i < |r| ==> r[i] == traders[i].id
  {
    seq(|traders|, i requires 0 <= i < |traders| => traders[i].id)
  }

  /** The position where `x` first occurs in `xs`. */
  function FirstIndex(xs: seq<string>, x: string): (i: nat)
    requires x in xs
    ensures i < |xs| && xs[i] == x && forall j :: 0 <= j < i ==> xs[j] != x
  {
    if xs[0] == x then 0 else 1 + FirstIndex(xs[1..], x)
  }

  /** lodash `union` of lists already concatenated: each value once, in the order of first occurrence. */
  function Union(xs: seq<string>): (r: seq<string>)
    ensures forall x :: x in r <==> x in xs
    ensures forall i, j :: 0 <= i < j < |r| ==> r[i] != r[j]
    decreases |xs|
  {
    if xs == [] then []
    else
      var prefix := Union(xs[..|xs| - 1]);
      assert forall x :: x in xs <==> x in xs[..|xs| - 1] || x == xs[|xs| - 1];
      if xs[|xs| - 1] in prefix then prefix else prefix + [xs[|xs| - 1]]
  }

  /** `Union` lists the values in the order in which they first occur. */
  lemma {:induction false} UnionOrder(xs: seq<string>, i: nat, j: nat)
    requires i < j < |Union(xs)|
    ensures Union(xs)[i] in xs && Union(xs)[j] in xs
    ensures FirstIndex(xs, Union(xs)[i]) < FirstIndex(xs, Union(xs)[j])
  {
    var n := |xs| - 1;
    var init, last := xs[..n], xs[n];
    var prefix := Union(init);
    assert xs == init + [last];
    if last in prefix || j < |prefix| {
      UnionOrder(init, i, j);
      SameFirstIndex(init, last, Union(xs)[i]);
      SameFirstIndex(init, last, Union(xs)[j]);
    } else {
      assert Union(xs)[j] == last && last !in init;
      SameFirstIndex(init, last, Union(xs)[i]);
      assert FirstIndex(xs, last) == n;
    }
  }

  /** Appending a value does not move the first occurrence of a value already present. */
  lemma SameFirstIndex(init: seq<string>, last: string, x: string)
    requires x in init
    ensures x in init + [last] && FirstIndex(init + [last], x) == FirstIndex(init, x)
  {
    var i, k := FirstIndex(init + [last], x), FirstIndex(init, x);
    assert (init + [last])[k] == x;
    assert init[i] == x by {
      assert i <= k;
    }
  }

  /** The ids of the all-time, weekly and daily lists, one after the other; an absent list contributes nothing. */
  function ListedIds(data: TopTradersData): seq<string> {
    Ids(OrEmpty(data.allTime) + OrEmpty(data.weekly) + OrEmpty(data.daily))
  }

  /**
   * `getUserIDs`: every id of the all-time, weekly and daily lists, once
   * each. Absent data or an absent list contributes nothing.
   */
  function GetUserIDs(data: Option<TopTradersData>): (r: seq<string>)
    ensures forall i, j :: 0 <= i < j < |r| ==> r[i] != r[j]
    ensures data.None? ==> r == []
    ensures data.Some? ==> forall x :: x in r <==>
      (exists t :: (t in OrEmpty(data.value.allTime) || t in OrEmpty(data.value.weekly) || t in OrEmpty(data.value.daily)) && t.id == x)
  {
    if data.None? then []
    else
      var lists := OrEmpty(data.value.allTime) + OrEmpty(data.value.weekly) + OrEmpty(data.value.daily);
      var ids := ListedIds(data.value);
      assert forall x :: x in ids <==> exists t :: t in lists && t.id == x by {
        forall x | x in ids ensures exists t :: t in lists && t.id == x {
          var k :| 0 <= k < |ids| && ids[k] == x;
          assert lists[k] in lists;
        }
        forall x | (exists t :: t in lists && t.id == x) ensures x in ids {
          var t :| t in lists && t.id == x;
          var k :| 0 <= k < |lists| && lists[k] == t;
          assert ids[k] == x;
        }
      }
      Union(ids)
  }

  /** `getUserIDs` orders the ids by first occurrence, scanning all-time, then weekly, then daily. */
  lemma UserIdsOrder(data: TopTradersData, i: nat, j: nat)
    requires i < j < |GetUserIDs(Some(data))|
    ensures var r := GetUserIDs(Some(data));
      r[i] in ListedIds(data) && r[j] in ListedIds(data)
      && FirstIndex(ListedIds(data), r[i]) < FirstIndex(ListedIds(data), r[j])
  {
    UnionOrder(ListedIds(data), i, j);
  }

  /** `usersInfo.reduce(...)`: the user records by id; of records sharing an id, the later one is kept. */
  function UsersById(users: seq<UserInfo>): (m: map<string, UserInfo>)
    ensures forall id :: id in m <==> exists u :: u in users && u.id == id
    decreases |users|
  {
    if users == [] then map[]
    else
      var init, last := users[..|users| - 1], users[|users| - 1];
      assert forall u :: u in users <==> u in init || u == last;
      UsersById(init)[last.id := last]
  }

  /** The record kept for an id is its last occurrence in the list. */
  lemma {:induction false} LastRecordWins(users: seq<UserInfo>, k: nat)
    requires k < |users| && forall j :: k < j < |users| ==> users[j].id != users[k].id
    ensures users[k].id in UsersById(users) && UsersById(users)[users[k].id] == users[k]
  {
    var n := |users| - 1;
    if k < n {
      LastRecordWins(users[..n], k);
    }
  }

  /** `get(trader, 'scores[0].score')`: the score of the first entry of the history, or undefined. */
  function FirstScore(scores: Value): (r: Value)
    ensures scores == Undefined || scores == Null ==> r == Undefined
    ensures scores.Arr? && |scores.items| == 0 ==> r == Undefined
    ensures scores.Arr? && |scores.items| > 0 ==> r == Prop(scores.items[0], "score")
  {
    var first :=
      if scores.Arr? then (if |scores.items| > 0 then scores.items[0] else Undefined)
      else Prop(scores, "0");
    Prop(first, "score")
  }

  /** One leaderboard row: the user record's properties, overridden by the trader's `rank` and `score`. */
  function Row(trader: TopTrader, byId: map<string, UserInfo>): (r: map<string, Value>)
    ensures r.Keys == (if trader.id in byId then byId[trader.id].Object().Keys else {}) + {"rank", "score"}
    ensures r["rank"] == trader.rank && r["score"] == FirstScore(trader.scores)
    ensures forall p :: p in r && p != "rank" && p != "score" ==> r[p] == byId[trader.id].Object()[p]
  {
    var user := if trader.id in byId then byId[trader.id].Object() else map[];
    user["rank" := trader.rank]["score" := FirstScore(trader.scores)]
  }

  /**
   * `reduceTopTraders(topTraders, usersInfo)`: one row per trader, in the
   * same order, each with the trader's rank and first score.
   */
  function ReduceTopTraders(topTraders: seq<TopTrader>, users: seq<UserInfo>): (r: seq<map<string, Value>>)
    ensures |r| == |topTraders|
    ensures forall i :: 0 <= i < |r| ==>
      && "rank" in r[i] && r[i]["rank"] == topTraders[i].rank
      && "score" in r[i] && r[i]["score"] == FirstScore(topTraders[i].scores)
  {
    var byId := UsersById(users);
    seq(|topTraders|, i requires 0 <= i < |topTraders| => Row(topTraders[i], byId))
  }

  /**
   * Apart from `rank` and `score`, the row of a trader holds exactly the
   * properties of the last user record with the trader's id.
   */
  lemma JoinedRow(topTraders: seq<TopTrader>, users: seq<UserInfo>, i: nat, k: nat, p: string)
    requires i < |topTraders| && k < |users| && users[k].id == topTraders[i].id
    requires forall j :: k < j < |users| ==> users[j].id != users[k].id
    requires p != "rank" && p != "score"
    ensures var row := ReduceTopTraders(topTraders, users)[i];
      && (p in row <==> p in users[k].Object())
      && (p in row ==> row[p] == users[k].Object()[p])
  {
    LastRecordWins(users, k);
  }

  /** A trader without a user record gets a row of just `rank` and `score`. */
  lemma UnknownTraderRow(topTraders: seq<TopTrader>, users: seq<UserInfo>, i: nat)
    requires i < |topTraders| && forall u :: u in users ==> u.id != topTraders[i].id
    ensures ReduceTopTraders(topTraders, users)[i].Keys == {"rank", "score"}
  {
  }
}
