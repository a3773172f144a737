/**
 * The coin-state worker of coinstate.go: the last list of coins fetched
 * from the exchange and the same list keyed by coin, replaced together on
 * each successful fetch and left alone on a failed one.
 *
 * The fetch (AllCoinInfo on the REST client) is an input to each update.
 */
module CoinState {
  import opened Wrappers
  import opened Common

  class CoinStateWorker {
    var snapshot: seq<CoinInfo>
    var allState: map<string, CoinInfo>

    /** The keyed view always matches the list: ToMap of the snapshot. */
    predicate Valid()
      reads this
    {
      allState == IndexBy(snapshot, CoinOf)
    }

    /** NewCoinStateWorker: empty state, then one update. */
    constructor (fetch: Result<seq<CoinInfo>, Error>)
      ensures Valid()
      ensures fetch.Success? ==> snapshot == fetch.value
      ensures fetch.Failure? ==> snapshot == [] && allState == map[]
    {
      snapshot := [];
      allState := map[];
      new;
      Update(fetch);
    }

    /** update: on success both fields are replaced at once; on failure
        neither changes. */
    method Update(fetch: Result<seq<CoinInfo>, Error>)
      requires Valid()
      modifies this
      ensures Valid()
      ensures fetch.Failure? ==> snapshot == old(snapshot) && allState == old(allState)
      ensures fetch.Success? ==> snapshot == fetch.value
    {
      if fetch.Failure? {
        return;
      }
      var byCoin := ToMap(fetch.value);
      snapshot := fetch.value;
      allState := byCoin;
    }

    /** AllInfo: the current snapshot. */
    method AllInfo() returns (res: seq<CoinInfo>)
      ensures res == snapshot
    {
      res := snapshot;
    }

    /** GetOneInfo: the record of the coin when the snapshot lists it (the
        last one listed), none otherwise. */
    method GetOneInfo(asset: string) returns (r: Option<CoinInfo>)
      requires Valid()
      ensures r.Some? <==> exists i :: 0 <= i < |snapshot| && snapshot[i].coin == asset
      ensures r.Some? ==> r.value.coin == asset
      ensures r.Some? ==> exists i :: 0 <= i < |snapshot| && snapshot[i] == r.value
                                   && forall j :: i < j < |snapshot| ==> snapshot[j].coin != asset
    {
      IndexByContents(snapshot, CoinOf);
      if asset in allState {
        r := Some(allState[asset]);
        var i := LastIndexOf(snapshot, asset);
        assert snapshot[i] == r.value;
      } else {
        r := None;
      }
    }
  }

  /** The position of the last record of a coin in the list, -1 when the
      list has none. */
  function LastIndexOf(xs: seq<CoinInfo>, asset: string): (i: int)
    ensures -1 <= i < |xs|
    ensures i >= 0 ==> xs[i].coin == asset && forall j :: i < j < |xs| ==> xs[j].coin != asset
    ensures i < 0 ==> forall j :: 0 <= j < |xs| ==> xs[j].coin != asset
  {
    if xs == [] then -1
    else if xs[|xs| - 1].coin == asset then |xs| - 1
    else LastIndexOf(xs[..|xs| - 1], asset)
  }
}
