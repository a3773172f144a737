/**
 * The cross-margin account cache of margin_account.go: the details of each
 * registered account and the time they were fetched, refreshed through the
 * REST client when older than one minute.
 *
 * The registered accounts are the ids whose context is present; the fetch
 * (GetCrossMarginAccountDetails on that account's client) and the clock are
 * inputs. Times are nanoseconds.
 */
module MarginAccount {
  import opened Wrappers
  import opened Common

  /** How long a fetched copy is served from the cache: one minute. */
  const CachedValidDuration: int := 60 * 1000 * 1000 * 1000

  /** The error UpdateAccount gives for an id that is not registered. */
  function NotExists(id: string): Error {
    Plain("account not exists " + id)
  }

  /** A cached copy fetched at `fetchedAt` may still be served at `now`. */
  predicate FreshAt(fetchedAt: int, now: int) {
    now - fetchedAt <= CachedValidDuration
  }

  class MarginAccountInfo {
    /** The ids that have an account context. */
    const accounts: set<string>
    var accountDetails: map<string, CrossMarginAccountDetails>
    var accountsLastUpdate: map<string, int>

    /** Both caches always hold the same ids, all of them registered. */
    predicate Valid()
      reads this
    {
      accountDetails.Keys == accountsLastUpdate.Keys && accountDetails.Keys <= accounts
    }

    /** NewMarginAccountInfo: both caches start empty. */
    constructor (accounts: set<string>)
      ensures Valid()
      ensures this.accounts == accounts && accountDetails == map[] && accountsLastUpdate == map[]
    {
      this.accounts := accounts;
      accountDetails := map[];
      accountsLastUpdate := map[];
    }

    /** The copy GetAccountInfo serves without fetching, if any. */
    function Cached(id: string, now: int): (r: Option<CrossMarginAccountDetails>)
      requires Valid()
      reads this
      ensures r.Some? ==> id in accounts
      ensures r.Some? <==> id in accountDetails && FreshAt(accountsLastUpdate[id], now)
    {
      if id in accountDetails && FreshAt(accountsLastUpdate[id], now) then Some(accountDetails[id]) else None
    }

    /** UpdateAccount: an unregistered id is an error and the fetch is not
        made; a failed fetch is handed back; a successful one is stored
        under that id, stamped with `now`. No other id changes. */
    method UpdateAccount(id: string, fetch: Result<CrossMarginAccountDetails, Error>, now: int)
      returns (r: Result<CrossMarginAccountDetails, Error>)
      requires Valid()
      modifies this
      ensures Valid()
      ensures id !in accounts ==> r == Failure(NotExists(id)) && unchanged(this)
      ensures id in accounts && fetch.Failure? ==> r == fetch && unchanged(this)
      ensures id in accounts && fetch.Success? ==>
                r == fetch
                && accountDetails == old(accountDetails)[id := fetch.value]
                && accountsLastUpdate == old(accountsLastUpdate)[id := now]
    {
      if id !in accounts {
        return Failure(NotExists(id));
      }
      if fetch.Failure? {
        return Failure(fetch.error);
      }
      accountDetails := accountDetails[id := fetch.value];
      accountsLastUpdate := accountsLastUpdate[id := now];
      return Success(fetch.value);
    }

    /** GetAccountInfo: the cached copy when there is one no older than a
        minute, otherwise whatever UpdateAccount gives. */
    method GetAccountInfo(id: string, fetch: Result<CrossMarginAccountDetails, Error>, now: int)
      returns (r: Result<CrossMarginAccountDetails, Error>)
      requires Valid()
      modifies this
      ensures Valid()
      ensures old(Cached(id, now)).Some? ==> r == Success(old(Cached(id, now)).value) && unchanged(this)
      ensures old(Cached(id, now)).None? && id !in accounts ==> r == Failure(NotExists(id)) && unchanged(this)
      ensures old(Cached(id, now)).None? && id in accounts ==> r == fetch
      ensures old(Cached(id, now)).None? && id in accounts && fetch.Failure? ==> unchanged(this)
      ensures old(Cached(id, now)).None? && id in accounts && fetch.Success? ==>
                accountDetails == old(accountDetails)[id := fetch.value]
                && accountsLastUpdate == old(accountsLastUpdate)[id := now]
    {
      var ok := id in accountDetails;
      var update := if id in accountsLastUpdate then accountsLastUpdate[id] else 0;
      if ok && FreshAt(update, now) {
        return Success(accountDetails[id]);
      }
      r := UpdateAccount(id, fetch, now);
    }

    /** A successful refresh at `stamp` is served from the cache until a
        minute has passed: the next GetAccountInfo returns the stored
        details whatever a fetch would give, and changes nothing. */
    method UpdateThenGet(id: string, ai: CrossMarginAccountDetails, stamp: int,
                         fetch: Result<CrossMarginAccountDetails, Error>, now: int)
      returns (r: Result<CrossMarginAccountDetails, Error>)
      requires Valid() && id in accounts
      requires now <= stamp + CachedValidDuration
      modifies this
      ensures Valid()
      ensures r == Success(ai)
      ensures accountDetails == old(accountDetails)[id := ai]
      ensures accountsLastUpdate == old(accountsLastUpdate)[id := stamp]
    {
      var u := UpdateAccount(id, Success(ai), stamp);
      assert Cached(id, now) == Some(ai);
      r := GetAccountInfo(id, fetch, now);
    }
  }
}
