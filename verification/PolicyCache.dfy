/** The policy cache: entries by source namespace with a time to live, negative entries included, as
    the object the program mutates and as the functions that specify each of its operations. */
module PolicyCache {
  import opened Common

  const DEFAULT_TTL: int := 300 * SECOND

  /** A policy object's identity in the API, and its contents. */
  datatype Key = Key(namespace: string, name: string)
  datatype Policy = Policy(source: string, rules: string)

  /** A cached answer; `None` records that no policy was found. */
  datatype Entry = Entry(policy: Option<Policy>, expiresAt: int)

  type Entries = map<string, Entry>

  /** What the API server answered to a list by source namespace. */
  datatype Listing = ListError | Listed(items: seq<Policy>)

  datatype Answer = Found(policy: Policy) | NotFound | ListFailed | Ambiguous

  predicate Live(entries: Entries, ns: string, now: int) {
    ns in entries && now < entries[ns].expiresAt
  }

  function Reply(policy: Option<Policy>): Answer {
    match policy
    case None => NotFound
    case Some(p) => Found(p)
  }

  // ---------- operations on the entries ----------

  function Stored(entries: Entries, ns: string, policy: Option<Policy>, now: int, ttl: int): Entries {
    entries[ns := Entry(policy, now + ttl)]
  }

  /** What a refresh stores: nothing after an error or an ambiguous list. */
  function Refreshed(entries: Entries, ns: string, listing: Listing, now: int, ttl: int): Entries {
    match listing
    case ListError => entries
    case Listed(items) =>
      if |items| > 1 then entries
      else Stored(entries, ns, if |items| == 0 then None else Some(items[0]), now, ttl)
  }

  function Answered(listing: Listing): Answer {
    match listing
    case ListError => ListFailed
    case Listed(items) =>
      if |items| > 1 then Ambiguous else if |items| == 0 then NotFound else Found(items[0])
  }

  /** The entries after the policy controller has handled an event: a policy that exists is stored under its
      source namespace, and a deletion clears everything. */
  function PolicyHandled(entries: Entries, policy: Option<Policy>, now: int, ttl: int): Entries {
    match policy
    case Some(p) => Stored(entries, p.source, policy, now, ttl)
    case None => map[]
  }

  /** The same for the cache controller, whose deletions only touch the entry of the empty namespace. */
  function CacheHandled(entries: Entries, policy: Option<Policy>, now: int, ttl: int): Entries {
    match policy
    case Some(p) => Stored(entries, p.source, policy, now, ttl)
    case None => entries - {""}
  }

  /** What a lookup returns: the live entry, otherwise what the list says. */
  function LookedUp(entries: Entries, ns: string, listing: Listing, now: int): Answer {
    if Live(entries, ns, now) then Reply(entries[ns].policy) else Answered(listing)
  }

  class Cache {
    var entries: Entries
    const ttl: int

    constructor (ttl: int)
      ensures entries == map[]
      ensures this.ttl == if ttl == 0 then DEFAULT_TTL else ttl
    {
      entries := map[];
      this.ttl := if ttl == 0 then DEFAULT_TTL else ttl;
    }

    /** Look up the policy of a source namespace: the cached answer while it is live, otherwise what the
        API lists, which is then cached. `now` is read at the lookup and `later` at the store. */
    method Get(ns: string, listing: Listing, now: int, later: int) returns (answer: Answer)
      modifies this
      ensures answer == LookedUp(old(entries), ns, listing, now)
      ensures entries == if Live(old(entries), ns, now) then old(entries)
                         else Refreshed(old(entries), ns, listing, later, ttl)
    {
      if ns in entries && now < entries[ns].expiresAt {
        var entry := entries[ns];
        if entry.policy.None? {
          return NotFound;
        }
        return Found(entry.policy.value);
      }
      answer := Refresh(ns, listing, later);
    }

    method Refresh(ns: string, listing: Listing, now: int) returns (answer: Answer)
      modifies this
      ensures entries == Refreshed(old(entries), ns, listing, now, ttl) && answer == Answered(listing)
    {
      if listing.ListError? {
        return ListFailed;
      }
      if |listing.items| > 1 {
        return Ambiguous;
      }
      if |listing.items| == 0 {
        entries := entries[ns := Entry(None, now + ttl)];
        return NotFound;
      }
      entries := entries[ns := Entry(Some(listing.items[0]), now + ttl)];
      return Found(listing.items[0]);
    }

    method Set(ns: string, policy: Policy, now: int)
      modifies this
      ensures entries == Stored(old(entries), ns, Some(policy), now, ttl)
    {
      entries := entries[ns := Entry(Some(policy), now + ttl)];
    }

    method Update(policy: Policy, now: int)
      modifies this
      ensures entries == Stored(old(entries), policy.source, Some(policy), now, ttl)
    {
      Set(policy.source, policy, now);
    }

    method Delete(ns: string)
      modifies this
      ensures entries == old(entries) - {ns}
    {
      entries := entries - {ns};
    }

    method Clear()
      modifies this
      ensures entries == map[]
    {
      entries := map[];
    }

    /** The policy controller's Reconcile: `policy` is what it read, `None` when the policy is gone. */
    method ReconcilePolicy(policy: Option<Policy>, now: int)
      modifies this
      ensures entries == PolicyHandled(old(entries), policy, now, ttl)
    {
      if policy.None? {
        Clear();
      } else {
        Update(policy.value, now);
      }
    }

    /** The cache controller's Reconcile. On a deletion the policy it failed to read is still empty, so
        it drops the entry of the empty namespace. */
    method ReconcileCache(policy: Option<Policy>, now: int)
      modifies this
      ensures entries == CacheHandled(old(entries), policy, now, ttl)
    {
      if policy.None? {
        Delete("");
      } else {
        Set(policy.value.source, policy.value, now);
      }
    }
  }
}
