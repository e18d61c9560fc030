/** The memoised time-zone check of src/core/timezone.ts (and its copy in src/utils/tickets.ts). */
module Timezone {

  /** A module-level map from zone name to validity, filled on first use of each zone. */
  class ZoneCache {
    /** the time-zone library's verdict, `IANAZone.create(zone).isValid` */
    const library: string -> bool
    var cache: map<string, bool>
    /** every zone the library was asked about, in order */
    ghost var consulted: seq<string>

    /** Every cached verdict is the library's, and every zone asked about is cached. */
    ghost predicate Valid()
      reads this
    {
      && (forall z :: z in cache ==> cache[z] == library(z))
      && (forall i :: 0 <= i < |consulted| ==> consulted[i] in cache)
    }

    constructor (library: string -> bool)
      ensures Valid() && this.library == library
      ensures cache == map[] && consulted == []
    {
      this.library := library;
      cache := map[];
      consulted := [];
    }

    /** `isValidTimezone(zone)`. */
    method IsValidTimezone(zone: string) returns (valid: bool)
      requires Valid()
      modifies this
      ensures Valid()
      ensures valid == library(zone)
      ensures cache == old(cache)[zone := valid]
      ensures zone in old(cache) ==> valid == old(cache)[zone] && cache == old(cache)
      ensures consulted == old(consulted) + (if zone in old(cache) then [] else [zone])
    {
      if zone in cache {
        valid := cache[zone];
        return;
      }
      valid := library(zone);
      cache := cache[zone := valid];
      consulted := consulted + [zone];
    }
  }

  /** Two calls with the same zone agree, and the second does not consult the library. */
  method AskTwice(c: ZoneCache, zone: string) returns (first: bool, second: bool)
    requires c.Valid()
    modifies c
    ensures c.Valid()
    ensures first == second == c.library(zone)
    ensures |c.consulted| <= |old(c.consulted)| + 1
  {
    first := c.IsValidTimezone(zone);
    second := c.IsValidTimezone(zone);
  }
}
