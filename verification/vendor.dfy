/**
 * The vendor resolver of backend/app.py (`safe_lookup_vendor` over
 * `vendor_cache`), stated as a function from the cache before a call to the
 * answer and the cache after it. The MAC-vendor database is an oracle: a total
 * function from a lower-case MAC to what `lookup` did for it.
 */
module Vendor {
  import opened Text

  /** What the external `lookup(m)` did: returned a name (possibly empty) or raised. */
  datatype LookupReply = Answered(name: string) | Raised

  type Oracle = string -> LookupReply

  const LOCALHOST: string := "Localhost"
  const UNKNOWN: string := "Unknown"

  /** `ip_hint and (ip_hint == "127.0.0.1" or ip_hint.startswith("127."))` */
  predicate IsLoopbackHint(hint: string) {
    hint != "" && (hint == "127.0.0.1" || StartsWith(hint, "127."))
  }

  /** The `127.0.0.1` test is subsumed by the prefix test. */
  lemma LoopbackHintIsPrefix(hint: string)
    ensures IsLoopbackHint(hint) <==> StartsWith(hint, "127.")
  {
  }

  /** An empty or failed answer degrades to "Unknown". */
  function VendorName(reply: LookupReply): (v: string)
    ensures v != ""
    ensures reply.Raised? || reply.name == "" ==> v == UNKNOWN
    ensures reply.Answered? && reply.name != "" ==> v == reply.name
  {
    match reply
    case Answered(name) => if name == "" then UNKNOWN else name
    case Raised => UNKNOWN
  }

  /** Every cached vendor name is non-empty. */
  ghost predicate NamesPresent(cache: map<string, string>) {
    forall k :: k in cache ==> cache[k] != ""
  }

  /**
   * The outcome of one call: the name returned, the cache afterwards, and
   * whether the external database was consulted.
   */
  datatype Resolution = Resolution(vendor: string, cache: map<string, string>, consulted: bool)

  function Resolve(cache: map<string, string>, mac: string, hint: string, lookup: Oracle): (r: Resolution)
    // a loopback hint wins over everything, and touches nothing
    ensures IsLoopbackHint(hint) ==> r == Resolution(LOCALHOST, cache, false)
    // an empty MAC is "Unknown", and touches nothing
    ensures !IsLoopbackHint(hint) && mac == "" ==> r == Resolution(UNKNOWN, cache, false)
    // otherwise the lower-cased MAC ends up cached with the returned name
    ensures !IsLoopbackHint(hint) && mac != "" ==>
      && Lower(mac) in r.cache
      && r.cache[Lower(mac)] == r.vendor
      && r.cache.Keys == cache.Keys + {Lower(mac)}
      && r.consulted == (Lower(mac) !in cache)
    // a hit serves the cached name; a miss asks the database, and a failed or empty answer is "Unknown"
    ensures !IsLoopbackHint(hint) && mac != "" && Lower(mac) in cache ==> r.vendor == cache[Lower(mac)]
    ensures r.consulted ==> r.vendor == VendorName(lookup(Lower(mac)))
    // existing entries are never changed or removed: at most one new entry is added
    ensures r.cache == cache || (r.consulted && r.cache == cache[Lower(mac) := r.vendor])
    ensures r.consulted ==> Lower(mac) !in cache
  {
    if IsLoopbackHint(hint) then Resolution(LOCALHOST, cache, false)
    else if mac == "" then Resolution(UNKNOWN, cache, false)
    else
      var m := Lower(mac);
      if m in cache then Resolution(cache[m], cache, false)
      else
        var v := VendorName(lookup(m));
        Resolution(v, cache[m := v], true)
  }

  /** Resolution never stores or returns an empty name when the cache holds none. */
  lemma ResolveKeepsNamesPresent(cache: map<string, string>, mac: string, hint: string, lookup: Oracle)
    requires NamesPresent(cache)
    ensures var r := Resolve(cache, mac, hint, lookup);
      NamesPresent(r.cache) && r.vendor != ""
  {
  }

  /**
   * A second call for the same MAC (in any letter case), with any hint that is
   * loopback exactly when the first was, returns the same name, leaves the
   * cache as the first call left it and never asks the database, whatever the
   * database would now say.
   */
  lemma ResolveIsIdempotent(cache: map<string, string>, mac: string, mac2: string, hint: string, hint2: string,
                            lookup: Oracle, lookup2: Oracle)
    requires Lower(mac2) == Lower(mac)
    requires IsLoopbackHint(hint2) == IsLoopbackHint(hint)
    ensures var first := Resolve(cache, mac, hint, lookup);
            var second := Resolve(first.cache, mac2, hint2, lookup2);
            second.vendor == first.vendor && second.cache == first.cache && !second.consulted
  {
    if mac != "" {
      assert |mac2| == |mac|;
    } else {
      assert mac2 == [];
    }
  }
}
