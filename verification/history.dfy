/**
 * The bounded capture history of backend/app.py: `on_packet` appends to
 * `captured` and drops the head once the list is longer than `MAX_STORE`.
 */
module History {

  const MAX_STORE: nat := 2000

  /** `captured.append(x); if len(captured) > MAX_STORE: captured.pop(0)` */
  function Admit<T>(history: seq<T>, item: T): (r: seq<T>)
    // the new item is last and at most the oldest entry goes
    ensures |r| >= 1 && r[|r| - 1] == item
    ensures r == history + [item] || (|history| > 0 && r == history[1..] + [item])
    // below capacity nothing is evicted; at capacity exactly the oldest is
    ensures |history| < MAX_STORE ==> r == history + [item]
    ensures |history| == MAX_STORE ==> r == history[1..] + [item]
    ensures |history| <= MAX_STORE ==> |r| <= MAX_STORE
  {
    var grown := history + [item];
    if |grown| > MAX_STORE then grown[1..] else grown
  }

  /** Admits `items` one after another, as successive `on_packet` calls do. */
  function AdmitAll<T>(history: seq<T>, items: seq<T>): seq<T>
    decreases |items|
  {
    if items == [] then history else AdmitAll(Admit(history, items[0]), items[1..])
  }

  /** The newest `n` entries of `s`, in order. */
  function Newest<T>(s: seq<T>, n: nat): (r: seq<T>)
    ensures |r| == if |s| <= n then |s| else n
  {
    if |s| <= n then s else s[|s| - n..]
  }

  /** Dropping entries older than the newest `n` does not change the newest `n` of an extension. */
  lemma NewestOfSuffix<T>(s: seq<T>, k: nat, u: seq<T>, n: nat)
    requires k <= |s| && |s| - k >= (if |s| <= n then |s| else n)
    ensures Newest(s[k..] + u, n) == Newest(s + u, n)
  {
    if |s| <= n {
      assert k == 0;
      assert s[k..] == s;
    } else {
      assert (s + u)[k..] == s[k..] + u;
      if |s[k..] + u| > n {
        assert (s[k..] + u)[|s[k..] + u| - n..] == (s + u)[|s + u| - n..];
      }
    }
  }

  /**
   * However many records arrive, the history is exactly the newest
   * `MAX_STORE` of everything it held plus everything appended, in capture order.
   */
  lemma {:induction false} AdmitAllKeepsNewest<T>(history: seq<T>, items: seq<T>)
    requires |history| <= MAX_STORE
    ensures AdmitAll(history, items) == Newest(history + items, MAX_STORE)
    ensures |AdmitAll(history, items)| <= MAX_STORE
    decreases |items|
  {
    if items == [] {
      assert history + items == history;
    } else {
      var h' := Admit(history, items[0]);
      AdmitAllKeepsNewest(h', items[1..]);
      var grown := history + [items[0]];
      var k := if |grown| > MAX_STORE then 1 else 0;
      assert h' == grown[k..];
      NewestOfSuffix(grown, k, items[1..], MAX_STORE);
      assert grown + items[1..] == history + items;
    }
  }
}
