/**
 * The ordering `route_interfaces` applies to the interface list: every name
 * other than "lo" in the order given, then "lo" once if it was listed.
 */
module Interfaces {

  const LOOPBACK: string := "lo"

  /** `[i for i in lst if i != "lo"]` */
  function WithoutLoopback(names: seq<string>): (r: seq<string>)
    ensures LOOPBACK !in r
    ensures forall n :: n != LOOPBACK ==> multiset(r)[n] == multiset(names)[n]
    decreases |names|
  {
    if names == [] then []
    else
      assert names == [names[0]] + names[1..];
      (if names[0] == LOOPBACK then [] else [names[0]]) + WithoutLoopback(names[1..])
  }

  /** The filter keeps relative order: it distributes over concatenation. */
  lemma {:induction false} WithoutLoopbackAppend(a: seq<string>, b: seq<string>)
    ensures WithoutLoopback(a + b) == WithoutLoopback(a) + WithoutLoopback(b)
    decreases |a|
  {
    if a == [] {
      assert a + b == b;
    } else {
      assert (a + b)[1..] == a[1..] + b;
      WithoutLoopbackAppend(a[1..], b);
    }
  }

  /**
   * `[i for i in lst if i != "lo"] + (["lo"] if "lo" in get_if_list() else [])`:
   * `names` is the first enumeration, `probe` the second one, made only to
   * ask whether "lo" exists.
   */
  function OrderInterfaces(names: seq<string>, probe: seq<string>): (r: seq<string>)
    // loopback is listed iff the second enumeration has it, exactly once, and last
    ensures LOOPBACK in r <==> LOOPBACK in probe
    ensures multiset(r)[LOOPBACK] <= 1
    ensures forall i :: 0 <= i < |r| - 1 ==> r[i] != LOOPBACK
    // every other name of the first enumeration keeps its number of occurrences
    ensures forall n :: n != LOOPBACK ==> multiset(r)[n] == multiset(names)[n]
    // and they come first, in the order of the first enumeration
    ensures |WithoutLoopback(names)| <= |r| && r[..|WithoutLoopback(names)|] == WithoutLoopback(names)
  {
    var rest := WithoutLoopback(names);
    assert LOOPBACK !in multiset(rest);
    var tail := if LOOPBACK in probe then [LOOPBACK] else [];
    assert (rest + tail)[..|rest|] == rest;
    rest + tail
  }

  /**
   * When both enumerations agree, the non-loopback names keep their order and
   * "lo", if present, moves to the end.
   */
  lemma {:induction false} OrderInterfacesMovesLoopbackLast(a: seq<string>, b: seq<string>)
    requires LOOPBACK !in a && LOOPBACK !in b
    ensures OrderInterfaces(a + [LOOPBACK] + b, a + [LOOPBACK] + b) == a + b + [LOOPBACK]
    ensures OrderInterfaces(a + b, a + b) == a + b
  {
    var s := a + [LOOPBACK] + b;
    WithoutLoopbackKeepsOthers(a);
    WithoutLoopbackKeepsOthers(b);
    WithoutLoopbackAppend(a, [LOOPBACK]);
    assert WithoutLoopback([LOOPBACK]) == [] by {
      assert [LOOPBACK][1..] == [];
    }
    assert WithoutLoopback(a + [LOOPBACK]) == a;
    WithoutLoopbackAppend(a + [LOOPBACK], b);
    assert WithoutLoopback(s) == a + b;
    assert s[|a|] == LOOPBACK;
    WithoutLoopbackAppend(a, b);
    assert LOOPBACK !in a + b;
  }

  /** The filter is the identity on a list without "lo". */
  lemma {:induction false} WithoutLoopbackKeepsOthers(a: seq<string>)
    requires LOOPBACK !in a
    ensures WithoutLoopback(a) == a
    decreases |a|
  {
    if a != [] {
      assert a == [a[0]] + a[1..];
      WithoutLoopbackKeepsOthers(a[1..]);
    }
  }
}
