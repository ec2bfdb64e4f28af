/**
 * The order in which `range` visits the keys of a Go map is unspecified. The model takes it
 * as a function from the key set to a listing of it, and proves its properties for every
 * such listing.
 */
module MapOrder {

  type KeyOrder = set<string> -> seq<string>

  /** `ks` lists every element of `s` exactly once. */
  ghost predicate Lists(ks: seq<string>, s: set<string>) {
    && |ks| == |s|
    && (forall k :: k in ks <==> k in s)
    && (forall i, j :: 0 <= i < j < |ks| ==> ks[i] != ks[j])
  }

  ghost predicate IsKeyOrder(order: KeyOrder) {
    forall s: set<string> :: Lists(order(s), s)
  }

  /** The elements of `ks` that belong to `s`, in order. */
  function Present(ks: seq<string>, s: set<string>): (r: seq<string>)
    ensures forall k :: k in r ==> k in s && k in ks
    decreases |ks|
  {
    if |ks| == 0 then []
    else (if ks[0] in s then [ks[0]] else []) + Present(ks[1..], s)
  }

  /**
   * The keys `range` visits over a map with key set `s`, in visiting order. Only keys of `s`
   * are visited whatever `order` is; for a proper key order this is `order(s)` itself.
   */
  function KeysOf(order: KeyOrder, s: set<string>): (ks: seq<string>)
    ensures forall k :: k in ks ==> k in s
  {
    Present(order(s), s)
  }

  lemma {:induction false} PresentAll(ks: seq<string>, s: set<string>)
    requires forall k :: k in ks ==> k in s
    ensures Present(ks, s) == ks
    decreases |ks|
  {
    if |ks| > 0 {
      assert forall k :: k in ks[1..] ==> k in ks;
      PresentAll(ks[1..], s);
      assert [ks[0]] + ks[1..] == ks;
    }
  }

  /** Under a proper key order every key is visited exactly once. */
  lemma KeysOfLists(order: KeyOrder, s: set<string>)
    requires IsKeyOrder(order)
    ensures KeysOf(order, s) == order(s)
    ensures Lists(KeysOf(order, s), s)
  {
    assert Lists(order(s), s);
    PresentAll(order(s), s);
  }
}
