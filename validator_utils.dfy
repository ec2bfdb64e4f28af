/** validator/utils.go: the duplicate detector and the key listing the checks share. */
module ValidatorUtils {

  import opened Wrappers
  import opened MapOrder

  /** How many times `x` occurs in `s`. */
  function Count(s: seq<string>, x: string): nat
    decreases |s|
  {
    if |s| == 0 then 0
    else Count(s[..|s| - 1], x) + if s[|s| - 1] == x then 1 else 0
  }

  /** No value occurs twice. */
  predicate Distinct(s: seq<string>) {
    forall i, j :: 0 <= i < j < |s| ==> s[i] != s[j]
  }

  /** A value occurs at least twice exactly when two positions hold it. */
  lemma {:induction false} CountTwice(s: seq<string>, x: string)
    ensures Count(s, x) >= 2 <==> exists i, j :: 0 <= i < j < |s| && s[i] == x && s[j] == x
    ensures Count(s, x) >= 1 <==> x in s
    decreases |s|
  {
    if |s| > 0 {
      var init := s[..|s| - 1];
      CountTwice(init, x);
      if exists i, j :: 0 <= i < j < |init| && init[i] == x && init[j] == x {
        var i, j :| 0 <= i < j < |init| && init[i] == x && init[j] == x;
        assert s[i] == x && s[j] == x;
      }
      if s[|s| - 1] == x && x in init {
        var i :| 0 <= i < |init| && init[i] == x;
        assert s[i] == x && i < |s| - 1;
      }
      if exists i, j :: 0 <= i < j < |s| && s[i] == x && s[j] == x {
        var i, j :| 0 <= i < j < |s| && s[i] == x && s[j] == x;
        if j < |s| - 1 {
          assert init[i] == x && init[j] == x;
        } else {
          assert init[i] == x;
        }
      }
      if x in s {
        var i :| 0 <= i < |s| && s[i] == x;
        if i < |s| - 1 { assert init[i] == x; }
      }
    }
  }

  /** Counting in a prefix never gives more than counting in the whole. */
  lemma {:induction false} CountPrefix(s: seq<string>, j: nat, x: string)
    requires j <= |s|
    ensures Count(s[..j], x) <= Count(s, x)
    decreases |s| - j
  {
    if j < |s| {
      CountPrefix(s, j + 1, x);
      assert s[..j + 1][..j] == s[..j];
    } else {
      assert s[..j] == s;
    }
  }

  /** The first position, from `k` on, whose value occurs at least twice in `s`. */
  function FirstRepeatedFrom(s: seq<string>, k: nat): (r: Option<nat>)
    requires k <= |s|
    ensures r.Some? ==> k <= r.value < |s| && Count(s, s[r.value]) >= 2
    ensures r.Some? ==> forall j :: k <= j < r.value ==> Count(s, s[j]) < 2
    ensures r.None? ==> forall j :: k <= j < |s| ==> Count(s, s[j]) < 2
    decreases |s| - k
  {
    if k == |s| then None
    else if Count(s, s[k]) >= 2 then Some(k)
    else FirstRepeatedFrom(s, k + 1)
  }

  /**
   * What HasSliceDuplicateString returns: the earliest element whose value occurs at least
   * twice, and true; or nothing and false.
   */
  function Duplicates(s: seq<string>): (seq<string>, bool) {
    match FirstRepeatedFrom(s, 0)
    case Some(k) => ([s[k]], true)
    case None => ([], false)
  }

  /** HasSliceDuplicateString reports nothing exactly when all elements are distinct. */
  lemma DuplicatesIffNotDistinct(s: seq<string>)
    ensures Duplicates(s).1 <==> !Distinct(s)
    ensures Duplicates(s).0 == [] <==> Distinct(s)
    ensures |Duplicates(s).0| <= 1
  {
    if FirstRepeatedFrom(s, 0).Some? {
      var k := FirstRepeatedFrom(s, 0).value;
      CountTwice(s, s[k]);
    } else if !Distinct(s) {
      var i, j :| 0 <= i < j < |s| && s[i] == s[j];
      CountTwice(s, s[i]);
      assert Count(s, s[i]) < 2;
    }
  }

  /** HasSliceDuplicateString: nested loops counting each element's occurrences. */
  method HasSliceDuplicateString(slice: seq<string>) returns (duplicatedValues: seq<string>, hasDuplicatedValue: bool)
    ensures (duplicatedValues, hasDuplicatedValue) == Duplicates(slice)
  {
    hasDuplicatedValue := false;
    duplicatedValues := [];
    var i := 0;
    while i < |slice|
      invariant 0 <= i <= |slice|
      invariant FirstRepeatedFrom(slice, 0) == FirstRepeatedFrom(slice, i)
      invariant duplicatedValues == [] && !hasDuplicatedValue
    {
      var str := slice[i];
      var occur := 0;
      var j := 0;
      while j < |slice|
        invariant 0 <= j <= |slice|
        invariant occur == Count(slice[..j], str) && occur <= 1
        invariant duplicatedValues == []
      {
        assert slice[..j + 1][..j] == slice[..j];
        if str == slice[j] {
          occur := occur + 1;
          if occur > 1 {
            duplicatedValues := duplicatedValues + [str];
          }
        }
        if occur > 1 {
          CountPrefix(slice, j + 1, str);
          break;
        }
        j := j + 1;
      }
      if occur > 1 {
        assert Count(slice, str) >= 2 && duplicatedValues == [str];
        assert FirstRepeatedFrom(slice, i) == Some(i);
        hasDuplicatedValue := true;
        return;
      }
      assert slice[..j] == slice;
      i := i + 1;
    }
  }

  /** GetMapKeys: the keys of a map, in iteration order. */
  method GetMapKeys<V>(order: KeyOrder, mapData: map<string, V>) returns (keys: seq<string>)
    ensures keys == KeysOf(order, mapData.Keys)
    ensures IsKeyOrder(order) ==> |keys| == |mapData| && Distinct(keys) && (forall k :: k in keys <==> k in mapData)
  {
    var ks := KeysOf(order, mapData.Keys);
    if IsKeyOrder(order) {
      KeysOfLists(order, mapData.Keys);
    }
    keys := [];
    var i := 0;
    while i < |ks|
      invariant 0 <= i <= |ks|
      invariant keys == ks[..i]
    {
      var key := ks[i];
      keys := keys + [key];
      i := i + 1;
    }
    assert keys == ks;
  }
}
