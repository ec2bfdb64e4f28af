/**
 * The collection loop of ParseSchemas, ParseEnums and ParsePaths (schemas.go:349-365,
 * enums.go:255-271, paths.go:382-398): one result per directory arrives on a channel in
 * whatever order the goroutines finish; the first error ends the loop, and every other
 * result is merged with MergeMaps(accumulated, incoming), so the accumulated entry wins.
 */
module Aggregation {

  import opened Wrappers
  import Engine

  /** The results folded into `acc` in sequence order, stopping at the first error. */
  function Aggregate<T>(acc: map<string, T>, results: seq<Result<map<string, T>>>): Result<map<string, T>>
    decreases |results|
  {
    if |results| == 0 then Ok(acc)
    else
      match Aggregate(acc, results[..|results| - 1])
      case Err(e) => Err(e)
      case Ok(cur) =>
        match results[|results| - 1]
        case Err(e) => Err(e)
        case Ok(items) => Ok(items + cur)
  }

  /** The fold fails exactly when some result is an error, and then with the first error. */
  lemma {:induction false} AggregateFails<T>(acc: map<string, T>, results: seq<Result<map<string, T>>>)
    ensures Aggregate(acc, results).Err? <==> exists i :: 0 <= i < |results| && results[i].Err?
    ensures forall i :: 0 <= i < |results| && results[i].Err? && (forall j :: 0 <= j < i ==> results[j].Ok?) ==>
              Aggregate(acc, results) == Err(results[i].error)
    decreases |results|
  {
    if |results| > 0 {
      var front := results[..|results| - 1];
      AggregateFails(acc, front);
      assert forall i :: 0 <= i < |front| ==> front[i] == results[i];
    }
  }

  /** A successful fold keeps every entry of `acc`. */
  lemma {:induction false} AggregateKeepsAcc<T>(acc: map<string, T>, results: seq<Result<map<string, T>>>)
    requires Aggregate(acc, results).Ok?
    ensures forall k :: k in acc ==> k in Aggregate(acc, results).value && Aggregate(acc, results).value[k] == acc[k]
    decreases |results|
  {
    if |results| > 0 {
      AggregateKeepsAcc(acc, results[..|results| - 1]);
    }
  }

  /** A successful fold holds exactly the keys of `acc` and of the results. */
  lemma {:induction false} AggregateKeys<T>(acc: map<string, T>, results: seq<Result<map<string, T>>>)
    requires Aggregate(acc, results).Ok?
    ensures forall k :: k in Aggregate(acc, results).value <==>
              k in acc || exists i :: 0 <= i < |results| && results[i].Ok? && k in results[i].value
    decreases |results|
  {
    if |results| > 0 {
      var front := results[..|results| - 1];
      assert forall i :: 0 <= i < |front| ==> front[i] == results[i];
      AggregateKeys(acc, front);
    }
  }

  /** A key not in `acc` takes its value from the earliest result that has it. */
  lemma {:induction false} AggregateEarliestWins<T>(acc: map<string, T>, results: seq<Result<map<string, T>>>, k: string, i: nat)
    requires Aggregate(acc, results).Ok?
    requires i < |results| && results[i].Ok? && k in results[i].value && k !in acc
    requires forall j :: 0 <= j < i ==> results[j].Ok? && k !in results[j].value
    ensures k in Aggregate(acc, results).value && Aggregate(acc, results).value[k] == results[i].value[k]
    decreases |results|
  {
    var front := results[..|results| - 1];
    if i < |front| {
      AggregateEarliestWins(acc, front, k, i);
    } else {
      AggregateKeys(acc, front);
      assert forall j :: 0 <= j < |front| ==> front[j] == results[j];
    }
  }

  /** `order` lists every index below `n` once. */
  predicate IsSchedule(order: seq<nat>, n: nat) {
    && |order| == n
    && (forall i :: 0 <= i < |order| ==> order[i] < n)
    && (forall i, j :: 0 <= i < j < |order| ==> order[i] != order[j])
    && (forall k :: 0 <= k < n ==> k in order)
  }

  /** The results in the order the schedule picks them. */
  function Pick<T>(results: seq<T>, order: seq<nat>): (r: seq<T>)
    requires forall i :: 0 <= i < |order| ==> order[i] < |results|
    ensures |r| == |order| && forall i :: 0 <= i < |order| ==> r[i] == results[order[i]]
  {
    seq(|order|, i requires 0 <= i < |order| => results[order[i]])
  }

  /**
   * Whatever order the results arrive in, the fold fails exactly when some directory failed,
   * and on success it holds the same keys and keeps every entry of `acc`.
   */
  lemma OrderIndependentOutcome<T>(acc: map<string, T>, results: seq<Result<map<string, T>>>, order: seq<nat>)
    requires IsSchedule(order, |results|)
    ensures Aggregate(acc, Pick(results, order)).Err? <==> exists i :: 0 <= i < |results| && results[i].Err?
    ensures Aggregate(acc, Pick(results, order)).Ok? ==>
              var r := Aggregate(acc, Pick(results, order)).value;
              (forall k :: k in acc ==> k in r && r[k] == acc[k])
              && (forall k :: k in r <==> k in acc || exists i :: 0 <= i < |results| && results[i].Ok? && k in results[i].value)
  {
    var picked := Pick(results, order);
    AggregateFails(acc, picked);
    if exists i :: 0 <= i < |results| && results[i].Err? {
      var i :| 0 <= i < |results| && results[i].Err?;
      assert i in order;
      var p :| 0 <= p < |order| && order[p] == i;
      assert picked[p].Err?;
    }
    if Aggregate(acc, picked).Ok? {
      AggregateKeepsAcc(acc, picked);
      AggregateKeys(acc, picked);
      var r := Aggregate(acc, picked).value;
      forall k | k in acc || exists i :: 0 <= i < |results| && results[i].Ok? && k in results[i].value
        ensures k in r
      {
        if k !in acc {
          var i :| 0 <= i < |results| && results[i].Ok? && k in results[i].value;
          assert i in order;
          var p :| 0 <= p < |order| && order[p] == i;
          assert picked[p] == results[i];
        }
      }
    }
  }

  /**
   * The collection loop: results are taken in an order the model leaves open, each merged
   * with MergeMaps(accumulated, incoming), until the first error. `order` records the
   * order taken.
   */
  method CollectResults<T>(acc: map<string, T>, results: seq<Result<map<string, T>>>)
    returns (r: Result<map<string, T>>, ghost order: seq<nat>)
    ensures forall i :: 0 <= i < |order| ==> order[i] < |results|
    ensures r == Aggregate(acc, Pick(results, order))
    ensures r.Ok? ==> IsSchedule(order, |results|)
    ensures r.Err? ==> exists i :: 0 <= i < |results| && results[i] == r
  {
    var cur := acc;
    var remaining := Range(|results|);
    order := [];
    while remaining != {}
      invariant forall i :: 0 <= i < |order| ==> order[i] < |results|
      invariant forall i, j :: 0 <= i < j < |order| ==> order[i] != order[j]
      invariant forall k :: 0 <= k < |results| ==> (k in remaining <==> k !in order)
      invariant forall k :: k in remaining ==> 0 <= k < |results|
      invariant |order| + |remaining| == |results|
      invariant Aggregate(acc, Pick(results, order)) == Ok(cur)
      decreases remaining
    {
      var k :| k in remaining;
      AggregateStep(acc, results, order, k, cur);
      order := order + [k];
      remaining := remaining - {k};
      match results[k]
      case Err(e) =>
        return Err(e), order;
      case Ok(items) =>
        cur := Engine.MergeMaps(cur, items);
    }
    r := Ok(cur);
  }

  /** Picking one more result folds it into the accumulated map. */
  lemma AggregateStep<T>(acc: map<string, T>, results: seq<Result<map<string, T>>>, order: seq<nat>, k: nat, cur: map<string, T>)
    requires k < |results| && forall i :: 0 <= i < |order| ==> order[i] < |results|
    requires Aggregate(acc, Pick(results, order)) == Ok(cur)
    ensures Aggregate(acc, Pick(results, order + [k])) ==
      match results[k]
      case Err(e) => Err(e)
      case Ok(items) => Ok(items + cur)
  {
    var next := order + [k];
    assert Pick(results, next)[..|next| - 1] == Pick(results, order);
  }

  /** The indices below `n`. */
  function Range(n: nat): (r: set<nat>)
    ensures forall k: nat :: k in r <==> k < n
    ensures |r| == n
  {
    if n == 0 then {} else Range(n - 1) + {n - 1}
  }
}
