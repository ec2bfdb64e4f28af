/** Small facts about sequences that the folds of the model share. */
module SeqFacts {

  /** Some element of a non-empty sequence satisfies `p` iff the last one does or an earlier one does. */
  lemma ExistsSnoc<T>(s: seq<T>, p: T -> bool)
    requires |s| > 0
    ensures var front := s[..|s| - 1];
      (exists i :: 0 <= i < |s| && p(s[i])) <==> (exists i :: 0 <= i < |front| && p(front[i])) || p(s[|s| - 1])
  {
    var front := s[..|s| - 1];
    if exists i :: 0 <= i < |front| && p(front[i]) {
      var i :| 0 <= i < |front| && p(front[i]);
      assert s[i] == front[i];
    }
    if exists i :: 0 <= i < |s| && p(s[i]) {
      var i :| 0 <= i < |s| && p(s[i]);
      if i < |front| { assert front[i] == s[i]; }
    }
  }
}
