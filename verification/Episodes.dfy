/** Repeated observations of one condition grouped into episodes. */
module Episodes {
  import opened Domain

  /** One evaluation; `time` is None when its timestamp does not parse. */
  datatype Evaluation = Evaluation(category: string, dir: Option<Direction>, time: Option<real>, index: nat)

  /** An episode is measured at its first evaluation. */
  datatype Episode = Episode(first: Evaluation, last: Evaluation, count: nat)

  const MAX_GAP := 15.0

  function Minutes(seconds: real): real { seconds / 60.0 }

  /** The later evaluation observes the same condition, without a long gap. */
  predicate Continues(a: Evaluation, b: Evaluation) {
    && a.category == b.category && a.dir == b.dir
    && a.time.Some? && b.time.Some? && Minutes(b.time.value - a.time.value) <= MAX_GAP
  }

  function EpisodeOf(group: seq<Evaluation>): Episode
    requires group != []
  {
    Episode(group[0], group[|group| - 1], |group|)
  }

  // ----- The grouping -----

  function Last<T>(s: seq<T>): T
    requires s != []
  {
    s[|s| - 1]
  }

  predicate NonEmpty(groups: seq<seq<Evaluation>>) { forall k :: 0 <= k < |groups| ==> groups[k] != [] }

  /** The list with `e` added to its last group. */
  function Extended(groups: seq<seq<Evaluation>>, e: Evaluation): seq<seq<Evaluation>>
    requires groups != []
  {
    groups[..|groups| - 1] + [Last(groups) + [e]]
  }

  function Groups(evaluations: seq<Evaluation>): (groups: seq<seq<Evaluation>>)
    ensures NonEmpty(groups) && (evaluations == [] <==> groups == [])
    ensures evaluations != [] ==> Last(Last(groups)) == Last(evaluations)
  {
    if evaluations == [] then []
    else
      var n := |evaluations|;
      var before := Groups(evaluations[..n - 1]);
      if n > 1 && Continues(evaluations[n - 2], evaluations[n - 1]) then Extended(before, evaluations[n - 1])
      else before + [[evaluations[n - 1]]]
  }

  function EpisodesOf(groups: seq<seq<Evaluation>>): seq<Episode>
    requires NonEmpty(groups)
  {
    seq(|groups|, i requires 0 <= i < |groups| => EpisodeOf(groups[i]))
  }

  method BuildEpisodes(evaluations: seq<Evaluation>) returns (episodes: seq<Episode>)
    ensures episodes == EpisodesOf(Groups(evaluations))
  {
    if |evaluations| == 0 {
      return [];
    }
    episodes := [];
    var group := [evaluations[0]];
    ghost var done: seq<seq<Evaluation>> := [];
    assert evaluations[..1] == [evaluations[0]] && evaluations[..1][..0] == [];
    for i := 1 to |evaluations|
      invariant group != [] && Groups(evaluations[..i]) == done + [group]
      invariant Last(group) == evaluations[i - 1]
      invariant NonEmpty(done) && episodes == EpisodesOf(done)
    {
      hide Continues;
      assert evaluations[..i + 1][..i] == evaluations[..i];
      var e := evaluations[i];
      if Continues(Last(group), e) {
        group := group + [e];
      } else {
        episodes := episodes + [EpisodeOf(group)];
        done := done + [group];
        group := [e];
      }
    }
    episodes := episodes + [EpisodeOf(group)];
    assert evaluations[..|evaluations|] == evaluations;
  }

  // ----- What the grouping is -----

  function Flatten(groups: seq<seq<Evaluation>>): seq<Evaluation> {
    if groups == [] then [] else Flatten(groups[..|groups| - 1]) + Last(groups)
  }

  predicate Chain(g: seq<Evaluation>) {
    g != [] && forall i :: 0 < i < |g| ==> Continues(g[i - 1], g[i])
  }

  /** Every group is one unbroken chain, and no two neighbours could be joined. */
  predicate Maximal(groups: seq<seq<Evaluation>>) {
    && (forall k :: 0 <= k < |groups| ==> Chain(groups[k]))
    && forall k :: 0 < k < |groups| ==> !Continues(Last(groups[k - 1]), groups[k][0])
  }

  lemma {:induction false} ExtendedIsMaximal(groups: seq<seq<Evaluation>>, e: Evaluation)
    requires groups != [] && Maximal(groups) && Continues(Last(Last(groups)), e)
    ensures Maximal(Extended(groups, e)) && Flatten(Extended(groups, e)) == Flatten(groups) + [e]
  {
    hide Continues;
    assert Extended(groups, e)[..|groups| - 1] == groups[..|groups| - 1];
    assert Chain(Last(groups));
  }

  lemma {:induction false} OneMoreIsMaximal(groups: seq<seq<Evaluation>>, e: Evaluation)
    requires Maximal(groups) && (groups == [] || !Continues(Last(Last(groups)), e))
    ensures Maximal(groups + [[e]]) && Flatten(groups + [[e]]) == Flatten(groups) + [e]
  {
    hide Continues;
    assert (groups + [[e]])[..|groups|] == groups;
  }

  /** The episodes are the evaluations cut into maximal chains. */
  lemma {:induction false} GroupsAreMaximal(evaluations: seq<Evaluation>)
    ensures Maximal(Groups(evaluations)) && Flatten(Groups(evaluations)) == evaluations
  {
    hide Continues, Maximal;
    if evaluations == [] {
      NothingIsMaximal();
    } else {
      var n := |evaluations|;
      var front, e := evaluations[..n - 1], evaluations[n - 1];
      GroupsAreMaximal(front);
      var before := Groups(front);
      assert evaluations == front + [e];
      hide Flatten, Extended;
      if n > 1 && Continues(evaluations[n - 2], e) {
        ExtendedIsMaximal(before, e);
      } else {
        OneMoreIsMaximal(before, e);
      }
    }
  }

  lemma {:induction false} NothingIsMaximal()
    ensures Maximal([])
  {
  }

  lemma {:induction false} LastOfFlat(groups: seq<seq<Evaluation>>)
    requires groups != [] && Last(groups) != []
    ensures Flatten(groups) != [] && Last(Flatten(groups)) == Last(Last(groups))
  {
  }

  /** The list with the last evaluation taken out. */
  function Shorter(groups: seq<seq<Evaluation>>): seq<seq<Evaluation>>
    requires groups != [] && Last(groups) != []
  {
    var done, last := groups[..|groups| - 1], Last(groups);
    if |last| == 1 then done else done + [last[..|last| - 1]]
  }

  lemma {:induction false} ShorterIsMaximal(groups: seq<seq<Evaluation>>)
    requires groups != [] && Maximal(groups)
    ensures NonEmpty(groups) && Maximal(Shorter(groups))
            && Flatten(groups) == Flatten(Shorter(groups)) + [Last(Last(groups))]
    ensures |Last(groups)| > 1 ==>
              Shorter(groups) != [] && Last(Shorter(groups)) != []
              && Continues(Last(Last(Shorter(groups))), Last(Last(groups)))
              && Extended(Shorter(groups), Last(Last(groups))) == groups
    ensures |Last(groups)| == 1 ==>
              (|groups| > 1 ==> !Continues(Last(Last(Shorter(groups))), Last(Last(groups))))
              && groups == Shorter(groups) + [[Last(Last(groups))]]
  {
    hide Continues;
    var last, shorter := Last(groups), Shorter(groups);
    assert Chain(last);
    assert groups == groups[..|groups| - 1] + [last] && last == last[..|last| - 1] + [Last(last)];
    if |last| > 1 {
      assert shorter[..|shorter| - 1] == groups[..|groups| - 1];
    }
  }

  /** There is only one way to cut a list into maximal chains. */
  lemma {:induction false} CutsAreUnique(groups: seq<seq<Evaluation>>)
    requires Maximal(groups)
    ensures Groups(Flatten(groups)) == groups
    decreases |Flatten(groups)|
  {
    hide Continues, Maximal;
    if groups != [] {
      ShorterIsMaximal(groups);
      var shorter, e := Shorter(groups), Last(Last(groups));
      CutsAreUnique(shorter);
      if shorter != [] {
        ShorterEnds(shorter);
        LastOfFlat(shorter);
      }
      var all := Flatten(groups);
      assert all[..|all| - 1] == Flatten(shorter);
      hide Shorter, Flatten, Extended;
    }
  }

  lemma {:induction false} ShorterEnds(groups: seq<seq<Evaluation>>)
    requires groups != [] && Maximal(groups)
    ensures Last(groups) != []
  {
    assert Chain(Last(groups));
  }
}
