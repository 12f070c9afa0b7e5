/**
 * The student's exercise list: the category and difficulty choices offered
 * by the two selectors, the AND-combined filter with its `"all"` sentinel,
 * the completion statistics of the filtered list and the filter state.
 *
 * `mockExercises` is not part of this model; every operation takes the list
 * of exercises as a parameter.
 */
module Exercises {
  import opened Wrappers
  import Arith
  import Seqs

  /**
   * An exercise. `difficulty` is compared as a string; the optional
   * `category`, `completed` and `isExtra` may be absent. The remaining
   * optional fields (score, attempts, points, dates) are never read by the
   * modelled code.
   */
  datatype Exercise = Exercise(
    id: string,
    title: string,
    description: string,
    difficulty: string,
    category: Option<string>,
    completed: Option<bool>,
    isExtra: Option<bool>)

  /** The selector value meaning "no restriction". */
  const All := "all"

  function CategoriesOf(exercises: seq<Exercise>): (r: seq<Option<string>>)
    ensures |r| == |exercises|
    ensures forall i :: 0 <= i < |r| ==> r[i] == exercises[i].category
  {
    seq(|exercises|, i requires 0 <= i < |exercises| => exercises[i].category)
  }

  function DifficultiesOf(exercises: seq<Exercise>): (r: seq<string>)
    ensures |r| == |exercises|
    ensures forall i :: 0 <= i < |r| ==> r[i] == exercises[i].difficulty
  {
    seq(|exercises|, i requires 0 <= i < |exercises| => exercises[i].difficulty)
  }

  /** `[...new Set(exercises.map(ex => ex.category))]` (an absent category is one of the values). */
  function Categories(exercises: seq<Exercise>): seq<Option<string>>
  {
    Seqs.Dedupe(CategoriesOf(exercises))
  }

  /** `[...new Set(exercises.map(ex => ex.difficulty))]`. */
  function Difficulties(exercises: seq<Exercise>): seq<string>
  {
    Seqs.Dedupe(DifficultiesOf(exercises))
  }

  /**
   * The category choices: none twice, every exercise's category present and
   * nothing else, in the order of first occurrence.
   */
  lemma CategoriesSpec(exercises: seq<Exercise>)
    ensures Seqs.NoDups(Categories(exercises))
    ensures forall c :: c in Categories(exercises) <==> c in CategoriesOf(exercises)
    ensures forall c :: c in Categories(exercises) <==> exists i :: 0 <= i < |exercises| && exercises[i].category == c
    ensures forall i, j :: 0 <= i < j < |Categories(exercises)| ==>
              Seqs.FirstIndex(CategoriesOf(exercises), Categories(exercises)[i])
              < Seqs.FirstIndex(CategoriesOf(exercises), Categories(exercises)[j])
  {
    var cs := CategoriesOf(exercises);
    Seqs.DedupeSpec(cs);
    forall c ensures c in cs <==> exists i :: 0 <= i < |exercises| && exercises[i].category == c {
      if c in cs {
        var i :| 0 <= i < |cs| && cs[i] == c;
        assert exercises[i].category == c;
      }
    }
  }

  /** The difficulty choices: none twice, exactly the exercises' difficulties, in first-occurrence order. */
  lemma DifficultiesSpec(exercises: seq<Exercise>)
    ensures Seqs.NoDups(Difficulties(exercises))
    ensures forall d :: d in Difficulties(exercises) <==> d in DifficultiesOf(exercises)
    ensures forall d :: d in Difficulties(exercises) <==> exists i :: 0 <= i < |exercises| && exercises[i].difficulty == d
    ensures forall i, j :: 0 <= i < j < |Difficulties(exercises)| ==>
              Seqs.FirstIndex(DifficultiesOf(exercises), Difficulties(exercises)[i])
              < Seqs.FirstIndex(DifficultiesOf(exercises), Difficulties(exercises)[j])
  {
    var ds := DifficultiesOf(exercises);
    Seqs.DedupeSpec(ds);
    forall d ensures d in ds <==> exists i :: 0 <= i < |exercises| && exercises[i].difficulty == d {
      if d in ds {
        var i :| 0 <= i < |ds| && ds[i] == d;
        assert exercises[i].difficulty == d;
      }
    }
  }

  /** `categoryFilter === "all" || exercise.category === categoryFilter`. */
  predicate CategoryMatch(categoryFilter: string, e: Exercise) {
    categoryFilter == All || e.category == Some(categoryFilter)
  }

  /** `difficultyFilter === "all" || exercise.difficulty === difficultyFilter`. */
  predicate DifficultyMatch(difficultyFilter: string, e: Exercise) {
    difficultyFilter == All || e.difficulty == difficultyFilter
  }

  function Matches(categoryFilter: string, difficultyFilter: string): Exercise -> bool {
    (e: Exercise) => CategoryMatch(categoryFilter, e) && DifficultyMatch(difficultyFilter, e)
  }

  /** `filteredExercises`. */
  function FilteredExercises(exercises: seq<Exercise>, categoryFilter: string, difficultyFilter: string): (r: seq<Exercise>)
    ensures Seqs.IsSubseq(r, exercises)
  {
    Seqs.FilterIsSubseq(exercises, Matches(categoryFilter, difficultyFilter));
    Seqs.Filter(exercises, Matches(categoryFilter, difficultyFilter))
  }

  /**
   * An exercise is listed exactly when it is one of the exercises and agrees
   * with each filter that is not `"all"`; an absent category matches only `"all"`.
   */
  lemma FilteredMember(exercises: seq<Exercise>, categoryFilter: string, difficultyFilter: string, e: Exercise)
    ensures e in FilteredExercises(exercises, categoryFilter, difficultyFilter)
        <==> && e in exercises
             && (categoryFilter != All ==> e.category == Some(categoryFilter))
             && (difficultyFilter != All ==> e.difficulty == difficultyFilter)
  {
    Seqs.FilterMember(exercises, Matches(categoryFilter, difficultyFilter), e);
  }

  /** With both selectors on `"all"` the whole list is shown, in order. */
  lemma NoFilterKeepsAll(exercises: seq<Exercise>)
    ensures FilteredExercises(exercises, All, All) == exercises
  {
    Seqs.FilterAll(exercises, Matches(All, All));
  }

  /** The completion summary of the listed exercises. */
  datatype Stats = Stats(completed: nat, pending: nat, total: nat, percentage: nat)

  /** `ex => ex.completed`: an absent flag counts as not completed. */
  function IsCompleted(): Exercise -> bool { (e: Exercise) => e.completed == Some(true) }

  /** `stats`. */
  function ExerciseStats(filtered: seq<Exercise>): (r: Stats)
    ensures r.total == |filtered|
    ensures r.completed == |Seqs.Filter(filtered, IsCompleted())|
    ensures r.completed + r.pending == r.total
    ensures r.total == 0 ==> r.percentage == 0
    ensures r.total > 0 ==> r.percentage == Arith.RoundDiv(100 * r.completed, r.total)
    ensures r.percentage <= 100
  {
    var completed := |Seqs.Filter(filtered, IsCompleted())|;
    var total := |filtered|;
    var percentage := if total > 0 then Arith.RoundDiv(100 * completed, total) else 0;
    assert percentage <= 100 by {
      if total > 0 {
        Arith.RoundDivBounded(100 * completed, total, 100);
      }
    }
    Stats(completed, total - completed, total, percentage)
  }

  /** The pending exercises are exactly those not completed (absent flag included). */
  lemma PendingAreNotCompleted(filtered: seq<Exercise>)
    ensures ExerciseStats(filtered).pending == |Seqs.Filter(filtered, Seqs.Not(IsCompleted()))|
  {
    Seqs.FilterComplementLength(filtered, IsCompleted());
  }

  /** The values of the two selectors. */
  datatype FilterState = FilterState(categoryFilter: string, difficultyFilter: string)

  /** Both selectors start at `"all"`. */
  function InitialFilters(): (r: FilterState)
    ensures r.categoryFilter == All && r.difficultyFilter == All
  {
    FilterState(All, All)
  }

  /** `resetFilters`. */
  function ResetFilters(st: FilterState): (r: FilterState)
    ensures r == InitialFilters()
  {
    FilterState(All, All)
  }

  /** The "Limpiar filtros" button shows while some filter is set. */
  predicate ShowClearButton(st: FilterState) {
    st.categoryFilter != All || st.difficultyFilter != All
  }

  /** After a reset the list is unfiltered and the clear button is hidden. */
  lemma ResetShowsEverything(st: FilterState, exercises: seq<Exercise>)
    ensures !ShowClearButton(ResetFilters(st))
    ensures FilteredExercises(exercises, ResetFilters(st).categoryFilter, ResetFilters(st).difficultyFilter) == exercises
  {
    NoFilterKeepsAll(exercises);
  }

  /** The clear button is hidden exactly when the filters are the initial ones, which show every exercise. */
  lemma ClearButtonIffFiltered(st: FilterState)
    ensures !ShowClearButton(st) <==> st == InitialFilters()
  {
  }
}
