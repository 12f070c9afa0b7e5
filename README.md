# Edu+ dashboard logic in Dafny

Edu+ is a school dashboard written in React. Behind its markup sits a small
layer of deterministic logic over in-memory collections, and this project
models that layer and proves properties of it:

- the student and group records and their seed data;
- the averages a teacher sees:
  - the group average recomputed when a roster is saved;
  - the school-wide weighted average;
  - rune unlock progress;
  - exercise completion statistics;
- the pedagogical recommendation generator;
- the student and exercise filters and the student sort;
- the roster editor;
- the dashboard's navigation state;
- the simulated authentication service and the session provider with its
  key-value store;
- the route guard and its permission predicates;
- the role-dependent sidebar menu and names.

One module per source file:

| module | file | form |
|---|---|---|
| `Students` | `students.dfy` | datatypes and seed constants; the seed invariants as lemmas |
| `Recommendations` | `recommendations.dfy` | `GenerateRecommendations` is a method with the source's `if` chain and `forEach` loop, proved against the function `Plan`; the ordering properties are lemmas about `Plan` |
| `Runes` | `achievements.dfy` | functions and lemmas |
| `Exercises` | `exercises.dfy` | functions and lemmas |
| `StudentDashboard` | `student_dashboard.dfy` | filter predicates; an insertion sort on sequences with a permutation contract |
| `ManageStudents` | `manage_students.dfy` | class `RosterEditor`, one method per handler; the derived lists are functions |
| `Dashboard` | `dashboard.dfy` | `UpdateGroups` is a function; class `DashboardNav` holds the navigation state |
| `GroupDashboard` | `group_dashboard.dfy` | functions and lemmas |
| `AuthApi` | `auth_api.dfy` | `LoginStep` specifies login; class `UserDirectory` owns the user table that `Login` updates in place |
| `AuthContext` | `auth_context.dfy` | class `AuthProvider`, whose fields are the React state and the store |
| `RouteGuard` | `route_guard.dfy` | functions and lemmas |
| `Sidebar` | `sidebar.dfy` | functions and lemmas |

`Seqs` (`seqs.dfy`), `Text` (`text.dfy`), `Arith` (`arith.dfy`) and
`Wrappers` (`wrappers.dfy`) provide the JavaScript library operations the
code uses:

- `filter`, `find`, `includes` and `new Set`;
- `toLowerCase`, `trim`, `split` and `localeCompare`;
- `Math.round` of a quotient, written `(2a + b) / (2b)` on naturals (half rounds up);
- `Option`.

Three modelling conventions:

- An optional field or a nullable selection is an `Option`. A selection id
  counts as set only when it is not the empty string, matching JavaScript
  truthiness.
- The role is `StudentRole | TeacherRole | DirectorRole | OtherRole(name)`. An
  unknown role string can reach the code through a stored session, and
  `getRoleSpecificData` handles it. A user record, `hasRole`, `hasAnyRole`
  and the guard's role list hold a `CanonRole`: a role whose `OtherRole`
  never spells one of the three known names. Comparing such roles is
  comparing their strings, as the source does
  (`RouteGuard.RoleTestsCompareNames`). The sidebar only receives the three
  known roles, so it takes the subset type `UserRole`.
- The seed records keep every field the modelled code reads, with the
  source's values. Fields only the markup reads are dropped; "## Left out"
  lists them.

## Model

| member | source | states |
|---|---|---|
| Students.MathSkills.Entries | LTI/src/types/students/student.ts:9-15 | `Object.entries(mathSkills)` has exactly five pairs, in the declared key order algebra, geometry, arithmetic, statistics, calculus, each paired with its score |
| Students.Ids | LTI/src/components/ManageStudents.tsx:19-21 | `students.map(s => s.id)`: same length, the i-th id is the i-th student's |
| Students.AverageProgress | LTI/src/Dashboard.tsx:59-61 | 0 for an empty roster; otherwise the mean of the progress values rounded half up (stated as the two inequalities that pin down the rounded quotient); at most 100 when every progress is |
| Students.SumProgress | LTI/src/Dashboard.tsx:60 | the progress sum is at most 100 per student when every progress is at most 100 |
| Students.MembersOf | LTI/src/types/students/student.ts:292 | every student of `mockStudents.filter(s => s.groupId === id)` has that group id |
| Students.SeedStudentsInRange | LTI/src/types/students/student.ts:41-282 | every seed student's progress and all five skill scores lie in [0, 100] |
| Students.SeedIdsDistinct | LTI/src/types/students/student.ts:41-282 | the seed student ids are pairwise distinct |
| Students.RosterIsSlice | LTI/src/types/students/student.ts:292 | when the students with a group id are exactly the seed slice [lo, hi), the filtered roster is that slice, in seed order |
| Students.SeedRosters | LTI/src/types/students/student.ts:292-310 | groups A, B and C hold the seed students 1-5, 6-7 and 8-9, in seed order |
| Students.SeedGroupsConsistent | LTI/src/types/students/student.ts:284-330 | every seed group's `studentCount` is its roster's length and its `averageProgress` is the rounded mean of its roster (77, 82, 81, 0, 0) |
| Students.SumSlice | LTI/src/types/students/student.ts:41-282 | the progress sum of a seed slice equals the sum of the listed values |
| Students.SeedGroupConsistent | LTI/src/types/students/student.ts:284-330 | for each seed group, its count is its roster size and its average is the rounded mean of its roster |
| Students.StylesDistinct | LTI/src/types/students/student.ts:41-282 | the three learning-style strings Visual, Auditivo and Kinestésico are pairwise different |
| Arith.RoundDiv | LTI/src/Dashboard.tsx:60 | `Math.round(a / b)` on naturals: the unique r with 2br <= 2a + b < 2b(r + 1) |
| Arith.RoundDivUnique | LTI/src/Dashboard.tsx:60 | any r meeting those inequalities is `RoundDiv(a, b)` |
| Arith.RoundDivExact | LTI/src/components/GroupDashboard.tsx:14 | an exact quotient rounds to itself |
| Arith.RoundDivBounded | LTI/src/components/GroupDashboard.tsx:14 | a dividend at most m·b rounds to at most m |
| Arith.RoundDivMonotone | LTI/src/views/student/StudentAchievementsView.tsx:81-86 | rounding the quotient is monotone in the dividend |
| Arith.Min | LTI/src/views/student/StudentAchievementsView.tsx:81 | `Math.min`: at most both arguments and equal to one of them |
| Seqs.Filter | LTI/src/components/StudentDashboard.tsx:21 | `filter` keeps only elements that satisfy the predicate and is no longer than its input |
| Seqs.FilterIsSubseq | LTI/src/components/StudentDashboard.tsx:21 | `filter` returns an order-preserving subsequence of its input |
| Seqs.FilterMember | LTI/src/components/StudentDashboard.tsx:21 | an element is in the filtered list iff it is in the input and satisfies the predicate |
| Seqs.FilterComplementMultiset | LTI/src/lib/auth-api.ts:302-303 | filtering by a predicate and by its negation splits the multiset of the input |
| Seqs.FindIndex | LTI/src/lib/auth-api.ts:241 | the index `find` stops at: the first element satisfying the predicate, or the length when none does |
| Seqs.Find | LTI/src/lib/auth-api.ts:293 | `find` yields nothing iff no element satisfies the predicate, else the element at the first satisfying index |
| Seqs.DedupeSpec | LTI/src/views/student/StudentExercisesView.tsx:35 | `[...new Set(xs)]` has no duplicates and the same elements as xs, in first-occurrence order |
| Seqs.ContainsSpec | LTI/src/components/StudentDashboard.tsx:22 | `includes` on strings holds iff the term occurs at some position |
| Seqs.ContainsEmpty | LTI/src/components/StudentDashboard.tsx:22 | every string includes the empty term |
| Text.ToLower | LTI/src/components/StudentDashboard.tsx:22 | `toLowerCase` keeps the length and lowers each character |
| Text.ToLowerIdempotent | LTI/src/components/StudentDashboard.tsx:22 | lowering twice is lowering once |
| Text.Trim | LTI/src/components/ManageStudents.tsx:49 | `trim` yields the slice of the input between leading and trailing whitespace; the result neither starts nor ends with whitespace |
| Text.TrimIdempotent | LTI/src/components/ManageStudents.tsx:49 | trimming twice is trimming once |
| Text.NameLeTotal | LTI/src/components/StudentDashboard.tsx:41 | the name order is total |
| Text.NameLeTransitive | LTI/src/components/StudentDashboard.tsx:41 | the name order is transitive |
| Text.NameLeAntisymmetric | LTI/src/components/StudentDashboard.tsx:41 | the name order is antisymmetric |
| Text.Split | LTI/src/components/UnifiedSidebar.tsx:57-63 | `split(sep)` yields at least one piece and no piece contains the separator |
| Text.SplitJoin | LTI/src/components/UnifiedSidebar.tsx:57-63 | joining the pieces of a split with the separator restores the string |
| Recommendations.WeakAreas | LTI/src/components/PedagogicalRecommendations.tsx:16-18 | an area is weak iff its score is below 60; the weak areas follow key order |
| Recommendations.IntermediateAreas | LTI/src/components/PedagogicalRecommendations.tsx:20-22 | an area is intermediate iff 60 <= score < 80; key order kept |
| Recommendations.BandsDisjoint | LTI/src/components/PedagogicalRecommendations.tsx:16-22 | no area is both weak and intermediate, and a score of 80 or more is neither |
| Recommendations.WeakAreaOrder | LTI/src/components/PedagogicalRecommendations.tsx:25-67 | the per-style order of the weak-area checks never includes calculus, lists statistics only for Visual, and together with the generic tips fits in 5 |
| Recommendations.WeakAreaTipsMember | LTI/src/components/PedagogicalRecommendations.tsx:26-36 | a weak-area tip is produced iff the area is checked for the style and is weak |
| Recommendations.StyleTips | LTI/src/components/PedagogicalRecommendations.tsx:38-66 | the generic tips of a style, numbered in push order |
| Recommendations.IntermediateTips | LTI/src/components/PedagogicalRecommendations.tsx:70-79 | one reinforcement tip per intermediate area, in the same order |
| Recommendations.Take | LTI/src/components/PedagogicalRecommendations.tsx:86 | `slice(0, n)` is a prefix of length at most n, and the whole list when it is no longer than n |
| Recommendations.Words | LTI/src/components/PedagogicalRecommendations.tsx:27-83 | each sentence is rendered as its Spanish text, one string per sentence |
| Recommendations.Render | LTI/src/components/PedagogicalRecommendations.tsx:27-83 | each planned tip becomes the sentence the style pushes for it, in order |
| Recommendations.PlanWorded | LTI/src/components/PedagogicalRecommendations.tsx:25-84 | every tip of the plan has a sentence for the student's style |
| Recommendations.StylePartKinds | LTI/src/components/PedagogicalRecommendations.tsx:25-67 | the style block holds only weak-area and generic style tips |
| Recommendations.WeakTipInPlan | LTI/src/components/PedagogicalRecommendations.tsx:25-67 | a weak-area tip is planned iff the style checks that area and its score is below 60 |
| Recommendations.CalculusAndStatistics | LTI/src/components/PedagogicalRecommendations.tsx:25-67 | a weak calculus score never yields a tip; a weak statistics score yields one only for Visual |
| Recommendations.StylePartSurvives | LTI/src/components/PedagogicalRecommendations.tsx:25-86 | the style block is at most 5 long and survives the cut to 5 whole, so every generic tip of the style is returned |
| Recommendations.PlanOrdered | LTI/src/components/PedagogicalRecommendations.tsx:25-84 | style tips precede intermediate tips, which precede the motivational tip |
| Recommendations.IntermediateTipInPlan | LTI/src/components/PedagogicalRecommendations.tsx:70-79 | an intermediate tip is planned iff the area's score is in [60, 80) |
| Recommendations.MotivationLast | LTI/src/components/PedagogicalRecommendations.tsx:82-84 | the motivational tip is planned iff progress is below 70, and then it is the last one before the cut |
| Recommendations.UnknownStyle | LTI/src/components/PedagogicalRecommendations.tsx:25-55 | a style outside the three literals gives no style tips, only the intermediate and motivational ones |
| Recommendations.StyleOrderIsNotKeyOrder | LTI/src/components/PedagogicalRecommendations.tsx:25-39 | for a Visual student weak in algebra and geometry, the geometry tip comes first although algebra comes first in key order |
| Recommendations.VisualTips | LTI/src/components/PedagogicalRecommendations.tsx:25-39 | the Visual branch pushes the sentences of its weak-area checks and its generic tip |
| Recommendations.AuditivoTips | LTI/src/components/PedagogicalRecommendations.tsx:41-53 | the Auditivo branch pushes the sentences of its weak-area checks and its two generic tips |
| Recommendations.KinestesicoTips | LTI/src/components/PedagogicalRecommendations.tsx:55-67 | the Kinestésico branch pushes the sentences of its weak-area checks and its two generic tips |
| Recommendations.PushStyleTips | LTI/src/components/PedagogicalRecommendations.tsx:25-67 | the three style branches together push the style block of the plan |
| Recommendations.GenerateRecommendations | LTI/src/components/PedagogicalRecommendations.tsx:11-87 | the result is the first 5 sentences of the rendered plan, so it never has more than 5 entries |
| Recommendations.StylePart | LTI/src/components/PedagogicalRecommendations.tsx:24-66 | no contract of its own: the weak-area tips in the style's own order, then the style's generic tips; StylePartKinds and StylePartSurvives state its properties |
| Recommendations.Plan | LTI/src/components/PedagogicalRecommendations.tsx:24-84 | no contract of its own: every tip in push order before the cap; PlanOrdered, WeakTipInPlan, IntermediateTipInPlan and MotivationLast state its properties |
| Recommendations.Text | LTI/src/components/PedagogicalRecommendations.tsx:25-83 | no contract of its own: the sentence pushed for a tip under a style, by the `if`/`includes` branches; Words gives each sentence's Spanish text |
| Recommendations.VisualPlan | LTI/src/components/PedagogicalRecommendations.tsx:25-38 | the visual branch pushes exactly the visual weak-area tips, then the generic visual tip |
| Recommendations.AuditivoPlan | LTI/src/components/PedagogicalRecommendations.tsx:41-52 | the auditory branch pushes exactly its weak-area tips, then its two generic tips |
| Recommendations.KinestesicoPlan | LTI/src/components/PedagogicalRecommendations.tsx:55-66 | the kinesthetic branch pushes exactly its weak-area tips, then its two generic tips |
| Runes.Thresholds | LTI/src/views/student/StudentAchievementsView.tsx:27-72 | four runes with thresholds 10, 5, 3 and 20 |
| Runes.Progress | LTI/src/views/student/StudentAchievementsView.tsx:81-86 | the progress is at most 100, and 100 once the count reaches the threshold |
| Runes.ProgressIsCappedRatio | LTI/src/views/student/StudentAchievementsView.tsx:81-86 | progress = round(min(100·count, 100·required) / required) |
| Runes.Status | LTI/src/views/student/StudentAchievementsView.tsx:79-87 | `isUnlocked` iff count >= threshold, progress <= 100, the rune itself kept |
| Runes.RuneProgress | LTI/src/views/student/StudentAchievementsView.tsx:76-90 | one status per rune, in table order, computed from the achievement count |
| Runes.FullIffUnlocked | LTI/src/views/student/StudentAchievementsView.tsx:80-86 | for thresholds below 200, progress is 100 iff the rune is unlocked |
| Runes.ProgressMonotone | LTI/src/views/student/StudentAchievementsView.tsx:80-81 | progress and unlock state never decrease as the count grows |
| Runes.UruzExamples | LTI/src/views/student/StudentAchievementsView.tsx:80-86 | Uruz at 10 achievements is unlocked at 100; at 5 it is locked at 50 |
| Runes.AchievementStats | LTI/src/views/student/StudentAchievementsView.tsx:92-104 | the total is the achievement count, at most 4 runes of 4 are unlocked, overall = min(round(100·count/20), 100) |
| Runes.UnlockedCount | LTI/src/views/student/StudentAchievementsView.tsx:94 | `unlockedRunes` is the number of thresholds the count reaches |
| Runes.RequiredCounts | LTI/src/views/student/StudentAchievementsView.tsx:27-72 | the `requiredAchievements` of the rune table, one per rune, in table order |
| Runes.StatsExtremes | LTI/src/views/student/StudentAchievementsView.tsx:92-104 | no achievements give 0 unlocked and 0 overall; 20 or more unlock all four at 100 overall |
| Exercises.CategoriesSpec | LTI/src/views/student/StudentExercisesView.tsx:34-37 | the category list has no duplicates, holds exactly the categories of the exercises, in first-occurrence order |
| Exercises.DifficultiesSpec | LTI/src/views/student/StudentExercisesView.tsx:39-42 | the same for difficulties |
| Exercises.FilteredExercises | LTI/src/views/student/StudentExercisesView.tsx:45-51 | an order-preserving subsequence whose members match both filters |
| Exercises.FilteredMember | LTI/src/views/student/StudentExercisesView.tsx:47-49 | an exercise is kept iff it is listed and each filter is "all" or equals its field |
| Exercises.NoFilterKeepsAll | LTI/src/views/student/StudentExercisesView.tsx:47-48 | with both filters "all" the whole list is returned |
| Exercises.ExerciseStats | LTI/src/views/student/StudentExercisesView.tsx:54-61 | total is the list length, completed counts the completed ones, completed + pending = total, percentage is 0 for an empty list or the rounded share, and at most 100 |
| Exercises.PendingAreNotCompleted | LTI/src/views/student/StudentExercisesView.tsx:57 | pending counts exactly the exercises not completed |
| Exercises.InitialFilters | LTI/src/views/student/StudentExercisesView.tsx:30-31 | both filters start at "all" |
| Exercises.ResetFilters | LTI/src/views/student/StudentExercisesView.tsx:73-76 | `resetFilters` restores both filters to "all" |
| Exercises.ResetShowsEverything | LTI/src/views/student/StudentExercisesView.tsx:73-76 | after a reset the clear button is hidden and every exercise is shown |
| Exercises.ClearButtonIffFiltered | LTI/src/views/student/StudentExercisesView.tsx:197 | the clear button shows iff a filter is not "all" |
| Exercises.Categories | LTI/src/views/student/StudentExercisesView.tsx:35 | no contract of its own: `[...new Set(exercises.map(ex => ex.category))]`; CategoriesSpec states its properties |
| Exercises.Difficulties | LTI/src/views/student/StudentExercisesView.tsx:40 | no contract of its own: `[...new Set(exercises.map(ex => ex.difficulty))]`; DifficultiesSpec states its properties |
| Exercises.CategoryMatch | LTI/src/views/student/StudentExercisesView.tsx:47 | no contract of its own: the filter is "all", or the category equals it; an absent category equals no string |
| Exercises.DifficultyMatch | LTI/src/views/student/StudentExercisesView.tsx:48 | no contract of its own: the filter is "all", or the difficulty equals it |
| Exercises.IsCompleted | LTI/src/views/student/StudentExercisesView.tsx:55 | no contract of its own: `ex.completed` is truthy only when present and true; PendingAreNotCompleted counts the rest as pending |
| StudentDashboard.FilterStudents | LTI/src/components/StudentDashboard.tsx:21-30 | an order-preserving subsequence of the roster whose members pass search, style and band |
| StudentDashboard.FilterStudentsMember | LTI/src/components/StudentDashboard.tsx:21-30 | a student is kept iff in the roster and passing all three predicates, so an omitted one fails one |
| StudentDashboard.EmptySearchMatchesAll | LTI/src/components/StudentDashboard.tsx:22 | the empty search term matches every student |
| StudentDashboard.SearchIgnoresCase | LTI/src/components/StudentDashboard.tsx:22 | lowering the term or the name does not change the search outcome; a term that is a lowered substring of the name matches |
| StudentDashboard.AllBypasses | LTI/src/components/StudentDashboard.tsx:23-24 | "all" passes every student through the style and band predicates |
| StudentDashboard.UnknownBandMatchesNobody | LTI/src/components/StudentDashboard.tsx:24-27 | a band value other than "all", "high", "medium" and "low" matches nobody |
| StudentDashboard.BandsPartition | LTI/src/components/StudentDashboard.tsx:25-27 | each progress value lies in exactly one band: high >= 80, medium 60-79, low < 60 |
| StudentDashboard.ParseSortKey | LTI/src/components/StudentDashboard.tsx:34-42 | "progress-desc" and "progress-asc" select those orders; every other key sorts by name |
| StudentDashboard.LeTotal | LTI/src/components/StudentDashboard.tsx:33-43 | each comparator is total |
| StudentDashboard.LeTransitive | LTI/src/components/StudentDashboard.tsx:33-43 | each comparator is transitive |
| StudentDashboard.Insert | LTI/src/components/StudentDashboard.tsx:33 | inserting adds exactly one element to the multiset |
| StudentDashboard.InsertSorted | LTI/src/components/StudentDashboard.tsx:33 | inserting into a sorted list keeps it sorted |
| StudentDashboard.SortStudents | LTI/src/components/StudentDashboard.tsx:33-43 | the sorted list is a permutation of the input, ordered by the key |
| StudentDashboard.VisibleStudentsSpec | LTI/src/components/StudentDashboard.tsx:21-43 | the visible list is the filtered list rearranged, ordered by the key: descending progress, ascending progress or by name |
| StudentDashboard.VisibleStudentsFiltered | LTI/src/components/StudentDashboard.tsx:21-43 | a student is visible iff in the roster and passing the three predicates |
| StudentDashboard.MatchesSearch | LTI/src/components/StudentDashboard.tsx:22 | no contract of its own: the lower-cased name contains the lower-cased term; EmptySearchMatchesAll and SearchIgnoresCase state its properties |
| StudentDashboard.MatchesStyle | LTI/src/components/StudentDashboard.tsx:23 | no contract of its own: the filter is "all", or the style equals it; AllBypasses states the "all" case |
| StudentDashboard.MatchesProgress | LTI/src/components/StudentDashboard.tsx:24-27 | no contract of its own: "all", or high at 80 and above, medium from 60 to 79, low below 60; BandsPartition and UnknownBandMatchesNobody state its properties |
| StudentDashboard.Le | LTI/src/components/StudentDashboard.tsx:33-43 | no contract of its own: the comparator of the selected key returns at most 0; LeTotal and LeTransitive make it a total preorder |
| StudentDashboard.VisibleStudents | LTI/src/components/StudentDashboard.tsx:21-43 | no contract of its own: the filtered roster sorted by the parsed key; VisibleStudentsSpec and VisibleStudentsFiltered state its properties |
| ManageStudents.RosterEditor.constructor | LTI/src/components/ManageStudents.tsx:16-21 | the editor starts with the group's ids in roster order and empty inputs |
| ManageStudents.RosterEditor.SetStudentId | LTI/src/components/ManageStudents.tsx:17 | the id input changes and nothing else |
| ManageStudents.RosterEditor.SetSearchTerm | LTI/src/components/ManageStudents.tsx:18 | the search input changes and nothing else |
| ManageStudents.RosterEditor.AddStudent | LTI/src/components/ManageStudents.tsx:40-46 | a seed id is appended and the id input cleared; any other id changes nothing |
| ManageStudents.RosterEditor.AddById | LTI/src/components/ManageStudents.tsx:48-52 | the trimmed input is added only when non-empty, not yet listed and a seed id; a duplicate-free list stays duplicate-free |
| ManageStudents.RosterEditor.RemoveStudent | LTI/src/components/ManageStudents.tsx:54-57 | the list becomes the old list without every occurrence of the id |
| ManageStudents.RemoveSpec | LTI/src/components/ManageStudents.tsx:54-57 | after removal the id is absent, every other id keeps its membership, and the order is kept |
| ManageStudents.AddFreshThenRemove | LTI/src/components/ManageStudents.tsx:40-57 | appending a fresh id and removing it restores the list exactly |
| ManageStudents.RosterEditor.AddThenRemove | LTI/src/components/ManageStudents.tsx:40-57 | adding an unlisted seed student and then removing it leaves the id list as it was |
| ManageStudents.RosterEditor.Save | LTI/src/components/ManageStudents.tsx:59-62 | `handleSave` reports the group id and the current ids; an unedited list has no changes |
| ManageStudents.AvailableCurrentPartition | LTI/src/components/ManageStudents.tsx:24-38 | the available and current lists split `mockStudents` as multisets, with lengths adding up, by whether the id is listed |
| ManageStudents.FilteredAvailableMember | LTI/src/components/ManageStudents.tsx:29-33 | an available student is offered iff its lowered name contains the lowered term or its id contains the raw term |
| ManageStudents.NoDupsCard | LTI/src/components/ManageStudents.tsx:64-65 | a duplicate-free id list has as many distinct ids as entries |
| ManageStudents.NoChangesIffSameIds | LTI/src/components/ManageStudents.tsx:64-65 | with distinct ids on both sides, no changes iff the current ids and the roster ids are the same set |
| ManageStudents.Available | LTI/src/components/ManageStudents.tsx:24-26 | a student is available iff it is a seed student whose id is not listed |
| ManageStudents.Current | LTI/src/components/ManageStudents.tsx:36-38 | a student is current iff it is a seed student whose id is listed |
| ManageStudents.Found | LTI/src/components/ManageStudents.tsx:30-32 | no contract of its own: the lower-cased name contains the lower-cased term, or the id contains the raw term |
| ManageStudents.FilteredAvailable | LTI/src/components/ManageStudents.tsx:29-33 | no contract of its own: the available students passing `Found`, in order; FilteredAvailableMember states membership |
| ManageStudents.HasChanges | LTI/src/components/ManageStudents.tsx:64-65 | no contract of its own: the length differs or some listed id is not in the roster; NoChangesIffSameIds turns it into set equality |
| ManageStudents.RosterEditor.AddByIdEnabled | LTI/src/components/ManageStudents.tsx:114 | no contract of its own: the trimmed input is non-empty and not yet listed, the `disabled` test negated; AddById adds only when it holds |
| Dashboard.SeedIdsIdentify | LTI/src/Dashboard.tsx:58 | two seed students with the same id are the same student |
| Dashboard.RosterSpec | LTI/src/Dashboard.tsx:58 | the saved roster follows seed order, holds exactly the seed students whose id is listed, and has no repeated student |
| Dashboard.RosterDependsOnIdSet | LTI/src/Dashboard.tsx:58 | the roster depends only on which ids are listed, not on their order or repetition |
| Dashboard.UpdatedGroup | LTI/src/Dashboard.tsx:57-68 | the updated group keeps id, name, grade and color; its roster is the filtered seed, its count the roster length, its average 0 or the rounded mean, at most 100 |
| Dashboard.UpdateGroups | LTI/src/Dashboard.tsx:55-71 | same length and order; only groups with the id change, and those become the updated group |
| Dashboard.UpdateGroupsIdempotent | LTI/src/Dashboard.tsx:55-71 | saving the same ids twice is saving them once |
| Dashboard.UpdateUnknownGroup | LTI/src/Dashboard.tsx:57-70 | an id no group has leaves the groups unchanged |
| Dashboard.SaveUnchangedSeedGroup | LTI/src/Dashboard.tsx:57-68 | saving a seed group's own roster gives back the same group |
| Dashboard.UpdateWithSameGroup | LTI/src/Dashboard.tsx:55-71 | when the id is unique and the update reproduces the group, the list is unchanged |
| Dashboard.SeedGroupIdsDistinct | LTI/src/types/students/student.ts:284-330 | the seed group ids are pairwise distinct |
| Dashboard.SeedRosterIds | LTI/src/Dashboard.tsx:58 | re-filtering the seed by the ids of any slice of it gives that slice back, because seed ids are distinct |
| Dashboard.NeedsSupport | LTI/src/Dashboard.tsx:192 | the "needs support" count is at most the number of students |
| Dashboard.NeedsSupportIsLowBand | LTI/src/Dashboard.tsx:192 | it counts exactly the students of the low progress band |
| Dashboard.GeneralAverage | LTI/src/Dashboard.tsx:178 | the general average is the rounded mean progress, at most 100 when every progress is |
| Dashboard.Home | LTI/src/Dashboard.tsx:133-196 | the home cards show the group count, the seed student count, and a support count no larger |
| Dashboard.SeedHome | LTI/src/Dashboard.tsx:133-196 | with the seed: 5 groups, 9 students, average 79 (710 / 9), 1 needing support |
| Dashboard.LookupGroup | LTI/src/Dashboard.tsx:26-36 | a group is found only for a non-empty id; it is the first listed group with that id, as `find` returns; found whenever one exists |
| Dashboard.LookupStudent | LTI/src/Dashboard.tsx:30-32 | a student is found only for a non-empty id, and is the seed student with it; found whenever one exists |
| Dashboard.SectionView | LTI/src/Dashboard.tsx:133-251 | "inicio" shows the home view, "grupos" the group dashboard, anything else the not-found view |
| Dashboard.MainView | LTI/src/Dashboard.tsx:99-130 | the managed group wins, then the selected student, then the selected group, then the section |
| Dashboard.DashboardNav.constructor | LTI/src/Dashboard.tsx:12-19 | the dashboard opens on the home view of the seed groups with nothing selected |
| Dashboard.DashboardNav.ViewGroup | LTI/src/Dashboard.tsx:38-42 | selects the group and clears the other two selections; a known group shows its student list |
| Dashboard.DashboardNav.ViewProfile | LTI/src/Dashboard.tsx:44-46 | selects the student, other fields kept; a seed student is shown unless a group is being managed |
| Dashboard.DashboardNav.ManageStudents | LTI/src/Dashboard.tsx:48-52 | selects the managed group and clears the other two; a known group shows its editor |
| Dashboard.DashboardNav.UpdateGroup | LTI/src/Dashboard.tsx:54-73 | the groups become `UpdateGroups` of the old groups; nothing else changes |
| Dashboard.DashboardNav.BackToGroups | LTI/src/Dashboard.tsx:75-80 | clears all three selections, sets the section to "grupos", and shows the group dashboard |
| Dashboard.DashboardNav.BackToGroup | LTI/src/Dashboard.tsx:82-84 | clears the selected student only |
| Dashboard.DashboardNav.BackFromManage | LTI/src/Dashboard.tsx:86-89 | clears the managed group and sets the section to "grupos" |
| Dashboard.DashboardNav.SetSection | LTI/src/Dashboard.tsx:133-258 | changes the section only; a selected group still takes priority over it |
| Dashboard.DashboardNav.SetContactDialog | LTI/src/Dashboard.tsx:95-97 | changes the dialog flag only |
| Dashboard.OpenAndSaveUnchanged | LTI/src/Dashboard.tsx:48-73 | opening the editor on a seed group and saving its roster unchanged leaves the groups as they were |
| Dashboard.Roster | LTI/src/Dashboard.tsx:58 | no contract of its own: the seed students whose id is listed; RosterSpec and RosterDependsOnIdSet state its properties |
| Dashboard.Struggling | LTI/src/Dashboard.tsx:192 | no contract of its own: progress below 60; NeedsSupportIsLowBand ties it to the low band |
| Dashboard.Selected | LTI/src/Dashboard.tsx:26-35 | no contract of its own: the selection is present and not the empty string, as the ternaries test truthiness |
| Dashboard.DashboardNav.View | LTI/src/Dashboard.tsx:99-135 | no contract of its own: `MainView` of the fields; each navigation method states its effect on it |
| Dashboard.SeedTotal | LTI/src/types/students/student.ts:41-282 | the seed progress values sum to 710 |
| Dashboard.SeedNeedsSupport | LTI/src/Dashboard.tsx:192 | exactly one seed student is below 60 |
| GroupDashboard.WeightedBound | LTI/src/components/GroupDashboard.tsx:14 | the weighted sum is at most 100 per student when every group average is at most 100 |
| GroupDashboard.NoStudentsNoWeight | LTI/src/components/GroupDashboard.tsx:14 | with no students the weighted sum is 0 |
| GroupDashboard.OverallAverage | LTI/src/components/GroupDashboard.tsx:12-15 | 0 without groups or students (the `|| 0`), otherwise the rounded weighted mean, at most 100 when every group average is |
| GroupDashboard.GroupsWithStudents | LTI/src/components/GroupDashboard.tsx:16 | an order-preserving subsequence, no longer than the input, holding exactly the groups with students |
| GroupDashboard.NoActiveGroupsIffNoStudents | LTI/src/components/GroupDashboard.tsx:101 | "no active groups" shows iff every group count is 0, iff the total is 0 |
| GroupDashboard.TotalZeroIffAllEmpty | LTI/src/components/GroupDashboard.tsx:12 | the total is 0 iff every group count is 0 |
| GroupDashboard.TotalCountsRosters | LTI/src/components/GroupDashboard.tsx:12 | when counts match rosters, the total is the number of rostered students |
| GroupDashboard.SeedOverview | LTI/src/components/GroupDashboard.tsx:12-16 | with the seed: 9 students, weighted sum 711, overall average 79, 3 active groups |
| GroupDashboard.TotalStudents | LTI/src/components/GroupDashboard.tsx:12 | no contract of its own: the sum of the group counts; TotalZeroIffAllEmpty and TotalCountsRosters state its properties |
| GroupDashboard.WeightedProgress | LTI/src/components/GroupDashboard.tsx:14 | no contract of its own: the sum of average times count; WeightedBound and NoStudentsNoWeight state its properties |
| GroupDashboard.ShowNoActiveGroups | LTI/src/components/GroupDashboard.tsx:101 | no contract of its own: no group has students; NoActiveGroupsIffNoStudents states when it holds |
| AuthApi.ParseRole | LTI/src/types/auth.ts:5 | the role a role string denotes spells that string; it is `OtherRole` iff the string is none of the three names |
| AuthApi.RoleNameRoundTrip | LTI/src/types/auth.ts:5 | parsing a role's name gives the role back, and every parsed role is canonical |
| AuthApi.RoleName | LTI/src/types/auth.ts:5 | no contract of its own: the role string; RoleNameRoundTrip and RoleNameInjective state its properties |
| AuthApi.RoleNameInjective | LTI/src/types/auth.ts:5 | two canonical roles are equal iff their strings are |
| AuthApi.KnownEmail | LTI/src/lib/auth-api.ts:241-243 | no contract of its own: some user has the email; UnknownEmail and SuccessIff state its use |
| AuthApi.PasswordMatches | LTI/src/lib/auth-api.ts:254-260 | no contract of its own: the email is in the password table with that password; WrongPasswordReported and SuccessIff state its use |
| AuthApi.SeedAccounts | LTI/src/lib/auth-api.ts:4-137 | the three seed users are the student, the teacher and the director, with ids student-1, teacher-1 and director-1 |
| AuthApi.SeedEmails | LTI/src/lib/auth-api.ts:4-137 | the seed table has three users, with the three login emails in order |
| AuthApi.SeedPasswords | LTI/src/lib/auth-api.ts:254-258 | each seed email accepts its own password, and the student email rejects the teacher's password |
| AuthApi.LoginStep | LTI/src/lib/auth-api.ts:238-278 | the user table keeps its length |
| AuthApi.UnknownEmail | LTI/src/lib/auth-api.ts:241-250 | an unknown email fails with "Usuario no encontrado", an empty token and the table unchanged |
| AuthApi.WrongPasswordReported | LTI/src/lib/auth-api.ts:241-267 | "Contraseña incorrecta" is reported iff the email is known and the password is not the table's |
| AuthApi.SuccessIff | LTI/src/lib/auth-api.ts:238-278 | login succeeds iff the email is known and the password matches |
| AuthApi.LoginEffect | LTI/src/lib/auth-api.ts:260-277 | a failure changes no record and returns an empty token; a success returns the first record with the email, its `lastLogin` set, with token `mock-jwt-token-<id>-<stamp>`, and changes only that record |
| AuthApi.SeedCredentials | LTI/src/lib/auth-api.ts:254-258 | the three seed credentials succeed as the student, the teacher and the director |
| AuthApi.SeedLookup | LTI/src/lib/auth-api.ts:4-137 | the three seed emails are found at positions 0, 1 and 2 |
| AuthApi.SeedWrongPassword | LTI/src/lib/auth-api.ts:254-267 | a seed email with another seed password fails as a wrong password |
| AuthApi.UserDirectory.constructor | LTI/src/lib/auth-api.ts:4-137 | the table starts as the seed users |
| AuthApi.UserDirectory.Login | LTI/src/lib/auth-api.ts:238-278 | the answer and the new table are those of `LoginStep` on the old table |
| AuthApi.UserDirectory.GetUserProfile | LTI/src/lib/auth-api.ts:291-294 | null iff no user has the id; otherwise a listed user with the id, and no earlier user has it |
| AuthApi.RoleSpecificData | LTI/src/lib/auth-api.ts:298-324 | one shape per role and the empty object for any other; missing role data falls back to 0 or [] |
| AuthApi.ExtraSplit | LTI/src/lib/auth-api.ts:302-303 | the regular and extra exercises split the list as multisets; an absent flag counts as regular |
| AuthApi.StudentExercisesPartition | LTI/src/lib/auth-api.ts:302-303 | for a student, `exercises` and `extraExercises` partition the service's exercises |
| AuthApi.SeedStudentExercises | LTI/src/lib/auth-api.ts:139-177 | for a student, ex-1 and ex-3 are regular and ex-2 is extra |
| AuthContext.ErrorMessage | LTI/src/context/AuthContext.tsx:58 | the response message when present and non-empty, else "Error en el login" |
| AuthContext.ConnectionFailure | LTI/src/context/AuthContext.tsx:62-70 | the answer for a thrown call: failure, empty token, no user, the connection message |
| AuthContext.SaveSession | LTI/src/context/AuthContext.tsx:55-56 | the store gains `auth-token` = token and `auth-user` = the serialised user; other keys kept |
| AuthContext.ClearSession | LTI/src/context/AuthContext.tsx:37-38 | both keys are removed and every other entry kept |
| AuthContext.AuthProvider.constructor | LTI/src/context/AuthContext.tsx:19-22 | the provider starts signed out, idle and without error |
| AuthContext.AuthProvider.RestoreSession | LTI/src/context/AuthContext.tsx:25-43 | with both keys present and non-empty, a parsed user is signed in and a parse failure removes both keys; otherwise nothing changes |
| AuthContext.AuthProvider.BeginLogin | LTI/src/context/AuthContext.tsx:45-47 | loading starts and the error is cleared |
| AuthContext.AuthProvider.CompleteLogin | LTI/src/context/AuthContext.tsx:49-73 | success signs in and saves the session; failure sets the message or the default; a throw sets the connection error and returns its failure; loading ends on every path |
| AuthContext.AuthProvider.Logout | LTI/src/context/AuthContext.tsx:76-81 | signs out, clears the error and removes both keys |
| AuthContext.AuthProvider.Login | LTI/src/context/AuthContext.tsx:45-74 | a whole login against the service signs in iff the email is known and the password matches; the store and error follow the answer; loading ends |
| AuthContext.LogoutThenRestore | LTI/src/context/AuthContext.tsx:25-81 | after logout a restore leaves the user signed out with neither key stored |
| AuthContext.SignInSurvivesReload | LTI/src/context/AuthContext.tsx:25-56 | after a successful login a fresh provider over the saved store restores the same user, when parsing inverts serialising |
| AuthContext.HasTruthy | LTI/src/context/AuthContext.tsx:28-31 | no contract of its own: the key is stored with a non-empty value, the truthiness test of `getItem`; RestoreSession uses it |
| RouteGuard.Guard | LTI/src/components/login/route-guard.tsx:12-46 | the login form iff no user; with a user the children iff no role list or the role is listed; otherwise the fallback when one is given, else the denial |
| RouteGuard.NoUserSeesLogin | LTI/src/components/login/route-guard.tsx:20-22 | without a user the login form shows, whatever the role list |
| RouteGuard.EmptyRoleListDeniesAll | LTI/src/components/login/route-guard.tsx:25 | an empty role list admits no user |
| RouteGuard.RolePredicatesAgree | LTI/src/components/login/route-guard.tsx:52-58 | `hasRole(r)` is `hasAnyRole([r])`, `hasAnyRole` is false without a user, and the guard admits exactly the users `hasAnyRole` accepts |
| RouteGuard.Capabilities | LTI/src/components/login/route-guard.tsx:60-74 | viewing student data equals managing students and belongs to teachers and directors; exercises to teachers; school metrics to directors |
| RouteGuard.NoCapabilities | LTI/src/components/login/route-guard.tsx:56-74 | a student, an unknown role and no user hold none of the four capabilities |
| RouteGuard.HasRole | LTI/src/components/login/route-guard.tsx:52-54 | no contract of its own: a user is signed in and holds the role; RolePredicatesAgree and RoleTestsCompareNames state its properties |
| RouteGuard.HasAnyRole | LTI/src/components/login/route-guard.tsx:56-58 | no contract of its own: false without a user, else whether the role is listed; RoleTestsCompareNames ties it to string membership |
| RouteGuard.CanViewStudentData | LTI/src/components/login/route-guard.tsx:60-62 | no contract of its own: `hasAnyRole` of teacher and director; Capabilities states who holds it |
| RouteGuard.CanManageExercises | LTI/src/components/login/route-guard.tsx:64-66 | no contract of its own: `hasRole` of teacher; Capabilities states who holds it |
| RouteGuard.CanViewSchoolMetrics | LTI/src/components/login/route-guard.tsx:68-70 | no contract of its own: `hasRole` of director; Capabilities states who holds it |
| RouteGuard.CanManageStudents | LTI/src/components/login/route-guard.tsx:72-74 | no contract of its own: `hasAnyRole` of teacher and director; Capabilities states it equals CanViewStudentData |
| RouteGuard.RoleTestsCompareNames | LTI/src/components/login/route-guard.tsx:52-58 | `hasRole` holds iff the role strings are equal, and `hasAnyRole` iff some listed role has the user's role string |
| Sidebar.Menu | LTI/src/components/UnifiedSidebar.tsx:33-50 | every menu is non-empty and starts with "inicio" |
| Sidebar.MenuIds | LTI/src/components/UnifiedSidebar.tsx:33-50 | the ids of a menu, item by item |
| Sidebar.MenuIdsTable | LTI/src/components/UnifiedSidebar.tsx:33-50 | the menu ids of each role, in order, without repetition |
| Sidebar.DisplayName | LTI/src/components/UnifiedSidebar.tsx:87 | a given non-empty name, else the role's default; never empty |
| Sidebar.FirstPiece | LTI/src/components/UnifiedSidebar.tsx:57 | the first piece of a split on spaces is the longest space-free prefix |
| Sidebar.StudentShortName | LTI/src/components/UnifiedSidebar.tsx:57-88 | a student's short name is the display name up to its first space |
| Sidebar.TeacherShortName | LTI/src/components/UnifiedSidebar.tsx:63-88 | a teacher's short name is the second word when it is non-empty |
| Sidebar.ShortNameHasNoSpace | LTI/src/components/UnifiedSidebar.tsx:57-63 | student and teacher short names contain no space |
| Sidebar.DirectorShortName | LTI/src/components/UnifiedSidebar.tsx:69 | a director's short name is the full display name |
| Sidebar.DefaultStudentShortName | LTI/src/components/UnifiedSidebar.tsx:56-57 | "Alumno Invitado" shortens to "Alumno" |
| Sidebar.DefaultTeacherShortName | LTI/src/components/UnifiedSidebar.tsx:62-63 | "Prof. Elena Martínez" shortens to "Elena" |
| Sidebar.AtMostOneActive | LTI/src/components/UnifiedSidebar.tsx:113-115 | at most one item of a menu is active |
| Sidebar.HomeIsActiveOnHome | LTI/src/components/UnifiedSidebar.tsx:35-44 | the home item is active on the "inicio" section for every role |
| Sidebar.Title | LTI/src/components/UnifiedSidebar.tsx:53-71 | no contract of its own: the `title` of each role's `roleConfig` entry |
| Sidebar.DefaultName | LTI/src/components/UnifiedSidebar.tsx:53-71 | no contract of its own: the `defaultName` of each role; DefaultStudentShortName and DefaultTeacherShortName state what they shorten to |
| Sidebar.ShortName | LTI/src/components/UnifiedSidebar.tsx:57-69 | no contract of its own: the `displayName` function of each role; StudentShortName, TeacherShortName, DirectorShortName and ShortNameHasNoSpace state its properties |
| Sidebar.IsActive | LTI/src/components/UnifiedSidebar.tsx:115 | no contract of its own: the section equals the item id; AtMostOneActive and HomeIsActiveOnHome state its properties |

## Left out

- Rendering: JSX, CSS classes, icons, colours, dialogs, and the theme toggle (`isDarkMode`, `document.body.className`). The style icon and colour switches of the recommendations panel are also left out.
- Avatars and the fields only the markup reads. The datatypes omit them:
  - the `mathSkills` and `achievements` lists of the user records;
  - the `departmentPerformance`, `monthlyProgress` and `topPerformingClasses` lists of `mockSchoolMetrics`;
  - the `score`, `attempts`, `createdBy` and `dueDate` fields of the service's exercises.
- The simulated network delay, promises and React's batching of state updates. Each handler is one sequential step. Double submission is concurrency and is not modelled.
- Time: `new Date().toISOString()` and `Date.now()` are the `now` and `stamp` parameters of login. Locale date formatting and the achievement timeline's sort by date are not modelled.
- `JSON.stringify` and `JSON.parse`: these are the `serialize` and `parse` parameters. `parse` returning `None` stands for a throw. A stored `"null"`, which parses to null without throwing, is not distinguished.
- `localeCompare` is approximated by code-point order. That order is a total order, which the lemmas use; locale collation is not modelled.
- `toLowerCase` covers ASCII and Latin-1 capitals only. `trim` covers the characters ECMAScript classes as WhiteSpace or LineTerminator: tab, vertical tab, form feed, the Unicode space separators, the byte-order mark, and the four line terminators.
- Floating point: every `Math.round(x / y)` is the exact rational rounding of non-negative integers. The exercise percentage `Math.round((completed / total) * 100)` is modelled as `round(100·completed / total)`. Floating-point error in the product is not modelled.
- `StudentDashboard.SortStudents` is an insertion sort on a sequence. It shares the source's ordering and permutation properties, but not the in-place update of the array, and does not claim the stability of `Array.prototype.sort`.
- `authAPI.getExercises` and `authAPI.getSchoolMetrics` only return constants after a delay. Their constants are modelled (`AuthApi.MockExercises`, `AuthApi.MockSchoolMetrics`), the calls are not.
- `AuthApi.MockExercises`: the service's exercises record completion as `isCompleted`, which `getRoleSpecificData` never reads. Their `completed` field is therefore `None`.
- The exercises view reads a `mockExercises` module that is not part of this model. Its functions take the exercise list as a parameter.
- `AuthApi.LoginStep`: a failed answer carries `user: {}` in the source. The model carries `None`, since a failed answer's user is never read.
- `Recommendations.GenerateRecommendations` returns sentence values rather than strings. `Recommendations.Words` maps each one to its exact Spanish text, and `GenerateRecommendations` relates its output to the plan through a ghost out-parameter of its helpers.
- The dashboard passes `userName={Users.name}` to the sidebar: the `name` property of the `Users` icon component, not a user's name. `Sidebar.DisplayName` takes the name as a parameter, so what that expression evaluates to is not modelled.
- The sidebar's logout button, theme switch and contact button only call the callbacks they are given. The logout itself is `AuthContext.AuthProvider.Logout`.
- `ManageStudents.RosterEditor.Save` does not model the `onBack` call. That call is `Dashboard.DashboardNav.BackFromManage`.
- The mock classes of `LTI/src/mocks/Classes/mockClasses.ts` are not part of this model.
