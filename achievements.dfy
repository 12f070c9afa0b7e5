/**
 * The rune system of the student achievements view: four runes with an
 * achievement threshold each, the per-rune unlock state and progress derived
 * from the student's number of achievements, and the summary statistics.
 */
module Runes {
  import opened Students
  import Arith
  import Seqs

  /** One entry of `runeSystem` (its icon is presentation and is not modelled). */
  datatype Rune = Rune(
    id: string,
    name: string,
    meaning: string,
    role: string,
    condition: string,
    requiredAchievements: nat,
    color: string,
    gradient: string)

  const RuneSystem: seq<Rune> := [
    Rune("uruz", "Uruz", "Fuerza y Determinación",
      "Representa la perseverancia ante los desafíos matemáticos",
      "Completar 10 ejercicios consecutivos", 10, "emerald", "from-emerald-500 to-emerald-600"),
    Rune("tiwaz", "Tiwaz", "Victoria y Justicia",
      "Simboliza el dominio de conceptos complejos",
      "Alcanzar 90% de precisión en 5 ejercicios", 5, "blue", "from-blue-500 to-blue-600"),
    Rune("anzus", "Anzus", "Comunicación y Sabiduría",
      "Reconoce la capacidad de explicar conceptos matemáticos",
      "Ayudar a 3 compañeros con ejercicios", 3, "purple", "from-purple-500 to-purple-600"),
    Rune("sowilo", "Sowilo", "Éxito y Energía Solar",
      "Corona del aprendizaje matemático completo",
      "Completar todos los módulos del curso", 20, "amber", "from-amber-500 to-amber-600")
  ]

  /** The thresholds of the four runes, in table order. */
  lemma Thresholds()
    ensures |RuneSystem| == 4
    ensures RuneSystem[0].requiredAchievements == 10 && RuneSystem[1].requiredAchievements == 5
    ensures RuneSystem[2].requiredAchievements == 3 && RuneSystem[3].requiredAchievements == 20
    ensures forall i :: 0 <= i < |RuneSystem| ==> 0 < RuneSystem[i].requiredAchievements < 200
  {
  }

  /** A rune together with its derived `isUnlocked` and `progress`. */
  datatype RuneStatus = RuneStatus(rune: Rune, isUnlocked: bool, progress: nat)

  /**
   * `Math.round(Math.min(count / required * 100, 100))`: full once the
   * threshold is reached, otherwise the rounded percentage.
   */
  function Progress(count: nat, required: nat): (r: nat)
    requires required > 0
    ensures r <= 100
    ensures count >= required ==> r == 100
  {
    if count >= required then 100
    else
      Arith.RoundDivBounded(100 * count, required, 100);
      Arith.RoundDiv(100 * count, required)
  }

  /** The same value read directly off the formula: round the capped ratio. */
  lemma ProgressIsCappedRatio(count: nat, required: nat)
    requires required > 0
    ensures Progress(count, required) == Arith.RoundDiv(Arith.Min(100 * count, 100 * required), required)
  {
    if count >= required {
      assert Arith.Min(100 * count, 100 * required) == 100 * required;
      Arith.RoundDivExact(100, required);
    }
  }

  /** The status of one rune for a given number of achievements. */
  function Status(rune: Rune, count: nat): (r: RuneStatus)
    requires rune.requiredAchievements > 0
    ensures r.rune == rune
    ensures r.isUnlocked <==> count >= rune.requiredAchievements
    ensures r.progress <= 100
  {
    RuneStatus(rune, count >= rune.requiredAchievements, Progress(count, rune.requiredAchievements))
  }

  /** `runeProgress`: one status per rune, in table order. */
  function RuneProgress(student: Student): (r: seq<RuneStatus>)
    ensures |r| == |RuneSystem|
    ensures forall i :: 0 <= i < |r| ==>
              && r[i].rune == RuneSystem[i]
              && (r[i].isUnlocked <==> |student.achievements| >= RuneSystem[i].requiredAchievements)
              && r[i].progress == Progress(|student.achievements|, RuneSystem[i].requiredAchievements)
              && r[i].progress <= 100
  {
    var count := |student.achievements|;
    seq(|RuneSystem|, i requires 0 <= i < |RuneSystem| => Status(RuneSystem[i], count))
  }

  /**
   * An unlocked rune shows 100%; conversely a rune showing 100% is unlocked
   * when its threshold is below 200, which holds for every rune of the table.
   */
  lemma FullIffUnlocked(count: nat, required: nat)
    requires 0 < required < 200
    ensures Progress(count, required) == 100 <==> count >= required
  {
    if count < required {
      var r := Arith.RoundDiv(100 * count, required);
      assert 2 * required * r <= 200 * count + required;
    }
  }

  /** More achievements never lower a rune's progress or lock it again. */
  lemma ProgressMonotone(c1: nat, c2: nat, required: nat)
    requires required > 0
    requires c1 <= c2
    ensures Progress(c1, required) <= Progress(c2, required)
    ensures c1 >= required ==> c2 >= required
  {
    if c2 < required {
      Arith.RoundDivMonotone(100 * c1, 100 * c2, required);
    }
  }

  /** Uruz (threshold 10): ten achievements unlock it, five show half the way. */
  lemma UruzExamples()
    ensures Status(RuneSystem[0], 10) == RuneStatus(RuneSystem[0], true, 100)
    ensures Status(RuneSystem[0], 5) == RuneStatus(RuneSystem[0], false, 50)
  {
    Arith.RoundDivExact(50, 10);
  }

  /** The summary shown above the runes. */
  datatype Stats = Stats(totalAchievements: nat, unlockedRunes: nat, totalRunes: nat, overallProgress: nat)

  function IsUnlocked(): RuneStatus -> bool { (r: RuneStatus) => r.isUnlocked }

  /** `stats`: achievements, unlocked runes out of four, and progress against twenty achievements. */
  function AchievementStats(student: Student): (r: Stats)
    ensures r.totalAchievements == |student.achievements|
    ensures r.unlockedRunes <= r.totalRunes == 4
    ensures r.overallProgress == Arith.Min(Arith.RoundDiv(100 * |student.achievements|, 20), 100)
    ensures r.overallProgress <= 100
  {
    var count := |student.achievements|;
    var unlocked := |Seqs.Filter(RuneProgress(student), IsUnlocked())|;
    Stats(count, unlocked, |RuneSystem|, Arith.Min(Arith.RoundDiv(100 * count, 20), 100))
  }

  /** The number of unlocked runes is the number of thresholds already reached. */
  lemma UnlockedCount(student: Student)
    ensures AchievementStats(student).unlockedRunes
         == |Seqs.Filter(RequiredCounts(), Reached(|student.achievements|))|
  {
    var rp := RuneProgress(student);
    var count := |student.achievements|;
    Thresholds();
    assert forall i :: 0 <= i < 4 ==> IsUnlocked()(rp[i]) == Reached(count)(RequiredCounts()[i]);
    FilterFour(rp, IsUnlocked());
    FilterFour(RequiredCounts(), Reached(count));
  }

  /** The thresholds of `RuneSystem`, in table order. */
  function RequiredCounts(): (ts: seq<nat>)
    ensures |ts| == |RuneSystem|
    ensures forall i :: 0 <= i < |ts| ==> ts[i] == RuneSystem[i].requiredAchievements
  {
    seq(|RuneSystem|, i requires 0 <= i < |RuneSystem| => RuneSystem[i].requiredAchievements)
  }

  function Reached(count: nat): nat -> bool { (t: nat) => t <= count }

  lemma FilterFour<T>(s: seq<T>, p: T -> bool)
    requires |s| == 4
    ensures |Seqs.Filter(s, p)|
         == (if p(s[0]) then 1 else 0) + (if p(s[1]) then 1 else 0)
          + (if p(s[2]) then 1 else 0) + (if p(s[3]) then 1 else 0)
  {
    FilterStep(s, p);
    assert s[1..][1..] == s[2..];
    FilterStep(s[1..], p);
    assert s[2..][1..] == s[3..];
    FilterStep(s[2..], p);
    assert s[3..][1..] == [];
    FilterStep(s[3..], p);
  }

  lemma FilterStep<T>(s: seq<T>, p: T -> bool)
    requires s != []
    ensures |Seqs.Filter(s, p)| == (if p(s[0]) then 1 else 0) + |Seqs.Filter(s[1..], p)|
  {
  }

  /** No achievements unlock nothing; twenty or more unlock all four runes and reach 100%. */
  lemma StatsExtremes(student: Student)
    ensures |student.achievements| == 0 ==>
              AchievementStats(student).unlockedRunes == 0 && AchievementStats(student).overallProgress == 0
    ensures |student.achievements| >= 20 ==>
              AchievementStats(student).unlockedRunes == 4 && AchievementStats(student).overallProgress == 100
  {
    UnlockedCount(student);
    FilterFour(RequiredCounts(), Reached(|student.achievements|));
    if |student.achievements| >= 20 {
      Arith.RoundDivMonotone(100 * 20, 100 * |student.achievements|, 20);
      Arith.RoundDivExact(100, 20);
    }
  }
}
