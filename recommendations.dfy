/**
 * The pedagogical recommendation generator of the student profile.
 *
 * `GenerateRecommendations` follows the component's code: it grows a list
 * through a chain of `if`s on the learning style and the weak areas, a loop
 * over the intermediate areas and a motivational tip, and keeps the first
 * five. `Plan` is an independent description of the same list as a sequence
 * of tip kinds; the lemmas state the priority order and the effect of the cap
 * on `Plan`, and the method's postcondition connects the two.
 */
module Recommendations {
  import opened Students
  import Seqs

  /** The cap applied by `slice(0, 5)`. */
  const MaxTips := 5

  // ----- skill bands -----

  predicate IsWeak(v: nat) { v < 60 }

  predicate IsIntermediate(v: nat) { 60 <= v < 80 }

  /** The keys of a list of entries, in order. */
  function Keys(es: seq<(SkillArea, nat)>): (r: seq<SkillArea>)
    ensures |r| == |es|
    ensures forall i :: 0 <= i < |r| ==> r[i] == es[i].0
  {
    seq(|es|, i requires 0 <= i < |es| => es[i].0)
  }

  function WeakEntry(): ((SkillArea, nat)) -> bool { (e: (SkillArea, nat)) => IsWeak(e.1) }

  function IntermediateEntry(): ((SkillArea, nat)) -> bool { (e: (SkillArea, nat)) => IsIntermediate(e.1) }

  /** `Object.entries(mathSkills).filter(v < 60).map(key)`. */
  function WeakAreas(m: MathSkills): (r: seq<SkillArea>)
    ensures forall a :: a in r <==> IsWeak(m.Score(a))
    ensures Seqs.IsSubseq(r, SkillOrder)
  {
    var r := Keys(Seqs.Filter(m.Entries(), WeakEntry()));
    assert forall a :: a in r <==> IsWeak(m.Score(a)) by {
      forall a ensures a in r <==> IsWeak(m.Score(a)) {
        EntryMember(m, WeakEntry(), a);
      }
    }
    assert Seqs.IsSubseq(r, SkillOrder) by { KeysOfFilterIsSubseq(m, WeakEntry()); }
    r
  }

  /** `Object.entries(mathSkills).filter(60 <= v < 80).map(key)`. */
  function IntermediateAreas(m: MathSkills): (r: seq<SkillArea>)
    ensures forall a :: a in r <==> IsIntermediate(m.Score(a))
    ensures Seqs.IsSubseq(r, SkillOrder)
  {
    var r := Keys(Seqs.Filter(m.Entries(), IntermediateEntry()));
    assert forall a :: a in r <==> IsIntermediate(m.Score(a)) by {
      forall a ensures a in r <==> IsIntermediate(m.Score(a)) {
        EntryMember(m, IntermediateEntry(), a);
      }
    }
    assert Seqs.IsSubseq(r, SkillOrder) by { KeysOfFilterIsSubseq(m, IntermediateEntry()); }
    r
  }

  lemma EntryMember(m: MathSkills, p: ((SkillArea, nat)) -> bool, a: SkillArea)
    ensures a in Keys(Seqs.Filter(m.Entries(), p)) <==> p((a, m.Score(a)))
  {
    var es := m.Entries();
    var f := Seqs.Filter(es, p);
    var x := (a, m.Score(a));
    Seqs.FilterMember(es, p, x);
    if p(x) {
      var k :| 0 <= k < |f| && f[k] == x;
      assert Keys(f)[k] == a;
    }
    if a in Keys(f) {
      var i :| 0 <= i < |f| && Keys(f)[i] == a;
      Seqs.FilterMember(es, p, f[i]);
      assert f[i] == x;
    }
  }

  lemma {:induction false} KeysOfSubseq(a: seq<(SkillArea, nat)>, b: seq<(SkillArea, nat)>)
    requires Seqs.IsSubseq(a, b)
    ensures Seqs.IsSubseq(Keys(a), Keys(b))
    decreases |b|
  {
    if a != [] {
      assert Keys(a)[1..] == Keys(a[1..]);
      assert Keys(b)[1..] == Keys(b[1..]);
      if a[0] == b[0] {
        KeysOfSubseq(a[1..], b[1..]);
      } else {
        KeysOfSubseq(a, b[1..]);
        Seqs.SubseqDropHead(Keys(a), Keys(b));
      }
    }
  }

  lemma KeysOfFilterIsSubseq(m: MathSkills, p: ((SkillArea, nat)) -> bool)
    ensures Seqs.IsSubseq(Keys(Seqs.Filter(m.Entries(), p)), SkillOrder)
  {
    Seqs.FilterIsSubseq(m.Entries(), p);
    KeysOfSubseq(Seqs.Filter(m.Entries(), p), m.Entries());
    assert Keys(m.Entries()) == SkillOrder;
  }

  /** The bands are disjoint, and a score of 80 or more falls in neither. */
  lemma BandsDisjoint(m: MathSkills, a: SkillArea)
    ensures !(a in WeakAreas(m) && a in IntermediateAreas(m))
    ensures m.Score(a) >= 80 ==> a !in WeakAreas(m) && a !in IntermediateAreas(m)
  {
  }

  // ----- the reference description: a plan of tip kinds -----

  /** What each entry of the list is, independently of its wording. */
  datatype Tip =
    | WeakAreaTip(area: SkillArea)   // a style-specific tip for one weak area
    | StyleTip(index: nat)           // the style's generic tips, in order
    | IntermediateTip(area: SkillArea)
    | MotivationTip

  predicate IsStyleTip(t: Tip) { t.WeakAreaTip? || t.StyleTip? }

  /** The order in which each style checks the weak areas (the order of its `if`s). */
  function WeakAreaOrder(style: string): (r: seq<SkillArea>)
    ensures Calculus !in r
    ensures Statistics in r ==> style == Visual
    ensures |r| + GenericTipCount(style) <= MaxTips
  {
    if style == Visual then [Geometry, Algebra, Statistics, Arithmetic]
    else if style == Auditivo then [Arithmetic, Algebra, Geometry]
    else if style == Kinestesico then [Geometry, Arithmetic, Algebra]
    else []
  }

  /** How many generic tips each style pushes after its weak-area tips. */
  function GenericTipCount(style: string): nat {
    if style == Visual then 1
    else if style == Auditivo || style == Kinestesico then 2
    else 0
  }

  /** The tip for one area when it is weak: `weakAreas.includes(area)`. */
  function WeakTipIfWeak(a: SkillArea, weak: seq<SkillArea>): seq<Tip> {
    if a in weak then [WeakAreaTip(a)] else []
  }

  /** The weak-area tips of a style: its order, restricted to the weak areas. */
  function WeakAreaTips(order: seq<SkillArea>, weak: seq<SkillArea>): (r: seq<Tip>)
    ensures |r| <= |order|
  {
    if order == [] then []
    else WeakTipIfWeak(order[0], weak) + WeakAreaTips(order[1..], weak)
  }

  /** Each weak-area tip is for an area the style checks and that is weak. */
  lemma {:induction false} WeakAreaTipsMembers(order: seq<SkillArea>, weak: seq<SkillArea>)
    ensures forall t :: t in WeakAreaTips(order, weak) ==> t.WeakAreaTip? && t.area in order && t.area in weak
  {
    if order != [] {
      WeakAreaTipsMembers(order[1..], weak);
      assert forall x :: x in order[1..] ==> x in order;
    }
  }

  /** The weak-area tips of two orders in sequence are those of each, in sequence. */
  lemma {:induction false} WeakAreaTipsAppend(o1: seq<SkillArea>, o2: seq<SkillArea>, weak: seq<SkillArea>)
    ensures WeakAreaTips(o1 + o2, weak) == WeakAreaTips(o1, weak) + WeakAreaTips(o2, weak)
    decreases |o1|
  {
    if o1 == [] {
      assert o1 + o2 == o2;
    } else {
      var h, t1, t2 := WeakTipIfWeak(o1[0], weak), WeakAreaTips(o1[1..], weak), WeakAreaTips(o2, weak);
      WeakAreaTipsAppend(o1[1..], o2, weak);
      Seqs.AppendTail(o1, o2);
      Seqs.AppendAssoc(h, t1, t2);
    }
  }

  lemma WeakAreaTips1(a: SkillArea, weak: seq<SkillArea>)
    ensures WeakAreaTips([a], weak) == WeakTipIfWeak(a, weak)
  {
    assert [a][1..] == [];
  }

  lemma WeakAreaTips3(a: SkillArea, b: SkillArea, c: SkillArea, weak: seq<SkillArea>)
    ensures WeakAreaTips([a, b, c], weak)
         == WeakTipIfWeak(a, weak) + WeakTipIfWeak(b, weak) + WeakTipIfWeak(c, weak)
  {
    assert [a, b, c] == [a, b] + [c] && [a, b] == [a] + [b];
    WeakAreaTipsAppend([a, b], [c], weak);
    WeakAreaTipsAppend([a], [b], weak);
    WeakAreaTips1(a, weak);
    WeakAreaTips1(b, weak);
    WeakAreaTips1(c, weak);
  }

  lemma WeakAreaTips4(a: SkillArea, b: SkillArea, c: SkillArea, d: SkillArea, weak: seq<SkillArea>)
    ensures WeakAreaTips([a, b, c, d], weak)
         == WeakTipIfWeak(a, weak) + WeakTipIfWeak(b, weak) + WeakTipIfWeak(c, weak) + WeakTipIfWeak(d, weak)
  {
    assert [a, b, c, d] == [a, b, c] + [d];
    WeakAreaTipsAppend([a, b, c], [d], weak);
    WeakAreaTips3(a, b, c, weak);
    WeakAreaTips1(d, weak);
  }

  function StyleTips(count: nat): (r: seq<Tip>)
    ensures |r| == count
    ensures forall i :: 0 <= i < count ==> r[i] == StyleTip(i)
  {
    seq(count, i requires 0 <= i < count => StyleTip(i))
  }

  function IntermediateTips(areas: seq<SkillArea>): (r: seq<Tip>)
    ensures |r| == |areas|
    ensures forall i :: 0 <= i < |r| ==> r[i] == IntermediateTip(areas[i])
  {
    seq(|areas|, i requires 0 <= i < |areas| => IntermediateTip(areas[i]))
  }

  lemma IntermediateTipsSnoc(areas: seq<SkillArea>, i: nat)
    requires i < |areas|
    ensures IntermediateTips(areas[..i + 1]) == IntermediateTips(areas[..i]) + [IntermediateTip(areas[i])]
  {
  }

  /** The style-dependent part: weak-area tips, then the generic style tips. */
  function StylePart(s: Student): seq<Tip> {
    WeakAreaTips(WeakAreaOrder(s.learningStyle), WeakAreas(s.mathSkills))
      + StyleTips(GenericTipCount(s.learningStyle))
  }

  /** Every tip the generator pushes, in push order, before the cap. */
  function Plan(s: Student): seq<Tip> {
    StylePart(s)
      + IntermediateTips(IntermediateAreas(s.mathSkills))
      + (if s.progressPercentage < 70 then [MotivationTip] else [])
  }

  /** `s[..min(n, |s|)]`, the effect of `slice(0, n)`. */
  function Take<T>(s: seq<T>, n: nat): (r: seq<T>)
    ensures |r| <= n && |r| <= |s| && r == s[..|r|]
    ensures |s| <= n ==> r == s
  {
    if |s| <= n then s else s[..n]
  }

  // ----- wording -----

  /** The Spanish name used in an intermediate tip (`areaNames`). */
  function AreaName(a: SkillArea): string {
    match a
    case Algebra => "álgebra"
    case Geometry => "geometría"
    case Arithmetic => "aritmética"
    case Statistics => "estadística"
    case Calculus => "cálculo"
  }

  /** The sentences the generator can push, one constructor per `recommendations.push`. */
  datatype Sentence =
    | VisualGeometry | VisualAlgebra | VisualStatistics | VisualArithmetic | VisualGeneric
    | AuditivoArithmetic | AuditivoAlgebra | AuditivoGeometry | AuditivoGeneric1 | AuditivoGeneric2
    | KinestesicoGeometry | KinestesicoArithmetic | KinestesicoAlgebra | KinestesicoGeneric1 | KinestesicoGeneric2
    | Reinforce(area: SkillArea)
    | Motivation

  /** The exact wording of each sentence. */
  function Wording(s: Sentence): string {
    match s
    case VisualGeometry => "Utiliza diagramas interactivos, figuras geométricas 3D y software de geometría dinámica para reforzar conceptos espaciales."
    case VisualAlgebra => "Emplea gráficos de funciones con colores diferenciados y representaciones visuales de ecuaciones para mejorar la comprensión algebraica."
    case VisualStatistics => "Crea infografías, histogramas coloridos y gráfincomparativas para explicar conceptos estadísticos de manera visual."
    case VisualArithmetic => "Usa ábacos visuales, bloques de colores y representaciones gráficas de operaciones para reforzar la aritmética básica."
    case VisualGeneric => "Incorpora mapas mentales, esquemas estructurados y organizadores gráficos en todas las explicaciones matemáticas."
    case AuditivoArithmetic => "Practica las operaciones básicas con canciones numéricas, rimas matemáticas y repetición oral estructurada."
    case AuditivoAlgebra => "Explica paso a paso los procesos algebraicos en voz alta y fomenta que el estudiante verbalice su razonamiento matemático."
    case AuditivoGeometry => "Describe las propiedades geométricas mediante narraciones detalladas y permite que el estudiante explique las figuras oralmente."
    case AuditivoGeneric1 => "Utiliza podcasts educativos, explicaciones grabadas y discusiones grupales para reforzar conceptos matemáticos."
    case AuditivoGeneric2 => "Incorpora música o ritmos mnemotécnicos para memorizar fórmulas y secuencias matemáticas importantes."
    case KinestesicoGeometry => "Usa bloques de construcción, figuras manipulables 3D y actividades de medición real para enseñar geometría práctica."
    case KinestesicoArithmetic => "Implementa juegos físicos con dados, fichas y actividades de conteo que involucren movimiento corporal."
    case KinestesicoAlgebra => "Crea actividades con balanzas físicas para representar ecuaciones y permite manipular objetos para resolver problemas algebraicos."
    case KinestesicoGeneric1 => "Diseña experimentos matemáticos donde el estudiante pueda tocar, construir y experimentar con conceptos abstractos."
    case KinestesicoGeneric2 => "Incluye descansos activos cada 20 minutos y permite movimiento durante las explicaciones teóricas."
    case Reinforce(a) =>
      "Refuerza " + AreaName(a) + " con ejercicios graduales, práctica constante y retroalimentación inmediata."
    case Motivation => "Establece metas pequeñas y alcanzables, celebra cada logro y mantén un ambiente de aprendizaje positivo y motivador."
  }

  /** The wording of a list of sentences. */
  function Words(ss: seq<Sentence>): (r: seq<string>)
    ensures |r| == |ss|
    ensures forall i :: 0 <= i < |ss| ==> r[i] == Wording(ss[i])
  {
    seq(|ss|, i requires 0 <= i < |ss| => Wording(ss[i]))
  }

  /** Whether a tip kind has a wording for a given style. */
  predicate Worded(style: string, t: Tip) {
    match t
    case WeakAreaTip(a) => a in WeakAreaOrder(style)
    case StyleTip(k) => k < GenericTipCount(style)
    case _ => true
  }

  /** The sentence pushed for a tip. */
  function Text(style: string, t: Tip): Sentence
    requires Worded(style, t)
  {
    match t
    case WeakAreaTip(a) =>
      if style == Visual then
        (match a
         case Geometry => VisualGeometry
         case Algebra => VisualAlgebra
         case Statistics => VisualStatistics
         case _ => VisualArithmetic)
      else if style == Auditivo then
        (match a
         case Arithmetic => AuditivoArithmetic
         case Algebra => AuditivoAlgebra
         case _ => AuditivoGeometry)
      else
        (match a
         case Geometry => KinestesicoGeometry
         case Arithmetic => KinestesicoArithmetic
         case _ => KinestesicoAlgebra)
    case StyleTip(k) =>
      if style == Visual then VisualGeneric
      else if style == Auditivo then (if k == 0 then AuditivoGeneric1 else AuditivoGeneric2)
      else (if k == 0 then KinestesicoGeneric1 else KinestesicoGeneric2)
    case IntermediateTip(a) => Reinforce(a)
    case MotivationTip => Motivation
  }

  predicate AllWorded(style: string, ts: seq<Tip>) {
    forall i :: 0 <= i < |ts| ==> Worded(style, ts[i])
  }

  /** The list of sentences for a list of tips. */
  function Render(style: string, ts: seq<Tip>): (r: seq<Sentence>)
    requires AllWorded(style, ts)
    ensures |r| == |ts|
    ensures forall i :: 0 <= i < |ts| ==> r[i] == Text(style, ts[i])
  {
    seq(|ts|, i requires 0 <= i < |ts| => Text(style, ts[i]))
  }

  lemma PlanWorded(s: Student)
    ensures AllWorded(s.learningStyle, StylePart(s))
    ensures AllWorded(s.learningStyle, Plan(s))
  {
    WeakAreaTipsMembers(WeakAreaOrder(s.learningStyle), WeakAreas(s.mathSkills));
    var p := Plan(s);
    forall i | 0 <= i < |p| ensures Worded(s.learningStyle, p[i]) {
      assert p[i] in p;
    }
  }

  // ----- properties of the plan -----

  /** A weak-area tip is issued exactly for the weak areas the style's `if`s mention. */
  lemma {:induction false} WeakAreaTipsMember(order: seq<SkillArea>, weak: seq<SkillArea>, a: SkillArea)
    ensures WeakAreaTip(a) in WeakAreaTips(order, weak) <==> a in order && a in weak
  {
    if order != [] {
      WeakAreaTipsMember(order[1..], weak, a);
      assert order == [order[0]] + order[1..];
    }
  }

  /** Style tips are weak-area tips and generic tips only. */
  lemma StylePartKinds(s: Student)
    ensures forall t :: t in StylePart(s) ==> IsStyleTip(t)
  {
    WeakAreaTipsMembers(WeakAreaOrder(s.learningStyle), WeakAreas(s.mathSkills));
  }

  /** Which weak-area tips the plan holds: those of weak areas the style covers. */
  lemma WeakTipInPlan(s: Student, a: SkillArea)
    ensures WeakAreaTip(a) in Plan(s) <==> a in WeakAreaOrder(s.learningStyle) && IsWeak(s.mathSkills.Score(a))
  {
    WeakAreaTipsMember(WeakAreaOrder(s.learningStyle), WeakAreas(s.mathSkills), a);
  }

  /**
   * A weak calculus score never yields a style tip; a weak statistics score
   * yields one exactly when the style is Visual.
   */
  lemma CalculusAndStatistics(s: Student)
    ensures WeakAreaTip(Calculus) !in Plan(s)
    ensures WeakAreaTip(Statistics) in Plan(s) <==> s.learningStyle == Visual && IsWeak(s.mathSkills.statistics)
  {
    WeakTipInPlan(s, Calculus);
    WeakTipInPlan(s, Statistics);
  }

  /**
   * The style-specific part is never cut: it has at most five entries and is a
   * prefix of the capped list, so every generic tip of the style survives.
   */
  lemma StylePartSurvives(s: Student)
    ensures |StylePart(s)| <= MaxTips
    ensures Take(Plan(s), MaxTips)[..|StylePart(s)|] == StylePart(s)
    ensures forall k :: 0 <= k < GenericTipCount(s.learningStyle) ==> StyleTip(k) in Take(Plan(s), MaxTips)
  {
    var sp := StylePart(s);
    var out := Take(Plan(s), MaxTips);
    var wt := WeakAreaTips(WeakAreaOrder(s.learningStyle), WeakAreas(s.mathSkills));
    assert |sp| <= MaxTips;
    assert Plan(s)[..|sp|] == sp;
    assert out[..|sp|] == sp;
    forall k | 0 <= k < GenericTipCount(s.learningStyle)
      ensures StyleTip(k) in out
    {
      assert sp[|wt| + k] == StyleTip(k);
      assert out[|wt| + k] == StyleTip(k);
    }
  }

  /** The position class of a tip: style tips, then intermediate tips, then motivation. */
  function Rank(t: Tip): nat {
    match t
    case WeakAreaTip(_) => 0
    case StyleTip(_) => 0
    case IntermediateTip(_) => 1
    case MotivationTip => 2
  }

  /**
   * Style tips come first, then the intermediate tips, then the motivational
   * tip; the intermediate tips follow the declaration order of the skills.
   */
  lemma PlanOrdered(s: Student)
    ensures forall i, j :: 0 <= i < j < |Plan(s)| ==> Rank(Plan(s)[i]) <= Rank(Plan(s)[j])
    ensures Seqs.IsSubseq(IntermediateAreas(s.mathSkills), SkillOrder)
  {
    StylePartKinds(s);
    var sp := StylePart(s);
    var it := IntermediateTips(IntermediateAreas(s.mathSkills));
    var tail := if s.progressPercentage < 70 then [MotivationTip] else [];
    forall i | 0 <= i < |sp| ensures Rank(sp[i]) == 0 {
      assert sp[i] in sp;
    }
    RanksAscend(sp, it, tail);
  }

  /** Three blocks of rank 0, 1 and 2, concatenated, have ascending ranks. */
  lemma RanksAscend(a: seq<Tip>, b: seq<Tip>, c: seq<Tip>)
    requires forall i :: 0 <= i < |a| ==> Rank(a[i]) == 0
    requires forall i :: 0 <= i < |b| ==> Rank(b[i]) == 1
    requires forall i :: 0 <= i < |c| ==> Rank(c[i]) == 2
    ensures forall i, j :: 0 <= i < j < |a + b + c| ==> Rank((a + b + c)[i]) <= Rank((a + b + c)[j])
  {
    var p := a + b + c;
    forall i | 0 <= i < |p|
      ensures Rank(p[i]) == (if i < |a| then 0 else if i < |a| + |b| then 1 else 2)
    {
      if i < |a| {
        assert p[i] == a[i];
      } else if i < |a| + |b| {
        assert p[i] == b[i - |a|];
      } else {
        assert p[i] == c[i - |a| - |b|];
      }
    }
  }

  /** One intermediate tip per intermediate skill. */
  lemma IntermediateTipInPlan(s: Student, a: SkillArea)
    ensures IntermediateTip(a) in Plan(s) <==> IsIntermediate(s.mathSkills.Score(a))
  {
    StylePartKinds(s);
    var sp := StylePart(s);
    var areas := IntermediateAreas(s.mathSkills);
    var it := IntermediateTips(areas);
    assert !IsStyleTip(IntermediateTip(a));
    if a in areas {
      var k :| 0 <= k < |areas| && areas[k] == a;
      assert it[k] == IntermediateTip(a);
    }
    if IntermediateTip(a) in it {
      var k :| 0 <= k < |it| && it[k] == IntermediateTip(a);
      assert areas[k] == a;
    }
  }

  /** The motivational tip is present, and then last, exactly when progress is below 70. */
  lemma MotivationLast(s: Student)
    ensures MotivationTip in Plan(s) <==> s.progressPercentage < 70
    ensures s.progressPercentage < 70 ==> Plan(s)[|Plan(s)| - 1] == MotivationTip
  {
    StylePartKinds(s);
    var sp := StylePart(s);
    var it := IntermediateTips(IntermediateAreas(s.mathSkills));
    assert !IsStyleTip(MotivationTip);
    assert MotivationTip !in it;
  }

  /** A learning style other than the three literals produces no style tips. */
  lemma UnknownStyle(s: Student)
    requires s.learningStyle != Visual && s.learningStyle != Auditivo && s.learningStyle != Kinestesico
    ensures Plan(s) == IntermediateTips(IntermediateAreas(s.mathSkills))
                       + (if s.progressPercentage < 70 then [MotivationTip] else [])
    ensures forall t :: t in Plan(s) ==> !IsStyleTip(t)
  {
    assert StylePart(s) == [];
  }

  /**
   * The weak-area tips follow the style's order, not the key order: a Visual
   * student weak in algebra and geometry only gets the geometry tip first,
   * although algebra is the first weak key.
   */
  lemma StyleOrderIsNotKeyOrder(s: Student)
    requires s.learningStyle == Visual && s.progressPercentage >= 70
    requires s.mathSkills == MathSkills(50, 50, 90, 90, 90)
    ensures WeakAreas(s.mathSkills) == [Algebra, Geometry]
    ensures Plan(s) == [WeakAreaTip(Geometry), WeakAreaTip(Algebra), StyleTip(0)]
  {
    ExampleBands(s.mathSkills);
    ExamplePlan(s);
  }

  lemma ExamplePlan(s: Student)
    requires s.learningStyle == Visual && s.progressPercentage >= 70
    requires WeakAreas(s.mathSkills) == [Algebra, Geometry] && IntermediateAreas(s.mathSkills) == []
    ensures Plan(s) == [WeakAreaTip(Geometry), WeakAreaTip(Algebra), StyleTip(0)]
  {
    var weak := WeakAreas(s.mathSkills);
    WeakAreaTips4(Geometry, Algebra, Statistics, Arithmetic, weak);
    assert WeakTipIfWeak(Geometry, weak) == [WeakAreaTip(Geometry)];
    assert WeakTipIfWeak(Algebra, weak) == [WeakAreaTip(Algebra)];
    assert WeakTipIfWeak(Statistics, weak) == [] && WeakTipIfWeak(Arithmetic, weak) == [];
    assert StyleTips(1) == [StyleTip(0)];
    assert StylePart(s) == [WeakAreaTip(Geometry), WeakAreaTip(Algebra), StyleTip(0)];
    assert IntermediateTips(IntermediateAreas(s.mathSkills)) == [];
  }

  lemma ExampleBands(m: MathSkills)
    requires m == MathSkills(50, 50, 90, 90, 90)
    ensures WeakAreas(m) == [Algebra, Geometry]
    ensures IntermediateAreas(m) == []
  {
    assert m.Entries() == [(Algebra, 50), (Geometry, 50), (Arithmetic, 90), (Statistics, 90), (Calculus, 90)];
    assert WeakAreas(m) == [Algebra, Geometry];
    assert forall a :: a !in IntermediateAreas(m);
  }

  // ----- the generator, as the component writes it -----

  /** Rendering one more tip appends its sentence. */
  lemma RenderSnoc(style: string, ts: seq<Tip>, t: Tip)
    requires AllWorded(style, ts) && Worded(style, t)
    ensures AllWorded(style, ts + [t])
    ensures Render(style, ts + [t]) == Render(style, ts) + [Text(style, t)]
  {
  }

  /** `recs` holds the sentences of `plan`, one per tip. */
  predicate Rendered(style: string, recs: seq<Sentence>, plan: seq<Tip>) {
    AllWorded(style, plan) && recs == Render(style, plan)
  }

  /** `if (weakAreas.includes(area)) recommendations.push(sentence)`. */
  method PushIfWeak(style: string, area: SkillArea, sentence: Sentence, weakAreas: seq<SkillArea>,
                    recs: seq<Sentence>, ghost plan: seq<Tip>) returns (recs': seq<Sentence>, ghost plan': seq<Tip>)
    requires Rendered(style, recs, plan)
    requires Worded(style, WeakAreaTip(area)) && Text(style, WeakAreaTip(area)) == sentence
    ensures plan' == plan + WeakTipIfWeak(area, weakAreas)
    ensures Rendered(style, recs', plan')
  {
    recs', plan' := recs, plan;
    if area in weakAreas {
      RenderSnoc(style, plan, WeakAreaTip(area));
      recs', plan' := recs + [sentence], plan + [WeakAreaTip(area)];
    }
  }

  /** `recommendations.push(sentence)` for the style's `k`-th generic tip. */
  method PushStyleTip(style: string, k: nat, sentence: Sentence,
                      recs: seq<Sentence>, ghost plan: seq<Tip>) returns (recs': seq<Sentence>, ghost plan': seq<Tip>)
    requires Rendered(style, recs, plan)
    requires Worded(style, StyleTip(k)) && Text(style, StyleTip(k)) == sentence
    ensures plan' == plan + [StyleTip(k)]
    ensures Rendered(style, recs', plan')
  {
    RenderSnoc(style, plan, StyleTip(k));
    recs', plan' := recs + [sentence], plan + [StyleTip(k)];
  }

  /** The `if (learningStyle === 'Visual')` block: four weak-area checks, then one generic tip. */
  method VisualTips(weakAreas: seq<SkillArea>) returns (recs: seq<Sentence>, ghost plan: seq<Tip>)
    ensures plan == [] + WeakTipIfWeak(Geometry, weakAreas) + WeakTipIfWeak(Algebra, weakAreas)
                 + WeakTipIfWeak(Statistics, weakAreas) + WeakTipIfWeak(Arithmetic, weakAreas) + [StyleTip(0)]
    ensures Rendered(Visual, recs, plan)
  {
    assert Rendered(Visual, [], []);
    recs, plan := PushIfWeak(Visual, Geometry, VisualGeometry, weakAreas, [], []);
    recs, plan := PushIfWeak(Visual, Algebra, VisualAlgebra, weakAreas, recs, plan);
    recs, plan := PushIfWeak(Visual, Statistics, VisualStatistics, weakAreas, recs, plan);
    recs, plan := PushIfWeak(Visual, Arithmetic, VisualArithmetic, weakAreas, recs, plan);
    recs, plan := PushStyleTip(Visual, 0, VisualGeneric, recs, plan);
  }

  /** The `if (learningStyle === 'Auditivo')` block: three weak-area checks, then two generic tips. */
  method AuditivoTips(weakAreas: seq<SkillArea>) returns (recs: seq<Sentence>, ghost plan: seq<Tip>)
    ensures plan == [] + WeakTipIfWeak(Arithmetic, weakAreas) + WeakTipIfWeak(Algebra, weakAreas)
                 + WeakTipIfWeak(Geometry, weakAreas) + [StyleTip(0)] + [StyleTip(1)]
    ensures Rendered(Auditivo, recs, plan)
  {
    assert Rendered(Auditivo, [], []);
    recs, plan := PushIfWeak(Auditivo, Arithmetic, AuditivoArithmetic, weakAreas, [], []);
    recs, plan := PushIfWeak(Auditivo, Algebra, AuditivoAlgebra, weakAreas, recs, plan);
    recs, plan := PushIfWeak(Auditivo, Geometry, AuditivoGeometry, weakAreas, recs, plan);
    recs, plan := PushStyleTip(Auditivo, 0, AuditivoGeneric1, recs, plan);
    recs, plan := PushStyleTip(Auditivo, 1, AuditivoGeneric2, recs, plan);
  }

  /** The `if (learningStyle === 'Kinestésico')` block: three weak-area checks, then two generic tips. */
  method KinestesicoTips(weakAreas: seq<SkillArea>) returns (recs: seq<Sentence>, ghost plan: seq<Tip>)
    ensures plan == [] + WeakTipIfWeak(Geometry, weakAreas) + WeakTipIfWeak(Arithmetic, weakAreas)
                 + WeakTipIfWeak(Algebra, weakAreas) + [StyleTip(0)] + [StyleTip(1)]
    ensures Rendered(Kinestesico, recs, plan)
  {
    assert Rendered(Kinestesico, [], []);
    recs, plan := PushIfWeak(Kinestesico, Geometry, KinestesicoGeometry, weakAreas, [], []);
    recs, plan := PushIfWeak(Kinestesico, Arithmetic, KinestesicoArithmetic, weakAreas, recs, plan);
    recs, plan := PushIfWeak(Kinestesico, Algebra, KinestesicoAlgebra, weakAreas, recs, plan);
    recs, plan := PushStyleTip(Kinestesico, 0, KinestesicoGeneric1, recs, plan);
    recs, plan := PushStyleTip(Kinestesico, 1, KinestesicoGeneric2, recs, plan);
  }

  /** The three `if (learningStyle === ...)` blocks; no style tips for any other style. */
  method PushStyleTips(style: string, weakAreas: seq<SkillArea>) returns (recs: seq<Sentence>, ghost plan: seq<Tip>)
    ensures plan == WeakAreaTips(WeakAreaOrder(style), weakAreas) + StyleTips(GenericTipCount(style))
    ensures AllWorded(style, plan)
    ensures recs == Render(style, plan)
  {
    StylesDistinct();
    recs, plan := [], [];
    if style == Visual {
      recs, plan := VisualTips(weakAreas);
      VisualPlan(weakAreas);
    }
    if style == Auditivo {
      recs, plan := AuditivoTips(weakAreas);
      AuditivoPlan(weakAreas);
    }
    if style == Kinestesico {
      recs, plan := KinestesicoTips(weakAreas);
      KinestesicoPlan(weakAreas);
    }
  }

  /** Each block's pushes are the plan's style part for that style. */
  lemma VisualPlan(w: seq<SkillArea>)
    ensures [] + WeakTipIfWeak(Geometry, w) + WeakTipIfWeak(Algebra, w) + WeakTipIfWeak(Statistics, w)
            + WeakTipIfWeak(Arithmetic, w) + [StyleTip(0)]
         == WeakAreaTips(WeakAreaOrder(Visual), w) + StyleTips(GenericTipCount(Visual))
  {
    WeakAreaTips4(Geometry, Algebra, Statistics, Arithmetic, w);
    assert StyleTips(1) == [StyleTip(0)];
  }

  lemma AuditivoPlan(w: seq<SkillArea>)
    ensures [] + WeakTipIfWeak(Arithmetic, w) + WeakTipIfWeak(Algebra, w) + WeakTipIfWeak(Geometry, w)
            + [StyleTip(0)] + [StyleTip(1)]
         == WeakAreaTips(WeakAreaOrder(Auditivo), w) + StyleTips(GenericTipCount(Auditivo))
  {
    StylesDistinct();
    WeakAreaTips3(Arithmetic, Algebra, Geometry, w);
    assert StyleTips(2) == [StyleTip(0), StyleTip(1)];
  }

  lemma KinestesicoPlan(w: seq<SkillArea>)
    ensures [] + WeakTipIfWeak(Geometry, w) + WeakTipIfWeak(Arithmetic, w) + WeakTipIfWeak(Algebra, w)
            + [StyleTip(0)] + [StyleTip(1)]
         == WeakAreaTips(WeakAreaOrder(Kinestesico), w) + StyleTips(GenericTipCount(Kinestesico))
  {
    StylesDistinct();
    WeakAreaTips3(Geometry, Arithmetic, Algebra, w);
    assert StyleTips(2) == [StyleTip(0), StyleTip(1)];
  }

  /**
   * `generateRecommendations`: the tips pushed by the component, in order,
   * cut to the first five.
   */
  method GenerateRecommendations(student: Student) returns (recommendations: seq<Sentence>)
    ensures |recommendations| <= MaxTips
    ensures AllWorded(student.learningStyle, Plan(student))
    ensures recommendations == Take(Render(student.learningStyle, Plan(student)), MaxTips)
  {
    PlanWorded(student);
    var style := student.learningStyle;
    var weakAreas := WeakAreas(student.mathSkills);
    var intermediateAreas := IntermediateAreas(student.mathSkills);
    var recs: seq<Sentence>;
    ghost var plan: seq<Tip>;
    recs, plan := PushStyleTips(style, weakAreas);
    ghost var stylePart := plan;

    var i := 0;
    while i < |intermediateAreas|
      invariant 0 <= i <= |intermediateAreas|
      invariant plan == stylePart + IntermediateTips(intermediateAreas[..i])
      invariant AllWorded(style, plan)
      invariant recs == Render(style, plan)
    {
      var area := intermediateAreas[i];
      RenderSnoc(style, plan, IntermediateTip(area));
      recs, plan := recs + [Reinforce(area)], plan + [IntermediateTip(area)];
      IntermediateTipsSnoc(intermediateAreas, i);
      assert plan == stylePart + (IntermediateTips(intermediateAreas[..i]) + [IntermediateTip(area)]);
      i := i + 1;
    }
    assert intermediateAreas[..i] == intermediateAreas;

    if student.progressPercentage < 70 {
      RenderSnoc(style, plan, MotivationTip);
      recs, plan := recs + [Motivation], plan + [MotivationTip];
    }
    assert plan == Plan(student);
    assert recs == Render(style, Plan(student));

    recommendations := if |recs| <= MaxTips then recs else recs[..MaxTips];
  }
}
