/**
 * The spiritual-state helpers: the pressure a vertical level exerts, and the
 * warnings derived from a state by fixed thresholds.
 */
module SpiritualAlgorithms {

  /** `pressureFactors`, indexed by level. */
  const PressureFactors: seq<real> := [0.9, 0.7, 0.5, 0.3, 0.1]

  /**
   * `pressureFactors[level] || 0.1`: the level is used as a property key, so only the
   * numbers 0..4 hit the table; any other number (negative, too large or fractional)
   * reads `undefined` and falls back to 0.1.
   */
  function PressureFactor(level: real): (f: real)
    ensures 0.1 <= f <= 0.9
    ensures forall k :: 0 <= k < |PressureFactors| && level == k as real ==> f == PressureFactors[k]
    ensures level !in {0.0, 1.0, 2.0, 3.0, 4.0} ==> f == 0.1
  {
    if level == level.Floor as real && 0 <= level.Floor < |PressureFactors| then PressureFactors[level.Floor]
    else 0.1
  }

  /** `calculateVerticalPressure`: the etalon force scaled by the level's factor. */
  function VerticalPressure(level: real, etalonForce: real): (p: real)
    ensures 0.0 <= etalonForce ==> 0.0 <= p <= etalonForce
  {
    etalonForce * PressureFactor(level)
  }

  /** Pressure is linear in the etalon force: sums and multiples carry through. */
  lemma PressureLinear(level: real, f1: real, f2: real, c: real)
    ensures VerticalPressure(level, f1 + f2) == VerticalPressure(level, f1) + VerticalPressure(level, f2)
    ensures VerticalPressure(level, c * f1) == c * VerticalPressure(level, f1)
  {
  }

  /** Deeper table levels press less: the factor falls strictly from level 0 to level 4. */
  lemma PressureFallsWithLevel(i: int, j: int, etalonForce: real)
    requires 0 <= i < j < |PressureFactors| && 0.0 < etalonForce
    ensures VerticalPressure(j as real, etalonForce) < VerticalPressure(i as real, etalonForce)
  {
    assert PressureFactor(i as real) == PressureFactors[i];
    assert PressureFactor(j as real) == PressureFactors[j];
  }

  /**
   * The part of the state `generateInsights` reads: the conformity of each vertical
   * level (the values of `state.vertical`, in key order), the two velocities and the
   * etalon force.
   */
  datatype SpiritualState = SpiritualState(vertical: seq<real>, cyclic: real, diagonal: real, etalonForce: real)

  /** The `reduce` over the levels: the running sum from the first level on. */
  function Sum(s: seq<real>): real {
    if s == [] then 0.0 else Sum(s[..|s| - 1]) + s[|s| - 1]
  }

  /** The sum of levels all within [lo, hi] lies within [n * lo, n * hi]. */
  lemma {:induction false} SumBounds(s: seq<real>, lo: real, hi: real)
    requires forall i :: 0 <= i < |s| ==> lo <= s[i] <= hi
    ensures |s| as real * lo <= Sum(s) <= |s| as real * hi
  {
    if s != [] {
      SumBounds(s[..|s| - 1], lo, hi);
    }
  }

  /** `overallConformity`: the sum divided by 5, whatever the number of levels. */
  function OverallConformity(state: SpiritualState): real {
    Sum(state.vertical) / 5.0
  }

  /** The four warnings, in the order they are checked. */
  datatype Warning = LowConformity | HighCyclic | HighDiagonal | LowEtalon

  function Order(w: Warning): nat {
    match w
    case LowConformity => 0
    case HighCyclic => 1
    case HighDiagonal => 2
    case LowEtalon => 3
  }

  /** The four warning texts, one per warning. */
  datatype WarningTexts = WarningTexts(conformity: string, cyclic: string, diagonal: string, etalon: string)

  const InsightTexts := WarningTexts(
    "Критическое рассогласование с духовным эталоном",
    "Высокая циклическая скорость - неосвоенные уроки повторяются",
    "Значительный диагональный снос - требуется коррекция курса",
    "Низкая эталонная сила - необходимо углубление практики")

  /** The four texts are pairwise different, so a text names its warning. */
  predicate Distinct(texts: WarningTexts) {
    && texts.conformity != texts.cyclic && texts.conformity != texts.diagonal && texts.conformity != texts.etalon
    && texts.cyclic != texts.diagonal && texts.cyclic != texts.etalon && texts.diagonal != texts.etalon
  }

  function Message(texts: WarningTexts, w: Warning): string {
    match w
    case LowConformity => texts.conformity
    case HighCyclic => texts.cyclic
    case HighDiagonal => texts.diagonal
    case LowEtalon => texts.etalon
  }

  /** The threshold of each warning; every comparison is strict. */
  predicate Fires(state: SpiritualState, w: Warning) {
    match w
    case LowConformity => OverallConformity(state) < 0.3
    case HighCyclic => state.cyclic > 0.8
    case HighDiagonal => state.diagonal > 0.6
    case LowEtalon => state.etalonForce < 0.4
  }

  /** The warning `w` when it fires, nothing otherwise. */
  function Check(state: SpiritualState, w: Warning): seq<Warning> {
    if Fires(state, w) then [w] else []
  }

  /** The warnings a state raises: each at most once, exactly when it fires, in checking order. */
  function Warnings(state: SpiritualState): (ws: seq<Warning>)
    ensures |ws| <= 4
    ensures forall w :: w in ws <==> Fires(state, w)
    ensures forall i, j :: 0 <= i < j < |ws| ==> Order(ws[i]) < Order(ws[j])
  {
    Check(state, LowConformity) + Check(state, HighCyclic) + Check(state, HighDiagonal) + Check(state, LowEtalon)
  }

  function Messages(texts: WarningTexts, ws: seq<Warning>): (r: seq<string>)
    ensures |r| == |ws|
  {
    if ws == [] then [] else [Message(texts, ws[0])] + Messages(texts, ws[1..])
  }

  /** The i-th message is the message of the i-th warning. */
  lemma {:induction false} MessagesAt(texts: WarningTexts, ws: seq<Warning>, i: int)
    requires 0 <= i < |ws|
    ensures Messages(texts, ws)[i] == Message(texts, ws[i])
  {
    if i > 0 {
      MessagesAt(texts, ws[1..], i - 1);
    }
  }

  /** Pushing a warning pushes its message. */
  lemma {:induction false} MessagesSnoc(texts: WarningTexts, ws: seq<Warning>, w: Warning)
    ensures Messages(texts, ws + [w]) == Messages(texts, ws) + [Message(texts, w)]
  {
    if ws == [] {
      assert [w][1..] == [];
    } else {
      assert (ws + [w])[1..] == ws[1..] + [w];
      MessagesSnoc(texts, ws[1..], w);
    }
  }

  /** The pushes of `generateInsights`, over its four texts. */
  method PushInsights(texts: WarningTexts, state: SpiritualState) returns (insights: seq<string>)
    ensures insights == Messages(texts, Warnings(state))
  {
    insights := [];
    ghost var raised: seq<Warning> := [];
    var overallConformity := Sum(state.vertical) / 5.0;
    if overallConformity < 0.3 {
      MessagesSnoc(texts, raised, LowConformity);
      insights := insights + [texts.conformity];
      raised := raised + [LowConformity];
    }
    assert insights == Messages(texts, raised) && raised == Check(state, LowConformity);
    if state.cyclic > 0.8 {
      MessagesSnoc(texts, raised, HighCyclic);
      insights := insights + [texts.cyclic];
      raised := raised + [HighCyclic];
    }
    assert insights == Messages(texts, raised);
    assert raised == Check(state, LowConformity) + Check(state, HighCyclic);
    if state.diagonal > 0.6 {
      MessagesSnoc(texts, raised, HighDiagonal);
      insights := insights + [texts.diagonal];
      raised := raised + [HighDiagonal];
    }
    assert insights == Messages(texts, raised);
    assert raised == Check(state, LowConformity) + Check(state, HighCyclic) + Check(state, HighDiagonal);
    if state.etalonForce < 0.4 {
      MessagesSnoc(texts, raised, LowEtalon);
      insights := insights + [texts.etalon];
      raised := raised + [LowEtalon];
    }
    assert raised == Warnings(state);
  }

  /** `generateInsights`: the message of every warning that fires, in checking order. */
  method GenerateInsights(state: SpiritualState) returns (insights: seq<string>)
    ensures insights == Messages(InsightTexts, Warnings(state))
  {
    insights := PushInsights(InsightTexts, state);
  }

  /** With distinct texts, a warning's message is listed exactly when the warning is. */
  lemma {:induction false} MessageListed(texts: WarningTexts, ws: seq<Warning>, w: Warning)
    requires Distinct(texts)
    ensures Message(texts, w) in Messages(texts, ws) <==> w in ws
  {
    if ws != [] {
      MessageListed(texts, ws[1..], w);
      assert ws == [ws[0]] + ws[1..];
    }
  }

  /**
   * What the insight list says: at most four entries, each warning's message present
   * exactly when its threshold is crossed, and the messages in checking order.
   */
  lemma InsightsMeaning(texts: WarningTexts, state: SpiritualState)
    requires Distinct(texts)
    ensures |Messages(texts, Warnings(state))| <= 4
    ensures forall w :: Message(texts, w) in Messages(texts, Warnings(state)) <==> Fires(state, w)
    ensures forall i :: 0 <= i < |Warnings(state)| ==> Messages(texts, Warnings(state))[i] == Message(texts, Warnings(state)[i])
  {
    var ws := Warnings(state);
    forall i | 0 <= i < |ws| ensures Messages(texts, ws)[i] == Message(texts, ws[i]) {
      MessagesAt(texts, ws, i);
    }
    forall w ensures Message(texts, w) in Messages(texts, ws) <==> Fires(state, w) {
      MessageListed(texts, ws, w);
    }
  }

  /** The source's four texts are pairwise different. */
  lemma InsightTextsDistinct()
    ensures Distinct(InsightTexts)
  {
  }

  /**
   * With five levels of equal conformity c, the conformity warning fires exactly when
   * c < 0.3; with fewer levels the same conformities read as lower.
   */
  lemma UniformLevels(state: SpiritualState, c: real)
    requires forall i :: 0 <= i < |state.vertical| ==> state.vertical[i] == c
    ensures |state.vertical| == 5 ==> (Fires(state, LowConformity) <==> c < 0.3)
    ensures 0.0 <= c && |state.vertical| <= 5 ==> OverallConformity(state) <= c
  {
    SumBounds(state.vertical, c, c);
  }
}
