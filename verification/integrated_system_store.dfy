/**
 * The integrated store: the two-step switch between the cabinet and the world, and
 * the knowledge-based reply that quotes Frankl, Freud or Jung on keywords.
 */
module IntegratedSystemStore {
  import opened Text

  datatype Reality = Cabinet | World

  datatype RealityState = RealityState(currentReality: Reality, realityTransition: bool)

  function Other(r: Reality): (o: Reality)
    ensures o != r
  {
    match r
    case Cabinet => World
    case World => Cabinet
  }

  class IntegratedSystem {
    var reality: RealityState

    constructor ()
      ensures reality == RealityState(Cabinet, false)
    {
      reality := RealityState(Cabinet, false);
    }

    /** First step of `toggleReality`: the flag goes up, the reality stays. */
    method BeginToggleReality()
      modifies this
      ensures reality == old(reality).(realityTransition := true)
    {
      reality := reality.(realityTransition := true);
    }

    /** The timer's step: flip the reality read at that moment and drop the flag. */
    method CompleteToggleReality()
      modifies this
      ensures reality.currentReality == Other(old(reality.currentReality))
      ensures !reality.realityTransition
    {
      reality := RealityState(Other(reality.currentReality), false);
    }

    /** Two full toggles bring back the reality they started from, with the flag down. */
    method ToggleTwice()
      modifies this
      ensures reality == RealityState(old(reality.currentReality), false)
    {
      BeginToggleReality();
      CompleteToggleReality();
      BeginToggleReality();
      CompleteToggleReality();
    }
  }

  const Header := "Я анализирую ваш запрос с точки зрения глубинной психологии и философии...\n\n"
  const Sources := "На основе работ: Фрейд, Юнг, Франкл, Адлер, Фромм, Маслоу, Роджерс"

  /** A thinker's entry in the knowledge base; only the first quote is ever used (the concept lists are never read). */
  datatype Thinker = Thinker(quotes: seq<string>)

  datatype KnowledgeBase = KnowledgeBase(freud: Thinker, jung: Thinker, frankl: Thinker)

  const Knowledge := KnowledgeBase(
    Thinker(["«Сновидение — королевская дорога в бессознательное»",
             "«Там, где было Оно, должно стать Я»",
             "«Первый человек, который бросил ругательство вместо камня, был основателем цивилизации»"]),
    Thinker(["«Встреча двух личностей подобна контакту двух химических веществ: если есть хоть малейшая реакция, изменяются оба»",
             "«Я не то, что со мной случилось, я то, чем я решил стать»",
             "«Ваше видение станет ясным, только если вы сможете заглянуть в собственное сердце»"]),
    Thinker(["«У человека можно отнять все, кроме одного: последней свободы человека — выбирать собственное отношение к любым обстоятельствам»",
             "«Страдание перестает быть страданием в тот момент, когда оно обретает смысл»"]))

  predicate Quotable(kb: KnowledgeBase) {
    kb.freud.quotes != [] && kb.jung.quotes != [] && kb.frankl.quotes != []
  }

  datatype Author = Frankl | Freud | Jung

  /** The reply line for an author: their first quote and their name. */
  function Line(kb: KnowledgeBase, a: Author): string
    requires Quotable(kb)
  {
    match a
    case Frankl => kb.frankl.quotes[0] + " - Виктор Франкл\n\n"
    case Freud => kb.freud.quotes[0] + " - Зигмунд Фрейд\n\n"
    case Jung => kb.jung.quotes[0] + " - Карл Густав Юнг\n\n"
  }

  /** The position of each author in the reply. */
  function Order(a: Author): nat {
    match a
    case Frankl => 0
    case Freud => 1
    case Jung => 2
  }

  predicate MentionsFrankl(lower: string) { Contains(lower, "смысл") || Contains(lower, "цель") }
  predicate MentionsFreud(lower: string) { Contains(lower, "бессознательное") || Contains(lower, "сны") }
  predicate MentionsJung(lower: string) { Contains(lower, "личность") || Contains(lower, "изменение") }

  /** The authors the lowercased message calls for, in the reply's order. */
  function Cited(lower: string): (authors: seq<Author>)
    ensures |authors| <= 3
    ensures Frankl in authors <==> MentionsFrankl(lower)
    ensures Freud in authors <==> MentionsFreud(lower)
    ensures Jung in authors <==> MentionsJung(lower)
    ensures forall i, j :: 0 <= i < j < |authors| ==> Order(authors[i]) < Order(authors[j])
  {
    (if MentionsFrankl(lower) then [Frankl] else [])
      + (if MentionsFreud(lower) then [Freud] else [])
      + (if MentionsJung(lower) then [Jung] else [])
  }

  function Lines(kb: KnowledgeBase, authors: seq<Author>): string
    requires Quotable(kb)
  {
    if authors == [] then "" else Line(kb, authors[0]) + Lines(kb, authors[1..])
  }

  /** Appending an author appends their line. */
  lemma {:induction false} LinesSnoc(kb: KnowledgeBase, authors: seq<Author>, a: Author)
    requires Quotable(kb)
    ensures Lines(kb, authors + [a]) == Lines(kb, authors) + Line(kb, a)
  {
    if authors == [] {
      assert [a][1..] == [];
    } else {
      assert (authors + [a])[1..] == authors[1..] + [a];
      LinesSnoc(kb, authors[1..], a);
    }
  }

  /** Every cited author's line occurs in the concatenated lines. */
  lemma {:induction false} CitedLineOccurs(kb: KnowledgeBase, authors: seq<Author>, a: Author)
    requires Quotable(kb) && a in authors
    ensures Contains(Lines(kb, authors), Line(kb, a))
  {
    if authors[0] == a {
      ContainsAt(Lines(kb, authors), Line(kb, a), 0);
    } else {
      CitedLineOccurs(kb, authors[1..], a);
      ContainsInfix(Line(kb, authors[0]), Lines(kb, authors[1..]), "", Line(kb, a));
      assert Line(kb, authors[0]) + Lines(kb, authors[1..]) + "" == Lines(kb, authors);
    }
  }

  /**
   * The body of `processAIMessageWithKnowledge` over its knowledge base: the header,
   * one line per author the lowercased message calls for (Frankl, Freud, Jung, each
   * at most once, in that order), then the sources line.
   */
  method ComposeReply(kb: KnowledgeBase, lowerMessage: string) returns (response: string)
    requires Quotable(kb)
    ensures response == Header + Lines(kb, Cited(lowerMessage)) + Sources
  {
    var quoted := "";
    ghost var cited: seq<Author> := [];
    if MentionsFrankl(lowerMessage) {
      LinesSnoc(kb, cited, Frankl);
      quoted := quoted + Line(kb, Frankl);
      cited := cited + [Frankl];
    }
    if MentionsFreud(lowerMessage) {
      LinesSnoc(kb, cited, Freud);
      quoted := quoted + Line(kb, Freud);
      cited := cited + [Freud];
    }
    if MentionsJung(lowerMessage) {
      LinesSnoc(kb, cited, Jung);
      quoted := quoted + Line(kb, Jung);
      cited := cited + [Jung];
    }
    assert cited == Cited(lowerMessage);
    response := Header + quoted + Sources;
  }

  /**
   * What a reply promises: it opens with the header, closes with the sources line,
   * and quotes each author whose keywords the lowercased message contains.
   */
  lemma ReplyShape(kb: KnowledgeBase, lowerMessage: string)
    requires Quotable(kb)
    ensures var r := Header + Lines(kb, Cited(lowerMessage)) + Sources;
      && Header <= r
      && |Sources| <= |r| && r[|r| - |Sources|..] == Sources
      && (MentionsFrankl(lowerMessage) ==> Contains(r, Line(kb, Frankl)))
      && (MentionsFreud(lowerMessage) ==> Contains(r, Line(kb, Freud)))
      && (MentionsJung(lowerMessage) ==> Contains(r, Line(kb, Jung)))
  {
    var cited := Cited(lowerMessage);
    var lines := Lines(kb, cited);
    forall a | a in cited ensures Contains(Header + lines + Sources, Line(kb, a)) {
      CitedLineOccurs(kb, cited, a);
      ContainsInfix(Header, lines, Sources, Line(kb, a));
    }
  }

  /** `processAIMessageWithKnowledge` with its own knowledge base (the asynchronous wrapper is dropped). */
  method ProcessAIMessageWithKnowledge(message: string) returns (response: string)
    ensures response == Header + Lines(Knowledge, Cited(Lower(message))) + Sources
  {
    response := ComposeReply(Knowledge, Lower(message));
  }
}
