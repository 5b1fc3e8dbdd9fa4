/**
 * The pipeline of the classical logic filter worked through on one message:
 * the lone vague word "thing" is replaced by the first of its specific terms
 * and comes out as the sentence "Object.".
 */
module PipelineCases {
  import opened Text
  import opened Wrappers
  import opened Collections
  import opened LogicAnalysis
  import opened LogicRewrite

  const Thing: string := "thing"

  /** Its letters, position by position. */
  lemma ThingLetters()
    ensures |Thing| == 5
    ensures forall i :: 0 <= i < |Thing| ==> IsLower(Thing[i])
    ensures forall c :: c in Thing ==> c == 't' || c == 'h' || c == 'i' || c == 'n' || c == 'g'
  {
    assert Thing == ['t', 'h', 'i', 'n', 'g'];
    forall i | 0 <= i < |Thing| ensures IsLower(Thing[i]) {
      if i == 0 {} else if i == 1 {} else if i == 2 {} else if i == 3 {} else {}
    }
  }

  /** A single lower-case word passes `cleanMessage` unchanged. */
  lemma CleanThing()
    ensures CleanMessage(Thing) == Thing
  {
    ThingLetters();
    CleanLowerWord(Thing);
  }

  /** ... and is its only token. */
  lemma TokenizeThing()
    ensures Tokenize(Thing) == [Thing]
  {
    ThingLetters();
    TokenizeLowerWord(Thing);
  }

  /** Lower-case letters are kept by `cleanMessage` and are neither whitespace nor punctuation. */
  lemma LowerCharKinds(c: char)
    requires IsLower(c)
    ensures KeptChar(c) && !IsSpace(c) && !IsPunctuation(c) && !IsUpper(c)
  {
  }

  lemma CleanLowerWord(s: string)
    requires forall i :: 0 <= i < |s| ==> IsLower(s[i])
    ensures CleanMessage(s) == s
  {
    forall i | 0 <= i < |s| ensures KeptChar(s[i]) && !IsSpace(s[i]) {
      LowerCharKinds(s[i]);
    }
    assert StripSpecial(s) == s;
    assert Tidy(s);
    TidyFixpoint(s);
  }

  lemma TokenizeLowerWord(s: string)
    requires s != [] && forall i :: 0 <= i < |s| ==> IsLower(s[i])
    ensures Tokenize(s) == [s]
  {
    forall i | 0 <= i < |s| ensures !IsSpace(s[i]) && !IsPunctuation(s[i]) && !IsUpper(s[i]) {
      LowerCharKinds(s[i]);
    }
    assert NoUpper(s) && NoSpace(s);
    assert StripPunctuation(ToLower(s)) == s;
    assert DropSpaces(s) == s;
    assert s + [] == s;
    WordPrefixOfJoin(s, []);
    assert s[|s|..] == [];
    assert Words(s) == [s] + Words([]);
  }

  /** None of the phrase tests of `determineAlethicStatus` fires on "thing". */
  lemma NoStatusPhraseInThing()
    ensures !Uncertain(Thing) && !Doubting(Thing) && !PersonalChoice(Thing)
    ensures !FutureAction(Thing) && !ConditionalWording(Thing) && !PersonalPreference(Thing)
  {
    NoDoubtInThing();
    NoIntentInThing();
    NoConditionInThing();
  }

  lemma NoDoubtInThing()
    ensures !Uncertain(Thing) && !Doubting(Thing)
  {
    ThingLetters();
    NotContains(Thing, "not sure", 1);
    NotContains(Thing, "unsure", 0);
    NotContains(Thing, "uncertain", 0);
    NotContains(Thing, "doubt", 0);
    NotContains(Thing, "question", 0);
    NotContains(Thing, "wonder", 0);
  }

  lemma NoIntentInThing()
    ensures !PersonalChoice(Thing) && !FutureAction(Thing)
  {
    ThingLetters();
    NotContains(Thing, "i will", 1);
    NotContains(Thing, "i am going to", 1);
    NotContains(Thing, "i plan to", 1);
    NotContains(Thing, "tomorrow", 1);
    NotContains(Thing, "will", 0);
    NotContains(Thing, "going to", 1);
  }

  lemma NoConditionInThing()
    ensures !ConditionalWording(Thing) && !PersonalPreference(Thing)
  {
    ThingLetters();
    NotContains(Thing, "if", 1);
    NotContains(Thing, "when", 0);
    NotContains(Thing, "provided", 0);
    NotContains(Thing, "like", 0);
    NotContains(Thing, "prefer", 0);
    NotContains(Thing, "want", 0);
  }

  /** None of the four fallacy patterns matches "thing". */
  lemma NoFallacyInThing(f: Fallacy)
    ensures !Matches(f, Thing)
  {
    match f
    case BeggingTheQuestion => NoBeggingInThing();
    case AdHominem => NoAdHominemInThing();
    case FalseDilemma => NoDilemmaInThing();
    case HastyGeneralization => NoGeneralizationInThing();
  }

  lemma NoBeggingInThing()
    ensures !Matches(BeggingTheQuestion, Thing)
  {
    ThingLetters();
    NotContains(Thing, "assume", 0);
    NotContains(Thing, "assumption", 0);
    NotContains(Thing, "obviously", 0);
    NotContains(Thing, "clearly", 0);
    NotContains(Thing, "of course", 0);
  }

  lemma NoAdHominemInThing()
    ensures !Matches(AdHominem, Thing)
  {
    ThingLetters();
    NotContains(Thing, "you are", 0);
    NotContains(Thing, "you're", 0);
    NotContains(Thing, "your", 0);
    NotContains(Thing, "you don't", 0);
    NotContains(Thing, "you can't", 0);
  }

  lemma NoDilemmaInThing()
    ensures !Matches(FalseDilemma, Thing)
  {
    ThingLetters();
    NotContains(Thing, "either", 0);
    NotContains(Thing, "only", 0);
    NotContains(Thing, "must be", 0);
    NotContains(Thing, "has to be", 1);
    if InOrder(Thing, "either", "or") {
      InOrderContains(Thing, "either", "or");
    }
    if InOrder(Thing, "only", "or") {
      InOrderContains(Thing, "only", "or");
    }
  }

  lemma NoGeneralizationInThing()
    ensures !Matches(HastyGeneralization, Thing)
  {
    ThingLetters();
    NotContains(Thing, "all", 0);
    NotContains(Thing, "every", 0);
    NotContains(Thing, "always", 0);
    NotContains(Thing, "never", 1);
    NotContains(Thing, "none", 1);
    NotContains(Thing, "no one", 1);
  }

  /** "thing" is in no word set except the vague terms. */
  lemma ThingOnlyVague()
    ensures Thing in VagueTerms
    ensures Thing !in ModalPossibility && Thing !in ModalNecessity && Thing !in ModalEpistemic
    ensures Thing !in ModalDeontic && Thing !in ModalTemporal
    ensures Thing !in QuantifiersAll && Thing !in QuantifiersExist
    ensures Thing !in TemporalPast && Thing !in TemporalFuture && Thing !in TemporalPresent
    ensures Thing !in Conjunctions && Thing !in Disjunctions && Thing !in Conditionals && Thing !in Biconditionals
    ensures Thing !in Negations
  {
  }

  /** No time word, so the present. */
  lemma ThingIsPresent()
    ensures TimeIndexOf([Thing]) == Present
  {
    ThingOnlyVague();
    assert Thing[3..] == "ng";
    assert !EndsWith(Thing, "ed");
    assert TokenTime(Thing) == None;
    assert [Thing][1..] == [];
  }

  /** No modality, quantifier, connective or negation, so the score is zero. */
  lemma ThingIsSimple()
    ensures ConnectiveHits([Thing]) == []
    ensures ComplexityOf([Thing]) == Simple
  {
    ThingOnlyVague();
    FlatMapSnoc([], Thing, TokenModalities);
    FlatMapSnoc([], Thing, TokenQuantifiers);
    FlatMapSnoc([], Thing, TokenConnectives);
    assert [] + [Thing] == [Thing];
    assert ModalHits([Thing]) == [];
    assert OccurrencesOf([Thing], Negations) == OccurrencesOf([], Negations);
  }

  /** The one token is a vague term at position 0. */
  lemma ThingIsVague()
    ensures OccurrencesOf([Thing], VagueTerms) == [Occurrence(0, Thing)]
  {
    ThingOnlyVague();
    assert [Thing][..0] == [];
  }

  lemma LowerThing()
    ensures Join([Thing]) == Thing && ToLower(Thing) == Thing
  {
    ThingLetters();
    assert NoUpper(Thing);
  }

  lemma {:induction false} NoneMatching(fs: seq<Fallacy>, m: string)
    requires forall f :: !Matches(f, m)
    ensures MatchingFallacies(fs, m) == []
    decreases |fs|
  {
    if fs != [] {
      NoneMatching(fs[..|fs| - 1], m);
    }
  }

  /** No fallacy is detected. */
  lemma ThingHasNoFallacy()
    ensures FallaciesOf([Thing]) == []
  {
    LowerThing();
    forall f ensures !Matches(f, Thing) {
      NoFallacyInThing(f);
    }
    NoneMatching(AllFallacies, Thing);
  }

  /** No modal word and no phrase test, so a factual statement. */
  lemma ThingIsFactual()
    ensures AlethicStatusOf([Thing]) == Factual
  {
    LowerThing();
    ThingOnlyVague();
    NoStatusPhraseInThing();
    assert !HasToken([Thing], ModalPossibility) && !HasToken([Thing], ModalNecessity);
  }

  const Sentence: string := "Object."

  /** Its characters: six word characters and a full stop. */
  lemma SentenceLetters()
    ensures |Sentence| == 7 && Sentence[6] == '.'
    ensures forall i :: 0 <= i < 6 ==> IsWordChar(Sentence[i])
    ensures LowerChar(Sentence[1]) == 'b'
  {
    assert Sentence == ['O', 'b', 'j', 'e', 'c', 't', '.'];
    forall i | 0 <= i < 6 ensures IsWordChar(Sentence[i]) {
      if i == 0 {} else if i == 1 {} else if i == 2 {} else if i == 3 {} else if i == 4 {} else {}
    }
  }

  /** No connective occurs as a whole word in "Object.". */
  lemma NoConnectiveInSentence()
    ensures forall k, j :: 0 <= k < |SpacedConnectives| && 0 <= j <= |Sentence| ==> !MatchAt(Sentence, SpacedConnectives[k], j)
  {
    SentenceLetters();
    forall k, j | 0 <= k < |SpacedConnectives| && 0 <= j <= |Sentence| ensures !MatchAt(Sentence, SpacedConnectives[k], j) {
      var w := SpacedConnectives[k];
      assert |w| >= 2 && w[1] != 'b' && !IsUpper(w[1]);
      if j == 0 {
        if |w| <= |Sentence| {
          assert ToLower(Sentence[0..|w|])[1] == LowerChar(Sentence[1]);
          assert ToLower(w)[1] == w[1];
        }
      } else if j < 6 {
        assert IsWordChar(Sentence[j - 1]) && IsWordChar(Sentence[j]);
      }
    }
  }

  /** The substituted word is shaped into the sentence "Object.". */
  lemma StructuredObject()
    ensures StructuredOf("object") == Sentence
  {
    ObjectCapitalized();
    SentenceSpaced();
    SentenceTidy();
  }

  lemma ObjectCapitalized()
    ensures Capitalize(Terminate("object")) == Sentence
  {
    assert Terminate("object") == "object.";
    assert UpperChar('o') == 'O';
  }

  lemma SentenceSpaced()
    ensures SpaceConnectives(Sentence, SpacedConnectives) == Sentence
  {
    NoConnectiveInSentence();
    SpaceConnectivesUnchanged(Sentence, SpacedConnectives);
  }

  lemma SentenceTidy()
    ensures Normalize(Sentence) == Sentence
  {
    SentenceLetters();
    assert Tidy(Sentence);
    TidyFixpoint(Sentence);
  }

  /** The one suggestion: the specific terms for "thing", "object" first. */
  lemma ThingSuggestions()
    ensures CorrectedOf(AnalysisOf([Thing])).suggestions == [VagueSuggestion(Thing, ["object", "item", "entity", "element"])]
  {
    ThingIsVague();
    ThingHasNoFallacy();
    VagueSuggestionOfThing();
    assert FallacySuggestions([]) == [];
    var a := AnalysisOf([Thing]);
    assert a.vagueTerms == [Occurrence(0, Thing)] && a.fallacies == [];
  }

  lemma VagueSuggestionOfThing()
    ensures VagueSuggestions([Occurrence(0, Thing)]) == [VagueSuggestion(Thing, ["object", "item", "entity", "element"])]
  {
    assert SuggestSpecificTerms(Thing) == ["object", "item", "entity", "element"];
  }

  /** Applying that suggestion to the joined tokens substitutes "object" for "thing". */
  lemma ThingReplaced()
    ensures ApplySuggestions(Join([Thing]), [VagueSuggestion(Thing, ["object", "item", "entity", "element"])]) == "object"
  {
    LowerThing();
    ThingLetters();
    ReplaceWordWhole(Thing, "object");
    var sgs := [VagueSuggestion(Thing, ["object", "item", "entity", "element"])];
    assert sgs[..0] == [];
  }

  /**
   * The message "thing" alone: its first specific term is substituted and
   * the result is the sentence "Object.", with no marker and no notation.
   */
  lemma ThingBecomesObject()
    ensures CorrectedOf(AnalysisOf(Tokenize(CleanMessage(Thing)))).suggestions ==
      [VagueSuggestion(Thing, ["object", "item", "entity", "element"])]
    ensures ProcessedOf(Thing).processed == Sentence
    ensures ProcessedOf(Thing).changes == ["Message restructured for classical logic compliance"]
  {
    CleanThing();
    TokenizeThing();
    ThingSuggestions();
    ThingReplaced();
    StructuredObject();
    ThingIsPresent();
    ThingIsFactual();
    ThingIsSimple();
    var c := CorrectedOf(AnalysisOf([Thing]));
    assert RestructuredOf(c) == Sentence;
    assert AddLogicalNotation(Sentence, c.analysis) == Sentence;
    assert Thing != Sentence;
  }
}
