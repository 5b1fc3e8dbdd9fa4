/**
 * The calculator suite's assistant: it classifies a query, answers from
 * its knowledge base or explains the calculation for a number, and keeps
 * the history of the queries it was asked.
 */
module Assistant {
  import opened Text
  import opened Wrappers
  import opened Collections
  import opened Primes

  // ---------------------------------------------------------------------
  // Classifying a query
  // ---------------------------------------------------------------------

  /** `query.toLowerCase().trim()`. */
  function NormalizeQuery(query: string): (q: string)
    ensures NoUpper(q)
  {
    Trim(ToLower(query))
  }

  const ConceptKeywords: seq<string> := ["what is", "explain", "define", "meaning", "concept"]
  const CalculationHelpKeywords: seq<string> := ["how to calculate", "calculate", "formula", "steps", "method"]
  const Greetings: seq<string> := ["hello", "hi", "hey", "help", "assist"]
  const CalculationWords: seq<string> := ["calculate", "compute", "solve"]

  /** `keywords.some(keyword => query.includes(keyword))`. */
  predicate ContainsAny(q: string, keywords: seq<string>) {
    exists k :: 0 <= k < |keywords| && Contains(q, keywords[k])
  }

  /** `/\d+/.test(query)`. */
  predicate HasDigit(q: string) {
    exists i :: 0 <= i < |q| && IsDigit(q[i])
  }

  predicate IsConceptualQuestion(q: string) { ContainsAny(q, ConceptKeywords) }
  predicate IsCalculationHelp(q: string) { ContainsAny(q, CalculationHelpKeywords) }
  predicate IsGreeting(q: string) { ContainsAny(q, Greetings) }
  predicate IsCalculationRequest(q: string) { HasDigit(q) || ContainsAny(q, CalculationWords) }

  datatype QueryKind = Conceptual | CalculationHelp | Greeting | CalculationRequest | General

  /** The branch `processQuery` takes. */
  function Route(q: string): QueryKind {
    if IsConceptualQuestion(q) then Conceptual
    else if IsCalculationHelp(q) then CalculationHelp
    else if IsGreeting(q) then Greeting
    else if IsCalculationRequest(q) then CalculationRequest
    else General
  }

  /** A query goes to the first category it matches, in the order conceptual, help, greeting, request. */
  lemma RouteIsFirstMatch(q: string)
    ensures Route(q) == Conceptual <==> IsConceptualQuestion(q)
    ensures Route(q) == CalculationHelp <==> !IsConceptualQuestion(q) && IsCalculationHelp(q)
    ensures Route(q) == Greeting <==> !IsConceptualQuestion(q) && !IsCalculationHelp(q) && IsGreeting(q)
    ensures Route(q) == CalculationRequest <==>
      !IsConceptualQuestion(q) && !IsCalculationHelp(q) && !IsGreeting(q) && IsCalculationRequest(q)
    ensures Route(q) == General <==>
      !IsConceptualQuestion(q) && !IsCalculationHelp(q) && !IsGreeting(q) && !IsCalculationRequest(q)
  {
  }

  /**
   * "calculate" is a help keyword as well as a request word, so a query
   * reaches the calculation request branch only through a digit, "compute"
   * or "solve".
   */
  lemma CalculateNeverRequests(q: string)
    ensures Route(q) == CalculationRequest ==> !Contains(q, "calculate")
    ensures Route(q) == CalculationRequest ==> HasDigit(q) || Contains(q, "compute") || Contains(q, "solve")
  {
    if Contains(q, "calculate") {
      assert Contains(q, CalculationHelpKeywords[1]);
    }
  }

  /** Greetings are matched as substrings, so "this" (which holds "hi") makes a query a greeting. */
  lemma GreetingInsideWord(q: string)
    requires Contains(q, "this")
    requires !IsConceptualQuestion(q) && !IsCalculationHelp(q)
    ensures Route(q) == Greeting
  {
    ContainsAt("this", "hi", 1);
    ContainsTransitive(q, "this", "hi");
    assert Contains(q, Greetings[1]);
  }

  // ---------------------------------------------------------------------
  // Conceptual questions
  // ---------------------------------------------------------------------

  /** The concepts of the knowledge base, in the order they are searched. */
  const Concepts: seq<string> := ["modal realism", "possible worlds", "extended modal realism", "perdurantism", "causality"]

  /** The common questions of the knowledge base, in the order they are searched. */
  const CommonQuestions: seq<string> := [
    "what is modal realism",
    "how do you calculate world size",
    "what is the difference between prime and composite worlds",
    "why use prime numbers"
  ]

  /** `s.split(' ')[0]`: everything before the first space. */
  function FirstField(s: string): (f: string)
    ensures f <= s && ' ' !in f
    ensures |f| < |s| ==> s[|f|] == ' '
    decreases |s|
  {
    if s == [] || s[0] == ' ' then [] else [s[0]] + FirstField(s[1..])
  }

  predicate ConceptMatches(q: string, concept: string) {
    Contains(q, concept) || Contains(concept, FirstField(q))
  }

  predicate QuestionMatches(q: string, question: string) {
    Contains(q, FirstField(question)) || Contains(question, FirstField(q))
  }

  datatype CalculationType = PrimeFactorization | WorldSize | Probability {
    function Name(): string {
      match this
      case PrimeFactorization => "prime factorization"
      case WorldSize => "world size calculation"
      case Probability => "probability calculation"
    }
  }

  /**
   * The answers the assistant gives. The knowledge base's definitions,
   * explanations, examples, steps and the fixed messages are identified by
   * the key they are filed under.
   */
  datatype Response =
    | ConceptAnswer(concept: string)
    | QuestionAnswer(question: string)
    | UnknownQuestion
    | CalculationHelpAnswer(calculation: CalculationType)
    | GeneralCalculationHelp
    | GreetingAnswer
    | CalculationExplanation(number: int, isPrime: bool, primeFactors: seq<int>, suggestions: seq<string>)
    | CalculationPrompt
    | GeneralAnswer

  /** The first matching concept, else the first matching common question. */
  function AnswerFrom(q: string, concepts: seq<string>, questions: seq<string>): Response {
    match FirstIndex(concepts, c => ConceptMatches(q, c))
    case Some(i) => ConceptAnswer(concepts[i])
    case None =>
      match FirstIndex(questions, question => QuestionMatches(q, question))
      case Some(j) => QuestionAnswer(questions[j])
      case None => UnknownQuestion
  }

  /** `handleConceptualQuestion`. */
  function HandleConceptualQuestion(q: string): Response {
    AnswerFrom(q, Concepts, CommonQuestions)
  }

  /**
   * A concept is the answer exactly when it matches and no earlier concept
   * does; a common question is the answer only when no concept matches, and
   * then it is the first question that matches.
   */
  lemma AnswerIsFirstMatch(q: string, concepts: seq<string>, questions: seq<string>) returns (i: nat)
    ensures var r := AnswerFrom(q, concepts, questions);
      && (r.ConceptAnswer? ==>
            i < |concepts| && r.concept == concepts[i] && ConceptMatches(q, concepts[i]) &&
            forall j :: 0 <= j < i ==> !ConceptMatches(q, concepts[j]))
      && (r.QuestionAnswer? ==>
            (forall j :: 0 <= j < |concepts| ==> !ConceptMatches(q, concepts[j])) &&
            i < |questions| && r.question == questions[i] && QuestionMatches(q, questions[i]) &&
            forall j :: 0 <= j < i ==> !QuestionMatches(q, questions[j]))
      && (r.ConceptAnswer? || r.QuestionAnswer? || r == UnknownQuestion)
      && (r == UnknownQuestion <==>
            (forall j :: 0 <= j < |concepts| ==> !ConceptMatches(q, concepts[j])) &&
            (forall j :: 0 <= j < |questions| ==> !QuestionMatches(q, questions[j])))
  {
    var c := FirstIndex(concepts, c => ConceptMatches(q, c));
    var f := FirstIndex(questions, question => QuestionMatches(q, question));
    if c.Some? {
      i := c.value;
    } else if f.Some? {
      i := f.value;
    } else {
      i := 0;
    }
  }

  /** A query naming a concept is always answered with a concept, though possibly an earlier one. */
  lemma NamedConceptAnswered(q: string, i: nat)
    requires i < |Concepts| && Contains(q, Concepts[i])
    ensures HandleConceptualQuestion(q).ConceptAnswer?
  {
    var _ := AnswerIsFirstMatch(q, Concepts, CommonQuestions);
    assert ConceptMatches(q, Concepts[i]);
  }

  /** "extended modal realism" contains "modal realism", so it is never the answer to a query that names it. */
  lemma ExtendedModalRealismShadowed(q: string)
    requires Contains(q, "extended modal realism")
    ensures HandleConceptualQuestion(q) == ConceptAnswer("modal realism")
  {
    ContainsAt("extended modal realism", "modal realism", 9);
    ContainsTransitive(q, "extended modal realism", "modal realism");
    assert ConceptMatches(q, Concepts[0]);
  }

  // ---------------------------------------------------------------------
  // Calculation help
  // ---------------------------------------------------------------------

  /** `identifyCalculationType`. */
  function IdentifyCalculationType(q: string): Option<CalculationType> {
    if Contains(q, "prime") || Contains(q, "factor") then Some(PrimeFactorization)
    else if Contains(q, "world size") || Contains(q, "size") then Some(WorldSize)
    else if Contains(q, "probability") || Contains(q, "prob") then Some(Probability)
    else None
  }

  /**
   * The longer keywords "world size" and "probability" add nothing: the
   * type is decided by "prime", "factor", "size" and "prob" in that order.
   */
  lemma CalculationTypeByKeyword(q: string)
    ensures IdentifyCalculationType(q) == Some(PrimeFactorization) <==> Contains(q, "prime") || Contains(q, "factor")
    ensures IdentifyCalculationType(q) == Some(WorldSize) <==>
      !Contains(q, "prime") && !Contains(q, "factor") && Contains(q, "size")
    ensures IdentifyCalculationType(q) == Some(Probability) <==>
      !Contains(q, "prime") && !Contains(q, "factor") && !Contains(q, "size") && Contains(q, "prob")
    ensures IdentifyCalculationType(q) == None <==>
      !Contains(q, "prime") && !Contains(q, "factor") && !Contains(q, "size") && !Contains(q, "prob")
  {
    if Contains(q, "world size") {
      ContainsAt("world size", "size", 6);
      ContainsTransitive(q, "world size", "size");
    }
    if Contains(q, "probability") {
      ContainsAt("probability", "prob", 0);
      ContainsTransitive(q, "probability", "prob");
    }
  }

  /** `handleCalculationHelp`: every type it identifies is in the knowledge base. */
  function HandleCalculationHelp(q: string): (r: Response)
    ensures r.CalculationHelpAnswer? <==> IdentifyCalculationType(q).Some?
    ensures r.CalculationHelpAnswer? ==> Some(r.calculation) == IdentifyCalculationType(q)
  {
    match IdentifyCalculationType(q)
    case Some(t) => CalculationHelpAnswer(t)
    case None => GeneralCalculationHelp
  }

  // ---------------------------------------------------------------------
  // Calculation requests
  // ---------------------------------------------------------------------

  /** The longest prefix made of digits. */
  function DigitPrefix(s: string): (d: string)
    ensures d <= s && AllDigits(d)
    ensures |d| < |s| ==> !IsDigit(s[|d|])
    decreases |s|
  {
    if s != [] && IsDigit(s[0]) then [s[0]] + DigitPrefix(s[1..]) else []
  }

  /** `query.match(/\d+/g)[0]`: the first maximal run of digits, if any. */
  function FirstDigitRun(s: string): Option<string>
    decreases |s|
  {
    if s == [] then None
    else if IsDigit(s[0]) then Some(DigitPrefix(s))
    else FirstDigitRun(s[1..])
  }

  /** `run` is a non-empty run of digits at `i` in `s`, preceded by no digit and not followed by one. */
  predicate RunAt(s: string, i: nat, run: string) {
    && run != [] && AllDigits(run)
    && i + |run| <= |s| && s[i..i + |run|] == run
    && (forall j :: 0 <= j < i ==> !IsDigit(s[j]))
    && (i + |run| == |s| || !IsDigit(s[i + |run|]))
  }

  /**
   * There is a run exactly when the query holds a digit; the run is
   * non-empty, made of digits, preceded by no digit and not followed by one.
   */
  lemma {:induction false} FirstDigitRunSpec(s: string) returns (i: nat)
    ensures FirstDigitRun(s).None? <==> !HasDigit(s)
    ensures FirstDigitRun(s).Some? ==> RunAt(s, i, FirstDigitRun(s).value)
    decreases |s|
  {
    if s == [] {
      i := 0;
    } else if IsDigit(s[0]) {
      i := 0;
      assert s[..|DigitPrefix(s)|] == DigitPrefix(s);
    } else {
      var k := FirstDigitRunSpec(s[1..]);
      i := k + 1;
      HasDigitTail(s);
      if FirstDigitRun(s).Some? {
        RunAtTail(s, k, FirstDigitRun(s).value);
      }
    }
  }

  lemma HasDigitTail(s: string)
    requires s != [] && !IsDigit(s[0])
    ensures HasDigit(s) <==> HasDigit(s[1..])
  {
    if HasDigit(s) {
      var j :| 0 <= j < |s| && IsDigit(s[j]);
      assert IsDigit(s[1..][j - 1]);
    }
    if HasDigit(s[1..]) {
      var j :| 0 <= j < |s[1..]| && IsDigit(s[1..][j]);
      assert IsDigit(s[j + 1]);
    }
  }

  lemma RunAtTail(s: string, k: nat, run: string)
    requires s != [] && !IsDigit(s[0]) && RunAt(s[1..], k, run)
    ensures RunAt(s, k + 1, run)
  {
    assert s[k + 1..k + 1 + |run|] == s[1..][k..k + |run|];
    forall j | 0 <= j < k + 1 ensures !IsDigit(s[j]) {
      if j > 0 {
        assert s[j] == s[1..][j - 1];
      }
    }
  }

  const PrimeWorldSuggestions: seq<string> := ["Explore other prime worlds (2, 3, 5, 7, 11...)", "Compare with composite worlds"]
  const FixedSuggestions: seq<string> := ["Try world operations (addition, multiplication)", "Explore range analysis"]

  /** `primeFactors.join(', ')` over the printed factors. */
  function JoinNumbers(ns: seq<int>): string
    decreases |ns|
  {
    if ns == [] then ""
    else if |ns| == 1 then IntString(ns[0])
    else IntString(ns[0]) + ", " + JoinNumbers(ns[1..])
  }

  function SuggestionsFor(isPrime: bool, factors: seq<int>): seq<string> {
    (if isPrime then PrimeWorldSuggestions
     else ["Break down into prime factors: [" + JoinNumbers(factors) + "]", "Compare with fundamental worlds"]) +
    FixedSuggestions
  }

  /** Four suggestions, the last two always the same, the first two chosen by primality. */
  lemma SuggestionsShape(isPrime: bool, factors: seq<int>)
    ensures |SuggestionsFor(isPrime, factors)| == 4
    ensures SuggestionsFor(isPrime, factors)[2..] == FixedSuggestions
    ensures isPrime ==> SuggestionsFor(isPrime, factors)[..2] == PrimeWorldSuggestions
    ensures !isPrime ==> StartsWith(SuggestionsFor(isPrime, factors)[0], "Break down into prime factors: [")
    ensures forall f :: SuggestionsFor(true, factors) == SuggestionsFor(true, f)
  {
  }

  /** `generateSuggestions`: for a composite number it factorises the number once more. */
  method GenerateSuggestions(number: int, isPrime: bool) returns (suggestions: seq<string>, ghost factors: seq<int>)
    ensures !isPrime ==> IsPrimeFactorization(number, factors) && factors == PrimeFactorsOf(number)
    ensures suggestions == SuggestionsFor(isPrime, factors)
    ensures |suggestions| == 4 && suggestions[2..] == FixedSuggestions
  {
    suggestions := [];
    factors := [];
    if isPrime {
      suggestions := suggestions + ["Explore other prime worlds (2, 3, 5, 7, 11...)"];
      suggestions := suggestions + ["Compare with composite worlds"];
    } else {
      var shown := GetPrimeFactors(number);
      factors := shown;
      suggestions := suggestions + ["Break down into prime factors: [" + JoinNumbers(shown) + "]"];
      suggestions := suggestions + ["Compare with fundamental worlds"];
    }
    suggestions := suggestions + ["Try world operations (addition, multiplication)"];
    suggestions := suggestions + ["Explore range analysis"];
  }

  /**
   * What the explanation of a number holds: its primality, its
   * factorisation, and suggestions built from that same factorisation.
   */
  ghost predicate Explains(number: int, r: Response) {
    && r.CalculationExplanation?
    && r.number == number
    && (r.isPrime <==> Prime(number))
    && IsPrimeFactorization(number, r.primeFactors)
    && r.primeFactors == PrimeFactorsOf(number)
    && (r.primeFactors == [number] <==> Prime(number))
    && r.suggestions == SuggestionsFor(r.isPrime, r.primeFactors)
  }

  /** `generateCalculationExplanation`, without the world size and the prose. */
  method GenerateCalculationExplanation(number: int) returns (r: Response)
    ensures Explains(number, r)
  {
    var isPrime := IsPrime(number);
    var primeFactors := GetPrimeFactors(number);
    var suggestions, factors := GenerateSuggestions(number, isPrime);
    r := CalculationExplanation(number, isPrime, primeFactors, suggestions);
    if isPrime {
      SuggestionsShape(isPrime, factors);
      assert SuggestionsFor(true, factors) == SuggestionsFor(true, primeFactors);
    }
  }

  /** The answer to a calculation request: the prompt without a number, else the explanation of the first number. */
  ghost predicate AnswersCalculationRequest(q: string, r: Response) {
    match FirstDigitRun(q)
    case None => r == CalculationPrompt
    case Some(digits) => AllDigits(digits) && Explains(DecimalValue(digits), r)
  }

  /** `handleCalculationRequest`. */
  method HandleCalculationRequest(q: string) returns (r: Response)
    ensures AnswersCalculationRequest(q, r)
  {
    var numbers := FirstDigitRun(q);
    if numbers.Some? {
      var _ := FirstDigitRunSpec(q);
      var number := DecimalValue(numbers.value);
      r := GenerateCalculationExplanation(number);
    } else {
      r := CalculationPrompt;
    }
  }

  /** A number written in a query is the number explained. */
  lemma ExplainsWrittenNumber(prefix: string, n: nat)
    requires !HasDigit(prefix)
    ensures FirstDigitRun(prefix + DecimalString(n)) == Some(DecimalString(n))
  {
    NumberRun(prefix, DecimalString(n));
  }

  lemma {:induction false} NumberRun(prefix: string, digits: string)
    requires !HasDigit(prefix) && digits != [] && AllDigits(digits)
    ensures FirstDigitRun(prefix + digits) == Some(digits)
    decreases |prefix|
  {
    if prefix == [] {
      assert prefix + digits == digits;
      DigitPrefixAll(digits);
    } else {
      assert (prefix + digits)[1..] == prefix[1..] + digits;
      assert !IsDigit(prefix[0]);
      assert !HasDigit(prefix[1..]) by {
        forall j | 0 <= j < |prefix[1..]| ensures !IsDigit(prefix[1..][j]) {
          assert prefix[1..][j] == prefix[j + 1];
        }
      }
      NumberRun(prefix[1..], digits);
    }
  }

  lemma {:induction false} DigitPrefixAll(digits: string)
    requires AllDigits(digits)
    ensures DigitPrefix(digits) == digits
    decreases |digits|
  {
    if digits != [] {
      DigitPrefixAll(digits[1..]);
    }
  }

  // ---------------------------------------------------------------------
  // Contextual suggestions and the assistant object
  // ---------------------------------------------------------------------

  /** The part of the caller's context the assistant looks at. */
  datatype Context = Context(currentPage: Option<string>)

  /** `getContextualSuggestions`. */
  function GetContextualSuggestions(context: Context): (r: seq<string>)
    ensures |r| == 3
    ensures context.currentPage == Some("calculator") ==>
      r == ["How do I interpret the results?", "What does world size mean?", "Explain the philosophical significance"]
    ensures context.currentPage == Some("quiz") ==>
      r == ["What is modal realism?", "Explain possible worlds", "What is perdurantism?"]
    ensures context.currentPage != Some("calculator") && context.currentPage != Some("quiz") ==>
      r == ["What can you help me with?", "Explain modal realism", "How do the calculators work?"]
  {
    if context.currentPage == Some("calculator") then
      ["How do I interpret the results?", "What does world size mean?", "Explain the philosophical significance"]
    else if context.currentPage == Some("quiz") then
      ["What is modal realism?", "Explain possible worlds", "What is perdurantism?"]
    else
      ["What can you help me with?", "Explain modal realism", "How do the calculators work?"]
  }

  /** One entry of the conversation history: the query as asked, when, and in which context. */
  datatype HistoryEntry = HistoryEntry(query: string, timestamp: string, context: Context)

  /** The answer `processQuery` gives to the normalised query `q`. */
  ghost predicate Answers(q: string, r: Response) {
    match Route(q)
    case Conceptual => r == HandleConceptualQuestion(q)
    case CalculationHelp => r == HandleCalculationHelp(q)
    case Greeting => r == GreetingAnswer
    case CalculationRequest => AnswersCalculationRequest(q, r)
    case General => r == GeneralAnswer
  }

  class ModalRealismAI {
    var conversationHistory: seq<HistoryEntry>

    constructor()
      ensures conversationHistory == []
    {
      conversationHistory := [];
    }

    /** `processQuery`: record the query, then answer it by its category. */
    method ProcessQuery(query: string, context: Context, timestamp: string) returns (r: Response)
      modifies this
      ensures conversationHistory == old(conversationHistory) + [HistoryEntry(query, timestamp, context)]
      ensures Answers(NormalizeQuery(query), r)
    {
      var normalizedQuery := NormalizeQuery(query);
      conversationHistory := conversationHistory + [HistoryEntry(query, timestamp, context)];
      if IsConceptualQuestion(normalizedQuery) {
        r := HandleConceptualQuestion(normalizedQuery);
      } else if IsCalculationHelp(normalizedQuery) {
        r := HandleCalculationHelp(normalizedQuery);
      } else if IsGreeting(normalizedQuery) {
        r := GreetingAnswer;
      } else if IsCalculationRequest(normalizedQuery) {
        r := HandleCalculationRequest(normalizedQuery);
      } else {
        r := GeneralAnswer;
      }
    }

    /** `clearHistory`. */
    method ClearHistory()
      modifies this
      ensures conversationHistory == []
    {
      conversationHistory := [];
    }
  }
}
