/**
 * The analysis half of the classical logic filter (`ClassicalLogicFilter` in
 * classical-logic-filter.js): cleaning and tokenizing a message, classifying
 * its tokens against fixed word sets, and the judgements built from those
 * classes (time index, modality, alethic status, complexity, fallacies,
 * subject-verb-object, propositions).
 *
 * Each detector that the source writes as a loop pushing into a local array
 * is a method with that loop, proved equal to a specification function; the
 * properties are lemmas about the specification functions.
 */
module LogicAnalysis {
  import opened Text
  import opened Wrappers
  import opened Collections
  import Sorting

  // ---------------------------------------------------------------------
  // Word sets
  // ---------------------------------------------------------------------

  const ModalPossibility: set<string> := {"might", "may", "could", "possible", "possibly", "perhaps", "maybe", "conceivably", "potentially"}
  const ModalNecessity: set<string> := {"must", "necessarily", "definitely", "certainly", "inevitably", "unavoidably"}
  const ModalEpistemic: set<string> := {"probably", "likely", "unlikely", "doubtful", "sure", "certain"}
  const ModalDeontic: set<string> := {"should", "ought", "permitted", "forbidden", "allowed", "required"}
  const ModalTemporal: set<string> := {"will", "shall", "going to", "about to", "eventually", "finally"}

  const QuantifiersAll: set<string> := {"all", "every", "each", "any", "whatever"}
  const QuantifiersExist: set<string> := {"some", "a", "an", "there", "exists", "exist", "at least one"}

  const TemporalPast: set<string> := {"yesterday", "ago", "last", "did", "was", "were", "had", "before"}
  const TemporalFuture: set<string> := {"tomorrow", "next", "soon", "will", "shall", "going to", "about to"}
  const TemporalPresent: set<string> := {"now", "currently", "at present", "today", "is", "are", "am"}

  const Conjunctions: set<string> := {"and", "but", "however", "moreover", "furthermore", "additionally"}
  const Disjunctions: set<string> := {"or", "either", "alternatively", "otherwise"}
  const Conditionals: set<string> := {"if", "when", "provided that", "assuming", "given that"}
  const Biconditionals: set<string> := {"if and only if", "iff", "exactly when", "precisely when"}

  const Negations: set<string> := {"not", "no", "never", "none", "nothing", "nobody", "nowhere", "neither", "nor"}

  const VagueTerms: set<string> := {"thing", "stuff", "something", "anything", "everything", "somewhere", "anywhere", "somehow"}

  /** The multi-word entries of the sets above; no token can equal one of them. */
  const MultiWordEntries: set<string> := {"going to", "about to", "at least one", "at present", "provided that", "given that", "if and only if", "exactly when", "precisely when"}

  lemma SpaceFreeNotMultiWord(t: string)
    requires NoSpace(t)
    ensures t !in MultiWordEntries
  {
    forall e | e in MultiWordEntries ensures !NoSpace(e) {
      assert ' ' in e;
      var k :| 0 <= k < |e| && e[k] == ' ';
      assert IsSpace(e[k]);
    }
  }

  // ---------------------------------------------------------------------
  // Cleaning and tokenizing
  // ---------------------------------------------------------------------

  /** The characters `cleanMessage` keeps: `[\w\s.,!?;:()]`. */
  predicate KeptChar(c: char) {
    IsWordChar(c) || IsSpace(c) || c in ".,!?;:()"
  }

  /** The punctuation `tokenize` removes: `[.,!?;:]`. */
  predicate IsPunctuation(c: char) {
    c in ".,!?;:"
  }

  function StripSpecial(s: string): (r: string)
    ensures forall i :: 0 <= i < |r| ==> KeptChar(r[i])
    ensures (forall i :: 0 <= i < |s| ==> KeptChar(s[i])) ==> r == s
    decreases |s|
  {
    if s == [] then []
    else
      assert s == [s[0]] + s[1..];
      (if KeptChar(s[0]) then [s[0]] else []) + StripSpecial(s[1..])
  }

  /** `cleanMessage`: drop special characters, collapse whitespace, trim. */
  function CleanMessage(message: string): (r: string)
    ensures Tidy(r)
    ensures forall i :: 0 <= i < |r| ==> KeptChar(r[i])
  {
    var stripped := StripSpecial(message);
    NormalizeTidy(stripped);
    NormalizeChars(stripped);
    Normalize(stripped)
  }

  /** Cleaning a cleaned message changes nothing. */
  lemma CleanMessageIdempotent(message: string)
    ensures CleanMessage(CleanMessage(message)) == CleanMessage(message)
  {
    var c := CleanMessage(message);
    assert StripSpecial(c) == c;
    TidyFixpoint(c);
  }

  function StripPunctuation(s: string): (r: string)
    ensures forall i :: 0 <= i < |r| ==> !IsPunctuation(r[i]) && r[i] in s
    ensures (forall i :: 0 <= i < |s| ==> !IsPunctuation(s[i])) ==> r == s
    decreases |s|
  {
    if s == [] then []
    else
      assert s == [s[0]] + s[1..];
      (if IsPunctuation(s[0]) then [] else [s[0]]) + StripPunctuation(s[1..])
  }

  /** What `tokenize` yields: non-empty, lower-case, without whitespace or `.,!?;:`. */
  predicate IsToken(t: string) {
    t != [] && NoSpace(t) && NoUpper(t) && forall i :: 0 <= i < |t| ==> !IsPunctuation(t[i])
  }

  /** `tokenize`: lower-case, drop punctuation, split on whitespace, drop empty pieces. */
  function Tokenize(message: string): (tokens: seq<string>)
    ensures forall k :: 0 <= k < |tokens| ==> IsToken(tokens[k])
  {
    var s := StripPunctuation(ToLower(message));
    LoweredStrippedClean(message);
    WordsOfCleanAreTokens(s);
    Words(s)
  }

  /** Neither upper-case letters nor `.,!?;:`. */
  predicate CleanChars(s: string) {
    forall i :: 0 <= i < |s| ==> !IsUpper(s[i]) && !IsPunctuation(s[i])
  }

  lemma LoweredStrippedClean(message: string)
    ensures CleanChars(StripPunctuation(ToLower(message)))
  {
    var l := ToLower(message);
    var s := StripPunctuation(l);
    forall i | 0 <= i < |s| ensures !IsUpper(s[i]) {
      var m :| 0 <= m < |l| && l[m] == s[i];
    }
  }

  lemma WordsOfCleanAreTokens(s: string)
    requires CleanChars(s)
    ensures forall k :: 0 <= k < |Words(s)| ==> IsToken(Words(s)[k])
  {
    WordsCharsIn(s);
    forall k | 0 <= k < |Words(s)| ensures IsToken(Words(s)[k]) {
      var w := Words(s)[k];
      forall i | 0 <= i < |w| ensures !IsUpper(w[i]) && !IsPunctuation(w[i]) {
        assert w[i] in s;
        var j :| 0 <= j < |s| && s[j] == w[i];
      }
    }
  }

  lemma {:induction false} JoinOfTokens(ts: seq<string>)
    requires forall k :: 0 <= k < |ts| ==> IsToken(ts[k])
    ensures NoUpper(Join(ts)) && forall i :: 0 <= i < |Join(ts)| ==> !IsPunctuation(Join(ts)[i])
    decreases |ts|
  {
    if |ts| > 1 {
      JoinOfTokens(ts[1..]);
      var a, b := ts[0] + " ", Join(ts[1..]);
      assert Join(ts) == a + b;
      forall i | 0 <= i < |Join(ts)| ensures !IsUpper(Join(ts)[i]) && !IsPunctuation(Join(ts)[i]) {
        if i < |a| { assert Join(ts)[i] == a[i]; } else { assert Join(ts)[i] == b[i - |a|]; }
      }
    }
  }

  /** No token of any message equals a multi-word entry, so those entries never match. */
  lemma TokensNotMultiWord(message: string)
    ensures forall k :: 0 <= k < |Tokenize(message)| ==> Tokenize(message)[k] !in MultiWordEntries
  {
    var tokens := Tokenize(message);
    forall k | 0 <= k < |tokens| ensures tokens[k] !in MultiWordEntries {
      SpaceFreeNotMultiWord(tokens[k]);
    }
  }

  /** On lower-case text without punctuation, tokenizing is splitting into words. */
  lemma TokenizeLowerPlain(s: string)
    requires NoUpper(s) && forall i :: 0 <= i < |s| ==> !IsPunctuation(s[i])
    ensures Tokenize(s) == Words(s)
  {
    var lowered := ToLower(s);
    assert lowered == s;
    assert StripPunctuation(lowered) == s;
  }

  /** Tokenizing the space-joined tokens gives the tokens back. */
  lemma TokenizeJoin(ts: seq<string>)
    requires forall k :: 0 <= k < |ts| ==> IsToken(ts[k])
    ensures Tokenize(Join(ts)) == ts
  {
    JoinOfTokens(ts);
    TokenizeLowerPlain(Join(ts));
    WordsOfJoin(ts);
  }

  // ---------------------------------------------------------------------
  // Time index
  // ---------------------------------------------------------------------

  datatype TimeIndex = Past | Present | Future {
    function Label(): string {
      match this
      case Past => "t_-1"
      case Present => "t_0"
      case Future => "t_+1"
    }
  }

  /** The class one token falls in, checking past first, then future, then present. */
  function TokenTime(t: string): Option<TimeIndex> {
    if t in TemporalPast || EndsWith(t, "ed") then Some(Past)
    else if t in TemporalFuture || t == "will" || t == "shall" then Some(Future)
    else if t in TemporalPresent then Some(Present)
    else None
  }

  function TimeIndexOf(tokens: seq<string>): TimeIndex
    decreases |tokens|
  {
    if tokens == [] then Present
    else match TokenTime(tokens[0])
      case Some(ti) => ti
      case None => TimeIndexOf(tokens[1..])
  }

  /** `detectTimeIndex`. */
  method DetectTimeIndex(tokens: seq<string>) returns (ti: TimeIndex)
    ensures ti == TimeIndexOf(tokens)
  {
    var i := 0;
    while i < |tokens|
      invariant 0 <= i <= |tokens|
      invariant TimeIndexOf(tokens[i..]) == TimeIndexOf(tokens)
    {
      var token := tokens[i];
      assert tokens[i..][1..] == tokens[i + 1..];
      if token in TemporalPast || EndsWith(token, "ed") {
        return Past;
      }
      if token in TemporalFuture || token == "will" || token == "shall" {
        return Future;
      }
      if token in TemporalPresent {
        return Present;
      }
      i := i + 1;
    }
    return Present;
  }

  /** The time index is the class of the first token that falls in any class, and present when none does. */
  lemma {:induction false} TimeIndexIsFirstMatch(tokens: seq<string>)
    ensures (forall k :: 0 <= k < |tokens| ==> TokenTime(tokens[k]) == None) ==> TimeIndexOf(tokens) == Present
    ensures forall k :: 0 <= k < |tokens| && TokenTime(tokens[k]) != None &&
                        (forall j :: 0 <= j < k ==> TokenTime(tokens[j]) == None) ==>
                        TimeIndexOf(tokens) == TokenTime(tokens[k]).value
    decreases |tokens|
  {
    if tokens != [] {
      TimeIndexIsFirstMatch(tokens[1..]);
      if TokenTime(tokens[0]) == None {
        forall k | 0 < k < |tokens| && TokenTime(tokens[k]) != None &&
                   (forall j :: 0 <= j < k ==> TokenTime(tokens[j]) == None)
          ensures TimeIndexOf(tokens) == TokenTime(tokens[k]).value
        {
          assert tokens[1..][k - 1] == tokens[k];
          assert forall j :: 0 <= j < k - 1 ==> tokens[1..][j] == tokens[j + 1];
        }
      }
    }
  }

  // ---------------------------------------------------------------------
  // Modality
  // ---------------------------------------------------------------------

  datatype Category = Alethic | EpistemicCategory | DeonticCategory | TemporalCategory

  /** One record pushed by `detectModality`; its symbol, strength and category follow from its type. */
  datatype ModalKind = Possibility | Necessity | Epistemic | Deontic | Temporal {
    function Symbol(): string {
      match this
      case Possibility => "\U{25C7}"
      case Necessity => "\U{25A1}"
      case Epistemic => "K"
      case Deontic => "O"
      case Temporal => "F"
    }
    function Strength(): string {
      match this
      case Possibility => "possible"
      case Necessity => "necessary"
      case Epistemic => "known"
      case Deontic => "obligatory"
      case Temporal => "future"
    }
    function Category(): Category {
      match this
      case Possibility => Alethic
      case Necessity => Alethic
      case Epistemic => EpistemicCategory
      case Deontic => DeonticCategory
      case Temporal => TemporalCategory
    }
  }

  /** The sort priority: alethic 3, epistemic 2, deontic and temporal 1. */
  function Priority(m: ModalKind): int {
    match m.Category()
    case Alethic => 3
    case EpistemicCategory => 2
    case DeonticCategory => 1
    case TemporalCategory => 1
  }

  /** The record one set test pushes, if the token is in that set. */
  function Hit(t: string, words: set<string>, m: ModalKind): seq<ModalKind> {
    if t in words then [m] else []
  }

  /** The records one token pushes, in the order of the five set tests. */
  function TokenModalities(t: string): seq<ModalKind> {
    Hit(t, ModalPossibility, Possibility) + Hit(t, ModalNecessity, Necessity) + Hit(t, ModalEpistemic, Epistemic) +
    Hit(t, ModalDeontic, Deontic) + Hit(t, ModalTemporal, Temporal)
  }

  predicate IsModalWord(t: string) {
    t in ModalPossibility || t in ModalNecessity || t in ModalEpistemic || t in ModalDeontic || t in ModalTemporal
  }

  function ModalHits(tokens: seq<string>): seq<ModalKind> {
    FlatMap(tokens, TokenModalities)
  }

  /** The first record after the stable sort by descending priority, or none. */
  function ModalityOf(tokens: seq<string>): Option<ModalKind> {
    var hits := ModalHits(tokens);
    if hits == [] then None else Some(Sorting.SortDesc(hits, Priority)[0])
  }

  /** `if (words.has(t)) modalities.push(m)`. */
  method PushHit(modalities: seq<ModalKind>, t: string, words: set<string>, m: ModalKind) returns (r: seq<ModalKind>)
    ensures r == modalities + Hit(t, words, m)
  {
    r := PushIf(modalities, t in words, m);
  }

  /** The body of `detectModality`'s loop: the five set tests for one token. */
  method PushModalities(modalities: seq<ModalKind>, token: string) returns (r: seq<ModalKind>)
    ensures r == modalities + TokenModalities(token)
  {
    var r1 := PushHit(modalities, token, ModalPossibility, Possibility);
    var r2 := PushHit(r1, token, ModalNecessity, Necessity);
    var r3 := PushHit(r2, token, ModalEpistemic, Epistemic);
    var r4 := PushHit(r3, token, ModalDeontic, Deontic);
    r := PushHit(r4, token, ModalTemporal, Temporal);
    ghost var h1, h2, h3 := Hit(token, ModalPossibility, Possibility), Hit(token, ModalNecessity, Necessity), Hit(token, ModalEpistemic, Epistemic);
    ghost var h4, h5 := Hit(token, ModalDeontic, Deontic), Hit(token, ModalTemporal, Temporal);
    assert r1 == modalities + h1;
    assert r2 == modalities + (h1 + h2);
    assert r3 == modalities + (h1 + h2 + h3);
    assert r4 == modalities + (h1 + h2 + h3 + h4);
    assert r == modalities + (h1 + h2 + h3 + h4 + h5);
  }

  /** `detectModality`. */
  method DetectModality(tokens: seq<string>) returns (m: Option<ModalKind>)
    ensures m == ModalityOf(tokens)
  {
    var modalities: seq<ModalKind> := [];
    for i := 0 to |tokens|
      invariant modalities == FlatMap(tokens[..i], TokenModalities)
    {
      FlatMapSnoc(tokens[..i], tokens[i], TokenModalities);
      assert tokens[..i + 1] == tokens[..i] + [tokens[i]];
      modalities := PushModalities(modalities, tokens[i]);
    }
    assert tokens[..|tokens|] == tokens;
    if |modalities| == 0 {
      return None;
    }
    var sorted := Sorting.SortDesc(modalities, Priority);
    return Some(sorted[0]);
  }

  /** No modality exactly when no token is in any of the five modal sets. */
  lemma ModalityNoneIff(tokens: seq<string>)
    ensures ModalityOf(tokens) == None <==> forall k :: 0 <= k < |tokens| ==> !IsModalWord(tokens[k])
  {
    FlatMapEmpty(tokens, TokenModalities);
    assert forall t :: TokenModalities(t) == [] <==> !IsModalWord(t);
  }

  /**
   * The modality found is the earliest record of highest priority: the sort
   * is stable, so among equal priorities the first pushed wins.
   */
  lemma ModalityIsEarliestStrongest(tokens: seq<string>) returns (j: nat)
    requires ModalHits(tokens) != []
    ensures j < |ModalHits(tokens)| && ModalityOf(tokens) == Some(ModalHits(tokens)[j])
    ensures forall k :: 0 <= k < |ModalHits(tokens)| ==> Priority(ModalHits(tokens)[k]) <= Priority(ModalHits(tokens)[j])
    ensures forall k :: 0 <= k < j ==> Priority(ModalHits(tokens)[k]) < Priority(ModalHits(tokens)[j])
  {
    var hits := ModalHits(tokens);
    Sorting.SortDescHead(hits, Priority);
    j := Sorting.BestIsFirst(hits, Priority);
  }

  /** A possibility or necessity word makes the modality alethic. */
  lemma AlethicWordWins(tokens: seq<string>, k: nat)
    requires k < |tokens| && (tokens[k] in ModalPossibility || tokens[k] in ModalNecessity)
    ensures ModalityOf(tokens).Some? && ModalityOf(tokens).value.Category() == Alethic
  {
    var hits := ModalHits(tokens);
    var x := if tokens[k] in ModalPossibility then Possibility else Necessity;
    assert x in TokenModalities(tokens[k]);
    FlatMapMember(tokens, TokenModalities, k, x);
    Sorting.SortDescHead(hits, Priority);
    var b := Sorting.Best(hits, Priority);
    var i :| 0 <= i < |hits| && hits[i] == x;
    assert Priority(b) >= Priority(x) == 3;
  }

  // ---------------------------------------------------------------------
  // Quantifiers and connectives
  // ---------------------------------------------------------------------

  datatype QuantifierKind = Universal | Existential {
    function Symbol(): string {
      match this
      case Universal => "\U{2200}"
      case Existential => "\U{2203}"
    }
  }

  datatype Quantifier = Quantifier(kind: QuantifierKind, word: string)

  function TokenQuantifiers(t: string): seq<Quantifier> {
    (if t in QuantifiersAll then [Quantifier(Universal, t)] else []) +
    (if t in QuantifiersExist then [Quantifier(Existential, t)] else [])
  }

  function QuantifierHits(tokens: seq<string>): seq<Quantifier> {
    FlatMap(tokens, TokenQuantifiers)
  }

  /** `detectQuantifiers`. */
  method DetectQuantifiers(tokens: seq<string>) returns (quantifiers: seq<Quantifier>)
    ensures quantifiers == QuantifierHits(tokens)
  {
    quantifiers := [];
    for i := 0 to |tokens|
      invariant quantifiers == FlatMap(tokens[..i], TokenQuantifiers)
    {
      var token := tokens[i];
      FlatMapSnoc(tokens[..i], token, TokenQuantifiers);
      assert tokens[..i + 1] == tokens[..i] + [token];
      if token in QuantifiersAll {
        quantifiers := quantifiers + [Quantifier(Universal, token)];
      }
      if token in QuantifiersExist {
        quantifiers := quantifiers + [Quantifier(Existential, token)];
      }
    }
    assert tokens[..|tokens|] == tokens;
  }

  /**
   * Every quantifier found is a token of the message in the set its kind
   * names, and every token in either set is found.
   */
  lemma QuantifiersFound(tokens: seq<string>)
    ensures forall q :: q in QuantifierHits(tokens) ==>
      q.word in tokens && (q.kind == Universal ==> q.word in QuantifiersAll) && (q.kind == Existential ==> q.word in QuantifiersExist)
    ensures forall k :: 0 <= k < |tokens| && tokens[k] in QuantifiersAll ==> Quantifier(Universal, tokens[k]) in QuantifierHits(tokens)
    ensures forall k :: 0 <= k < |tokens| && tokens[k] in QuantifiersExist ==> Quantifier(Existential, tokens[k]) in QuantifierHits(tokens)
  {
    forall q | q in QuantifierHits(tokens)
      ensures q.word in tokens && (q.kind == Universal ==> q.word in QuantifiersAll) && (q.kind == Existential ==> q.word in QuantifiersExist)
    {
      var k := FlatMapOrigin(tokens, TokenQuantifiers, q);
    }
    forall k | 0 <= k < |tokens| && tokens[k] in QuantifiersAll ensures Quantifier(Universal, tokens[k]) in QuantifierHits(tokens) {
      FlatMapMember(tokens, TokenQuantifiers, k, Quantifier(Universal, tokens[k]));
    }
    forall k | 0 <= k < |tokens| && tokens[k] in QuantifiersExist ensures Quantifier(Existential, tokens[k]) in QuantifierHits(tokens) {
      FlatMapMember(tokens, TokenQuantifiers, k, Quantifier(Existential, tokens[k]));
    }
  }

  datatype ConnectiveKind = Conjunction | Disjunction | ConditionalLink | Biconditional {
    function Symbol(): string {
      match this
      case Conjunction => "\U{2227}"
      case Disjunction => "\U{2228}"
      case ConditionalLink => "\U{2192}"
      case Biconditional => "\U{2194}"
    }
  }

  datatype Connective = Connective(kind: ConnectiveKind, word: string)

  function ConnectiveHit(t: string, words: set<string>, kind: ConnectiveKind): seq<Connective> {
    if t in words then [Connective(kind, t)] else []
  }

  /** The records one token pushes, in the order of the four set tests. */
  function TokenConnectives(t: string): seq<Connective> {
    ConnectiveHit(t, Conjunctions, Conjunction) + ConnectiveHit(t, Disjunctions, Disjunction) +
    ConnectiveHit(t, Conditionals, ConditionalLink) + ConnectiveHit(t, Biconditionals, Biconditional)
  }

  predicate IsConnectiveWord(t: string) {
    t in Conjunctions || t in Disjunctions || t in Conditionals || t in Biconditionals
  }

  function ConnectiveHits(tokens: seq<string>): seq<Connective> {
    FlatMap(tokens, TokenConnectives)
  }

  /** `if (words.has(t)) connectives.push({ type: kind, word: t })`. */
  method PushConnectiveHit(connectives: seq<Connective>, t: string, words: set<string>, kind: ConnectiveKind) returns (r: seq<Connective>)
    ensures r == connectives + ConnectiveHit(t, words, kind)
  {
    r := PushIf(connectives, t in words, Connective(kind, t));
  }

  /** The body of `detectConnectives`' loop: the four set tests for one token. */
  method PushConnectives(connectives: seq<Connective>, token: string) returns (r: seq<Connective>)
    ensures r == connectives + TokenConnectives(token)
  {
    var c1 := PushConnectiveHit(connectives, token, Conjunctions, Conjunction);
    var c2 := PushConnectiveHit(c1, token, Disjunctions, Disjunction);
    var c3 := PushConnectiveHit(c2, token, Conditionals, ConditionalLink);
    r := PushConnectiveHit(c3, token, Biconditionals, Biconditional);
    ghost var h1, h2 := ConnectiveHit(token, Conjunctions, Conjunction), ConnectiveHit(token, Disjunctions, Disjunction);
    ghost var h3, h4 := ConnectiveHit(token, Conditionals, ConditionalLink), ConnectiveHit(token, Biconditionals, Biconditional);
    assert c1 == connectives + h1;
    assert c2 == connectives + (h1 + h2);
    assert c3 == connectives + (h1 + h2 + h3);
    assert r == connectives + (h1 + h2 + h3 + h4);
  }

  /** `detectConnectives`. */
  method DetectConnectives(tokens: seq<string>) returns (connectives: seq<Connective>)
    ensures connectives == ConnectiveHits(tokens)
  {
    connectives := [];
    for i := 0 to |tokens|
      invariant connectives == FlatMap(tokens[..i], TokenConnectives)
    {
      var token := tokens[i];
      FlatMapSnoc(tokens[..i], token, TokenConnectives);
      assert tokens[..i + 1] == tokens[..i] + [token];
      connectives := PushConnectives(connectives, token);
    }
    assert tokens[..|tokens|] == tokens;
  }

  /** Connectives are found exactly when some token is a connective word. */
  lemma ConnectivesFound(tokens: seq<string>)
    ensures ConnectiveHits(tokens) != [] <==> exists k :: 0 <= k < |tokens| && IsConnectiveWord(tokens[k])
    ensures forall c :: c in ConnectiveHits(tokens) ==> c.word in tokens && IsConnectiveWord(c.word)
  {
    FlatMapEmpty(tokens, TokenConnectives);
    assert forall t :: TokenConnectives(t) == [] <==> !IsConnectiveWord(t);
    forall c | c in ConnectiveHits(tokens) ensures c.word in tokens && IsConnectiveWord(c.word) {
      var k := FlatMapOrigin(tokens, TokenConnectives, c);
    }
  }

  // ---------------------------------------------------------------------
  // Negations and vague terms
  // ---------------------------------------------------------------------

  /** A token of a given class together with its position. */
  datatype Occurrence = Occurrence(index: nat, word: string)

  function OccurrencesOf(tokens: seq<string>, words: set<string>): seq<Occurrence>
    decreases |tokens|
  {
    if tokens == [] then []
    else
      var last := |tokens| - 1;
      OccurrencesOf(tokens[..last], words) + (if tokens[last] in words then [Occurrence(last, tokens[last])] else [])
  }

  /** The loop shared by `detectNegations` and `detectVagueTerms`. */
  method CollectOccurrences(tokens: seq<string>, words: set<string>) returns (found: seq<Occurrence>)
    ensures found == OccurrencesOf(tokens, words)
  {
    found := [];
    for i := 0 to |tokens|
      invariant found == OccurrencesOf(tokens[..i], words)
    {
      assert tokens[..i + 1][..i] == tokens[..i];
      if tokens[i] in words {
        found := found + [Occurrence(i, tokens[i])];
      }
    }
    assert tokens[..|tokens|] == tokens;
  }

  /** `detectNegations`. */
  method DetectNegations(tokens: seq<string>) returns (negations: seq<Occurrence>)
    ensures negations == OccurrencesOf(tokens, Negations)
  {
    negations := CollectOccurrences(tokens, Negations);
  }

  /** `detectVagueTerms`. */
  method DetectVagueTerms(tokens: seq<string>) returns (vagueTerms: seq<Occurrence>)
    ensures vagueTerms == OccurrencesOf(tokens, VagueTerms)
  {
    vagueTerms := CollectOccurrences(tokens, VagueTerms);
  }

  /** The occurrences are exactly the positions whose token is in the set, in increasing order. */
  lemma {:induction false} OccurrencesExact(tokens: seq<string>, words: set<string>)
    ensures forall o :: o in OccurrencesOf(tokens, words) <==> o.index < |tokens| && tokens[o.index] == o.word && o.word in words
    ensures forall a, b :: 0 <= a < b < |OccurrencesOf(tokens, words)| ==>
      OccurrencesOf(tokens, words)[a].index < OccurrencesOf(tokens, words)[b].index
    decreases |tokens|
  {
    if tokens != [] {
      var last := |tokens| - 1;
      var init := tokens[..last];
      OccurrencesExact(init, words);
      var prev := OccurrencesOf(init, words);
      assert forall o :: o in prev ==> o.index < last;
      forall o ensures o in OccurrencesOf(tokens, words) <==> o.index < |tokens| && tokens[o.index] == o.word && o.word in words {
        if o.index < last {
          assert init[o.index] == tokens[o.index];
        }
      }
    }
  }

  // ---------------------------------------------------------------------
  // Complexity
  // ---------------------------------------------------------------------

  datatype Complexity = Simple | Moderate | HighlyComplex {
    function Name(): string {
      match this
      case Simple => "simple"
      case Moderate => "moderate"
      case HighlyComplex => "highly complex"
    }
  }

  function Flag(b: bool): nat { if b then 1 else 0 }

  /** Two points for a modality, one each for quantifiers, connectives and negations. */
  function ComplexityScore(tokens: seq<string>): nat {
    2 * Flag(ModalityOf(tokens).Some?) + Flag(QuantifierHits(tokens) != []) +
    Flag(ConnectiveHits(tokens) != []) + Flag(OccurrencesOf(tokens, Negations) != [])
  }

  function ComplexityOf(tokens: seq<string>): Complexity {
    var score := ComplexityScore(tokens);
    if score >= 4 then HighlyComplex
    else if score >= 2 then Moderate
    else Simple
  }

  /** `assessLogicalComplexity`, which runs the four detectors again. */
  method AssessLogicalComplexity(tokens: seq<string>) returns (complexity: Complexity)
    ensures complexity == ComplexityOf(tokens)
  {
    complexity := Simple;
    var score := 0;
    var modality := DetectModality(tokens);
    if modality.Some? {
      score := score + 2;
    }
    var quantifiers := DetectQuantifiers(tokens);
    if |quantifiers| > 0 {
      score := score + 1;
    }
    var connectives := DetectConnectives(tokens);
    if |connectives| > 0 {
      score := score + 1;
    }
    var negations := DetectNegations(tokens);
    if |negations| > 0 {
      score := score + 1;
    }
    if score >= 4 {
      complexity := HighlyComplex;
    } else if score >= 2 {
      complexity := Moderate;
    } else if score >= 1 {
      complexity := Simple;
    }
  }

  /**
   * A message is highly complex exactly when it has a modality and at least
   * two of quantifiers, connectives and negations; simple exactly when it has
   * no modality and at most one of them.
   */
  lemma ComplexityClassified(tokens: seq<string>)
    ensures var others := Flag(QuantifierHits(tokens) != []) + Flag(ConnectiveHits(tokens) != []) +
                          Flag(OccurrencesOf(tokens, Negations) != []);
      && (ComplexityOf(tokens) == HighlyComplex <==> ModalityOf(tokens).Some? && others >= 2)
      && (ComplexityOf(tokens) == Simple <==> ModalityOf(tokens).None? && others <= 1)
      && (ComplexityOf(tokens) == Moderate <==> (ModalityOf(tokens).Some? && others <= 1) || (ModalityOf(tokens).None? && others >= 2))
  {
  }

  /** Every message with a modal word is at least moderately complex. */
  lemma ModalWordNotSimple(tokens: seq<string>, k: nat)
    requires k < |tokens| && IsModalWord(tokens[k])
    ensures ComplexityOf(tokens) != Simple
  {
    ModalityNoneIff(tokens);
  }

  // ---------------------------------------------------------------------
  // Alethic status
  // ---------------------------------------------------------------------

  datatype AlethicStatus = Necessary | Possible | Contingent | Conditional | Factual {
    function Name(): string {
      match this
      case Necessary => "necessary"
      case Possible => "possible"
      case Contingent => "contingent"
      case Conditional => "conditional"
      case Factual => "factual"
    }
    function Symbol(): string {
      match this
      case Necessary => "\U{25A1}"
      case Possible => "\U{25C7}"
      case Contingent => "\U{25C7}"
      case Conditional => "\U{2192}"
      case Factual => ""
    }
    function Explanation(): string {
      match this
      case Necessary => "Logically necessary statement"
      case Possible => "Contingent or possible statement"
      case Contingent => "Future contingent statement"
      case Conditional => "Conditional statement"
      case Factual => "Factual statement about actual world"
    }
  }

  predicate HasToken(tokens: seq<string>, words: set<string>) {
    exists k :: 0 <= k < |tokens| && tokens[k] in words
  }

  /** The joined, lower-cased message that the substring tests of `determineAlethicStatus` look at. */
  function StatusText(tokens: seq<string>): string {
    ToLower(Join(tokens))
  }

  predicate Uncertain(m: string) { Contains(m, "not sure") || Contains(m, "unsure") || Contains(m, "uncertain") }
  predicate Doubting(m: string) { Contains(m, "doubt") || Contains(m, "question") || Contains(m, "wonder") }
  predicate PersonalChoice(m: string) { Contains(m, "i will") || Contains(m, "i am going to") || Contains(m, "i plan to") }
  predicate FutureAction(m: string) { Contains(m, "tomorrow") || Contains(m, "will") || Contains(m, "going to") }
  predicate ConditionalWording(m: string) { Contains(m, "if") || Contains(m, "when") || Contains(m, "provided") }
  predicate PersonalPreference(m: string) { Contains(m, "like") || Contains(m, "prefer") || Contains(m, "want") }

  /** `determineAlethicStatus`: the first of five tests that holds. */
  function AlethicStatusOf(tokens: seq<string>): AlethicStatus {
    var m := StatusText(tokens);
    var hasPossibility := HasToken(tokens, ModalPossibility);
    var hasNecessity := HasToken(tokens, ModalNecessity);
    if hasNecessity && !Uncertain(m) && !Doubting(m) then Necessary
    else if hasPossibility || Uncertain(m) || Doubting(m) || PersonalChoice(m) || PersonalPreference(m) then Possible
    else if FutureAction(m) && !hasNecessity then Contingent
    else if ConditionalWording(m) then Conditional
    else Factual
  }

  /** A necessary status always comes with an alethic modality. */
  lemma NecessaryIsAlethic(tokens: seq<string>)
    requires AlethicStatusOf(tokens) == Necessary
    ensures ModalityOf(tokens).Some? && ModalityOf(tokens).value.Category() == Alethic
  {
    var k :| 0 <= k < |tokens| && tokens[k] in ModalNecessity;
    AlethicWordWins(tokens, k);
  }

  /**
   * A necessity word leaves only the necessary and possible statuses, so the
   * `!hasNecessity` test on the contingent branch never decides anything.
   */
  lemma NecessityWordIsNecessaryOrPossible(tokens: seq<string>, k: nat)
    requires k < |tokens| && tokens[k] in ModalNecessity
    ensures AlethicStatusOf(tokens) in {Necessary, Possible}
  {
  }

  /** A possibility word makes a statement possible unless a necessity word without doubt makes it necessary. */
  lemma PossibilityWordIsPossible(tokens: seq<string>, k: nat)
    requires k < |tokens| && tokens[k] in ModalPossibility
    ensures AlethicStatusOf(tokens) == Possible || (AlethicStatusOf(tokens) == Necessary && HasToken(tokens, ModalNecessity))
  {
  }

  /** Any doubt or uncertainty makes a statement possible, whatever modal words it has. */
  lemma DoubtIsPossible(tokens: seq<string>)
    requires Uncertain(StatusText(tokens)) || Doubting(StatusText(tokens))
    ensures AlethicStatusOf(tokens) == Possible
  {
  }

  /** A statement is factual exactly when no test fires. */
  lemma FactualIff(tokens: seq<string>)
    ensures var m := StatusText(tokens);
      AlethicStatusOf(tokens) == Factual <==>
        !HasToken(tokens, ModalNecessity) && !HasToken(tokens, ModalPossibility) && !Uncertain(m) && !Doubting(m) &&
        !PersonalChoice(m) && !PersonalPreference(m) && !FutureAction(m) && !ConditionalWording(m)
  {
  }

  lemma StatusTextOf2(a: string, b: string)
    requires NoUpper(a) && NoUpper(b)
    ensures StatusText([a, b]) == a + " " + b
  {
    assert Join([a, b]) == a + " " + Join([b]);
    var j := a + " " + b;
    assert NoUpper(j) by {
      forall i | 0 <= i < |j| ensures !IsUpper(j[i]) {
        if i < |a| { assert j[i] == a[i]; } else if i > |a| { assert j[i] == b[i - |a| - 1]; }
      }
    }
  }

  /**
   * A necessity word next to a word of doubt: the modality is necessity (a
   * box) while the alethic status is possible (a diamond), because the
   * substring test for doubt overrides the necessity word. "must doubt" is
   * such a message.
   */
  lemma NecessityDespiteDoubt(tokens: seq<string>, k: nat)
    requires k < |tokens| && tokens[k] in ModalNecessity
    requires !HasToken(tokens, ModalPossibility)
    requires Doubting(StatusText(tokens))
    ensures ModalityOf(tokens) == Some(Necessity)
    ensures AlethicStatusOf(tokens) == Possible
  {
    NecessityWithoutPossibility(tokens, k);
    DoubtIsPossible(tokens);
  }

  /** A necessity word and no possibility word make the modality necessity. */
  lemma NecessityWithoutPossibility(tokens: seq<string>, k: nat)
    requires k < |tokens| && tokens[k] in ModalNecessity
    requires !HasToken(tokens, ModalPossibility)
    ensures ModalityOf(tokens) == Some(Necessity)
  {
    var hits := ModalHits(tokens);
    assert Necessity in TokenModalities(tokens[k]);
    FlatMapMember(tokens, TokenModalities, k, Necessity);
    forall y | y in hits && y.Category() == Alethic ensures y == Necessity {
      var i := FlatMapOrigin(tokens, TokenModalities, y);
      assert tokens[i] !in ModalPossibility;
    }
    AlethicHitWins(tokens, Necessity);
  }

  /** When one alethic record is the only alethic kind among the hits, it is the modality. */
  lemma AlethicHitWins(tokens: seq<string>, x: ModalKind)
    requires x.Category() == Alethic && x in ModalHits(tokens)
    requires forall y :: y in ModalHits(tokens) && y.Category() == Alethic ==> y == x
    ensures ModalityOf(tokens) == Some(x)
  {
    var hits := ModalHits(tokens);
    var j := ModalityIsEarliestStrongest(tokens);
    var n :| 0 <= n < |hits| && hits[n] == x;
    assert Priority(hits[n]) == 3;
    assert hits[j] in hits;
  }

  lemma GiftTests(m: string)
    requires m == "gift"
    ensures !Uncertain(m) && !Doubting(m) && !PersonalChoice(m) && !PersonalPreference(m) && !FutureAction(m)
    ensures ConditionalWording(m)
  {
    assert !Uncertain(m) by {
      MissingCharNotContained(m, "not sure", 'n');
      MissingCharNotContained(m, "unsure", 'n');
      MissingCharNotContained(m, "uncertain", 'n');
    }
    assert !Doubting(m) by {
      MissingCharNotContained(m, "doubt", 'd');
      MissingCharNotContained(m, "question", 'q');
      MissingCharNotContained(m, "wonder", 'w');
    }
    assert !PersonalChoice(m) by {
      MissingCharNotContained(m, "i will", 'w');
      MissingCharNotContained(m, "i am going to", 'a');
      MissingCharNotContained(m, "i plan to", 'p');
    }
    assert !PersonalPreference(m) by {
      MissingCharNotContained(m, "like", 'l');
      MissingCharNotContained(m, "prefer", 'p');
      MissingCharNotContained(m, "want", 'w');
    }
    assert !FutureAction(m) by {
      MissingCharNotContained(m, "tomorrow", 'm');
      MissingCharNotContained(m, "will", 'w');
      MissingCharNotContained(m, "going to", 'n');
    }
    assert ConditionalWording(m) by {
      ContainsAt(m, "if", 1);
    }
  }

  /** "gift" holds "if", so a single harmless word reads as conditional. */
  lemma GiftIsConditional(tokens: seq<string>)
    requires tokens == ["gift"]
    ensures AlethicStatusOf(tokens) == Conditional
  {
    assert StatusText(tokens) == "gift";
    GiftTests(StatusText(tokens));
    assert !HasToken(tokens, ModalNecessity) && !HasToken(tokens, ModalPossibility) by {
      assert forall k :: 0 <= k < |tokens| ==> tokens[k] == "gift";
    }
  }

  /** "likely" holds "like", so an epistemic word reads as a personal preference and is possible. */
  lemma LikelyIsPossible(tokens: seq<string>)
    requires tokens == ["likely"]
    ensures AlethicStatusOf(tokens) == Possible
    ensures ModalityOf(tokens) == Some(Epistemic)
  {
    var m := StatusText(tokens);
    assert m == "likely";
    ContainsAt(m, "like", 0);
    assert ModalHits(tokens) == [Epistemic] by {
      FlatMapSnoc([], "likely", TokenModalities);
      assert [] + ["likely"] == tokens;
      assert TokenModalities("likely") == [Epistemic];
    }
  }

  // ---------------------------------------------------------------------
  // Fallacies
  // ---------------------------------------------------------------------

  /** The four fallacy patterns, in the order the source lists them. */
  datatype Fallacy = BeggingTheQuestion | AdHominem | FalseDilemma | HastyGeneralization {
    function Name(): string {
      match this
      case BeggingTheQuestion => "begging the question"
      case AdHominem => "ad hominem"
      case FalseDilemma => "false dilemma"
      case HastyGeneralization => "hasty generalization"
    }
  }

  const AllFallacies: seq<Fallacy> := [BeggingTheQuestion, AdHominem, FalseDilemma, HastyGeneralization]

  /** `b` starts in `s` before any line terminator, the `.*b` tail of a pattern. */
  predicate ReachesOnLine(s: string, b: string)
    decreases |s|
  {
    StartsWith(s, b) || (|s| > 0 && !IsLineTerminator(s[0]) && ReachesOnLine(s[1..], b))
  }

  /** The regular expression `a.*b`: an `a`, later a `b`, and no line terminator between them. */
  predicate InOrder(s: string, a: string, b: string)
    decreases |s|
  {
    (StartsWith(s, a) && ReachesOnLine(s[|a|..], b)) || (|s| > 0 && InOrder(s[1..], a, b))
  }

  /** `a.*b` matches only where `a` occurs. */
  lemma {:induction false} InOrderContains(s: string, a: string, b: string)
    requires InOrder(s, a, b)
    ensures Contains(s, a)
    decreases |s|
  {
    if !StartsWith(s, a) {
      InOrderContains(s[1..], a, b);
    }
  }

  /** Whether the case-insensitive pattern of a fallacy matches somewhere in the lower-cased message. */
  predicate Matches(f: Fallacy, m: string) {
    match f
    case BeggingTheQuestion =>
      Contains(m, "assume") || Contains(m, "assumption") || Contains(m, "obviously") || Contains(m, "clearly") || Contains(m, "of course")
    case AdHominem =>
      Contains(m, "you are") || Contains(m, "you're") || Contains(m, "your") || Contains(m, "you don't") || Contains(m, "you can't")
    case FalseDilemma =>
      InOrder(m, "either", "or") || InOrder(m, "only", "or") || Contains(m, "must be") || Contains(m, "has to be")
    case HastyGeneralization =>
      Contains(m, "all") || Contains(m, "every") || Contains(m, "always") || Contains(m, "never") || Contains(m, "none") || Contains(m, "no one")
  }

  function MatchingFallacies(fs: seq<Fallacy>, m: string): seq<Fallacy>
    decreases |fs|
  {
    if fs == [] then []
    else
      var last := |fs| - 1;
      MatchingFallacies(fs[..last], m) + (if Matches(fs[last], m) then [fs[last]] else [])
  }

  function FallaciesOf(tokens: seq<string>): seq<Fallacy> {
    MatchingFallacies(AllFallacies, ToLower(Join(tokens)))
  }

  /** `detectFallacies`. */
  method DetectFallacies(tokens: seq<string>) returns (fallacies: seq<Fallacy>)
    ensures fallacies == FallaciesOf(tokens)
  {
    fallacies := [];
    var message := Join(tokens);
    var lowered := ToLower(message);
    for i := 0 to |AllFallacies|
      invariant fallacies == MatchingFallacies(AllFallacies[..i], lowered)
    {
      assert AllFallacies[..i + 1][..i] == AllFallacies[..i];
      if Matches(AllFallacies[i], lowered) {
        fallacies := fallacies + [AllFallacies[i]];
      }
    }
    assert AllFallacies[..|AllFallacies|] == AllFallacies;
  }

  /** The fallacies reported are exactly the matching ones, each once, in the source's order. */
  lemma {:induction false} MatchingFallaciesExact(fs: seq<Fallacy>, m: string)
    ensures forall f :: f in MatchingFallacies(fs, m) <==> f in fs && Matches(f, m)
    ensures |MatchingFallacies(fs, m)| <= |fs|
    decreases |fs|
  {
    if fs != [] {
      MatchingFallaciesExact(fs[..|fs| - 1], m);
      assert fs == fs[..|fs| - 1] + [fs[|fs| - 1]];
    }
  }

  lemma FallaciesExact(tokens: seq<string>)
    ensures forall f :: f in FallaciesOf(tokens) <==> Matches(f, ToLower(Join(tokens)))
    ensures |FallaciesOf(tokens)| <= 4
  {
    MatchingFallaciesExact(AllFallacies, ToLower(Join(tokens)));
    forall f ensures f in AllFallacies {
      match f
      case BeggingTheQuestion =>
      case AdHominem =>
      case FalseDilemma =>
      case HastyGeneralization =>
    }
  }

  /** "small" holds "all", so it counts as a hasty generalization. */
  lemma SmallIsHasty()
    ensures HastyGeneralization in FallaciesOf(["small"])
  {
    var m := ToLower(Join(["small"]));
    assert m == "small";
    ContainsAt(m, "all", 2);
    FallaciesExact(["small"]);
  }

  /** "either ... or" is a false dilemma. */
  lemma EitherOrIsFalseDilemma(t: string)
    requires t != [] && NoUpper(t) && NoSpace(t)
    ensures FalseDilemma in FallaciesOf(["either", t, "or"])
  {
    var ts := ["either", t, "or"];
    JoinOfTokens3(t);
    var m := ToLower(Join(ts));
    assert m == "either " + t + " or";
    ReachesAfter(m[6..], " " + t + " ", "or");
    FallaciesExact(ts);
  }

  lemma JoinOfTokens3(t: string)
    requires NoUpper(t)
    ensures ToLower(Join(["either", t, "or"])) == "either " + t + " or"
  {
    var ts := ["either", t, "or"];
    assert ts[1..] == [t, "or"];
    assert ts[1..][1..] == ["or"];
    var j := "either " + t + " or";
    assert Join(ts[1..][1..]) == "or";
    assert Join(ts[1..]) == t + " " + "or";
    assert Join(ts) == "either" + " " + (t + " " + "or");
    assert Join(ts) == j;
    assert NoUpper(j) by {
      forall i | 0 <= i < |j| ensures !IsUpper(j[i]) {
        if 7 <= i < 7 + |t| { assert j[i] == t[i - 7]; }
      }
    }
  }

  /** A line with no terminators in its first part reaches what follows it. */
  lemma {:induction false} ReachesAfter(s: string, u: string, b: string)
    requires u <= s && s[|u|..] == b && forall i :: 0 <= i < |u| ==> !IsLineTerminator(u[i])
    ensures ReachesOnLine(s, b)
    decreases |u|
  {
    if u != [] {
      assert s[1..][|u| - 1..] == s[|u|..];
      ReachesAfter(s[1..], u[1..], b);
    } else {
      assert s[..|b|] == b;
    }
  }

  // ---------------------------------------------------------------------
  // Subject, verb, object
  // ---------------------------------------------------------------------

  const Pronouns: seq<string> := ["i", "you", "he", "she", "it", "we", "they"]
  const Articles: seq<string> := ["the", "a", "an"]

  /** The verb a token stands for, if any: a form of be, have or do, or a word ending in "ing" or "ed". */
  function VerbOf(t: string): Option<string> {
    if t in ["is", "are", "was", "were", "be", "been", "being"] then Some("be")
    else if t in ["have", "has", "had", "having"] then Some("have")
    else if t in ["do", "does", "did", "doing"] then Some("do")
    else if EndsWith(t, "ing") || EndsWith(t, "ed") then Some(t)
    else None
  }

  datatype SVO = SVO(subject: Option<string>, verb: Option<string>, directObject: Option<string>)

  /** The structure after scanning `tokens`: each slot holds the last token that filled it. */
  function SVOOf(tokens: seq<string>): SVO
    decreases |tokens|
  {
    if tokens == [] then SVO(None, None, None)
    else
      var i := |tokens| - 1;
      var prev := SVOOf(tokens[..i]);
      var t := tokens[i];
      SVO(if t in Pronouns then Some(t) else prev.subject,
          if VerbOf(t).Some? then VerbOf(t) else prev.verb,
          if i > 0 && tokens[i - 1] in Articles then Some(t) else prev.directObject)
  }

  /** `extractSubjectVerbObject`. */
  method ExtractSubjectVerbObject(tokens: seq<string>) returns (svo: SVO)
    ensures svo == SVOOf(tokens)
  {
    svo := SVO(None, None, None);
    for i := 0 to |tokens|
      invariant svo == SVOOf(tokens[..i])
    {
      var token := tokens[i];
      assert tokens[..i + 1][..i] == tokens[..i];
      if token in Pronouns {
        svo := svo.(subject := Some(token));
      }
      if token in ["is", "are", "was", "were", "be", "been", "being"] {
        svo := svo.(verb := Some("be"));
      } else if token in ["have", "has", "had", "having"] {
        svo := svo.(verb := Some("have"));
      } else if token in ["do", "does", "did", "doing"] {
        svo := svo.(verb := Some("do"));
      } else if EndsWith(token, "ing") || EndsWith(token, "ed") {
        svo := svo.(verb := Some(token));
      }
      if i > 0 && tokens[i - 1] in Articles {
        svo := svo.(directObject := Some(token));
      }
    }
    assert tokens[..|tokens|] == tokens;
  }

  /** The value of the last position that has one. */
  function LastSome(xs: seq<Option<string>>): Option<string>
    decreases |xs|
  {
    if xs == [] then None
    else if xs[|xs| - 1].Some? then xs[|xs| - 1]
    else LastSome(xs[..|xs| - 1])
  }

  predicate NoneAfter(xs: seq<Option<string>>, k: int) {
    forall j :: 0 <= j < |xs| && k < j ==> xs[j].None?
  }

  /** `LastSome` is empty exactly when every position is, and otherwise is the last position that is not. */
  lemma {:induction false} LastSomeIsLast(xs: seq<Option<string>>)
    ensures LastSome(xs) == None <==> forall k :: 0 <= k < |xs| ==> xs[k].None?
    ensures forall k :: 0 <= k < |xs| && xs[k].Some? && NoneAfter(xs, k) ==> LastSome(xs) == xs[k]
    decreases |xs|
  {
    if xs != [] && xs[|xs| - 1].None? {
      var i := |xs| - 1;
      var init := xs[..i];
      LastSomeIsLast(init);
      assert LastSome(xs) == LastSome(init);
      assert forall k :: 0 <= k < i ==> init[k] == xs[k];
      forall k | 0 <= k < i && xs[k].Some? && NoneAfter(xs, k) ensures LastSome(xs) == xs[k] {
        assert NoneAfter(init, k);
      }
    }
  }

  /** What each position offers each slot. */
  function SubjectCandidates(tokens: seq<string>): seq<Option<string>> {
    seq(|tokens|, k requires 0 <= k < |tokens| => if tokens[k] in Pronouns then Some(tokens[k]) else None)
  }

  function VerbCandidates(tokens: seq<string>): seq<Option<string>> {
    seq(|tokens|, k requires 0 <= k < |tokens| => VerbOf(tokens[k]))
  }

  function ObjectCandidates(tokens: seq<string>): seq<Option<string>> {
    seq(|tokens|, k requires 0 <= k < |tokens| => if k > 0 && tokens[k - 1] in Articles then Some(tokens[k]) else None)
  }

  /** The subject slot holds the last candidate for it: later tokens overwrite earlier ones. */
  lemma {:induction false} SubjectIsLastCandidate(tokens: seq<string>)
    ensures SVOOf(tokens).subject == LastSome(SubjectCandidates(tokens))
    decreases |tokens|
  {
    if tokens != [] {
      var i := |tokens| - 1;
      SubjectIsLastCandidate(tokens[..i]);
      assert SubjectCandidates(tokens)[..i] == SubjectCandidates(tokens[..i]);
    }
  }

  /** The verb slot holds the last candidate for it: later tokens overwrite earlier ones. */
  lemma {:induction false} VerbIsLastCandidate(tokens: seq<string>)
    ensures SVOOf(tokens).verb == LastSome(VerbCandidates(tokens))
    decreases |tokens|
  {
    if tokens != [] {
      var i := |tokens| - 1;
      VerbIsLastCandidate(tokens[..i]);
      assert VerbCandidates(tokens)[..i] == VerbCandidates(tokens[..i]);
    }
  }

  /** The object slot holds the last candidate for it: later tokens overwrite earlier ones. */
  lemma {:induction false} ObjectIsLastCandidate(tokens: seq<string>)
    ensures SVOOf(tokens).directObject == LastSome(ObjectCandidates(tokens))
    decreases |tokens|
  {
    if tokens != [] {
      var i := |tokens| - 1;
      ObjectIsLastCandidate(tokens[..i]);
      assert ObjectCandidates(tokens)[..i] == ObjectCandidates(tokens[..i]);
    }
  }

  /** The subject is the last pronoun, and there is none exactly when no token is a pronoun. */
  lemma SubjectIsLastPronoun(tokens: seq<string>)
    ensures SVOOf(tokens).subject == None <==> forall k :: 0 <= k < |tokens| ==> tokens[k] !in Pronouns
    ensures forall k :: 0 <= k < |tokens| && tokens[k] in Pronouns && NoneAfter(SubjectCandidates(tokens), k) ==>
      SVOOf(tokens).subject == Some(tokens[k])
  {
    SubjectIsLastCandidate(tokens);
    var c := SubjectCandidates(tokens);
    LastSomeIsLast(c);
    assert forall k :: 0 <= k < |tokens| ==> (c[k].None? <==> tokens[k] !in Pronouns);
  }

  /** There is no verb exactly when no token is verb-like; otherwise the verb comes from the last verb-like token. */
  lemma VerbIsLastVerb(tokens: seq<string>)
    ensures SVOOf(tokens).verb == None <==> forall k :: 0 <= k < |tokens| ==> VerbOf(tokens[k]).None?
    ensures forall k :: 0 <= k < |tokens| && VerbOf(tokens[k]).Some? && NoneAfter(VerbCandidates(tokens), k) ==>
      SVOOf(tokens).verb == VerbOf(tokens[k])
  {
    VerbIsLastCandidate(tokens);
    var c := VerbCandidates(tokens);
    LastSomeIsLast(c);
    assert forall k :: 0 <= k < |tokens| ==> c[k] == VerbOf(tokens[k]);
  }

  lemma ObjectCandidatesNoneIff(tokens: seq<string>)
    ensures LastSome(ObjectCandidates(tokens)) == None <==> forall k :: 0 <= k < |tokens| - 1 ==> tokens[k] !in Articles
  {
    var c := ObjectCandidates(tokens);
    forall k | 0 <= k < |tokens| - 1 ensures c[k + 1].None? <==> tokens[k] !in Articles {
      assert c[k + 1] == if tokens[k] in Articles then Some(tokens[k + 1]) else None;
    }
    if forall k :: 0 <= k < |tokens| - 1 ==> tokens[k] !in Articles {
      forall j | 0 <= j < |c| ensures c[j].None? {
        if j > 0 { assert tokens[j - 1] !in Articles; }
      }
    }
    LastSomeIsLast(c);
  }

  lemma ObjectCandidatesLast(tokens: seq<string>)
    ensures forall k :: 0 <= k < |tokens| - 1 && tokens[k] in Articles && NoneAfter(ObjectCandidates(tokens), k + 1) ==>
      LastSome(ObjectCandidates(tokens)) == Some(tokens[k + 1])
  {
    var c := ObjectCandidates(tokens);
    forall k | 0 <= k < |tokens| - 1 && tokens[k] in Articles ensures c[k + 1] == Some(tokens[k + 1]) {
    }
    LastSomeIsLast(c);
  }

  /**
   * There is no object exactly when no article is followed by a token;
   * otherwise the object is the token after the last such article.
   */
  lemma ObjectFollowsLastArticle(tokens: seq<string>)
    ensures SVOOf(tokens).directObject == None <==> forall k :: 0 <= k < |tokens| - 1 ==> tokens[k] !in Articles
    ensures forall k :: 0 <= k < |tokens| - 1 && tokens[k] in Articles && NoneAfter(ObjectCandidates(tokens), k + 1) ==>
      SVOOf(tokens).directObject == Some(tokens[k + 1])
  {
    ObjectCandidatesNoneIff(tokens);
    ObjectCandidatesLast(tokens);
    ObjectIsLastCandidate(tokens);
  }

  // ---------------------------------------------------------------------
  // Propositions
  // ---------------------------------------------------------------------

  const Separators: seq<string> := ["and", "but", "or", "if", "when", "because"]

  /** The finished groups and the group in progress after scanning `tokens`. */
  function SplitState(tokens: seq<string>): (seq<seq<string>>, seq<string>)
    decreases |tokens|
  {
    if tokens == [] then ([], [])
    else
      var i := |tokens| - 1;
      var st := SplitState(tokens[..i]);
      var groups, current := st.0, st.1;
      if tokens[i] in Separators then
        (if |current| > 0 then groups + [current] else groups, [])
      else (groups, current + [tokens[i]])
  }

  /** The maximal runs of non-separator tokens. */
  function PropositionGroups(tokens: seq<string>): seq<seq<string>> {
    var st := SplitState(tokens);
    if |st.1| > 0 then st.0 + [st.1] else st.0
  }

  function JoinEach(groups: seq<seq<string>>): (props: seq<string>)
    ensures |props| == |groups|
    ensures forall k :: 0 <= k < |groups| ==> props[k] == Join(groups[k])
  {
    seq(|groups|, k requires 0 <= k < |groups| => Join(groups[k]))
  }

  function PropositionsOf(tokens: seq<string>): seq<string> {
    JoinEach(PropositionGroups(tokens))
  }

  /** `identifyPropositions`. */
  method IdentifyPropositions(tokens: seq<string>) returns (propositions: seq<string>)
    ensures propositions == PropositionsOf(tokens)
  {
    propositions := [];
    var currentProp: seq<string> := [];
    ghost var groups: seq<seq<string>> := [];
    for i := 0 to |tokens|
      invariant (groups, currentProp) == SplitState(tokens[..i])
      invariant propositions == JoinEach(groups)
    {
      var token := tokens[i];
      assert tokens[..i + 1][..i] == tokens[..i];
      if token in Separators {
        if |currentProp| > 0 {
          propositions := propositions + [Join(currentProp)];
          groups := groups + [currentProp];
          currentProp := [];
        }
      } else {
        currentProp := currentProp + [token];
      }
    }
    assert tokens[..|tokens|] == tokens;
    if |currentProp| > 0 {
      propositions := propositions + [Join(currentProp)];
      groups := groups + [currentProp];
    }
  }

  function Flatten(groups: seq<seq<string>>): seq<string>
    decreases |groups|
  {
    if groups == [] then [] else Flatten(groups[..|groups| - 1]) + groups[|groups| - 1]
  }

  function WithoutSeparators(tokens: seq<string>): seq<string>
    decreases |tokens|
  {
    if tokens == [] then []
    else
      var i := |tokens| - 1;
      WithoutSeparators(tokens[..i]) + (if tokens[i] in Separators then [] else [tokens[i]])
  }

  predicate GoodGroup(g: seq<string>) {
    |g| > 0 && forall k :: 0 <= k < |g| ==> g[k] !in Separators
  }

  lemma {:induction false} SplitStateProperties(tokens: seq<string>)
    ensures forall k :: 0 <= k < |SplitState(tokens).0| ==> GoodGroup(SplitState(tokens).0[k])
    ensures forall k :: 0 <= k < |SplitState(tokens).1| ==> SplitState(tokens).1[k] !in Separators
    ensures Flatten(SplitState(tokens).0) + SplitState(tokens).1 == WithoutSeparators(tokens)
    decreases |tokens|
  {
    if tokens != [] {
      var i := |tokens| - 1;
      SplitStateProperties(tokens[..i]);
      var groups, current := SplitState(tokens[..i]).0, SplitState(tokens[..i]).1;
      if tokens[i] in Separators && |current| > 0 {
        assert (groups + [current])[..|groups|] == groups;
      }
    }
  }

  /**
   * Propositions are the non-empty runs of tokens between separators: no
   * group is empty or holds a separator, and together, in order, they are the
   * tokens with the separators removed.
   */
  lemma PropositionGroupsPartition(tokens: seq<string>)
    ensures forall k :: 0 <= k < |PropositionGroups(tokens)| ==> GoodGroup(PropositionGroups(tokens)[k])
    ensures Flatten(PropositionGroups(tokens)) == WithoutSeparators(tokens)
  {
    SplitStateProperties(tokens);
    var groups, current := SplitState(tokens).0, SplitState(tokens).1;
    if |current| > 0 {
      assert (groups + [current])[..|groups|] == groups;
    }
  }

  /** Each proposition of a tokenized message tokenizes back to its group. */
  lemma PropositionsTokenizeBack(tokens: seq<string>)
    requires forall k :: 0 <= k < |tokens| ==> IsToken(tokens[k])
    ensures forall k :: 0 <= k < |PropositionsOf(tokens)| ==> Tokenize(PropositionsOf(tokens)[k]) == PropositionGroups(tokens)[k]
  {
    var groups := PropositionGroups(tokens);
    GroupsHoldTokens(tokens);
    forall k | 0 <= k < |groups| ensures Tokenize(Join(groups[k])) == groups[k] {
      TokenizeJoin(groups[k]);
    }
  }

  lemma {:induction false} GroupsHoldTokens(tokens: seq<string>)
    requires forall k :: 0 <= k < |tokens| ==> IsToken(tokens[k])
    ensures forall k, j :: 0 <= k < |PropositionGroups(tokens)| && 0 <= j < |PropositionGroups(tokens)[k]| ==>
      IsToken(PropositionGroups(tokens)[k][j])
  {
    PropositionGroupsPartition(tokens);
    var groups := PropositionGroups(tokens);
    WithoutSeparatorsIn(tokens);
    forall k, j | 0 <= k < |groups| && 0 <= j < |groups[k]| ensures IsToken(groups[k][j]) {
      FlattenIn(groups, k, j);
    }
  }

  lemma {:induction false} WithoutSeparatorsIn(tokens: seq<string>)
    ensures forall t :: t in WithoutSeparators(tokens) ==> t in tokens
    decreases |tokens|
  {
    if tokens != [] {
      WithoutSeparatorsIn(tokens[..|tokens| - 1]);
    }
  }

  lemma {:induction false} FlattenIn(groups: seq<seq<string>>, k: nat, j: nat)
    requires k < |groups| && j < |groups[k]|
    ensures groups[k][j] in Flatten(groups)
    decreases |groups|
  {
    if k < |groups| - 1 {
      FlattenIn(groups[..|groups| - 1], k, j);
    }
  }

  // ---------------------------------------------------------------------
  // The analysis record
  // ---------------------------------------------------------------------

  datatype Analysis = Analysis(
    tokens: seq<string>,
    timeIndex: TimeIndex,
    modality: Option<ModalKind>,
    quantifiers: seq<Quantifier>,
    connectives: seq<Connective>,
    negations: seq<Occurrence>,
    vagueTerms: seq<Occurrence>,
    logicalComplexity: Complexity,
    fallacies: seq<Fallacy>,
    subjectVerbObject: SVO,
    propositions: seq<string>,
    alethicStatus: AlethicStatus)

  function AnalysisOf(tokens: seq<string>): Analysis {
    Analysis(tokens, TimeIndexOf(tokens), ModalityOf(tokens), QuantifierHits(tokens), ConnectiveHits(tokens),
             OccurrencesOf(tokens, Negations), OccurrencesOf(tokens, VagueTerms), ComplexityOf(tokens),
             FallaciesOf(tokens), SVOOf(tokens), PropositionsOf(tokens), AlethicStatusOf(tokens))
  }

  /** `analyzeLogicalStructure`: every detector run on the same tokens. */
  method AnalyzeLogicalStructure(tokens: seq<string>) returns (analysis: Analysis)
    ensures analysis == AnalysisOf(tokens)
  {
    var timeIndex := DetectTimeIndex(tokens);
    var modality := DetectModality(tokens);
    var quantifiers := DetectQuantifiers(tokens);
    var connectives := DetectConnectives(tokens);
    var negations := DetectNegations(tokens);
    var vagueTerms := DetectVagueTerms(tokens);
    var complexity := AssessLogicalComplexity(tokens);
    var fallacies := DetectFallacies(tokens);
    var svo := ExtractSubjectVerbObject(tokens);
    var propositions := IdentifyPropositions(tokens);
    analysis := Analysis(tokens, timeIndex, modality, quantifiers, connectives, negations, vagueTerms,
                         complexity, fallacies, svo, propositions, AlethicStatusOf(tokens));
  }

  /** A possibility word and no necessity word make both the modality and the status possible. */
  lemma PossibilityWithoutNecessity(tokens: seq<string>, k: nat)
    requires k < |tokens| && tokens[k] in ModalPossibility
    requires !HasToken(tokens, ModalNecessity)
    ensures ModalityOf(tokens) == Some(Possibility)
    ensures AlethicStatusOf(tokens) == Possible
  {
    var hits := ModalHits(tokens);
    assert Possibility in TokenModalities(tokens[k]);
    FlatMapMember(tokens, TokenModalities, k, Possibility);
    forall y | y in hits && y.Category() == Alethic ensures y == Possibility {
      var i := FlatMapOrigin(tokens, TokenModalities, y);
      assert tokens[i] !in ModalNecessity;
    }
    AlethicHitWins(tokens, Possibility);
    PossibilityWordIsPossible(tokens, k);
  }
}
