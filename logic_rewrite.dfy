/**
 * The rewriting half of the classical logic filter: suggestions for vague
 * terms and fallacies, the restructured sentence, the markers and notation
 * appended to it, and the whole `processMessage` pipeline.
 */
module LogicRewrite {
  import opened Text
  import opened Wrappers
  import opened LogicAnalysis

  // ---------------------------------------------------------------------
  // Suggestions
  // ---------------------------------------------------------------------

  const FallbackTerm := "more specific term"

  /** The specific terms offered for each vague word. */
  const SpecificTerms: map<string, seq<string>> := map[
    "thing" := ["object", "item", "entity", "element"],
    "stuff" := ["materials", "substances", "items", "objects"],
    "something" := ["a specific item", "a particular object", "an entity"],
    "anything" := ["any object", "any item", "any entity"],
    "everything" := ["all objects", "all items", "all entities"],
    "somewhere" := ["a specific location", "a particular place"],
    "anywhere" := ["any location", "any place"],
    "somehow" := ["in some way", "by some means", "through some method"]
  ]

  /** `suggestSpecificTerms`: the table entry, or the generic fallback. */
  function SuggestSpecificTerms(vagueWord: string): (r: seq<string>)
    ensures r != []
    ensures vagueWord !in SpecificTerms ==> r == [FallbackTerm]
  {
    if vagueWord in SpecificTerms then SpecificTerms[vagueWord] else [FallbackTerm]
  }

  /** Every vague term has its own entry, none of which is the fallback. */
  lemma VagueTermsHaveSpecificTerms(w: string)
    ensures w in VagueTerms <==> w in SpecificTerms
    ensures w in VagueTerms ==> FallbackTerm !in SuggestSpecificTerms(w)
  {
  }

  const FallbackCorrection := "Consider the logical structure of your argument"

  const Corrections: map<string, string> := map[
    "begging the question" := "Provide evidence or reasoning instead of assuming the conclusion",
    "ad hominem" := "Focus on the argument rather than the person making it",
    "false dilemma" := "Consider additional options beyond the presented choices",
    "hasty generalization" := "Provide more evidence or qualify the statement"
  ]

  /** `getFallacyCorrection`, looked up by the fallacy's name. */
  function GetFallacyCorrection(fallacy: string): (r: string)
    ensures fallacy !in Corrections ==> r == FallbackCorrection
    ensures fallacy in Corrections ==> r == Corrections[fallacy]
  {
    if fallacy in Corrections then Corrections[fallacy] else FallbackCorrection
  }

  /** Each of the four fallacies has its own correction, never the fallback. */
  lemma EveryFallacyHasCorrection(f: Fallacy)
    ensures f.Name() in Corrections
    ensures GetFallacyCorrection(f.Name()) != FallbackCorrection
  {
  }

  datatype Suggestion =
    | VagueSuggestion(original: string, suggestions: seq<string>)
    | FallacySuggestion(fallacy: Fallacy, correction: string)

  /** The analysis with the suggestions `correctLogicalIssues` attaches to its copy. */
  datatype CorrectedAnalysis = CorrectedAnalysis(analysis: Analysis, suggestions: seq<Suggestion>)

  function VagueSuggestions(vagueTerms: seq<Occurrence>): seq<Suggestion> {
    seq(|vagueTerms|, i requires 0 <= i < |vagueTerms| =>
      VagueSuggestion(vagueTerms[i].word, SuggestSpecificTerms(vagueTerms[i].word)))
  }

  function FallacySuggestions(fallacies: seq<Fallacy>): seq<Suggestion> {
    seq(|fallacies|, i requires 0 <= i < |fallacies| =>
      FallacySuggestion(fallacies[i], GetFallacyCorrection(fallacies[i].Name())))
  }

  lemma VagueSuggestionsSnoc(vagueTerms: seq<Occurrence>, v: Occurrence)
    ensures VagueSuggestions(vagueTerms + [v]) == VagueSuggestions(vagueTerms) + [VagueSuggestion(v.word, SuggestSpecificTerms(v.word))]
  {
  }

  lemma FallacySuggestionsSnoc(fallacies: seq<Fallacy>, f: Fallacy)
    ensures FallacySuggestions(fallacies + [f]) == FallacySuggestions(fallacies) + [FallacySuggestion(f, GetFallacyCorrection(f.Name()))]
  {
  }

  /** `correctLogicalIssues`: one suggestion per vague term, then one per fallacy. */
  method CorrectLogicalIssues(analysis: Analysis) returns (corrected: CorrectedAnalysis)
    ensures corrected.analysis == analysis
    ensures corrected.suggestions == VagueSuggestions(analysis.vagueTerms) + FallacySuggestions(analysis.fallacies)
  {
    var suggestions: seq<Suggestion> := [];
    for i := 0 to |analysis.vagueTerms|
      invariant suggestions == VagueSuggestions(analysis.vagueTerms[..i])
    {
      var vague := analysis.vagueTerms[i];
      assert analysis.vagueTerms[..i + 1] == analysis.vagueTerms[..i] + [vague];
      VagueSuggestionsSnoc(analysis.vagueTerms[..i], vague);
      suggestions := suggestions + [VagueSuggestion(vague.word, SuggestSpecificTerms(vague.word))];
    }
    assert analysis.vagueTerms[..|analysis.vagueTerms|] == analysis.vagueTerms;
    ghost var vagueCount := |suggestions|;
    for i := 0 to |analysis.fallacies|
      invariant |suggestions| == vagueCount + i
      invariant suggestions == VagueSuggestions(analysis.vagueTerms) + FallacySuggestions(analysis.fallacies[..i])
    {
      var fallacy := analysis.fallacies[i];
      assert analysis.fallacies[..i + 1] == analysis.fallacies[..i] + [fallacy];
      FallacySuggestionsSnoc(analysis.fallacies[..i], fallacy);
      ghost var before := FallacySuggestions(analysis.fallacies[..i]);
      var next := FallacySuggestion(fallacy, GetFallacyCorrection(fallacy.Name()));
      assert (VagueSuggestions(analysis.vagueTerms) + before) + [next] == VagueSuggestions(analysis.vagueTerms) + (before + [next]);
      suggestions := suggestions + [next];
    }
    assert analysis.fallacies[..|analysis.fallacies|] == analysis.fallacies;
    corrected := CorrectedAnalysis(analysis, suggestions);
  }

  /**
   * Every vague term of an analysis gets a suggestion whose first entry
   * replaces it, and every fallacy gets its own correction.
   */
  lemma SuggestionsCoverIssues(a: Analysis)
    requires forall k :: 0 <= k < |a.vagueTerms| ==> a.vagueTerms[k].word in VagueTerms
    ensures var s := VagueSuggestions(a.vagueTerms) + FallacySuggestions(a.fallacies);
      && |s| == |a.vagueTerms| + |a.fallacies|
      && (forall k :: 0 <= k < |a.vagueTerms| ==>
            s[k].VagueSuggestion? && s[k].original == a.vagueTerms[k].word &&
            s[k].suggestions != [] && s[k].suggestions[0] != FallbackTerm)
      && (forall k :: 0 <= k < |a.fallacies| ==>
            s[|a.vagueTerms| + k] == FallacySuggestion(a.fallacies[k], Corrections[a.fallacies[k].Name()]))
  {
    var s := VagueSuggestions(a.vagueTerms) + FallacySuggestions(a.fallacies);
    forall k | 0 <= k < |a.vagueTerms| ensures s[k].suggestions != [] && s[k].suggestions[0] != FallbackTerm {
      VagueTermsHaveSpecificTerms(a.vagueTerms[k].word);
      assert s[k].suggestions[0] in SuggestSpecificTerms(a.vagueTerms[k].word);
    }
    forall k | 0 <= k < |a.fallacies|
      ensures s[|a.vagueTerms| + k] == FallacySuggestion(a.fallacies[k], Corrections[a.fallacies[k].Name()])
    {
      EveryFallacyHasCorrection(a.fallacies[k]);
    }
  }

  /** The vague terms an analysis reports are all words of the vague set. */
  lemma AnalysisVagueTermsAreVague(tokens: seq<string>)
    ensures forall k :: 0 <= k < |AnalysisOf(tokens).vagueTerms| ==> AnalysisOf(tokens).vagueTerms[k].word in VagueTerms
  {
    OccurrencesExact(tokens, VagueTerms);
    var vs := OccurrencesOf(tokens, VagueTerms);
    forall k | 0 <= k < |vs| ensures vs[k].word in VagueTerms {
      assert vs[k] in vs;
    }
  }

  // ---------------------------------------------------------------------
  // Whole-word, case-insensitive replacement
  // ---------------------------------------------------------------------

  /** The regular-expression assertion `\b` at position `i`. */
  predicate IsBoundary(s: string, i: nat) {
    (0 < i <= |s| && IsWordChar(s[i - 1])) != (i < |s| && IsWordChar(s[i]))
  }

  /** `\bw\b` with the `i` flag matches at position `i`. */
  predicate MatchAt(s: string, w: string, i: nat) {
    i + |w| <= |s| && IsBoundary(s, i) && ToLower(s[i..i + |w|]) == ToLower(w) && IsBoundary(s, i + |w|)
  }

  /**
   * `s.replace(new RegExp('\\b' + w + '\\b', 'gi'), rep)` from position `i`:
   * each match, left to right, becomes `rep`; after an empty match the
   * scan moves on by one character.
   */
  function ReplaceFrom(s: string, w: string, rep: string, i: nat): string
    requires i <= |s|
    decreases |s| - i
  {
    if MatchAt(s, w, i) then
      if |w| > 0 then rep + ReplaceFrom(s, w, rep, i + |w|)
      else rep + (if i < |s| then [s[i]] + ReplaceFrom(s, w, rep, i + 1) else [])
    else if i == |s| then []
    else [s[i]] + ReplaceFrom(s, w, rep, i + 1)
  }

  function ReplaceWord(s: string, w: string, rep: string): string {
    ReplaceFrom(s, w, rep, 0)
  }

  /** Without a match the text is left as it is. */
  lemma {:induction false} ReplaceFromNoMatch(s: string, w: string, rep: string, i: nat)
    requires i <= |s|
    requires forall j :: i <= j <= |s| ==> !MatchAt(s, w, j)
    ensures ReplaceFrom(s, w, rep, i) == s[i..]
    decreases |s| - i
  {
    if i < |s| {
      ReplaceFromNoMatch(s, w, rep, i + 1);
      assert s[i..] == [s[i]] + s[i + 1..];
    }
  }

  lemma ReplaceWordNoMatch(s: string, w: string, rep: string)
    requires forall j :: 0 <= j <= |s| ==> !MatchAt(s, w, j)
    ensures ReplaceWord(s, w, rep) == s
  {
    ReplaceFromNoMatch(s, w, rep, 0);
  }

  predicate AllWordChars(w: string) {
    forall i :: 0 <= i < |w| ==> IsWordChar(w[i])
  }

  /** A whole-word match becomes the replacement, and the scan resumes right after it. */
  lemma ReplaceFromMatch(s: string, w: string, rep: string, i: nat)
    requires i <= |s| && w != [] && MatchAt(s, w, i)
    ensures ReplaceFrom(s, w, rep, i) == rep + ReplaceFrom(s, w, rep, i + |w|)
  {
  }

  /** A text that is exactly the word, made of word characters, becomes the replacement. */
  lemma ReplaceWordWhole(w: string, rep: string)
    requires w != [] && AllWordChars(w)
    ensures ReplaceWord(w, w, rep) == rep
  {
    assert w[0..|w|] == w;
    assert IsBoundary(w, 0) && IsBoundary(w, |w|);
    ReplaceFromMatch(w, w, rep, 0);
    assert !MatchAt(w, w, |w|);
    assert rep + [] == rep;
  }

  /** A non-word character cannot take part in a match of a word made of word characters. */
  lemma NoMatchOverLast(s: string, w: string, i: nat)
    requires s != [] && !IsWordChar(s[|s| - 1]) && w != [] && AllWordChars(w)
    requires i + |w| == |s|
    ensures !MatchAt(s, w, i)
  {
    var a, b := ToLower(s[i..i + |w|]), ToLower(w);
    assert a[|w| - 1] == LowerChar(s[|s| - 1]);
    assert b[|w| - 1] == LowerChar(w[|w| - 1]);
    assert !IsWordChar(a[|w| - 1]);
    assert IsWordChar(b[|w| - 1]);
  }

  /** Replacing a word of word characters keeps a final non-word character in place. */
  lemma {:induction false} ReplaceFromKeepsLast(s: string, w: string, rep: string, i: nat)
    requires i < |s| && !IsWordChar(s[|s| - 1]) && w != [] && AllWordChars(w)
    ensures EndsIn(ReplaceFrom(s, w, rep, i), s[|s| - 1])
    decreases |s| - i
  {
    if MatchAt(s, w, i) {
      if i + |w| == |s| {
        NoMatchOverLast(s, w, i);
      } else {
        ReplaceFromKeepsLast(s, w, rep, i + |w|);
        KeepsLastAfterMatch(s, w, rep, i, s[|s| - 1]);
      }
    } else if i + 1 < |s| {
      ReplaceFromKeepsLast(s, w, rep, i + 1);
      KeepsLastAfterSkip(s, w, rep, i, s[|s| - 1]);
    } else {
      KeepsLastAtEnd(s, w, rep, i);
    }
  }

  lemma KeepsLastAfterMatch(s: string, w: string, rep: string, i: nat, c: char)
    requires w != [] && MatchAt(s, w, i) && i + |w| < |s|
    requires EndsIn(ReplaceFrom(s, w, rep, i + |w|), c)
    ensures EndsIn(ReplaceFrom(s, w, rep, i), c)
  {
    EndsInAppend(rep, ReplaceFrom(s, w, rep, i + |w|), c);
  }

  lemma KeepsLastAfterSkip(s: string, w: string, rep: string, i: nat, c: char)
    requires !MatchAt(s, w, i) && i + 1 < |s|
    requires EndsIn(ReplaceFrom(s, w, rep, i + 1), c)
    ensures EndsIn(ReplaceFrom(s, w, rep, i), c)
  {
    EndsInAppend([s[i]], ReplaceFrom(s, w, rep, i + 1), c);
  }

  lemma KeepsLastAtEnd(s: string, w: string, rep: string, i: nat)
    requires i + 1 == |s| && w != [] && !MatchAt(s, w, i)
    ensures EndsIn(ReplaceFrom(s, w, rep, i), s[i])
  {
    assert !MatchAt(s, w, i + 1);
    assert ReplaceFrom(s, w, rep, i + 1) == [];
    assert ReplaceFrom(s, w, rep, i) == [s[i]] + [];
  }

  lemma EndsInAppend(a: string, b: string, c: char)
    requires EndsIn(b, c)
    ensures EndsIn(a + b, c)
  {
    assert (a + b)[|a + b| - 1] == b[|b| - 1];
  }

  // ---------------------------------------------------------------------
  // Sentence structure
  // ---------------------------------------------------------------------

  predicate EndsSentence(c: char) { c == '.' || c == '!' || c == '?' }

  /** A full stop is added unless the text already ends with `.`, `!` or `?`. */
  function Terminate(s: string): (r: string)
    ensures r != [] && EndsSentence(r[|r| - 1])
    ensures s <= r && |r| <= |s| + 1
  {
    if s != [] && EndsSentence(s[|s| - 1]) then s else s + "."
  }

  /** `charAt(0).toUpperCase() + slice(1)`. */
  function Capitalize(s: string): (r: string)
    ensures |r| == |s|
    ensures s != [] ==> r[0] == UpperChar(s[0]) && r[1..] == s[1..]
  {
    if s == [] then [] else [UpperChar(s[0])] + s[1..]
  }

  const SpacedConnectives: seq<string> := ["and", "or", "but", "if", "when", "because"]

  /** Each connective, as a whole word in any case, replaced by itself in lower case between spaces. */
  function SpaceConnectives(s: string, connectives: seq<string>): string
    decreases |connectives|
  {
    if connectives == [] then s
    else
      var n := |connectives| - 1;
      var c := connectives[n];
      ReplaceWord(SpaceConnectives(s, connectives[..n]), c, " " + c + " ")
  }

  /** Without a whole-word match of any connective, the re-spacing leaves the text alone. */
  lemma {:induction false} SpaceConnectivesUnchanged(s: string, connectives: seq<string>)
    requires forall k, j :: 0 <= k < |connectives| && 0 <= j <= |s| ==> !MatchAt(s, connectives[k], j)
    ensures SpaceConnectives(s, connectives) == s
    decreases |connectives|
  {
    if connectives != [] {
      var n := |connectives| - 1;
      SpaceConnectivesUnchanged(s, connectives[..n]);
      ReplaceWordNoMatch(s, connectives[n], " " + connectives[n] + " ");
    }
  }

  function StructuredOf(message: string): string {
    Normalize(SpaceConnectives(Capitalize(Terminate(message)), SpacedConnectives))
  }

  /** `ensureLogicalStructure`. */
  method EnsureLogicalStructure(message: string) returns (structured: string)
    ensures structured == StructuredOf(message)
  {
    structured := message;
    if !(structured != [] && structured[|structured| - 1] == '.') &&
       !(structured != [] && structured[|structured| - 1] == '!') &&
       !(structured != [] && structured[|structured| - 1] == '?') {
      structured := structured + ".";
    }
    structured := [UpperChar(structured[0])] + structured[1..];
    ghost var capitalized := structured;
    for i := 0 to |SpacedConnectives|
      invariant structured == SpaceConnectives(capitalized, SpacedConnectives[..i])
    {
      var connective := SpacedConnectives[i];
      assert SpacedConnectives[..i + 1][..i] == SpacedConnectives[..i];
      structured := ReplaceWord(structured, connective, " " + connective + " ");
    }
    assert SpacedConnectives[..|SpacedConnectives|] == SpacedConnectives;
    structured := Normalize(structured);
  }

  lemma {:induction false} SpaceConnectivesKeepsLast(s: string, connectives: seq<string>)
    requires s != [] && !IsWordChar(s[|s| - 1])
    requires forall k :: 0 <= k < |connectives| ==> connectives[k] != [] && AllWordChars(connectives[k])
    ensures EndsIn(SpaceConnectives(s, connectives), s[|s| - 1])
    decreases |connectives|
  {
    if connectives != [] {
      var n := |connectives| - 1;
      SpaceConnectivesKeepsLast(s, connectives[..n]);
      ReplaceFromKeepsLast(SpaceConnectives(s, connectives[..n]), connectives[n], " " + connectives[n] + " ", 0);
    }
  }

  /**
   * The structured sentence is non-empty, single-spaced with no whitespace at
   * either end, and ends with `.`, `!` or `?`.
   */
  lemma StructuredWellFormed(message: string)
    ensures WellFormedSentence(StructuredOf(message))
  {
    var t := Capitalize(Terminate(message));
    assert t[|t| - 1] == Terminate(message)[|t| - 1];
    SpacedConnectivesAreWords();
    SpacedWellFormed(t, SpacedConnectives);
  }

  lemma StructuredEndsSentence(message: string)
    ensures EndsWithSentenceMark(StructuredOf(message))
  {
    StructuredWellFormed(message);
  }

  lemma SpacedConnectivesAreWords()
    ensures forall k :: 0 <= k < |SpacedConnectives| ==> SpacedConnectives[k] != [] && AllWordChars(SpacedConnectives[k])
  {
  }

  /** Non-empty and ending with `.`, `!` or `?`. */
  predicate EndsWithSentenceMark(r: string) {
    r != [] && EndsSentence(r[|r| - 1])
  }

  /** Single-spaced with no whitespace at either end, and ending with `.`, `!` or `?`. */
  predicate WellFormedSentence(r: string) {
    EndsWithSentenceMark(r) && Tidy(r)
  }

  /** Re-spacing word connectives and normalising keeps a sentence-ending character at the end. */
  lemma SpacedWellFormed(t: string, connectives: seq<string>)
    requires t != [] && EndsSentence(t[|t| - 1])
    requires forall k :: 0 <= k < |connectives| ==> connectives[k] != [] && AllWordChars(connectives[k])
    ensures WellFormedSentence(Normalize(SpaceConnectives(t, connectives)))
  {
    SpaceConnectivesKeepsLast(t, connectives);
    NormalizedSentence(SpaceConnectives(t, connectives));
  }

  /** Normalising text that ends with a sentence mark gives a well-formed sentence. */
  lemma NormalizedSentence(x: string)
    requires EndsWithSentenceMark(x)
    ensures WellFormedSentence(Normalize(x))
  {
    NormalizeKeepsLast(x);
    NormalizeTidy(x);
  }

  /** Positions without a match are copied as they are. */
  lemma {:induction false} ReplaceFromSkip(s: string, w: string, rep: string, i: nat, k: nat)
    requires i <= k <= |s|
    requires forall j :: i <= j < k ==> !MatchAt(s, w, j)
    ensures ReplaceFrom(s, w, rep, i) == s[i..k] + ReplaceFrom(s, w, rep, k)
    decreases k - i
  {
    if i < k {
      assert !MatchAt(s, w, i);
      ReplaceFromSkip(s, w, rep, i + 1, k);
      var tail := ReplaceFrom(s, w, rep, k);
      assert s[i..k] == [s[i]] + s[i + 1..k];
      assert s[i..k] + tail == [s[i]] + (s[i + 1..k] + tail);
    }
  }

  /** None of the connectives after "and" in the list can match inside a leading " and". */
  lemma NoMatchInLeadingAnd(t: string, k: nat)
    requires 1 <= k < |SpacedConnectives| && |t| >= 4 && t[..4] == " and"
    ensures forall j :: 0 <= j < 4 ==> !MatchAt(t, SpacedConnectives[k], j)
  {
    var w := SpacedConnectives[k];
    assert w[0] != 'a' && w[0] != ' ';
    assert t[0] == ' ' && t[1] == 'a' && t[2] == 'n' && t[3] == 'd';
    assert ToLower(w)[0] == LowerChar(w[0]);
    if |w| <= |t| {
      assert ToLower(t[0..|w|])[0] == LowerChar(t[0]);
    }
    if 1 + |w| <= |t| {
      assert ToLower(t[1..1 + |w|])[0] == LowerChar(t[1]);
    }
    assert !IsBoundary(t, 2) && !IsBoundary(t, 3);
  }

  /** Once the text starts with " and", the remaining connectives leave that start alone. */
  lemma {:induction false} SpacedStartKept(c: string, k: nat)
    requires 1 <= k <= |SpacedConnectives|
    requires |ReplaceWord(c, "and", " and ")| >= 4 && ReplaceWord(c, "and", " and ")[..4] == " and"
    ensures |SpaceConnectives(c, SpacedConnectives[..k])| >= 4 && SpaceConnectives(c, SpacedConnectives[..k])[..4] == " and"
    decreases k
  {
    var cs := SpacedConnectives[..k];
    assert cs[..k - 1] == SpacedConnectives[..k - 1];
    assert |cs| == k && cs[k - 1] == SpacedConnectives[k - 1];
    if k == 1 {
      assert cs[..0] == [] && cs[0] == "and";
      assert SpaceConnectives(c, cs[..0]) == c;
      assert " " + "and" + " " == " and ";
      assert SpaceConnectives(c, cs) == ReplaceWord(c, "and", " and ");
    } else {
      SpacedStartKept(c, k - 1);
      var prev := SpaceConnectives(c, SpacedConnectives[..k - 1]);
      var w := SpacedConnectives[k - 1];
      NoMatchInLeadingAnd(prev, k - 1);
      ReplaceFromSkip(prev, w, " " + w + " ", 0, 4);
      var next := ReplaceWord(prev, w, " " + w + " ");
      assert next == prev[0..4] + ReplaceFrom(prev, w, " " + w + " ", 4);
      assert SpaceConnectives(c, cs) == next;
      assert next[..4] == prev[0..4];
    }
  }

  /**
   * The sentence is capitalised before the connectives are re-spaced, so a
   * sentence that begins with "and" comes out beginning with lower-case
   * "and" again.
   */
  lemma LeadingConnectiveLowered(rest: string)
    requires rest != [] && rest[0] == ' '
    ensures "and" <= StructuredOf("and" + rest)
  {
    var c := CapitalizedLeadingAnd(rest);
    var spaced := SpacedLeadingAnd(c);
    NormalizeLeadingWord("and", spaced[4..]);
  }

  /** A text that starts with a match of "and" comes out of the re-spacing starting with " and". */
  lemma SpacedLeadingAnd(c: string) returns (spaced: string)
    requires MatchAt(c, "and", 0)
    ensures spaced == SpaceConnectives(c, SpacedConnectives)
    ensures |spaced| >= 4 && spaced == " " + "and" + spaced[4..]
  {
    var replaced := ReplaceWord(c, "and", " and ");
    assert replaced == " and " + ReplaceFrom(c, "and", " and ", 3);
    SpacedStartKept(c, |SpacedConnectives|);
    assert SpacedConnectives[..|SpacedConnectives|] == SpacedConnectives;
    spaced := SpaceConnectives(c, SpacedConnectives);
    assert spaced == spaced[..4] + spaced[4..];
  }

  /** Capitalised, the leading "and" becomes "And", which the case-blind pattern still matches. */
  lemma CapitalizedLeadingAnd(rest: string) returns (c: string)
    requires rest != [] && rest[0] == ' '
    ensures c == Capitalize(Terminate("and" + rest)) && MatchAt(c, "and", 0)
  {
    var t := Terminate("and" + rest);
    assert t[..4] == "and ";
    c := Capitalize(t);
    assert UpperChar(t[0]) == 'A';
    assert c[0] == 'A';
    assert c[1..] == t[1..];
    assert c[1] == 'n' && c[2] == 'd' && c[3] == ' ';
    assert c[0..3] == ['A', 'n', 'd'];
    assert ToLower(c[0..3]) == "and";
  }

  // ---------------------------------------------------------------------
  // Markers and notation
  // ---------------------------------------------------------------------

  function TimeMarker(t: TimeIndex): string {
    match t
    case Past => " (in the past)"
    case Present => " (currently)"
    case Future => " (in the future)"
  }

  /** `addTemporalIndexing`. */
  function AddTemporalIndexing(message: string, t: TimeIndex): (r: string)
    ensures message < r && r[|r| - 1] == ')'
  {
    message + TimeMarker(t)
  }

  function ModalMarker(status: AlethicStatus): string {
    match status
    case Necessary => " (necessarily)"
    case Possible => " (possibly)"
    case Contingent => " (contingently)"
    case Conditional => " (conditionally)"
    case Factual => ""
  }

  /** `addModalOperators`: factual statements stay as they are. */
  function AddModalOperators(message: string, status: AlethicStatus): (r: string)
    ensures status == Factual <==> r == message
    ensures status != Factual ==> message < r && r[|r| - 1] == ')'
  {
    if status == Factual then message else message + ModalMarker(status)
  }

  function QuantifierSymbols(qs: seq<Quantifier>): string
    decreases |qs|
  {
    if qs == [] then "" else QuantifierSymbols(qs[..|qs| - 1]) + qs[|qs| - 1].kind.Symbol()
  }

  function QuantifierPart(a: Analysis): string {
    if |a.quantifiers| > 0 then QuantifierSymbols(a.quantifiers) + " " else ""
  }

  function ModalPart(a: Analysis): string {
    if a.alethicStatus.Symbol() != "" then a.alethicStatus.Symbol() + " "
    else if a.modality.Some? then a.modality.value.Symbol() + " "
    else ""
  }

  function NotationBody(a: Analysis): string {
    QuantifierPart(a) + ModalPart(a) + "(" + a.timeIndex.Label() + ")"
  }

  /** `generateLogicalNotation`. */
  function GenerateLogicalNotation(a: Analysis): string {
    Trim(NotationBody(a))
  }

  lemma {:induction false} QuantifierSymbolsShape(qs: seq<Quantifier>)
    ensures |QuantifierSymbols(qs)| == |qs|
    ensures forall i :: 0 <= i < |qs| ==> [QuantifierSymbols(qs)[i]] == qs[i].kind.Symbol()
    decreases |qs|
  {
    if qs != [] {
      QuantifierSymbolsShape(qs[..|qs| - 1]);
    }
  }

  lemma QuantifierPartStart(a: Analysis)
    ensures QuantifierPart(a) == [] || !IsSpace(QuantifierPart(a)[0])
  {
    QuantifierSymbolsShape(a.quantifiers);
    if |a.quantifiers| > 0 {
      assert [QuantifierPart(a)[0]] == a.quantifiers[0].kind.Symbol();
    }
  }

  lemma ModalPartStart(a: Analysis)
    ensures ModalPart(a) == [] || !IsSpace(ModalPart(a)[0])
  {
  }

  /** The notation neither starts nor ends with whitespace, so trimming it removes nothing. */
  lemma NotationUntrimmed(a: Analysis)
    ensures GenerateLogicalNotation(a) == NotationBody(a)
  {
    var q, m, tail := QuantifierPart(a), ModalPart(a), "(" + a.timeIndex.Label() + ")";
    var body := NotationBody(a);
    assert body == q + m + tail;
    QuantifierPartStart(a);
    ModalPartStart(a);
    assert body[|body| - 1] == ')';
    if q != [] {
      assert body[0] == q[0];
    } else if m != [] {
      assert body[0] == m[0];
    } else {
      assert body[0] == '(';
    }
    TrimUnchanged(body);
  }

  lemma NotationBodyShape(a: Analysis)
    ensures EndsWith(NotationBody(a), "(" + a.timeIndex.Label() + ")")
    ensures |a.quantifiers| < |NotationBody(a)|
    ensures forall i :: 0 <= i < |a.quantifiers| ==> [NotationBody(a)[i]] == a.quantifiers[i].kind.Symbol()
  {
    var q, m, tail := QuantifierPart(a), ModalPart(a), "(" + a.timeIndex.Label() + ")";
    var body := NotationBody(a);
    assert body == (q + m) + tail;
    assert body[|q + m|..] == tail;
    QuantifierSymbolsShape(a.quantifiers);
    forall i | 0 <= i < |a.quantifiers| ensures [body[i]] == a.quantifiers[i].kind.Symbol() {
      assert body[i] == q[i];
    }
  }

  /**
   * The notation starts with one quantifier symbol per quantifier, in order,
   * and ends with the time label in parentheses.
   */
  lemma NotationShape(a: Analysis)
    ensures EndsWith(GenerateLogicalNotation(a), "(" + a.timeIndex.Label() + ")")
    ensures |a.quantifiers| < |GenerateLogicalNotation(a)|
    ensures forall i :: 0 <= i < |a.quantifiers| ==> [GenerateLogicalNotation(a)[i]] == a.quantifiers[i].kind.Symbol()
  {
    NotationUntrimmed(a);
    NotationBodyShape(a);
  }

  /** `addLogicalNotation`: only highly complex messages or messages with several connectives get notation. */
  function AddLogicalNotation(message: string, a: Analysis): (r: string)
    ensures message <= r
    ensures r == message <==> !(a.logicalComplexity == HighlyComplex || |a.connectives| > 1)
    ensures r != message ==> r[|r| - 1] == ']'
  {
    if a.logicalComplexity == HighlyComplex || |a.connectives| > 1 then
      message + "\n\n[Logical notation: " + GenerateLogicalNotation(a) + "]"
    else message
  }

  // ---------------------------------------------------------------------
  // Restructuring and the pipeline
  // ---------------------------------------------------------------------

  /** The vague-term replacements applied in order. */
  function ApplySuggestions(s: string, suggestions: seq<Suggestion>): string
    decreases |suggestions|
  {
    if suggestions == [] then s
    else
      var n := |suggestions| - 1;
      var prev := ApplySuggestions(s, suggestions[..n]);
      var sg := suggestions[n];
      if sg.VagueSuggestion? && |sg.suggestions| > 0 then ReplaceWord(prev, sg.original, sg.suggestions[0]) else prev
  }

  /** The time marker unless the statement is about the present, then the modal marker. */
  function AddMarkers(structured: string, t: TimeIndex, status: AlethicStatus): string {
    var timed := if t != Present then AddTemporalIndexing(structured, t) else structured;
    AddModalOperators(timed, status)
  }

  function RestructuredOf(c: CorrectedAnalysis): string {
    var replaced := ApplySuggestions(Join(c.analysis.tokens), c.suggestions);
    AddMarkers(StructuredOf(replaced), c.analysis.timeIndex, c.analysis.alethicStatus)
  }

  /** `restructureToClassicalLogic`. */
  method RestructureToClassicalLogic(c: CorrectedAnalysis) returns (restructured: string)
    ensures restructured == RestructuredOf(c)
  {
    restructured := Join(c.analysis.tokens);
    ghost var joined := restructured;
    for i := 0 to |c.suggestions|
      invariant restructured == ApplySuggestions(joined, c.suggestions[..i])
    {
      var suggestion := c.suggestions[i];
      assert c.suggestions[..i + 1][..i] == c.suggestions[..i];
      if suggestion.VagueSuggestion? && |suggestion.suggestions| > 0 {
        restructured := ReplaceWord(restructured, suggestion.original, suggestion.suggestions[0]);
      }
    }
    assert c.suggestions[..|c.suggestions|] == c.suggestions;
    restructured := EnsureLogicalStructure(restructured);
    if c.analysis.timeIndex != Present {
      restructured := AddTemporalIndexing(restructured, c.analysis.timeIndex);
    }
    restructured := AddModalOperators(restructured, c.analysis.alethicStatus);
  }

  /** Non-empty, and ending with a sentence mark or the closing parenthesis of a marker. */
  predicate EndsSentenceOrMarker(r: string) {
    r != [] && (EndsSentence(r[|r| - 1]) || r[|r| - 1] == ')')
  }

  /** Non-empty, and ending with a sentence mark, a marker's `)` or the notation's `]`. */
  predicate EndsSentenceMarkerOrNotation(p: string) {
    p != [] && (EndsSentence(p[|p| - 1]) || p[|p| - 1] == ')' || p[|p| - 1] == ']')
  }

  /** The markers extend the sentence, and are absent exactly for a factual statement about the present. */
  lemma MarkersShape(structured: string, t: TimeIndex, status: AlethicStatus)
    requires EndsWithSentenceMark(structured)
    ensures var r := AddMarkers(structured, t, status);
      && EndsSentenceOrMarker(r) && structured <= r
      && (r == structured <==> t == Present && status == Factual)
  {
  }

  /** The restructured message is the structured sentence followed by at most a time marker and a modal marker. */
  lemma RestructuredShape(c: CorrectedAnalysis)
    ensures var structured := StructuredOf(ApplySuggestions(Join(c.analysis.tokens), c.suggestions));
      var r := RestructuredOf(c);
      && EndsSentenceOrMarker(r) && structured <= r
      && (r == structured <==> c.analysis.timeIndex == Present && c.analysis.alethicStatus == Factual)
  {
    var structured := StructuredOf(ApplySuggestions(Join(c.analysis.tokens), c.suggestions));
    StructuredEndsSentence(ApplySuggestions(Join(c.analysis.tokens), c.suggestions));
    MarkersShape(structured, c.analysis.timeIndex, c.analysis.alethicStatus);
    assert RestructuredOf(c) == AddMarkers(structured, c.analysis.timeIndex, c.analysis.alethicStatus);
  }

  /** `getChanges`. */
  function GetChanges(original: string, processed: string): (changes: seq<string>)
    ensures changes == [] <==> original == processed
    ensures |changes| <= 1
  {
    if original != processed then ["Message restructured for classical logic compliance"] else []
  }

  datatype Processed = Processed(original: string, processed: string, analysis: CorrectedAnalysis, changes: seq<string>)

  function CorrectedOf(a: Analysis): CorrectedAnalysis {
    CorrectedAnalysis(a, VagueSuggestions(a.vagueTerms) + FallacySuggestions(a.fallacies))
  }

  /** What the pipeline makes of a message once its analysis has been corrected. */
  function ProcessedFrom(originalMessage: string, corrected: CorrectedAnalysis): Processed {
    var finalMessage := AddLogicalNotation(RestructuredOf(corrected), corrected.analysis);
    Processed(originalMessage, finalMessage, corrected, GetChanges(originalMessage, finalMessage))
  }

  function ProcessedOf(originalMessage: string): Processed {
    ProcessedFrom(originalMessage, CorrectedOf(AnalysisOf(Tokenize(CleanMessage(originalMessage)))))
  }

  /** `processMessage`. */
  method ProcessMessage(originalMessage: string) returns (result: Processed)
    ensures result == ProcessedOf(originalMessage)
  {
    var cleanedMessage := CleanMessage(originalMessage);
    var tokens := Tokenize(cleanedMessage);
    var analysis := AnalyzeLogicalStructure(tokens);
    var correctedAnalysis := CorrectLogicalIssues(analysis);
    var restructuredMessage := RestructureToClassicalLogic(correctedAnalysis);
    var finalMessage := AddLogicalNotation(restructuredMessage, correctedAnalysis.analysis);
    result := Processed(originalMessage, finalMessage, correctedAnalysis, GetChanges(originalMessage, finalMessage));
  }

  /**
   * Whatever the input, the processed message is non-empty and ends with a
   * sentence mark, a closing parenthesis of a marker or the closing bracket of
   * the notation; the changes are empty exactly when nothing changed.
   */
  lemma ProcessedEnding(originalMessage: string)
    ensures EndsSentenceMarkerOrNotation(ProcessedOf(originalMessage).processed)
    ensures ProcessedOf(originalMessage).changes == [] <==> ProcessedOf(originalMessage).processed == originalMessage
  {
    ProcessedFromEnding(originalMessage, CorrectedOf(AnalysisOf(Tokenize(CleanMessage(originalMessage)))));
  }

  lemma ProcessedFromEnding(originalMessage: string, corrected: CorrectedAnalysis)
    ensures EndsSentenceMarkerOrNotation(ProcessedFrom(originalMessage, corrected).processed)
  {
    var r := RestructuredOf(corrected);
    RestructuredEnding(corrected);
    NotationEnding(r, corrected.analysis);
    assert ProcessedFrom(originalMessage, corrected).processed == AddLogicalNotation(r, corrected.analysis);
  }

  lemma RestructuredEnding(c: CorrectedAnalysis)
    ensures EndsSentenceOrMarker(RestructuredOf(c))
  {
    RestructuredShape(c);
  }

  lemma NotationEnding(r: string, a: Analysis)
    requires EndsSentenceOrMarker(r)
    ensures EndsSentenceMarkerOrNotation(AddLogicalNotation(r, a))
  {
  }

  /** Every vague term of the cleaned message is offered specific terms rather than the fallback. */
  lemma ProcessedSuggestionsSpecific(originalMessage: string)
    ensures var a := ProcessedOf(originalMessage).analysis;
      forall k :: 0 <= k < |a.analysis.vagueTerms| ==>
        a.suggestions[k].VagueSuggestion? && a.suggestions[k].suggestions[0] != FallbackTerm
  {
    var tokens := Tokenize(CleanMessage(originalMessage));
    AnalysisVagueTermsAreVague(tokens);
    SuggestionsCoverIssues(AnalysisOf(tokens));
  }
}
