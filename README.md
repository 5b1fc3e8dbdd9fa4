# Modal Realism Calculator Suite — a verified model of its core

The Modal Realism Calculator Suite is a web application about David Lewis's
modal realism. Its calculators and quiz are not modelled here. This project
models three standalone modules of the repository in Dafny:

- **The classical-logic filter** (`classical-logic-filter.js`). It cleans a chat
  message and splits it into tokens. It then detects the message's time index,
  modality, quantifiers, connectives, negations, vague terms, complexity,
  alethic status, fallacies, subject–verb–object and propositions. Finally it
  rewrites the message: vague words are replaced, the sentence is terminated,
  capitalised and re-spaced around connectives, temporal and modal markers are
  added, and, for complex messages, a logical notation is appended.
- **The AI assistant** (`ai-assistant.js`). It routes a normalised query to a
  conceptual answer, calculation help, a greeting, a calculation request or
  the general reply. Calculation requests are answered with a primality test
  and a prime factorisation of the first number in the query. The assistant
  keeps a conversation history and offers suggestions that depend on the page.
- **The JSON-file database** (`database-simple.js`). It covers user updates,
  the online-user list, calculation history (save, newest-first listing,
  delete), user preferences (upsert and read back with defaults) and the
  messages between two users, oldest first.

Layout, one module per file:

| file | module | contents |
|---|---|---|
| `wrappers.dfy` | `Wrappers` | `Option` |
| `collections.dfy` | `Collections` | `FlatMap`, `FirstIndex` (`Array.find`/`findIndex`), `Filter` (`Array.filter`) |
| `sorting.dfy` | `Sorting` | a stable sort by a descending integer key (`Array.sort` with a numeric comparator) |
| `text.dfy` | `Text` | JavaScript string primitives: `\s`, `\w`, ASCII case mapping, `includes`, `trim`, `/\s+/g` squeezing, `split(/\s+/)`, decimal numerals |
| `logic_analysis.dfy` | `LogicAnalysis` | the filter's analysis phase |
| `logic_rewrite.dfy` | `LogicRewrite` | the filter's correction and restructuring phase, and `processMessage` |
| `primes.dfy` | `Primes` | `isPrime` and `getPrimeFactors` as loops, proved against `Prime` and `IsPrimeFactorization` |
| `assistant.dfy` | `Assistant` | query routing, the responses, and the `ModalRealismAI` class with its history |
| `store.dfy` | `Store` | the database tables as sequences of records, with the `Database` class and its methods |
| `pipeline_cases.dfy` | `PipelineCases` | `processMessage` worked through on the message "thing" |

The source's loops (`forEach` over tokens, the `while` loops of the prime
code) are methods with loop invariants. Each one is proved equal to a
specification function, and the properties are lemmas about that function.
The two classes whose fields the source updates in place, `ModalRealismAI`
and the database, are Dafny classes whose methods state their whole new
state. A JSON record is a `map<string, Value>`, and object spread
(`{...a, ...b}`) is the right-biased map union `a + b`.

## Model

| member | source | states |
|---|---|---|
| LogicAnalysis.CleanMessage | classical-logic-filter.js:85-90 | the cleaned message holds only word characters, whitespace and the kept punctuation, is single-spaced and trimmed |
| LogicAnalysis.CleanMessageIdempotent | classical-logic-filter.js:85-90 | cleaning an already cleaned message changes nothing |
| LogicAnalysis.Tokenize | classical-logic-filter.js:93-98 | every token is non-empty, lower-case and free of whitespace and of `.,!?;:` (parentheses survive) |
| LogicAnalysis.TokenizeJoin | classical-logic-filter.js:93-98 | tokenizing the space-joined tokens gives the same tokens back |
| LogicAnalysis.TokensNotMultiWord | classical-logic-filter.js:7-32 | the multi-word entries of the word lists ("going to", "about to", "at least one", "at present", "provided that", "given that", "if and only if", "exactly when", "precisely when") can never equal a token, so they never match |
| LogicAnalysis.DetectTimeIndex | classical-logic-filter.js:151-164 | the loop computes the time index of the first token that names a time, and Present when none does |
| LogicAnalysis.TimeIndexIsFirstMatch | classical-logic-filter.js:151-164 | no time word gives Present; otherwise the first time word decides |
| LogicAnalysis.DetectModality | classical-logic-filter.js:167-196 | the loop and the stable sort by strength compute the spec function `ModalityOf` |
| LogicAnalysis.ModalityNoneIff | classical-logic-filter.js:167-196 | there is no modality exactly when no token is a modal word |
| LogicAnalysis.ModalityIsEarliestStrongest | classical-logic-filter.js:167-196 | the chosen modality has the highest strength, and it is the earliest hit among those of that strength |
| LogicAnalysis.AlethicWordWins | classical-logic-filter.js:167-196 | one possibility or necessity word makes the modality alethic |
| LogicAnalysis.DetectQuantifiers | classical-logic-filter.js:199-210 | the loop computes `QuantifierHits` |
| LogicAnalysis.QuantifiersFound | classical-logic-filter.js:199-210 | every universal or existential word yields its quantifier, and each quantifier found comes from a token |
| LogicAnalysis.DetectConnectives | classical-logic-filter.js:213-230 | the loop computes `ConnectiveHits` |
| LogicAnalysis.ConnectivesFound | classical-logic-filter.js:213-230 | connectives are found exactly when some token is a connective word, and each comes from a token |
| LogicAnalysis.DetectNegations | classical-logic-filter.js:233-241 | the loop collects the negation words with their indices |
| LogicAnalysis.DetectVagueTerms | classical-logic-filter.js:244-252 | the loop collects the vague words with their indices |
| LogicAnalysis.OccurrencesExact | classical-logic-filter.js:233-252 | an occurrence is listed exactly when its token is in the word set, in increasing index order |
| LogicAnalysis.AssessLogicalComplexity | classical-logic-filter.js:255-269 | the method computes `ComplexityOf` |
| LogicAnalysis.ComplexityClassified | classical-logic-filter.js:255-269 | Highly complex, Moderate or Simple, in both directions, from the modality and the count of the other three indicators |
| LogicAnalysis.ModalWordNotSimple | classical-logic-filter.js:255-269 | a message with a modal word is never Simple |
| LogicAnalysis.FactualIff | classical-logic-filter.js:121-148 | the status is Factual exactly when none of the modal words and none of the six phrase tests applies |
| LogicAnalysis.NecessaryIsAlethic | classical-logic-filter.js:121-148 | Necessary only arises from an alethic modality |
| LogicAnalysis.NecessityWordIsNecessaryOrPossible | classical-logic-filter.js:121-148 | a necessity word gives Necessary or Possible |
| LogicAnalysis.PossibilityWordIsPossible | classical-logic-filter.js:121-148 | a possibility word gives Possible, unless a necessity word also appears and wins |
| LogicAnalysis.DoubtIsPossible | classical-logic-filter.js:121-148 | uncertain or doubting wording gives Possible |
| LogicAnalysis.NecessityWithoutPossibility | classical-logic-filter.js:167-196 | a necessity word without any possibility word gives the Necessity modality |
| LogicAnalysis.NecessityDespiteDoubt | classical-logic-filter.js:121-148 | a necessity word with doubting wording keeps the Necessity modality, yet its status is Possible |
| LogicAnalysis.PossibilityWithoutNecessity | classical-logic-filter.js:121-148 | a possibility word without any necessity word gives the Possibility modality and Possible |
| LogicAnalysis.GiftIsConditional | classical-logic-filter.js:121-148 | "gift" contains "if", so the message "gift" counts as Conditional |
| LogicAnalysis.LikelyIsPossible | classical-logic-filter.js:121-148 | "likely" contains "like", so it counts as a preference: its status is Possible, and its modality is epistemic |
| LogicAnalysis.DetectFallacies | classical-logic-filter.js:272-283 | the loop computes `FallaciesOf` |
| LogicAnalysis.FallaciesExact | classical-logic-filter.js:35-40 | a fallacy is reported exactly when its pattern matches the lower-cased message; there are at most four |
| LogicAnalysis.SmallIsHasty | classical-logic-filter.js:35-40 | the patterns have no word boundaries, so "small", which contains "all", counts as a hasty generalisation |
| LogicAnalysis.EitherOrIsFalseDilemma | classical-logic-filter.js:35-40 | "either X or" on one line is a false dilemma |
| LogicAnalysis.ExtractSubjectVerbObject | classical-logic-filter.js:286-317 | the loop computes `SVOOf` |
| LogicAnalysis.SubjectIsLastPronoun | classical-logic-filter.js:286-317 | no pronoun gives no subject; otherwise the last pronoun is the subject |
| LogicAnalysis.VerbIsLastVerb | classical-logic-filter.js:286-317 | no verb form gives no verb; otherwise the last verb form decides |
| LogicAnalysis.ObjectFollowsLastArticle | classical-logic-filter.js:286-317 | the object is the token after the last article that has a successor, and there is none without one |
| LogicAnalysis.IdentifyPropositions | classical-logic-filter.js:320-342 | the loop computes `PropositionsOf` |
| LogicAnalysis.PropositionGroupsPartition | classical-logic-filter.js:320-342 | the groups are non-empty, hold no separator, and concatenate to the tokens without separators |
| LogicAnalysis.PropositionsTokenizeBack | classical-logic-filter.js:320-342 | tokenizing each proposition gives back its group of tokens |
| LogicAnalysis.AnalyzeLogicalStructure | classical-logic-filter.js:101-118 | the analysis record holds exactly the results of the detectors |
| LogicRewrite.SuggestSpecificTerms | classical-logic-filter.js:373-386 | the list is never empty, and an unknown word gets the fallback |
| LogicRewrite.VagueTermsHaveSpecificTerms | classical-logic-filter.js:373-386 | every vague word, and nothing else, has its own suggestion list |
| LogicRewrite.GetFallacyCorrection | classical-logic-filter.js:389-398 | a known fallacy gets its correction; anything else gets the fallback |
| LogicRewrite.EveryFallacyHasCorrection | classical-logic-filter.js:389-398 | every detectable fallacy has its own correction |
| LogicRewrite.CorrectLogicalIssues | classical-logic-filter.js:345-370 | the suggestions are those for the vague terms, in order, then those for the fallacies |
| LogicRewrite.SuggestionsCoverIssues | classical-logic-filter.js:345-370 | one suggestion per issue: vague words get a specific term first, and fallacies get their correction |
| LogicRewrite.ReplaceWordNoMatch | classical-logic-filter.js:405-412 | a case-insensitive whole-word replacement with no match leaves the text unchanged |
| LogicRewrite.ReplaceFromMatch | classical-logic-filter.js:408-411 | a whole-word match becomes the replacement and the scan resumes right after the match |
| LogicRewrite.ReplaceWordWhole | classical-logic-filter.js:408-411 | a text that is exactly the (word-character) word becomes the replacement |
| LogicRewrite.SpaceConnectivesUnchanged | classical-logic-filter.js:442-446 | without a whole-word connective the re-spacing leaves the text unchanged |
| LogicRewrite.EnsureLogicalStructure | classical-logic-filter.js:431-453 | the method computes `StructuredOf`: terminate, capitalise, re-space the six connectives, squeeze and trim |
| LogicRewrite.StructuredWellFormed | classical-logic-filter.js:431-453 | the result is non-empty, single-spaced, trimmed and ends in `.`, `!` or `?` |
| LogicRewrite.LeadingConnectiveLowered | classical-logic-filter.js:431-453 | capitalising happens before re-spacing, so a sentence starting with "and" starts with lower-case "and" again |
| LogicRewrite.AddTemporalIndexing | classical-logic-filter.js:456-464 | the marker is appended after the message and ends in `)` |
| LogicRewrite.AddModalOperators | classical-logic-filter.js:467-482 | the message is unchanged exactly when the status is Factual; otherwise a marker ending in `)` is appended |
| LogicRewrite.NotationShape | classical-logic-filter.js:495-514 | the notation begins with one symbol per quantifier, in order, and ends with the time label in parentheses |
| LogicRewrite.AddLogicalNotation | classical-logic-filter.js:485-492 | the notation is appended exactly when the message is highly complex or has more than one connective |
| LogicRewrite.RestructureToClassicalLogic | classical-logic-filter.js:401-428 | the method computes `RestructuredOf` |
| LogicRewrite.RestructuredShape | classical-logic-filter.js:401-428 | the restructured message extends the structured one, and it is equal to it exactly when the time is present and the status is factual |
| LogicRewrite.RestructuredEnding | classical-logic-filter.js:401-428 | the restructured message is non-empty and ends in sentence punctuation or `)` |
| LogicRewrite.GetChanges | classical-logic-filter.js:517-525 | no change is reported exactly when the texts are equal, and at most one is reported |
| LogicRewrite.ProcessMessage | classical-logic-filter.js:44-82 | the pipeline computes `ProcessedOf` |
| PipelineCases.CleanThing | classical-logic-filter.js:84-89 | the lower-case word "thing" is left unchanged by cleaning |
| PipelineCases.TokenizeThing | classical-logic-filter.js:93-98 | "thing" is its own single token |
| PipelineCases.ThingSuggestions | classical-logic-filter.js:344-386 | the analysis of ["thing"] yields exactly one suggestion, the vague term "thing" with its specific terms "object", "item", "entity", "element" in that order |
| PipelineCases.ThingReplaced | classical-logic-filter.js:401-413 | applying that suggestion to the joined tokens gives "object" |
| PipelineCases.StructuredObject | classical-logic-filter.js:431-450 | "object" is shaped into the sentence "Object." |
| PipelineCases.ThingBecomesObject | classical-logic-filter.js:44-82 | the message "thing" is processed into "Object.", and the change list reports the restructuring |
| LogicRewrite.ProcessedEnding | classical-logic-filter.js:44-82 | the processed message is non-empty and ends in `.`, `!`, `?`, `)` or `]`; changes are empty exactly when nothing changed |
| LogicRewrite.ProcessedSuggestionsSpecific | classical-logic-filter.js:44-82 | in a processed message, every vague term's suggestion offers a specific term first |
| Primes.IsPrime | ai-assistant.js:314-320 | trial division up to the square root returns true exactly for primes |
| Primes.GetPrimeFactors | ai-assistant.js:322-334 | the result is the non-decreasing list of prime factors whose product is `n`, empty for `n <= 1`, and it is `[n]` exactly when `n` is prime; it is `PrimeFactorsOf(n)`, so every call on the same number gives the same list |
| Primes.PrimeFactorsOfSingleton | ai-assistant.js:322-334 | the reference factorisation (least divisor first, then the rest) is `[n]` exactly when `n` is prime |
| Primes.NoSmallDivisorPrime | ai-assistant.js:314-320 | no divisor below `i` with `i*i > n` makes `n` prime |
| Primes.DivideOut | ai-assistant.js:326-329 | dividing out the least remaining divisor keeps the product invariant and adds a prime |
| Assistant.NormalizeQuery | ai-assistant.js:82 | the normalised query has no upper-case letter |
| Assistant.RouteIsFirstMatch | ai-assistant.js:81-103 | the route is the first of conceptual, calculation help, greeting and calculation request that applies, else general, in both directions |
| Assistant.CalculateNeverRequests | ai-assistant.js:110-125 | "calculate" is a calculation-help keyword, so a calculation request holds a digit, "compute" or "solve" and never "calculate" |
| Assistant.GreetingInsideWord | ai-assistant.js:115-118 | greetings are substrings, so a query containing "this" counts as a greeting |
| Assistant.AnswerIsFirstMatch | ai-assistant.js:127-164 | the answer is the first matching concept, else the first matching common question, else the unknown reply, in both directions |
| Assistant.NamedConceptAnswered | ai-assistant.js:127-164 | a query naming a concept always gets a concept answer |
| Assistant.ExtendedModalRealismShadowed | ai-assistant.js:127-164 | "extended modal realism" is answered with the "modal realism" entry, which comes first |
| Assistant.CalculationTypeByKeyword | ai-assistant.js:193-198 | the calculation type is chosen by "prime"/"factor", then "size", then "prob", in both directions |
| Assistant.HandleCalculationHelp | ai-assistant.js:166-191 | there is a specific help answer exactly when a calculation type is identified, and it is for that type |
| Assistant.FirstDigitRunSpec | ai-assistant.js:215 | `/\d+/` finds the first maximal run of digits, and none exactly when there is no digit |
| Assistant.GenerateSuggestions | ai-assistant.js:283-298 | four suggestions: the prime-world pair, or the factor list of a composite, then the two fixed ones |
| Assistant.SuggestionsShape | ai-assistant.js:283-298 | the suggestion list has four entries, and only its first two depend on primality |
| Assistant.GenerateCalculationExplanation | ai-assistant.js:233-248 | the explanation reports the number, whether it is prime and its prime factorisation, and its suggestions are `SuggestionsFor` that same factor list, because both `getPrimeFactors` calls give `PrimeFactorsOf(number)` |
| Assistant.HandleCalculationRequest | ai-assistant.js:213-231 | without a digit it prompts for a number; otherwise it explains the value of the first digit run |
| Assistant.ExplainsWrittenNumber | ai-assistant.js:213-231 | a decimal numeral after digit-free text is the number that gets explained |
| Assistant.GetContextualSuggestions | ai-assistant.js:347-365 | three suggestions: the interpretation set on the calculator page, the concept set on the quiz page, and the general set on any other page or none |
| Assistant.ModalRealismAI.ProcessQuery | ai-assistant.js:81-103 | the raw query is appended to the history, and the response answers the normalised query by its route |
| Assistant.ModalRealismAI.ClearHistory | ai-assistant.js:342-344 | the history is empty afterwards |
| Store.UpdateUserSpec | database-simple.js:82-95 | an unknown id gives null and no change; otherwise the first user with that id is replaced by the merged record and nothing else changes |
| Store.Overlay | database-simple.js:86-90 | the update's fields override the user's, and `updated_at` is set to now |
| Store.Database.UpdateUser | database-simple.js:82-95 | the users table and the result follow `UpdateUserIn` |
| Store.WithOnlineUser | database-simple.js:156-162 | the user is online afterwards, and is added once at the end only if absent |
| Store.WithOnlineUserNoDuplicates | database-simple.js:156-162 | adding keeps the online list free of duplicates |
| Store.WithoutOnlineUserSpec | database-simple.js:164-168 | the user is gone, everyone else stays, and the relative order is kept |
| Store.WithoutOnlineUserNoDuplicates | database-simple.js:164-168 | removing keeps the online list free of duplicates |
| Store.Database.AddOnlineUser | database-simple.js:156-162 | the online list becomes `WithOnlineUser` of the old one |
| Store.Database.RemoveOnlineUser | database-simple.js:164-168 | the online list becomes `WithoutOnlineUser` of the old one |
| Store.NewCalculation | database-simple.js:214-225 | the stored calculation has the id, the owner, the data's fields and `created_at`; data fields override id and owner |
| Store.Database.SaveCalculation | database-simple.js:214-225 | the new calculation is appended to the history and returned |
| Store.CalculationHistorySpec | database-simple.js:227-233 | only the user's calculations from the table, newest first; for `limit >= 0` exactly `min(limit, n)` of the user's `n` calculations, a sub-multiset of them, with none left out newer than one kept, and all of them when `limit >= n` |
| Store.NewestSavedComesFirst | database-simple.js:214-233 | a calculation saved later than all the user's others heads their history |
| Store.Database.GetCalculationHistory | database-simple.js:227-233 | the user's calculations from the table, newest first: exactly `min(limit, n)` of them for `limit >= 0`, a sub-multiset of them, none left out newer than one kept, all of them when `limit >= n` |
| Store.DeleteCalculationSpec | database-simple.js:235-246 | deleted exactly when a calculation with that id belongs to that user; the first such one is removed and the rest keep their order |
| Store.Database.DeleteCalculation | database-simple.js:235-246 | the history and the result follow `DeleteCalculationIn` |
| Store.PreferencesRecord | database-simple.js:249-267 | the saved preferences keep the existing id (or a fresh one), the owner, the given fields and `updated_at`; no other field of the old row survives |
| Store.SaveUserPreferencesSpec | database-simple.js:249-267 | the user's first preferences row is replaced in place, or a new row is appended when there is none |
| Store.Database.SaveUserPreferences | database-simple.js:249-267 | the table and the result follow `SaveUserPreferencesIn` |
| Store.GetUserPreferencesIn | database-simple.js:269-278 | the result belongs to the user; it is the user's first row when there is one, and the defaults when the user has no row |
| Store.SavedPreferencesReadBack | database-simple.js:249-278 | reading back after a save returns what was saved |
| Store.SavingLeavesOthers | database-simple.js:249-278 | saving one user's preferences does not change what another user reads |
| Store.Database.GetUserPreferences | database-simple.js:269-278 | the result belongs to the user; it is the user's first row when there is one, and the defaults without a row |
| Store.GetMessagesSpec | database-simple.js:129-135 | exactly the messages between the two users, oldest first, whichever of them is the sender |
| Store.Database.GetMessages | database-simple.js:129-135 | exactly the messages between the two users in either direction, each as often as it is stored, oldest first |
| Sorting.SortDescSorted | database-simple.js:231 | the stable sort puts larger keys first |
| Sorting.SortDescHead | database-simple.js:231 | the first element after sorting is the earliest element with the largest key |
| Text.NormalizeIdempotent | classical-logic-filter.js:450 | squeezing whitespace and trimming twice is the same as once |
| Text.DecimalRoundTrip | ai-assistant.js:215-218 | `parseInt` of the decimal numeral of `n` is `n` |

## Left out

- File I/O in the database (`read`/`write` of the JSON file, the fallback to the default data when the file is missing, and `console.error`) is not modelled. The tables are the class's fields.
- `console.log` and the `try`/`catch` around `processMessage` are left out. The modelled pipeline cannot throw, so the catch branch is never taken.
- Case mapping is ASCII only. `toLowerCase`/`toUpperCase` on other letters are not modelled. Cleaned messages contain only ASCII letters, so only the raw queries of the assistant are affected.
- Ids (`Date.now() + Math.random()`, a clock reading plus a random fraction, in `saveCalculation` and `saveUserPreferences`) are the `id`/`freshId` parameters, so both the clock and the randomness are outside the model. Timestamps (`new Date().toISOString()`) and the history entry's timestamp are parameters too.
- Floating point is not modelled: `Math.sqrt(n)` is written as `i * i <= n`, `worldSize` and `toFixed` are not computed, and inputs are integers. The model does not cover `parseInt` of numbers beyond 2^53.
- Primes.IsPrime: for a non-integer `n` the source can answer differently. The model takes integer input only.
- The knowledge-base texts, the explanation and help prose, the greetings' reply text and the general reply are represented by their keys and response kinds, not their wording.
- `getCalculationHistory` and `getMessages` both order by `CreatedAt`, which is 0 for a record without `created_at` and for one whose `created_at` is not a time value. The source runs `new Date(...)` on whatever is stored there, gets NaN (or some other instant) for such values, and how `sort` orders NaN is engine-dependent.
- Property lookups such as `specificTerms[word]` do not see inherited `Object.prototype` members ("constructor", "toString"). None of those is a vague word or a fallacy name.
- A preferences row without an `id` gives a saved record without `id`. In the source the returned object has `id: undefined`, which the JSON file drops when it is written.
- `$` patterns in replacement strings are not interpreted. No replacement text used by the source contains `$`.
- Store.NewestSavedComesFirst: it is stated for `limit >= 1`. `slice(0, 0)` returns nothing, and a negative limit counts from the end.
- The rest of the repository is not part of this model: the calculators, the quiz, authentication, the SQLite database, the migration and the HTTP server. The server loads the SQLite database, not the JSON-file database modelled here, so its `parseInt(limit) || 50` feeds `SQLiteDatabase.getCalculationHistory` (server.js:52-53, database-sqlite.js:208) and not the modelled `getCalculationHistory`; the server loads neither the filter nor the assistant.
