# Summarize-It, modelled in Dafny

Summarize-It is a browser application that summarises a text in three ways:

- an extractive *basic summary*, made either by a statistical TextRank summariser or by an embedding-based one;
- the *key elements* of the text: themes, entities, categories, terms and key sentences;
- an *enhanced summary* that re-selects sentences by the key elements they mention.

This project models the deterministic core of that pipeline. It proves what each step returns.

The project has one Dafny module per source file of the core:

| module | source file | form |
|---|---|---|
| `TextSummarizer` | `js/utils/text-summarizer.js` | sentence splitting, preprocessing and similarity as functions; the similarity dictionary and the ten in-place TextRank rounds as methods over a `map` and an `array` |
| `MLSummarizer` | `js/models/ml-summarizer.js` | the module state (`currentModel`, `currentModelId`, `isLoading`) as the class `Summarizer`; the matrix and the rounds as loops |
| `ModelRegistry` | `js/models/model-registry.js` | the constant `models` table, `getModel` and `getAllModels` |
| `KeyTagging`, `KeyTerms`, `KeyElements` | `js/utils/key-elements-extractor.js` | the tagger threading `prevCategory`; the TF/DF, n-gram and entity counters as loops over JavaScript-object counters; the filters, categories and key sentences |
| `SummaryGenerator` | `js/generators/summary-generator.js` | `generateAllSummaries` and both branches of `generateEnhancedSummary` |
| `TextRewriter` | `js/utils/text-rewriter.js` | `basicTextCleanup` and the branches that run without an LLM handler |
| `LLMHandler` | `js/utils/llm-handler.js` | the deterministic helpers, with loops where the source has them |

Four helper modules hold what several files share:

- `Text`: JavaScript's `\s` and `\w`, ASCII case mapping, `trim`, `indexOf`, `join`, `split`, and the two global regex scans `/[^.!?]+[.!?]+/g` and `/\b[\w'-]+\b/g`.
- `Spacing`: the white-space `replace` calls.
- `Sorting`: JavaScript's stable `sort`, and the recurring chain "sort by score, slice, sort by index".
- `Tally`: counters kept in plain objects, `counts[k] = (counts[k] || 0) + 1`.

`TextRank` is the damped iteration both summarisers run.

Scores are `real`. `Math.log` appears in the similarity and in the IDF. It is a function parameter, so nothing depends on floating-point values.

The embedding summariser's model loader, its sentence embedding and its cosine similarity are foreign code. They are parameters too:

- `load` is how the loader settled;
- `embedding` is what embedding produced;
- `pairSim(i, j)` is the cosine of a pair, or `None` when computing it threw.

`js/utils/llm-handler.js` cannot be parsed as written. Lines 415 and 1083 hold an unterminated string literal. In a browser `LLMHandler` is therefore undefined, and the rewriter always takes its fallback branches. `TextRewriter` models those branches. The helpers of `LLMHandler` are modelled as written.

`cleanText` is declared twice in that file. The later declaration, at line 919, is the one in effect. It differs from the earlier one: it returns "" for an empty text, and it capitalises before adding the final period.

Sentences from `/[^.!?]+[.!?]+/g` keep their leading white space. So in `improveTextQuality` the `^`-anchored transition filter and the `^(This|The)` test fire only on sentences that do not begin with white space. In ordinary prose, with a blank after each terminator, that is the first sentence alone. The model keeps that behaviour.

## Model

| member | source | states |
|---|---|---|
| ModelRegistry.GetModel | js/models/model-registry.js:154-156 | a known id gives its own table entry; any other id gives the statistical processor's entry |
| ModelRegistry.GetModelOfKnownId | js/models/model-registry.js:154-156 | looking up the key of any table entry returns exactly that entry |
| ModelRegistry.UnknownIdIsStatistical | js/models/model-registry.js:123-156 | an id outside the table resolves to a model that uses no ML and is not the placeholder |
| ModelRegistry.GetAllModels | js/models/model-registry.js:158-163 | one record per key, in table order, each carrying its key as `id` and that key's fields |
| ModelRegistry.Find | js/models/model-registry.js:155 | the lookup fails exactly for an id that is not a key, and otherwise returns an entry stored under that id |
| ModelRegistry.UsesMLExceptLocalAndPlaceholder | js/models/model-registry.js:6-151 | an entry uses no ML if and only if it is `local` or `placeholder` |
| ModelRegistry.OnlyPlaceholderIsPlaceholder | js/models/model-registry.js:137-150 | an entry is marked as the placeholder if and only if its key is `placeholder` |
| ModelRegistry.TiersAreKnown | js/models/model-registry.js:6-151 | every tier is professional, premium or standard |
| ModelRegistry.IdsDistinct | js/models/model-registry.js:6-151 | no key occurs twice, so a known id has exactly one entry |
| TextSummarizer.MarkBreaks | js/utils/text-summarizer.js:33 | the break marking never lengthens the text and adds no character except `\|` |
| TextSummarizer.NewlinesToBars | js/utils/text-summarizer.js:34 | no line feed survives, the text does not grow, and only `\|` is new |
| TextSummarizer.KeepSentences | js/utils/text-summarizer.js:36-37 | every kept piece is trimmed and longer than ten characters |
| TextSummarizer.KeptFromPieces | js/utils/text-summarizer.js:35-37 | every kept sentence lies inside one of the pieces `split('\|')` produced |
| TextSummarizer.SplitIntoSentences | js/utils/text-summarizer.js:31-38 | every sentence is trimmed, longer than ten characters, no longer than the text, and free of `\|` and line feeds, so a literal `\|` splits too; a text of ten characters or fewer has no sentence; `js/models/ml-summarizer.js:64-71` splits with the same chain, so the embedding summariser uses this same function |
| TextSummarizer.NoSentencesInShortText | js/utils/text-summarizer.js:31-38 | a text of at most ten characters, the empty text among them, yields no sentence |
| TextSummarizer.StripPunctuation | js/utils/text-summarizer.js:43 | only letters, digits and white space remain, and all of them come from the input |
| TextSummarizer.KeepContentWords | js/utils/text-summarizer.js:45 | the kept words are input words longer than one character that are not stopwords |
| TextSummarizer.Preprocess | js/utils/text-summarizer.js:40-46 | every token is lower-case letters and digits, longer than one character, and not a stopword |
| TextSummarizer.Similarity | js/utils/text-summarizer.js:48-60 | 0 when either word list is empty; never negative, given a logarithm that is positive from 2 on |
| TextSummarizer.SimilaritySymmetric | js/utils/text-summarizer.js:48-60 | swapping the two word lists gives the same similarity |
| TextSummarizer.ComputeSimilarities | js/utils/text-summarizer.js:75-85 | the nested loops store exactly the pairs `i < j`, each under its own key with its similarity |
| TextSummarizer.DictReadsAsTable | js/utils/text-summarizer.js:93-103 | reading the dictionary with the smaller index first gives one symmetric weight table for both directions |
| TextSummarizer.SimTableFacts | js/utils/text-summarizer.js:76-103 | the weights the ranking reads are symmetric and non-negative |
| TextSummarizer.AddInflow | js/utils/text-summarizer.js:94-106 | the inner loop adds into `newScores[i]` the weighted scores of every other sentence, and changes no other entry |
| TextSummarizer.Round | js/utils/text-summarizer.js:91-113 | after one round the array holds the damped step of the previous scores |
| TextSummarizer.TextRankScores | js/utils/text-summarizer.js:87-114 | the scores start at 1 and end as ten damped rounds over the similarity table |
| TextSummarizer.SentenceScores | js/utils/text-summarizer.js:87-114 | one TextRank score per sentence |
| TextSummarizer.ScoresFloor | js/utils/text-summarizer.js:88-114 | every final score is at least 0.15 |
| TextSummarizer.Chosen | js/utils/text-summarizer.js:117-122 | `min(k, n)` sentence indices in strictly increasing order, all in range |
| TextSummarizer.Extractive | js/utils/text-summarizer.js:117-125 | definition of steps 5 and 6; its properties are proved by `Chosen`, `Sorting.TopInSourceOrder` and `Sorting.Select` |
| TextSummarizer.Summarize | js/utils/text-summarizer.js:64-131 | the text itself, returned directly, when it has no more sentences than requested; otherwise a Promise, from the unawaited `async` `transformSummary`, of the rewritten extractive summary: the best-ranked sentences, equal scores favouring the earlier one, in original order, joined by single blanks |
| TextRank.Fill | js/utils/text-summarizer.js:88 | a list of `n` copies of the value |
| TextRank.Step | js/utils/text-summarizer.js:91-108 | one round gives one new score per sentence |
| TextRank.Rank | js/utils/text-summarizer.js:88-114 | the ranking keeps one score per sentence through every round |
| TextRank.InflowNext | js/utils/text-summarizer.js:94-105 | one more `j` adds `m[j][i] * scores[j]`, except when `j` is `i` |
| TextRank.InflowIgnoresSelf | js/models/ml-summarizer.js:195-201 | a sentence's own weight `m[i][i]` never enters its sum |
| TextRank.RankIgnoresDiagonal | js/models/ml-summarizer.js:192-206 | two tables that differ only on the diagonal give the same scores after any number of rounds |
| TextRank.InflowNonNegative | js/utils/text-summarizer.js:93-106 | non-negative weights and scores give a non-negative sum |
| TextRank.StepFloor | js/utils/text-summarizer.js:107 | with non-negative weights, every score after a round is at least 1 - 0.85 |
| TextRank.RankFloor | js/utils/text-summarizer.js:88-114 | scores are never negative, and after one round or more every score is at least 0.15 |
| MLSummarizer.SimilarityMatrix | js/models/ml-summarizer.js:159-182 | an `n` by `n` table |
| MLSummarizer.BuildMatrix | js/models/ml-summarizer.js:159-182 | the diagonal is 1.0; an off-diagonal entry is the pair's cosine, or 0.1 when computing it threw |
| MLSummarizer.MLRound | js/models/ml-summarizer.js:193-205 | a round computes every new score from the previous list only |
| MLSummarizer.MLRank | js/models/ml-summarizer.js:187-206 | the scores start at 1 and go through ten damped rounds |
| MLSummarizer.MLScores | js/models/ml-summarizer.js:187-206 | one score per sentence |
| MLSummarizer.SelfSimilarityIgnored | js/models/ml-summarizer.js:160-206 | any table that agrees off the diagonal with the built matrix ranks the sentences the same |
| MLSummarizer.MLScoresFloor | js/models/ml-summarizer.js:188-206 | when no similarity is negative, every score ends at 0.15 or more |
| MLSummarizer.MLChosen | js/models/ml-summarizer.js:211-217 | `min(k, n)` indices in strictly increasing order, all in range |
| MLSummarizer.RankAndSelect | js/models/ml-summarizer.js:159-222 | building the matrix, ranking and selecting yields the best-ranked sentences in their original order, blank-joined |
| MLSummarizer.EmbeddingError | js/models/ml-summarizer.js:128-154 | embedding succeeds exactly for `use` and the six listed models, and only when it yields at least one vector |
| MLSummarizer.Summarizer.constructor | js/models/ml-summarizer.js:5-7 | no model is held and no load is in flight |
| MLSummarizer.Summarizer.LoadModel | js/models/ml-summarizer.js:21-51 | the held model is returned without reloading; `null` while another load is in flight; otherwise the loader's result, held for the id on success, with the cache pair untouched on failure; the in-flight flag is clear again afterwards |
| MLSummarizer.Summarizer.SummarizeWithModel | js/models/ml-summarizer.js:113-222 | a failed load stores `null` and throws the load message; an embedding failure throws the processing message; otherwise the best-ranked sentences are returned, and the model is then held |
| MLSummarizer.Summarizer.Summarize | js/models/ml-summarizer.js:85-223 | the placeholder is refused before any work; a model without ML resolves to what the statistical summary's Promise resolves to, the rewritten extractive summary, or to the text when it is short; for an ML model a short text comes back whole; otherwise load, embed, rank and select as above |
| SummaryGenerator.EnhancedOf | js/generators/summary-generator.js:22-28 | a string summary gets the enhanced summary; a Promise gets `[object Promise]` with the theme list for gpt2, bart and t5, and otherwise throws at `basicSummary.includes` exactly when the text has a sentence, the empty summary when it has none |
| SummaryGenerator.AbstractiveModelsUseML | js/models/model-registry.js:6-151 | gpt2, bart and t5 all use ML, so a model without ML never takes the theme-list branch |
| SummaryGenerator.BasicSummary | js/generators/summary-generator.js:10-18 | a model without ML gets the statistical result, a string or an unawaited Promise, and leaves the ML state alone; an ML model gets the awaited ML summary, a short text whole, or the ML summariser's rejection message; when an ML model has to rank, the shared summariser keeps a held model, holds the loaded model after a successful load, and holds `null` after a failed or blocked load, with the loading flag as it was |
| SummaryGenerator.Assemble | js/generators/summary-generator.js:20-34 | a rejected basic summary rejects the call; otherwise the record of the key elements, the basic summary and the enhanced summary, or the TypeError rejection when a Promise reaches `.includes` |
| SummaryGenerator.GenerateWith | js/generators/summary-generator.js:10-34 | what the call settles to given its key elements, on every path: statistical, ML with the model held or loaded, failed load, embedding failure, and the TypeError; the ML state is untouched when no ML summary is computed; otherwise the shared summariser keeps a held model, holds the loaded model after a successful load, and holds `null` after a failed or blocked load, for the next call to find |
| SummaryGenerator.GenerateAllSummaries | js/generators/summary-generator.js:6-35 | the key elements of the text and then the same settled result as above: the statistical path yields the Promise and the TypeError when the text has a sentence, the ML path the awaited summary or its rejection; the shared summariser is left as `GenerateWith` states, with the loaded model or `null` cached for the next call |
| SummaryGenerator.UsesMLIsNotPlaceholder | js/generators/summary-generator.js:14-15 | a model that uses ML is never the placeholder, so the ML path never meets the placeholder refusal |
| SummaryGenerator.EnhancedCount | js/generators/summary-generator.js:27 | the enhanced summary asks for `max(2, numSentences - 1)` sentences |
| SummaryGenerator.ThemesShown | js/generators/summary-generator.js:44-46 | the texts of the first five themes, in order |
| SummaryGenerator.WithThemes | js/generators/summary-generator.js:50 | the basic summary, then ` [Key themes: `, then the list, then `]` |
| SummaryGenerator.EnhancedScore | js/generators/summary-generator.js:61-96 | never negative and bounded by the numbers of themes and entities; at least 3 when the trimmed sentence is in the basic summary; at least 0.5 for the first two and the last two; 0 exactly when none of the five bonuses applies |
| SummaryGenerator.EnhancedScores | js/generators/summary-generator.js:61-96 | one score per sentence, each the sentence's enhanced score |
| SummaryGenerator.EnhancedChoice | js/generators/summary-generator.js:99-102 | `min(k, n)` indices with no positive-score filter, in increasing order; each kept one beats every dropped one, or ties it and comes earlier |
| SummaryGenerator.TrimAll | js/generators/summary-generator.js:103 | each part trimmed, in order |
| SummaryGenerator.EnhancedSummary | js/generators/summary-generator.js:39-51 | for gpt2, bart and t5, the basic summary extended by a bracketed theme list |
| SummaryGenerator.ExtractiveEnhancedSummary | js/generators/summary-generator.js:53-106 | for other models, the trimmed texts of `min(k, n)` sentence matches, best-scored first and then put in original order, joined by blanks |
| SummaryGenerator.ExtractiveEnhancedKeepsAll | js/generators/summary-generator.js:99-105 | when at least as many sentences are asked for as there are, every sentence is kept, trimmed, in order |
| SummaryGenerator.AtLeastPosition | js/generators/summary-generator.js:102 | the `q`-th of a strictly increasing index list is at least `q` |
| SummaryGenerator.AtMostPosition | js/generators/summary-generator.js:102 | and leaves room for the `\|r\| - q` indices after it below `n` |
| Sorting.Insert | js/utils/text-summarizer.js:119 | inserting keeps the same elements plus one, and keeps a sorted list sorted |
| Sorting.StableSort | js/utils/text-summarizer.js:119 | a permutation of the input, sorted by the key |
| Sorting.StableSortRanked | js/utils/text-summarizer.js:119 | sorting an increasing index list leaves equal keys in index order, as a stable sort does |
| Sorting.StableSortDistinct | js/utils/text-summarizer.js:119 | sorting keeps a list without repeats free of repeats |
| Sorting.InsertRanked | js/utils/text-summarizer.js:119 | inserting an index larger than all others keeps the list ranked |
| Sorting.InsertDistinct | js/utils/text-summarizer.js:119 | inserting a new element keeps the list free of repeats |
| Sorting.Range | js/utils/text-summarizer.js:118 | the indices `0` to `n - 1`, in order |
| Sorting.Select | js/utils/text-summarizer.js:122 | the elements at the given indices, in the order of the indices |
| Sorting.TopInSourceOrder | js/utils/text-summarizer.js:117-122 | `min(k, n)` candidates in increasing order; every kept one scores higher than every dropped one, or the same and comes earlier |
| Sorting.PrefixOfRankedIsBest | js/utils/text-summarizer.js:119-120 | every element of a prefix of a ranked list beats every element after it |
| Sorting.IncreasingOfPrefix | js/utils/text-summarizer.js:121 | sorting a prefix of the ranking by index gives a strictly increasing list |
| Sorting.SubsequenceOfTail | js/utils/key-elements-extractor.js:260 | a subsequence of the tail is a subsequence of the whole list |
| Sorting.SubsequenceDropFirst | js/utils/key-elements-extractor.js:260 | dropping the first kept element keeps a subsequence |
| Tally.Keys | js/utils/key-elements-extractor.js:109 | the keys of an association list, one per entry, in insertion order; it also gives the registry's ids and the category buckets' names |
| Tally.Get | js/utils/key-elements-extractor.js:100 | `counts[k] \|\| 0` is 0 for a key never counted |
| Tally.BumpFacts | js/utils/key-elements-extractor.js:100 | a new key goes last and an old one keeps its place; only the bumped key's count changes, by one |
| Tally.CountGet | js/utils/key-elements-extractor.js:148 | after counting a sequence of keys, every key's count is its number of occurrences |
| Tally.CountKeys | js/utils/key-elements-extractor.js:148 | the keys are the distinct counted keys, each once |
| Tally.CountPositive | js/utils/key-elements-extractor.js:148 | every listed key has a count of at least 1 |
| Tally.GetEntry | js/utils/key-elements-extractor.js:377 | with unique keys, each entry's value is the count read for its key |
| Text.ToLowerChar | js/utils/key-elements-extractor.js:33 | upper-case letters become lower-case; nothing else changes |
| Text.ToUpperChar | js/utils/text-rewriter.js:30 | lower-case letters become upper-case; nothing else changes |
| Text.Lower | js/utils/key-elements-extractor.js:33 | the same length, every character lower-cased |
| Text.UpperFirst | js/utils/text-rewriter.js:30 | only the first character may change, to upper case |
| Text.UpperFirstOfNonLower | js/utils/text-rewriter.js:30 | a text that does not start with a lower-case letter is left as it is |
| Text.Trim | js/utils/text-summarizer.js:36 | a trimmed infix of the input, empty exactly when the input is all white space |
| Text.TrimIdentity | js/utils/text-summarizer.js:36 | trimming a trimmed text changes nothing |
| Text.IndexOf | js/generators/summary-generator.js:81 | the first position where the substring occurs, or -1 exactly when it occurs nowhere |
| Text.CountContained | js/utils/text-rewriter.js:116-118 | how many terms occur ignoring case: 0 exactly when none does, all exactly when each does |
| Text.Join | js/utils/text-summarizer.js:125 | no parts give "", one part gives that part |
| Text.SplitOn | js/utils/text-summarizer.js:35 | one more piece than separators, none holding the separator, and joining them back gives the input |
| Text.SplitWs | js/utils/text-summarizer.js:44 | at least one piece, none holding white space, each an infix of the input; a text without white space is one piece |
| Text.SentenceMatches | js/utils/text-rewriter.js:69 | every match is non-terminators followed by terminators only, and lies in the text; a text without a terminator has none |
| Text.WordTokens | js/utils/key-elements-extractor.js:25 | every token is made of `[\w'-]` and starts and ends with a `\w` character |
| Spacing.DropSpaceBeforePunct | js/utils/text-rewriter.js:25 | no white space remains before , . ; or :; the last character and a non-blank first one stay |
| Spacing.DropSpaceBeforePunctKeepsText | js/utils/text-rewriter.js:25 | only white space is removed |
| Spacing.DropSpaceBeforePunctFixed | js/utils/text-rewriter.js:25 | a text without white space before punctuation is left as it is |
| Spacing.DropSpaceBeforePunctKeepsShape | js/utils/text-rewriter.js:25 | single spaces stay single and blanks stay blanks |
| Spacing.ReplaceSpaceRuns | js/utils/text-rewriter.js:26 | no two white-space characters remain in a row; when every run is replaced, every space is a blank |
| Spacing.ReplaceSpaceRunsKeepsText | js/utils/text-rewriter.js:26 | only white space is removed |
| Spacing.ReplaceSpaceRunsKeepsPunct | js/utils/llm-handler.js:923-924 | replacing runs puts no white space back before punctuation |
| Spacing.ReplaceSpaceRunsFixed | js/utils/llm-handler.js:923 | a text whose runs are already single blanks is left as it is |
| Spacing.TrimKeepsNonSpaces | js/utils/text-rewriter.js:26 | trimming removes white space only |
| Spacing.TrimKeepsShape | js/utils/text-rewriter.js:26 | trimming keeps the three spacing shapes |
| Spacing.UpperFirstKeepsShape | js/utils/text-rewriter.js:29-31 | capitalising keeps the spacing shapes and the trimming |
| Spacing.UpperFirstNonSpaces | js/utils/text-rewriter.js:29-31 | capitalising commutes with dropping white space |
| Spacing.ConcatKeepsShape | js/utils/llm-handler.js:923-924 | two well-spaced strings glued without a break in the shape stay well spaced |
| Spacing.InfixKeepsShape | js/utils/llm-handler.js:923-924 | every part of a well-spaced string is well spaced |
| TextRewriter.RemovePhrase | js/utils/text-rewriter.js:21 | removing a phrase never lengthens the text |
| TextRewriter.RemovePhraseEffect | js/utils/text-rewriter.js:21 | a text without the phrase is unchanged; one with it loses at least the phrase's length |
| TextRewriter.RemovePhrases | js/utils/text-rewriter.js:20-22 | removing the phrases one after the other never lengthens the text |
| TextRewriter.RemovePhrasesOfFree | js/utils/text-rewriter.js:20-22 | a text free of every phrase is unchanged |
| TextRewriter.RemoveFillers | js/utils/text-rewriter.js:7-22 | the seven filler phrases removed, the text not lengthened |
| TextRewriter.Tidy | js/utils/text-rewriter.js:25-26 | trimmed, no white space before punctuation, no double white space |
| TextRewriter.TidyKeepsText | js/utils/text-rewriter.js:25-26 | tidying removes white space only |
| TextRewriter.BasicTextCleanup | js/utils/text-rewriter.js:14-34 | "" for an empty text; otherwise a clean text no longer than the input: trimmed, single-spaced, no space before , . ; :, and not starting with a lower-case letter; `compressSentence` (js/utils/text-rewriter.js:138-140) is this same function |
| TextRewriter.BasicTextCleanupKeepsText | js/utils/text-rewriter.js:14-34 | cleaning loses only white space and the filler phrases, and may only upper-case the first remaining character |
| TextRewriter.CleanTextIsKept | js/utils/text-rewriter.js:14-34 | a clean text without filler phrases is its own cleanup |
| TextRewriter.AddBasicTransitions | js/utils/text-rewriter.js:37-45 | the list comes back equal to its input |
| TextRewriter.CleanAll | js/utils/text-rewriter.js:72 | each part cleaned, in order, each clean |
| TextRewriter.TransformSummary | js/utils/text-rewriter.js:51-84 | "" for an empty summary, and also for a summary with no sentence terminator |
| TextRewriter.TransformSummaryPieces | js/utils/text-rewriter.js:68-77 | the result is one clean piece per sentence match, each the cleanup of its match, joined by blanks |
| TextRewriter.KeyTermsOf | js/utils/text-rewriter.js:108-109 | the theme texts then the entity texts |
| TextRewriter.KeyTermScores | js/utils/text-rewriter.js:114-120 | each sentence's score is the number of key terms it contains, ignoring case |
| TextRewriter.AbstractiveOrder | js/utils/text-rewriter.js:123-125 | `min(k, n)` sentence indices, all in range |
| TextRewriter.AbstractiveOrderRanked | js/utils/text-rewriter.js:123-125 | the chosen indices are distinct and by non-increasing score, equal scores in source order, with no re-sort by position |
| TextRewriter.ChosenBeatsLeftOut | js/utils/text-rewriter.js:123-125 | a chosen sentence has more key terms than a left-out one, or as many and comes earlier |
| TextRewriter.AbstractiveOrderIsBest | js/utils/text-rewriter.js:122-125 | every chosen sentence beats every left-out one that way |
| TextRewriter.AbstractiveFallback | js/utils/text-rewriter.js:106-128 | definition of the fallback; its properties are proved by `AbstractiveFallbackPieces`, `AbstractiveOrderRanked` and `AbstractiveOrderIsBest` |
| TextRewriter.AbstractiveFallbackPieces | js/utils/text-rewriter.js:106-128 | the fallback joins `min(numSentences, n)` clean pieces by blanks, the `q`-th being the cleanup of the `q`-th ranked sentence |
| TextRewriter.SelectedPieces | js/utils/text-rewriter.js:126 | one clean piece per chosen index, each the cleanup of its sentence |
| KeyTagging.WordFeatures | js/utils/key-elements-extractor.js:33-35 | one feature record per word |
| KeyTagging.WordFeaturesAt | js/utils/key-elements-extractor.js:33-35 | the features at a position are those of the word there |
| KeyTagging.Classify | js/utils/key-elements-extractor.js:38-69 | PROPN exactly for a capitalised word that is not first; OTHER only for the first word; `prevCategory` changes only on ADJ and DET |
| KeyTagging.Tagging | js/utils/key-elements-extractor.js:32-79 | one record per word |
| KeyTagging.TaggingFacts | js/utils/key-elements-extractor.js:40-76 | PROPN exactly for capitalised non-initial words; `isSentenceStart` exactly at index 0; only the first word can stay OTHER; every record keeps its word |
| KeyTagging.CapitalizedFeature | js/utils/key-elements-extractor.js:34 | the capitalisation feature is an upper-case first letter |
| KeyTagging.TagOne | js/utils/key-elements-extractor.js:32-78 | one word's record and the `prevCategory` the next word sees |
| KeyTagging.TagWords | js/utils/key-elements-extractor.js:25-79 | the words tagged left to right, with `prevCategory` threaded through |
| KeyTagging.TagPartsOfSpeech | js/utils/key-elements-extractor.js:19-82 | every sentence match with its words tagged |
| KeyTagging.PrevCategoryNeverCleared | js/utils/key-elements-extractor.js:28-61 | once set, `prevCategory` is never reset within the sentence |
| KeyTagging.DeterminerSticks | js/utils/key-elements-extractor.js:49-61 | after a determiner, `prevCategory` stays DET until a word is tagged as an adjective |
| KeyTerms.WordTerms | js/utils/key-elements-extractor.js:92-98 | at most one term per word |
| KeyTerms.FirstOccurrences | js/utils/key-elements-extractor.js:101-104 | no more elements than the input |
| KeyTerms.FirstOccurrencesFacts | js/utils/key-elements-extractor.js:101-104 | the terms seen in a sentence: each term once, and only terms of that sentence |
| KeyTerms.WordTermsStep | js/utils/key-elements-extractor.js:92-104 | one more word adds its term, if any, and lists it for the sentence the first time |
| KeyTerms.CountWord | js/utils/key-elements-extractor.js:92-104 | a term of three characters or more that is not a stopword is counted, and counted for the sentence only the first time |
| KeyTerms.CountSentenceTerms | js/utils/key-elements-extractor.js:91-105 | the sentence's terms are added to `termFrequency`, and its distinct terms to `documentFrequency` |
| KeyTerms.TermCounts | js/utils/key-elements-extractor.js:86-106 | `termFrequency` counts every term occurrence; `documentFrequency` counts the sentences a term occurs in |
| KeyTerms.FrequencyBounds | js/utils/key-elements-extractor.js:90-106 | for every counted term, 1 <= df <= tf and df <= the number of sentences |
| KeyTerms.OccurrenceBounds | js/utils/key-elements-extractor.js:90-106 | the same bounds, on occurrences |
| KeyTerms.TfIdf | js/utils/key-elements-extractor.js:108-116 | one score per term, in term order |
| KeyTerms.StopwordCount | js/utils/key-elements-extractor.js:135 | at most the window's length |
| KeyTerms.Originals | js/utils/key-elements-extractor.js:143 | the window's words, in order |
| KeyTerms.Starts | js/utils/key-elements-extractor.js:128 | the window starts `0` to `length - n` |
| KeyTerms.SentenceWindows | js/utils/key-elements-extractor.js:128-149 | every counted window has `n` words and meets the quality conditions |
| KeyTerms.Windows | js/utils/key-elements-extractor.js:125-150 | the same, over all sentences |
| KeyTerms.Phrases | js/utils/key-elements-extractor.js:143 | one phrase per window |
| KeyTerms.CountWindow | js/utils/key-elements-extractor.js:129-148 | a window is counted under its phrase exactly when it meets the quality conditions |
| KeyTerms.CountSentenceNgrams | js/utils/key-elements-extractor.js:128-149 | the quality windows of one sentence are counted |
| KeyTerms.ExtractQualityNgrams | js/utils/key-elements-extractor.js:122-153 | every window of `n` consecutive words that meets the quality conditions is counted under its phrase |
| KeyTerms.NgramsAreQualityPhrases | js/utils/key-elements-extractor.js:128-149 | every counted n-gram comes from a quality window: `n` words, no stopword at either end, at most `floor(n/3)` stopwords, a noun, and for `n > 1` at least `2n` characters; each count is at least 1 |
| KeyTerms.FilterMeaningfulPhrases | js/utils/key-elements-extractor.js:259-274 | a subsequence of the input holding exactly the meaningful candidates: long enough, not all stopwords, and not a short phrase ending in a stopword |
| KeyElements.Texts | js/utils/key-elements-extractor.js:392-394 | the texts of the items, in order |
| KeyElements.CategoryFromFirstMatch | js/utils/key-elements-extractor.js:189-207 | an item goes to the first category, in table order, whose keywords match; to "other" exactly when none does |
| KeyElements.CategoryNotOther | js/utils/key-elements-extractor.js:159-179 | no table category is called "other" |
| KeyElements.AddToFacts | js/utils/key-elements-extractor.js:196-197 | pushing extends only its own bucket, creating it last if new |
| KeyElements.Members | js/utils/key-elements-extractor.js:184-208 | exactly the items of one category |
| KeyElements.CategorizedByCategory | js/utils/key-elements-extractor.js:184-210 | every bucket holds exactly its items in input order; buckets exist only for categories that got an item, each once; the sizes add up to the number of items |
| KeyElements.CategorizeItem | js/utils/key-elements-extractor.js:185-207 | one item is pushed into its category's bucket |
| KeyElements.CategorizeElements | js/utils/key-elements-extractor.js:158-211 | every theme and then every entity goes to its bucket |
| KeyElements.Hit | js/utils/key-elements-extractor.js:227-235 | a keyword adds 0 exactly when the sentence does not contain it, and at most 1.5 |
| KeyElements.KeywordScore | js/utils/key-elements-extractor.js:226-237 | between 0 and 1.5 per keyword |
| KeyElements.LengthBonus | js/utils/key-elements-extractor.js:240-245 | between -1 and 0.5 |
| KeyElements.KeyPointScore | js/utils/key-elements-extractor.js:217-248 | the first sentence always scores at least 1 |
| KeyElements.KeyPointScores | js/utils/key-elements-extractor.js:217-248 | one score per sentence |
| KeyElements.PositiveIndices | js/utils/key-elements-extractor.js:251 | exactly the positively scored indices, in increasing order |
| KeyElements.KeyPointIndices | js/utils/key-elements-extractor.js:250-254 | at most `maxSentences` positively scored indices in increasing order; each beats every positive one left out, ties to the earlier; at least one when there is a sentence and one is asked for |
| KeyElements.KeyPoints | js/utils/key-elements-extractor.js:214-256 | at most `maxSentences` trimmed sentences, those of the key indices in original order |
| KeyElements.TechnicalTermsIn | js/utils/key-elements-extractor.js:369-373 | exactly the listed terms the sentence contains |
| KeyElements.ExtendsEntityIsPropn | js/utils/key-elements-extractor.js:343-344 | on tagger output, a word extends an entity exactly when it is tagged PROPN |
| KeyElements.EntityRunsStep | js/utils/key-elements-extractor.js:339-353 | a word extends the current run, ends it and counts it, or is skipped |
| KeyElements.CountEntityRuns | js/utils/key-elements-extractor.js:337-359 | every run of proper nouns is counted once it ends, the last one at the sentence end |
| KeyElements.CountTechnicalTerms | js/utils/key-elements-extractor.js:362-373 | each technical term the sentence contains is counted |
| KeyElements.CountSentenceEntities | js/utils/key-elements-extractor.js:336-373 | one sentence adds its entity runs, then its technical terms |
| KeyElements.CollectEntityCounts | js/utils/key-elements-extractor.js:331-374 | `entityCounts` counts the entities of all sentences |
| KeyElements.EntityRelevance | js/utils/key-elements-extractor.js:384 | between 1 and 5, and at least 3 for a positive count |
| KeyElements.KeepEntities | js/utils/key-elements-extractor.js:380-386 | each entity is a kept entry with its relevance |
| KeyElements.ScoredEntities | js/utils/key-elements-extractor.js:377-386 | at most ten entities, each longer than two characters and not a stopword |
| KeyElements.KeepEntitiesSorted | js/utils/key-elements-extractor.js:377-386 | filtering a list sorted by count leaves relevance non-increasing |
| KeyElements.ScoredEntitiesShape | js/utils/key-elements-extractor.js:377-386 | at most ten entities, by non-increasing relevance, each between 3 and 5 |
| KeyElements.KeptRelevance | js/utils/key-elements-extractor.js:384 | positive counts give relevance between 3 and 5 |
| KeyElements.SortedPrefix | js/utils/key-elements-extractor.js:379 | a prefix of a sorted list is sorted |
| KeyElements.PrefixFromCounts | js/utils/key-elements-extractor.js:377-379 | a prefix of the sorted counts holds only positive counts |
| KeyElements.Ceil | js/utils/key-elements-extractor.js:314 | the least integer at or above the value |
| KeyElements.SingleTerms | js/utils/key-elements-extractor.js:290-291 | exactly the terms longer than three characters that are not stopwords |
| KeyElements.AsScores | js/utils/key-elements-extractor.js:296 | each entry with its count as score |
| KeyElements.MaxReal | js/utils/key-elements-extractor.js:308 | the larger of the two |
| KeyElements.PhraseScoresRanked | js/utils/key-elements-extractor.js:296-306 | each n-gram list is sorted by descending count, every count at least 1 |
| KeyElements.RankingOfWellRanked | js/utils/key-elements-extractor.js:290-306 | all four lists are sorted, and the n-gram counts are at least 1 |
| KeyElements.MaxScoreAtLeastOne | js/utils/key-elements-extractor.js:294-308 | `maxScore` is at least 1, so dividing by it is safe |
| KeyElements.Relevance | js/utils/key-elements-extractor.js:314 | at most 5 when the weighted score does not exceed `maxScore`, at least 1 when positive |
| KeyElements.Scale | js/utils/key-elements-extractor.js:312-327 | each term with its relevance |
| KeyElements.Slice | js/utils/key-elements-extractor.js:312 | the entries from `from` on, at most `to - from` of them |
| KeyElements.ThemeCandidates | js/utils/key-elements-extractor.js:311-327 | at most 3 + 4 + 5 + 3 = 15 candidates |
| KeyElements.Themes | js/utils/key-elements-extractor.js:311-328 | at most 15 themes, a permutation of the candidates, by non-increasing relevance |
| KeyElements.TermElements | js/utils/key-elements-extractor.js:401-404 | at most nine terms |
| KeyElements.ScaledSliceAtMostFive | js/utils/key-elements-extractor.js:311-327 | no entry of a scaled slice exceeds 5 |
| KeyElements.SliceBelowFirst | js/utils/key-elements-extractor.js:312 | no entry of a slice outscores the list's first entry |
| KeyElements.RelevanceAtMostFive | js/utils/key-elements-extractor.js:311-328 | no theme and no term has relevance above 5 |
| KeyElements.TextRanking | js/utils/key-elements-extractor.js:279-306 | the four lists of a text are well ranked |
| KeyElements.KeyElementsOf | js/utils/key-elements-extractor.js:277-407 | at most 15 themes by non-increasing relevance, at most nine terms and five key points |
| KeyElements.KeyElementsShape | js/utils/key-elements-extractor.js:277-407 | the themes and entities as above; every theme and term at most 5; each theme and entity in its category's bucket; a sentence in the text gives a key point |
| KeyElements.ExtractKeyElements | js/utils/key-elements-extractor.js:277-407 | the method computes the key elements step by step |
| LLMHandler.Tidied | js/utils/llm-handler.js:923-927 | trimmed, single blanks only, no space before punctuation, and not starting with a lower-case letter |
| LLMHandler.Terminated | js/utils/llm-handler.js:930-932 | the result ends with `.`, `!` or `?` |
| LLMHandler.CleanText | js/utils/llm-handler.js:919-935 | "" exactly for an empty text |
| LLMHandler.CleanTextIsClean | js/utils/llm-handler.js:919-935 | a non-empty text becomes single-spaced, trimmed, with no space before , . ; :, a capitalised start and a final terminator |
| LLMHandler.TerminatedIsClean | js/utils/llm-handler.js:930-932 | terminating a tidy text gives a clean sentence |
| LLMHandler.TidiedKeepsText | js/utils/llm-handler.js:923-927 | tidying loses only white space and upper-cases the first other character |
| LLMHandler.TerminatedKeepsText | js/utils/llm-handler.js:930-932 | the period goes after the other characters |
| LLMHandler.CleanTextKeepsText | js/utils/llm-handler.js:919-935 | cleaning loses only white space; a period is added exactly when the text does not end with a terminator |
| LLMHandler.CleanTextFixedPoints | js/utils/llm-handler.js:919-935 | the texts left unchanged are exactly "" and the clean sentences |
| LLMHandler.CleanTextIdempotent | js/utils/llm-handler.js:919-935 | cleaning twice is cleaning once |
| LLMHandler.UpperFirstEnds | js/utils/llm-handler.js:927-930 | capitalising a trimmed text keeps whether it ends with a terminator |
| LLMHandler.CapitalizeFirstLetterStable | js/utils/llm-handler.js:46-47 | capitalising twice is capitalising once, and only letter case changes |
| LLMHandler.LookUp | js/utils/llm-handler.js:913 | the listed form for a table verb; nothing for any other verb |
| LLMHandler.PresentTenseForms | js/utils/llm-handler.js:897-911 | every listed form is the verb plus "s" or "es" |
| LLMHandler.ConjugateVerb | js/utils/llm-handler.js:896-914 | always the verb plus "s" or "es": the form the table lists for a table verb, the verb plus "s" for any other |
| LLMHandler.ExtractKeyIndex | js/utils/llm-handler.js:842-848 | the fallback exactly for no sentences; otherwise an index in range: the position itself, counted from the end when negative, clamped at both ends |
| LLMHandler.ExtractKeySentence | js/utils/llm-handler.js:842-851 | the fixed fallback sentence for no sentences, otherwise one of the sentences |
| LLMHandler.MarkedInterior | js/utils/llm-handler.js:134-146 | only interior indices below the bound |
| LLMHandler.MarkedInteriorIncreasing | js/utils/llm-handler.js:134-146 | the marked interior indices are in increasing order |
| LLMHandler.MarkedInteriorExact | js/utils/llm-handler.js:134-146 | an interior index is listed exactly when its sentence has a listing or contrast word |
| LLMHandler.StructurallyImportant | js/utils/llm-handler.js:129-148 | [] exactly for no sentences, [0] for one; otherwise 0, then the last index, all in range |
| LLMHandler.StructurallyImportantInterior | js/utils/llm-handler.js:134-146 | after the first and last come exactly the marked interior indices, in increasing order |
| LLMHandler.StructurallyImportantDistinct | js/utils/llm-handler.js:129-148 | no index is listed twice |
| LLMHandler.IdentifyStructurallyImportantSentences | js/utils/llm-handler.js:129-148 | the push loop returns exactly the important indices |
| LLMHandler.VisitSentence | js/utils/llm-handler.js:134-146 | one step pushes the index exactly when it is interior and marked |
| LLMHandler.StemCountFrom | js/utils/llm-handler.js:234-235 | 0 exactly when no match starts in the range |
| LLMHandler.StemCount | js/utils/llm-handler.js:234-236 | the number of matches is at most the text length |
| LLMHandler.Classify | js/utils/llm-handler.js:243-245 | positive exactly when pos > 1.5 neg, negative exactly when neg > 1.5 pos, neutral otherwise |
| LLMHandler.ClassifySymmetric | js/utils/llm-handler.js:243-245 | swapping the two scores swaps positive and negative and keeps neutral |
| LLMHandler.DetectSentiment | js/utils/llm-handler.js:205-246 | the verdict on the counted positive and negative word matches |
| LLMHandler.NoSentimentWordsIsNeutral | js/utils/llm-handler.js:230-245 | a text with no sentiment word is neutral |
| LLMHandler.NoMatchesScoreZero | js/utils/llm-handler.js:233-242 | no match gives a score of 0 |
| LLMHandler.Qualifying | js/utils/llm-handler.js:555-560 | at most the number of phrases; 0 exactly when no phrase counts |
| LLMHandler.QualifyingAppend | js/utils/llm-handler.js:555-560 | the count over two lists is the sum of the counts |
| LLMHandler.PhraseCounts | js/utils/llm-handler.js:556 | a phrase counts when it is longer than three characters and contained, ignoring case |
| LLMHandler.ContainsAnyPhrase | js/utils/llm-handler.js:552-562 | true exactly when at least `max(threshold, 1)` phrases count |
| LLMHandler.SegmentIntoSections | js/utils/llm-handler.js:505-524 | up to three sentences give the one section [sentences]; otherwise non-empty sections, each closed by its last sentence only, except the last, which may be open; the sections put together give back the sentences |
| LLMHandler.GatherSentence | js/utils/llm-handler.js:509-521 | one loop pass keeps the sentences seen, split into closed sections and an open one |
| LLMHandler.SegmentClosed | js/utils/llm-handler.js:513-520 | a closing sentence ends the open section |
| LLMHandler.SegmentOpen | js/utils/llm-handler.js:510 | any other sentence joins the open section |
| LLMHandler.ClosedSection | js/utils/llm-handler.js:513-518 | an open section followed by a closing sentence is a finished section |
| LLMHandler.LastSection | js/utils/llm-handler.js:522-523 | a non-empty open section at the end becomes the last section |
| LLMHandler.NoLastSection | js/utils/llm-handler.js:522-523 | with no open section, the closed sections are all there is |
| LLMHandler.FlattenAppend | js/utils/llm-handler.js:518 | adding a section adds its sentences at the end |
| LLMHandler.UniqueTopics | js/utils/llm-handler.js:535-537 | no more than the topics |
| LLMHandler.UniqueTopicsMembers | js/utils/llm-handler.js:535-537 | exactly the unused topics the sentence contains, ignoring case |
| LLMHandler.Uniqueness | js/utils/llm-handler.js:531-539 | at most the number of topics |
| LLMHandler.UniquenessPositive | js/utils/llm-handler.js:531-539 | positive exactly when the sentence contains no used phrase and some unused topic |
| LLMHandler.FirstBest | js/utils/llm-handler.js:540 | the first position of the highest score |
| LLMHandler.SortFirstIsFirstBest | js/utils/llm-handler.js:540 | the stable descending sort puts the first highest score in front |
| LLMHandler.RankedFirstBest | js/utils/llm-handler.js:540 | any ranking by descending score starts with the first best |
| LLMHandler.SectionScores | js/utils/llm-handler.js:531-539 | each sentence's uniqueness, in order |
| LLMHandler.ScoreSection | js/utils/llm-handler.js:531-539 | the map computes each sentence's uniqueness |
| LLMHandler.ScoreSentence | js/utils/llm-handler.js:532-538 | 0 for a sentence with a used phrase, else its number of unused topics |
| LLMHandler.AddAll | js/utils/llm-handler.js:543 | adding keeps the old phrases in front |
| LLMHandler.AddAllMembers | js/utils/llm-handler.js:543 | the set holds the old phrases and the added ones, each once |
| LLMHandler.AddTopics | js/utils/llm-handler.js:543 | the loop adds each topic in turn |
| LLMHandler.SectionInsight | js/utils/llm-handler.js:530-546 | one sentence of the section, and the used phrases only grow |
| LLMHandler.SectionInsightUsed | js/utils/llm-handler.js:541-543 | a section adds only topics to the used phrases |
| LLMHandler.PickInsight | js/utils/llm-handler.js:531-546 | the first most unique sentence and its topics, or the first sentence when none is unique |
| LLMHandler.NonEmpty | js/utils/llm-handler.js:530 | the non-empty sections, in order |
| LLMHandler.DistinctInsightsStep | js/utils/llm-handler.js:529-547 | one section's insight, then the insights of the rest with the updated phrases |
| LLMHandler.DistinctInsightsPicks | js/utils/llm-handler.js:527-549 | exactly one sentence per non-empty section, taken from that section |
| LLMHandler.DistinctInsightsUsed | js/utils/llm-handler.js:527-549 | the used phrases only grow, and only by topics |
| LLMHandler.InsightOfSection | js/utils/llm-handler.js:529-547 | an empty section is skipped, any other adds one insight |
| LLMHandler.ExtractDistinctInsights | js/utils/llm-handler.js:527-549 | the insights and the updated phrase set, section by section |
| LLMHandler.TransitionLength | js/utils/llm-handler.js:599 | the length of the first transition word the sentence starts with, or none exactly when it starts with none |
| LLMHandler.TransitionFound | js/utils/llm-handler.js:591 | a transition word is found exactly when the filter's pattern matches |
| LLMHandler.StripTransition | js/utils/llm-handler.js:599 | a suffix of the sentence; unchanged without a leading transition word; otherwise not starting with white space |
| LLMHandler.CutTransition | js/utils/llm-handler.js:599 | the rest after the word, comma and white space, or the sentence unchanged |
| LLMHandler.LongWords | js/utils/llm-handler.js:605 | input words longer than three characters, none added; empty only when no input word is longer than three characters |
| LLMHandler.SentenceKey | js/utils/llm-handler.js:601-607 | the signature is empty if and only if no word of the normalised sentence is longer than three characters |
| LLMHandler.FirstVerbFrom | js/utils/llm-handler.js:612-613 | the first position in the range where a verb starts |
| LLMHandler.DemonstrativeLength | js/utils/llm-handler.js:612-613 | 0, 3 or 4 |
| LLMHandler.LazyVerbStart | js/utils/llm-handler.js:612-613 | the lazy match's verb, only after a leading "This" or "The" |
| LLMHandler.ReplaceLazy | js/utils/llm-handler.js:612-613 | the sentence unchanged, or the lead followed by a suffix of it |
| LLMHandler.SimplifySentence | js/utils/llm-handler.js:612-613 | definition of the two replacements; its shape is proved by `SimplifySentenceShape` |
| LLMHandler.SimplifySentenceShape | js/utils/llm-handler.js:610-614 | a simplified sentence is unchanged or begins with "It " or "We see that it " |
| LLMHandler.WithoutTransitions | js/utils/llm-handler.js:590-592 | the sentences not starting with a transition word |
| LLMHandler.Working | js/utils/llm-handler.js:595 | those sentences, or all of them when none is left |
| LLMHandler.Analyse | js/utils/llm-handler.js:599-611 | the sentence without its transition word, its signature, and a simplification exactly when it starts with "This" or "The" |
| LLMHandler.AnalyseAll | js/utils/llm-handler.js:597-611 | each working sentence analysed |
| LLMHandler.DedupFrom | js/utils/llm-handler.js:597-620 | definition of the `forEach`; its properties are proved by `DedupOrder`, `DedupKept`, `DedupKeptFirst`, `DedupSimplified` and `DedupCovers`, and `KeepUnique` is proved equal to it |
| LLMHandler.DedupOrder | js/utils/llm-handler.js:597-620 | no more pieces than sentences, each from a distinct sentence, in order |
| LLMHandler.DedupKept | js/utils/llm-handler.js:609-619 | a kept piece is its processed sentence with a non-empty signature; a long signature is neither seen before nor that of an earlier kept piece |
| LLMHandler.DedupKeptFirst | js/utils/llm-handler.js:609-619 | no sentence before a kept piece shares its long signature, so of the sentences sharing one only the first can be kept |
| LLMHandler.DedupSimplified | js/utils/llm-handler.js:609-615 | a simplified piece replaces a sentence whose long signature was seen before |
| LLMHandler.DedupCovers | js/utils/llm-handler.js:609-619 | every sentence with a non-empty signature gives a piece when the signature is short, when the sentence has a simplification, or when it is the first sentence with a signature not seen before |
| LLMHandler.DecideSentence | js/utils/llm-handler.js:609-619 | one pass adds the sentence's piece and records its signature |
| LLMHandler.KeepUnique | js/utils/llm-handler.js:597-620 | the loop returns the pieces of the deduplication |
| LLMHandler.ImprovedText | js/utils/llm-handler.js:583-624 | a text with at most one sentence comes back unchanged |
| LLMHandler.ImproveTextQuality | js/utils/llm-handler.js:583-624 | the method returns the improved text |

## Left out

- The DOM is not modelled: progress and status updates, rendering, and event wiring in `js/ui/ui-controller.js` and `js/app.js`.
- The sentence-count control's clamp to 1..10 is not modelled. Every summariser accepts any natural number of sentences.
- TensorFlow.js is not modelled, and neither is `js/utils/tf-models.js`, which is not part of this model. The registry's `loadFunction` bodies, `cosineSimilarity` and the embedding calls are replaced by the parameters `load`, `embedding` and `pairSim`.
- `isModelAvailable` (js/models/ml-summarizer.js:75-83) is not modelled. It only calls `loadModel` and reads the cache.
- Asynchrony is not modelled: `async`/`await`, the `setTimeout` delays and overlapping calls. A load "in flight" is the `isLoading` flag set when a call begins.
- Floating point is not modelled. Scores are exact reals, and `Math.ceil` is exact on them. `Math.log` is the parameter `ln`.
- TextSummarizer.Summarize: requires that `ln(n)` be positive for `n >= 2`. `Math.log` meets this, and it keeps the similarity's divisor non-zero.
- TextSummarizer.Summarize: takes `TextRewriter` as loaded, so step 7 (`typeof TextRewriter !== 'undefined'`) always hands over to `transformSummary`. The text of the TypeError that a Promise meets at `basicSummary.includes` depends on the JavaScript engine; the model fixes one message.
- KeyElements.Hit, KeyElements.KeyPoints, TextSummarizer.KeepSentences, TextSummarizer.NoSentencesInShortText, TextSummarizer.SplitIntoSentences, LLMHandler.PhraseCounts, LLMHandler.LongWords: count length in characters. `Hit` also measures the keyword's `indexOf` position in characters, so its early-position bonus, and through it the sentences `KeyPoints` picks, can differ from the source's on such text. JavaScript's `.length` counts UTF-16 code units, so a character outside the Basic Multilingual Plane counts twice in the source and once in the model. The two agree on every text made of Basic Multilingual Plane characters.
- Tally.Get, Tally.BumpFacts, Tally.CountGet, KeyTerms.TermCounts: treat every key as absent until counted. In the source the counters are plain objects, so a key naming an `Object.prototype` member, such as "constructor", reads as a function: `counts[k] || 0` yields that function, the count becomes a string, and the TF-IDF score of such a term is NaN. The same holds for the n-gram and entity counters. The model gives such keys ordinary counts.
- ModelRegistry.GetModel: treats every id outside the table as unknown. For an id that names an `Object.prototype` member, such as "toString", `models[id] || models['local']` returns that member instead of the `local` entry. The application only passes ids taken from the table, so it never meets such an id.
- Case mapping covers ASCII letters only. JavaScript also maps other letters in `toLowerCase` and `toUpperCase`.
- Tally.Keys: lists keys in insertion order. For keys that look like array indices, such as "2024", `Object.keys` and `Object.entries` list them first, in numeric order; the model does not.
- The rewriter's LLM branches (js/utils/text-rewriter.js:57-66, 92-104) are not modelled, because `LLMHandler` never loads. Neither are its `catch` branches (:79-83, :130-134), because the fallback code cannot throw.
- The random rewriters in `js/utils/llm-handler.js` are not modelled, because they draw on `Math.random`. These are `rewriteAdaptively`, `generateNonRepetitiveSentence`, `generateAdaptiveSummary`, `applySentenceStructure`, `adaptSentence`, `generateDynamicSentence` and `generateAdaptiveBiography`.
- The LLM simulation entry points (`processWithLLM`, `generateSummary`, `enhanceSummary`, `analyzeContent`) are not modelled, because they rest on those random rewriters.
- The name and topic heuristics (`extractTopics`, `extractEntities`, `detectContentType`, `analyzeTextForSummarization`, `extractActionVerbs`, `findRelationshipTerms`, `isDescriptiveText`, `isPersuasiveText`, `assessTextComplexity`, `assessTextConfidence`, `extractKeyPhrases`, `extractMainVerb`, `extractSentenceStructures`) are not modelled. They only feed the random rewriters.
- The earlier `cleanText` (js/utils/llm-handler.js:38-43) is not modelled, because the later declaration replaces it.
- LLMHandler.ExtractKeySentence: stops at the chosen sentence. The source passes that sentence on to the random `rewriteAdaptively`.
- LLMHandler.ConjugateVerb: for a verb that names an `Object.prototype` member, such as "constructor", the source returns that member instead of a string. The model returns the verb plus "s".
- Items given as plain strings (`typeof item === 'string'`) are not modelled. Themes and entities are always `{ text, relevance }` records, which is all the extractor produces.
- Inputs that are `null` or `undefined` are not modelled. Texts are strings, so `!text` holds only for "".
