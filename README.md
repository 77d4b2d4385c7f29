# Airbnb Tunisia assistants: a Dafny model

This project models the decision logic of three Python components of an
Airbnb recommendation system for Tunisian holiday rentals (Hammamet and Jerba):

- **The rule-based accommodation chatbot** (`03_CHATBOT/scripts/chatbot_hebergement.py`,
  module `Hebergement`):
  - a free-text query is lower-cased and analysed with keyword tables into criteria: a city, quality focuses, a sentiment filter and a minimum rating;
  - the listings aggregated at load time are filtered by those criteria;
  - they are ranked by a quality score, plus bonuses for the focuses asked for;
  - the first `top_n` are returned, and an entry is recorded in the conversation history when there is at least one result;
  - the listing card's quality badge and review preview are modelled too.
- **Its configuration** (`03_CHATBOT/config/config_chatbot.py`, module `ConfigChatbot`): the quality weights, the thresholds, the badge table and `validate_config`.
- **The LangChain chatbot** (`03_CHATBOT/scripts/chatbot_langchain_advanced.py`, module `LangChainChatbot`):
  - the choice of model name;
  - the keyword fallback answers;
  - the answer-confidence heuristic;
  - the conversation history and its statistics (`get_stats`).
- **The hybrid recommender** (`02_SYSTEME_RECOMMANDATION/scripts/app.py`, module `HybridRecommender`):
  - candidates rated by similar users are scored as alpha·(text similarity) + beta·(estimated rating / 5);
  - the reference listing and the listings with no embedding index are skipped;
  - the result is the best `top_n`;
  - the `/recommend` route rejects an empty title.

Three helper modules support these:

- `Wrappers`: Option.
- `Text`: lower-casing, substring containment and title case.
- `Sequences`: filtering, subsequences, Python's prefix slice, a descending insertion sort by key, and sums.

The modelling choices:

- **Objects that change state are classes.** The history-keeping chatbots are `ChatbotHebergement` and `AirbnbLangChainChatbot`.
- **Loops stay loops.**
  - `analyze_query`'s keyword loops, the `score +=` loop of `rank_by_criteria` and the scoring loop of the hybrid recommender are methods with `while`/`for` loops.
  - Each of them is proved against a specification function.
- **Pure computations are functions**, and lemmas state their properties.
- **A pandas NaN is `None`**, and `fillna(0)` is `GetOr(0.0)`.
- **Python floats are Dafny reals.**
- **Results of foreign code are inputs**: the CSV load, the embedding similarity matrix, the k-NN neighbours and the LangChain chain's answer.

## Model

| member | source | states |
|---|---|---|
| `ConfigChatbot.ValidateConfig` | 03_CHATBOT/config/config_chatbot.py:250-267 | Each of the three errors is reported exactly when its check fails: excellent ≤ good; the weight total differs from 1.0 by more than 0.01, and the error carries that total; positive ≤ negative. The errors come in source order, at most three. No errors exactly when the configuration is consistent. |
| `ConfigChatbot.ShippedIsConsistent` | 03_CHATBOT/config/config_chatbot.py:21-96 | The shipped weights sum (`WeightTotal`, the `sum` at line 259) to exactly 1.0. The shipped thresholds are ordered, so the shipped configuration is consistent. |
| `ConfigChatbot.ValidateShippedConfig` | 06_TESTS/test_final.py:16-21 | Validating the shipped configuration yields no errors, which is what the integration test expects. |
| `Hebergement.QualityScoreUsesConfiguredWeights` | 03_CHATBOT/scripts/chatbot_hebergement.py:111-116 | The load-time quality score (`QualityScore`) is the weighted sum of the four NaN-filled columns, with exactly the weights of the configuration (0.3, 0.3, 0.2, 0.2). |
| `Hebergement.QualityScoreRange` | 03_CHATBOT/scripts/chatbot_hebergement.py:111-116 | With ratings in [0, 5] and sentiment in [0, 1], the quality score lies in [0, 3.8]. The card's badge is therefore BON or CORRECT, never EXCELLENT or TRÈS BON. |
| `Hebergement.MatchingKeys` | 03_CHATBOT/scripts/chatbot_hebergement.py:155-158 | A key is among the focuses if and only if one of its keywords occurs in the query. The focuses keep the table's order, as a subsequence of its keys. |
| `Hebergement.FirstKeyOfTwo` | 03_CHATBOT/scripts/chatbot_hebergement.py:149-153 | On a two-entry table the loop with `break` picks the first entry if one of its keywords occurs, else the second if one of its keywords occurs, else nothing. |
| `Hebergement.CityNamesTitled` | 03_CHATBOT/scripts/chatbot_hebergement.py:152 | `title()` turns the keys into "Hammamet" and "Jerba". |
| `Hebergement.FirstMatchingKey` | 03_CHATBOT/scripts/chatbot_hebergement.py:149-153 | The loop that returns early yields the first key of the table that has a keyword in the query, or None. |
| `Hebergement.AllMatchingKeys` | 03_CHATBOT/scripts/chatbot_hebergement.py:155-158 | The loop that appends a key whenever one of its keywords occurs yields exactly the matching keys of the table, in table order. |
| `Hebergement.AnalyzeQuery` | 03_CHATBOT/scripts/chatbot_hebergement.py:130-172 | The imperative analysis (lower-casing, the city loop, the focus loop, the sentiment loop, the rating tests) computes exactly the criteria of the specification function `Analyze`, whose fields the four `Analyze*` lemmas below characterise. |
| `Hebergement.AnalyzeCity` | 03_CHATBOT/scripts/chatbot_hebergement.py:148-153 | The city is "Hammamet" iff a Hammamet spelling occurs in the lower-cased query. It is "Jerba" iff no Hammamet spelling does and a Jerba one does. Otherwise it is None. |
| `Hebergement.QualityKeysDistinct` | 03_CHATBOT/scripts/chatbot_hebergement.py:53-60 | The quality keys are pairwise distinct. |
| `Hebergement.AnalyzeQualityFocus` | 03_CHATBOT/scripts/chatbot_hebergement.py:155-158 | Each quality key is a focus iff one of its keywords occurs in the lower-cased query. The focuses are keys of the table; they keep its order and have no repeats. |
| `Hebergement.AnalyzeSentiment` | 03_CHATBOT/scripts/chatbot_hebergement.py:160-164 | The sentiment filter is "positif" iff a positive keyword occurs. It is "négatif" iff no positive keyword does and a negative one does. Otherwise it is None. |
| `Hebergement.AnalyzeMinRating` | 03_CHATBOT/scripts/chatbot_hebergement.py:166-170 | The minimum rating is 3.5 iff an "excellent" word occurs. It is 3.0 iff none does and a "good" word occurs. Otherwise it is None. |
| `Hebergement.CityMatchIgnoresTitleCase` | 03_CHATBOT/scripts/chatbot_hebergement.py:191 | The case-insensitive city mask with the title-cased key matches the same cities as the key itself. |
| `Hebergement.FilterCity` | 03_CHATBOT/scripts/chatbot_hebergement.py:190-191 | The city stage keeps, in order, exactly the listings whose city contains the criterion in any case. It applies only when a non-empty city is asked for, and a listing with a missing city never matches. |
| `Hebergement.FilterRating` | 03_CHATBOT/scripts/chatbot_hebergement.py:194-195 | The rating stage keeps, in order, exactly the listings whose quality score is at least the minimum. A minimum of None or 0.0 is falsy and keeps everything. |
| `Hebergement.FilterSentiment` | 03_CHATBOT/scripts/chatbot_hebergement.py:198-201 | The sentiment stage keeps, in order, exactly the listings with sentiment ≥ 0.7 (positive) or ≤ 0.3 (negative). A missing sentiment fails both tests. |
| `Hebergement.FilterListings` | 03_CHATBOT/scripts/chatbot_hebergement.py:174-203 | With no data the result is empty. Otherwise it is an order-preserving subsequence of the listings, holding each listing as often as the input does exactly when all three criteria admit it. |
| `Hebergement.FilterListingsSound` | 03_CHATBOT/scripts/chatbot_hebergement.py:184-203 | Every filtered listing comes from the input and meets each criterion that is set. Every input listing that meets the criteria is kept. |
| `Hebergement.RankKeyWithoutFocus` | 03_CHATBOT/scripts/chatbot_hebergement.py:219-220 | With no quality focus the sort key is the quality score itself. |
| `Hebergement.FocusBonusExplicit` | 03_CHATBOT/scripts/chatbot_hebergement.py:223-234 | For distinct focuses the accumulated bonus is 0.5 × the NaN-filled sub-rating of each focus present among propre, communication, localisation and prix. |
| `Hebergement.StyleFocusAddsNothing` | 03_CHATBOT/scripts/chatbot_hebergement.py:225-234 | The focuses "moderne" and "confort" have no branch, so they add nothing to the score. |
| `Hebergement.CustomScore` | 03_CHATBOT/scripts/chatbot_hebergement.py:223-234 | The `score +=` loop over the focuses yields the quality score plus the focus bonus. |
| `Hebergement.RankByCriteria` | 03_CHATBOT/scripts/chatbot_hebergement.py:205-237 | The result is a permutation of the filtered listings in non-increasing order of the sort key: the quality score, or the custom score when there are focuses. |
| `Hebergement.SortedScoresRank` | 03_CHATBOT/scripts/chatbot_hebergement.py:235-237 | Sorting the (key, listing) pairs by key and dropping the keys ranks the listings. |
| `Hebergement.RankedPrefixAdmitted` | 03_CHATBOT/scripts/chatbot_hebergement.py:312 | Every listing in the `head(n)` of a ranking of the filtered listings satisfies the criteria. |
| `Hebergement.Search` | 03_CHATBOT/scripts/chatbot_hebergement.py:304-312 | With listings loaded, the criteria are those of the query, the results are the `head(top_n)` of a ranking of the listings the criteria admit, there are at most `top_n` of them when top_n ≥ 0, and each satisfies the criteria. |
| `Hebergement.ChatbotHebergement.constructor` | 03_CHATBOT/scripts/chatbot_hebergement.py:35-45 | The chatbot starts with the result of loading (None when it failed) and an empty history. Loading happens only here, so the listings never change afterwards. |
| `Hebergement.ChatbotHebergement.GenerateResponse` | 03_CHATBOT/scripts/chatbot_hebergement.py:290-329 | The outcome depends on the data and the results. <br>• No data: "data unavailable", no results, history unchanged. <br>• Otherwise: the results are the `head(top_n)` of a ranking of the listings filtered by the query's criteria. <br>• No results: the no-results answer, history unchanged. <br>• Results: exactly one history entry (query, criteria, count) is appended. <br>In every case there are at most `top_n` results when top_n ≥ 0, and each result satisfies the criteria. |
| `Hebergement.BadgeMonotone` | 03_CHATBOT/scripts/chatbot_hebergement.py:251-258 | The card's badge (`BadgeFor`) never gets lower as the quality score rises. |
| `Hebergement.BadgeMatchesDisplayConfig` | 03_CHATBOT/scripts/chatbot_hebergement.py:251-258 | For any non-negative score, the badge the card shows is the label of the first entry of the configuration's badge table whose threshold the score reaches. |
| `Hebergement.ReviewPreview` | 03_CHATBOT/scripts/chatbot_hebergement.py:269 | The preview is the review itself when it has at most 150 characters. Otherwise it is its first 150 characters followed by "...". Either way it keeps the review's first min(len, 150) characters and has at most 153. |
| `Hebergement.ReviewPreviewIdempotent` | 03_CHATBOT/scripts/chatbot_hebergement.py:269 | Previewing a preview changes nothing. |
| `Text.Lower` | 03_CHATBOT/scripts/chatbot_hebergement.py:140 | `lower()` keeps the length and lower-cases each character on its own. |
| `Text.LowerTitleWord` | 03_CHATBOT/scripts/chatbot_hebergement.py:152 | Title-casing a word and lower-casing it gives the lower-cased word. |
| `Text.ContainsAt` | 03_CHATBOT/scripts/chatbot_hebergement.py:151 | Python's substring test `k in s` holds iff `k` starts at some index of `s`. |
| `Sequences.Take` | 03_CHATBOT/scripts/chatbot_hebergement.py:312 | `head(n)` / `[:n]` is a prefix with min(n, len) items for n ≥ 0. For negative n it keeps all but the last \|n\| items. |
| `Sequences.SortDesc` | 02_SYSTEME_RECOMMANDATION/scripts/app.py:97 | Sorting by key in reverse is a permutation in non-increasing key order. |
| `Sequences.SortDescStable` | 02_SYSTEME_RECOMMANDATION/scripts/app.py:97 | The sort is stable: for every key value, the elements with that key come out in their input order, as Python's `sorted` guarantees. |
| `LangChainChatbot.ModelNameFor` | 03_CHATBOT/scripts/chatbot_langchain_advanced.py:76-82 | The model name is the table's entry for a known size and "gpt2" for any other size. It is always one of the table's names. |
| `LangChainChatbot.FallbackResponse` | 03_CHATBOT/scripts/chatbot_langchain_advanced.py:357-394 | The answer is the canned answer of the first keyword, in table order, that occurs in the lower-cased input, with confidence 0.6. When none occurs it is the greeting, with confidence 0.5. There are never any sources, and the method is "fallback". |
| `LangChainChatbot.FallbackConfidenceCases` | 03_CHATBOT/scripts/chatbot_langchain_advanced.py:379-394 | The confidence is 0.6 iff some keyword occurs. The answer is the greeting iff none does. |
| `LangChainChatbot.GreetingIsNotCanned` | 03_CHATBOT/scripts/chatbot_langchain_advanced.py:368-394 | The default greeting differs from every canned keyword answer, so the two cases of the fallback can be told apart by the answer. |
| `LangChainChatbot.CalculateConfidence` | 03_CHATBOT/scripts/chatbot_langchain_advanced.py:396-416 | An empty answer or one containing "désolé" in any case scores 0.2. Any other answer scores within [0.3, 1.0]. |
| `LangChainChatbot.ConfidenceMonotoneInSources` | 03_CHATBOT/scripts/chatbot_langchain_advanced.py:411-416 | More sources never lower the confidence. |
| `LangChainChatbot.ConfidenceMonotoneInLength` | 03_CHATBOT/scripts/chatbot_langchain_advanced.py:414-416 | Among non-apologetic answers, a longer one never scores lower. |
| `LangChainChatbot.ConfidenceSaturates` | 03_CHATBOT/scripts/chatbot_langchain_advanced.py:411-416 | A non-apologetic answer reaches the cap 1.0 with three sources, or with two sources and at least 140 characters. |
| `LangChainChatbot.DefaultAnswerScoresLowest` | 03_CHATBOT/scripts/chatbot_langchain_advanced.py:336 | The default answer used when the chain returns none apologises, so it always scores 0.2. |
| `LangChainChatbot.AsWrittenStep` | 03_CHATBOT/scripts/chatbot_langchain_advanced.py:326-344 | One `chat` call as the source writes it. Without a chain, or when the chain raises, the history is unchanged. Otherwise exactly one entry is appended: the user input, the answer (the apology by default) and the number of source documents, with no confidence. A history with no recorded confidence stays so, and the source total grows by the call's count. |
| `LangChainChatbot.CorrectedStep` | 03_CHATBOT/scripts/chatbot_langchain_advanced.py:326-344 | The same step with the reply's confidence recorded in the new entry. A history whose entries all record a confidence in [0.2, 1.0] stays so, and the source total grows by the call's count. |
| `LangChainChatbot.AsWrittenRunAveragesZero` | 03_CHATBOT/scripts/chatbot_langchain_advanced.py:340-450 | After any run of `chat` and `clear_history` calls from construction, as the source writes them, no entry holds a confidence and `get_stats` reports an average confidence of 0.0. |
| `LangChainChatbot.CorrectedRunAverageInRange` | 03_CHATBOT/scripts/chatbot_langchain_advanced.py:340-450 | After any run of corrected calls from construction, every entry records a confidence, and once there is a conversation the average lies in [0.2, 1.0]. |
| `LangChainChatbot.Confidences` | 03_CHATBOT/scripts/chatbot_langchain_advanced.py:445 | The list of confidences is the confidence of each entry that records one, in history order, and nothing else. |
| `LangChainChatbot.Mean` | 03_CHATBOT/scripts/chatbot_langchain_advanced.py:450 | The mean of no values is 0.0. Otherwise it is the value that, taken once per element, gives the sum. |
| `LangChainChatbot.MeanBounds` | 03_CHATBOT/scripts/chatbot_langchain_advanced.py:450 | The mean of a non-empty list of values in [lo, hi] lies in [lo, hi]. |
| `LangChainChatbot.StatsOf` | 03_CHATBOT/scripts/chatbot_langchain_advanced.py:428-453 | An empty history gives zeros, with the availability flag alone. Otherwise the statistics count the entries, sum their sources and report LangChain as enabled when it is available and a chain exists. |
| `LangChainChatbot.SumSourcesSnoc` | 03_CHATBOT/scripts/chatbot_langchain_advanced.py:446-451 | Appending an entry adds its source count to the total. |
| `LangChainChatbot.AsWrittenAverageIsZero` | 03_CHATBOT/scripts/chatbot_langchain_advanced.py:445-450 | For a history of entries as the source stores them, the average confidence is always 0.0. |
| `LangChainChatbot.NoConfidences` | 03_CHATBOT/scripts/chatbot_langchain_advanced.py:445 | Entries without a confidence contribute nothing to the list of confidences. |
| `LangChainChatbot.AsWrittenAverageExample` | 03_CHATBOT/scripts/chatbot_langchain_advanced.py:340-350 | An answer "Oui" with three sources is reported with confidence 1.0, yet the statistics of that one-entry history show an average of 0.0. |
| `LangChainChatbot.CorrectedAverageInRange` | 03_CHATBOT/scripts/chatbot_langchain_advanced.py:445-450 | When every entry records its confidence, the average of a non-empty history lies in [0.2, 1.0]. |
| `LangChainChatbot.AirbnbLangChainChatbot.constructor` | 03_CHATBOT/scripts/chatbot_langchain_advanced.py:113-128 | The history starts empty. A chain exists only when LangChain is available and building it succeeded. |
| `LangChainChatbot.AirbnbLangChainChatbot.ModelName` | 03_CHATBOT/scripts/chatbot_langchain_advanced.py:159 | The pipeline's model is looked up by the chatbot's size, falling back to "gpt2". |
| `LangChainChatbot.AirbnbLangChainChatbot.Chat` | 03_CHATBOT/scripts/chatbot_langchain_advanced.py:316-355 | Without a chain, or when the chain raises, the reply is the fallback response and the history is unchanged. Otherwise the reply is the chain's answer (the apology by default), its sources (none by default) and their confidence, by LangChain. Exactly one entry is appended, and it records that confidence, the corrected behaviour. A history whose entries all record a confidence stays so. |
| `LangChainChatbot.AirbnbLangChainChatbot.ClearHistory` | 03_CHATBOT/scripts/chatbot_langchain_advanced.py:422-426 | The history becomes empty. |
| `LangChainChatbot.AirbnbLangChainChatbot.GetStats` | 03_CHATBOT/scripts/chatbot_langchain_advanced.py:428-453 | The statistics of the current history. With recorded confidences, a non-empty history averages within [0.2, 1.0]. |
| `HybridRecommender.DescriptionPreview` | 02_SYSTEME_RECOMMANDATION/scripts/app.py:92 | A missing or empty description gives None. Any other description gives its first 300 characters followed by "...", even when it is shorter. |
| `HybridRecommender.Dropped` | 02_SYSTEME_RECOMMANDATION/scripts/app.py:55 | Dropping the reference listing keeps, in order, every other candidate and no copy of the reference. |
| `HybridRecommender.HybridScoreMonotone` | 02_SYSTEME_RECOMMANDATION/scripts/app.py:65-66 | With non-negative weights the score `alpha·sim + beta·note/5` (`HybridScore`) never decreases in either the similarity or the estimated rating. |
| `HybridRecommender.DefaultScoreInUnitRange` | 02_SYSTEME_RECOMMANDATION/scripts/app.py:34-66 | With the default weights 0.5/0.5, a similarity in [0, 1] and an estimate in [0, 5], the score lies in [0, 1]. |
| `HybridRecommender.BuildSound` | 02_SYSTEME_RECOMMANDATION/scripts/app.py:65-95 | A result entry (`Build`) carries the candidate's id and estimate and the similarity looked up for the pair. Its score is alpha·similarity + beta·estimate/5, and it has at most three positive reviews. |
| `HybridRecommender.Collect` | 02_SYSTEME_RECOMMANDATION/scripts/app.py:57-95 | With no reference index nothing is collected. Otherwise there is exactly one entry per candidate that has an index, in candidate order, and the k-th entry is the scored record of the k-th such candidate. |
| `HybridRecommender.ScoreCandidates` | 02_SYSTEME_RECOMMANDATION/scripts/app.py:57-95 | The `for` loop with its two `continue`s builds exactly the list `Collect` specifies. |
| `HybridRecommender.Results` | 02_SYSTEME_RECOMMANDATION/scripts/app.py:55-95 | The scored list of the inputs: empty when the reference has no index; otherwise one entry per candidate other than the reference that has an index, in candidate order, each scored from that candidate. |
| `HybridRecommender.ResultsSound` | 02_SYSTEME_RECOMMANDATION/scripts/app.py:55-95 | Each result concerns a candidate other than the reference, both having an embedding index. It carries that candidate's estimate, the similarity of the pair and the hybrid score of both. Conversely, when the reference has an index, every other candidate with an index is scored. |
| `HybridRecommender.ResultsComplete` | 02_SYSTEME_RECOMMANDATION/scripts/app.py:55-95 | When the reference has an index, every candidate other than the reference that has an index appears, scored, among the results. |
| `HybridRecommender.ResultSound` | 02_SYSTEME_RECOMMANDATION/scripts/app.py:55-95 | The same facts as `ResultsSound`, for one given result. |
| `HybridRecommender.RecommendHybrid` | 02_SYSTEME_RECOMMANDATION/scripts/app.py:45-99 | The reply is the no-rater error exactly when nobody rated the reference. Otherwise it lists the first `top_n` of the stable descending sort of the scored candidates: a permutation of them in non-increasing score where equal scores keep their loop order, cut to at most `top_n`, each one a scored candidate. |
| `HybridRecommender.TopIsSortedSubset` | 02_SYSTEME_RECOMMANDATION/scripts/app.py:97 | A prefix of the sorted results is sorted by score and holds only results. |
| `HybridRecommender.TopNIsBest` | 02_SYSTEME_RECOMMANDATION/scripts/app.py:97 | No result left out of the top `top_n` scores higher than one kept. |
| `HybridRecommender.Recommend` | 02_SYSTEME_RECOMMANDATION/scripts/app.py:156-162 | A missing or empty title is rejected with "Title is required". Any other title gives the hybrid outcome with the defaults top_n = 5 and alpha = beta = 0.5, so at most five recommendations. |

## Left out

- Reading the CSV, pickle and NumPy files, the pandas `groupby` aggregation of `load_data`, and its `try`/`except` are not modelled. Their result is the constructor's `loaded` argument: None when loading failed.
- `load_data` is modelled through its outcome only: the `quality_score` formula is kept (as `QualityScore`), while renaming columns and joining the review texts are not.
- The sentence-embedding model, cosine similarity, `argmax` over titles, the k-NN search and the mean ratings of similar users are foreign computations. They enter as `Inputs`: the reference id, whether anyone rated it, the candidates and the similarity matrix.
- The Flask app, CORS and Swagger, the Gradio interface, and the construction of the LangChain pipeline, vector store, memory and chain are not modelled. Only whether a chain exists, and what one call returned, enter the model.
- Clearing the chain's `memory` in `clear_history` is left out: the chain is not modelled.
- Timestamps in history entries, console messages, and the markdown text of the answers (`format_listing_info`'s text apart from the badge and preview, `_generate_results_response`, `_generate_no_results_response`) are left out. The model records which answer is given and with which data.
- Floats are modelled as exact reals: rounding is ignored. NaN is modelled only as a missing value (`None`).
- The ratings of app.py's metadata and its sentiment are taken as given reals. The `float()` conversions are identities.
- `str.lower()` is modelled for ASCII and Latin-1 letters only. Full Unicode case mapping is left out.
- `title()` is modelled on a single word, which is all the city keys are.
- `str.contains` is taken as a plain substring test. The city names contain no regex metacharacters, so the regex reading changes nothing.
- All columns the code reads are assumed present. A missing column would raise a `KeyError` in the source.
- `Hebergement.RankByCriteria`: the order of equal scores is not promised, since pandas' `sort_values` defaults to an unstable sort. Only a permutation in non-increasing order is stated. The hybrid recommender's `sorted` is stable, and the model states that.
- `price_range`, `KEYWORDS_CONFIG` and the other tables of the configuration module that the chatbot does not read are not modelled.
- Exceptions raised inside the LangChain call are modelled as a `ChainFailed` outcome. What happens inside the chain is not.
- `get_conversation_history` is a plain field read (`conversationHistory`).
- Calling `load_data` again after construction is not modelled. The source calls it only from `__init__`, so the listings are a constant field set by the constructor.
- `HybridRecommender.RecommendHybrid`: the description is read from the first review row's dictionary. A non-string, truthy description, such as a NaN float, would raise in the source, but in the model a description is always a string or absent.
- `LangChainChatbot.AirbnbLangChainChatbot.Chat`: the history entry records the confidence, following the correction below. The step as the source writes it is `AsWrittenStep`.

## Findings

| source | as written | input that shows it | evidently intended | confidence | as-written member | corrected member |
|---|---|---|---|---|---|---|
| 03_CHATBOT/scripts/chatbot_langchain_advanced.py:340-344, 445-450 | `chat` appends history entries with the keys user, bot and sources and no "confidence" key. So `get_stats` collects an empty list of confidences and always reports an average confidence of 0.0. | One successful chat whose answer is "Oui" with three source documents. The reply's confidence is 1.0, but `get_stats` reports `avg_confidence` 0.0. | The history entry records the reply's confidence, and the average lies in [0.2, 1.0] once there is a conversation. | not executed | `LangChainChatbot.AsWrittenStep`, `LangChainChatbot.AsWrittenRunAveragesZero`, `LangChainChatbot.AsWrittenAverageExample` | `LangChainChatbot.AirbnbLangChainChatbot.Chat`, `LangChainChatbot.CorrectedRunAverageInRange` |
