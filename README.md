# Crowdfunding success estimator — verified model of the estimation core

This project models the back end that scores a crowdfunding project
and suggests how to improve it:

- **Preprocessor** (`preprocessor.dfy`) cleans the word-segmented tokens of a
  project's title, description and content. It folds full-width characters to
  half-width, strips emoji, turns the configured delimiters into spaces,
  splits on whitespace, and drops sub-tokens that are empty or hold a digit,
  `$` or `%`.
- **Thresholder** (`thresholder.dfy`) wraps a probabilistic classifier. It
  holds an estimator and a decision threshold, predicts "success" when the
  probability is strictly above the threshold, and saves and loads its two
  fields as a dictionary.
- **Suggest** (`suggest.dfy`) works on the historical project dataset:
  - it writes the cosine similarity column;
  - it picks up to 20 peers with similarity at least 0.05, most similar first;
  - it recommends, per text field, the peers' tokens the project does not use,
    ranked by the chi-square table;
  - it summarises the peers' domain and type;
  - it gives box-plot quantiles and medians of six numeric columns;
  - with no peers, it falls back to an empty suggestion.
- **Estimate** (`estimate.dfy`) assembles the classifier input:
  - the selected-feature masks of the three text vectorizers;
  - the 32-column metadata row (indicators, lengths, whole days, one-hot type
    and domain, guarded logarithms), written back in part into the caller's
    project dictionary;
  - the concatenated input frame.

  It then runs the whole estimation: score, share of historical scores below
  it, and the suggestion.

`wrappers.dfy` holds `Option` and `Result`. `sequtil.dfy` holds the generic
sequence helpers: filter, flatten, count, `[:n]`, distinctness, and a
stable insertion sort used as one admissible outcome of the unstable sorts.

## Design

**Objects with changing state are classes:**
- `Thresholder.Thresholder`, whose two fields `load` replaces;
- `Suggest.Corpus`, whose dataset gets its `cos` column replaced by
  `get_similar_project`;
- `Estimate.ProjectDict`, the caller's project dictionary, into which
  `get_metadata` writes three keys.

**Everything else is values.** Datatypes and functions, with methods where
the source loops (`full2half`, the peer-column loop of
`get_text_suggestion`, the category loop of `get_suggestion`, the `hstack`
loop of `get_input`), where it changes one of the objects above, or where
`get_metadata` assigns the columns of `df_project` one after another
(`Estimate.OneHotColumns`, `Estimate.LogColumnsAdded`, which build that frame
as a map).

**External computations are parameters of the model:**
- the word segmenter;
- the vectorizers' `transform`;
- the cosine similarity of the normalised vectors;
- the natural logarithm `ln`;
- the estimator's `predict_proba`.

The model states only what the pipeline does around them.

**Ties and iteration order.**
- Ties in `sort_values`, `argsort` and `value_counts` may come in any order.
  The lemmas state only what holds for every order: non-increasing order,
  top-k by the key, distinctness. The functions compute one such order, a
  stable insertion sort.
- Candidate tokens are enumerated in the filter vocabulary's order, in place
  of Python's set iteration order.

## Model

| member | source | states |
|---|---|---|
| Preprocessor.HalfWidth | main/app/utils/preprocessor.py:32-44 | the result has the input's length and each character is the half-width form of the input's character at that position |
| Preprocessor.Full2Half | main/app/utils/preprocessor.py:32-44 | the loop preserves length, maps U+3000 to a space, lowers U+FF01..U+FF5E by 0xFEE0, leaves every other character unchanged, and agrees with HalfWidth |
| Preprocessor.HalfWidthIsHalfWidth | main/app/utils/preprocessor.py:38-42 | the output contains no U+3000 and no character in U+FF01..U+FF5E |
| Preprocessor.HalfWidthFixed | main/app/utils/preprocessor.py:38-42 | a string with no full-width character is left unchanged |
| Preprocessor.HalfWidthIdempotent | main/app/utils/preprocessor.py:32-44 | applying full2half twice equals applying it once |
| Preprocessor.DefaultEmojiRanges | main/app/utils/preprocessor.py:23-28 | a character lies in the default pattern's ranges exactly when it is in one of the four emoji blocks |
| Preprocessor.RemoveEmojiExact | main/app/utils/preprocessor.py:65-67 | removal distributes over concatenation and removes a single character exactly when it lies in the configured ranges, so every other character stays, in order |
| Preprocessor.RemoveEmojiDefault | main/app/utils/preprocessor.py:23-67 | with the default pattern, a character is in the result exactly when it is in the input and is not an emoji |
| Preprocessor.OccursChar | main/app/utils/preprocessor.py:77-79 | a one-character string occurs as a substring exactly when that character is in the string |
| Preprocessor.ReplaceAbsent | main/app/utils/preprocessor.py:69-71 | replacing a delimiter that does not occur leaves the string unchanged |
| Preprocessor.ReplaceChar | main/app/utils/preprocessor.py:69-71 | replacing a one-character delimiter by a space changes exactly the positions holding that character into spaces and keeps the length |
| Preprocessor.ReplaceEachChars | main/app/utils/preprocessor.py:69-71 | the fold over one-character delimiters keeps the length, turns every delimiter character into a space and keeps every other character |
| Preprocessor.DeliChars | main/app/utils/preprocessor.py:69-71 | deli with one-character delimiters: each delimiter becomes a space, every other character stays in place |
| Preprocessor.SplitWords | main/app/utils/preprocessor.py:75 | every piece that `str.split()` returns is non-empty and free of whitespace |
| Preprocessor.SplitFromText | main/app/utils/preprocessor.py:75 | concatenating the pieces gives back exactly the non-whitespace characters of the input, in order |
| Preprocessor.SplitWord | main/app/utils/preprocessor.py:75 | a non-empty string without whitespace splits into itself alone |
| Preprocessor.FurtherSplitAppend | main/app/utils/preprocessor.py:73-75 | further_split of a concatenation is the concatenation of the further_splits |
| Preprocessor.FurtherSplitPieces | main/app/utils/preprocessor.py:73-75 | further_split is the concatenation, in input-token order, of each token's half-width / emoji-free / delimiter-free split |
| Preprocessor.FurtherSplitWords | main/app/utils/preprocessor.py:73-75 | every sub-token of further_split is non-empty and contains no whitespace |
| Preprocessor.PiecesFreeOfDelimiters | main/app/utils/preprocessor.py:69-75 | with one-character delimiters, no sub-token produced from a token contains a delimiter |
| Preprocessor.FurtherSplitNoDelimiters | main/app/utils/preprocessor.py:69-75 | with one-character delimiters, no sub-token of further_split contains a delimiter |
| Preprocessor.SingleProcessExact | main/app/utils/preprocessor.py:81-83 | single_process distributes over concatenation and keeps a sub-token exactly when further_split produced it and it passes no_filter_word |
| Preprocessor.DefaultNoFilterWord | main/app/utils/preprocessor.py:30-79 | with the default filter words, no_filter_word holds exactly for non-empty strings without a digit, `$` or `%` |
| Preprocessor.SingleProcessTokens | main/app/utils/preprocessor.py:77-83 | with the default filter words every token returned is non-empty, free of whitespace, and contains no digit, `$` or `%` |
| Preprocessor.Config.Preprocess | main/app/utils/preprocessor.py:85-94 | an empty input comes back unchanged; a flat list gives single_process of it; a batch gives one list per input list, element i being single_process of input i |
| Preprocessor.BatchIsPointwise | main/app/utils/preprocessor.py:91-92 | the i-th result of a batch equals preprocessing the i-th list alone |
| Thresholder.Validate | main/app/utils/thresholder.py:59-64 | non-dictionary data is a TypeError; a dictionary missing either key is a KeyError; otherwise the two stored values, and Ok exactly when both keys are present |
| Thresholder.SaveLoadRoundTrip | main/app/utils/thresholder.py:46-65 | the dictionary save builds passes load's checks and yields the same two values |
| Thresholder.Thresholder.constructor | main/app/utils/thresholder.py:27-29 | the fields take the given estimator and threshold, by default None and 0.5 |
| Thresholder.NewDefault | main/app/utils/thresholder.py:27-29 | a default thresholder has no estimator and threshold 0.5 |
| Thresholder.Thresholder.PredictProb | main/app/utils/thresholder.py:36-38 | one probability per row, column 1 of predict_proba; AttributeError without an estimator; Ok exactly when every probability vector has at least two columns |
| Thresholder.Thresholder.Predict | main/app/utils/thresholder.py:40-44 | errors of predict_prob pass through; a non-number threshold is a TypeError; otherwise 1 exactly when the probability is strictly above the threshold and 0 exactly when it is at or below it |
| Thresholder.Thresholder.Save | main/app/utils/thresholder.py:46-53 | the saved dictionary validates to the current estimator and threshold |
| Thresholder.Thresholder.Load | main/app/utils/thresholder.py:55-65 | TypeError for non-dictionary data and KeyError for a missing key, both with the fields unchanged; valid data sets both fields to the stored values and returns the object itself |
| Thresholder.SaveThenLoad | main/app/utils/thresholder.py:46-65 | loading what one thresholder saved gives another the same estimator and threshold |
| Suggest.TopPeers | main/app/utils/suggest.py:50-52 | at most 20 peers, each a valid row index whose similarity is at least 0.05 |
| Suggest.TopPeersDistinct | main/app/utils/suggest.py:52 | no row is returned twice |
| Suggest.TopPeersComplete | main/app/utils/suggest.py:52 | a qualifying row is left out only when 20 peers were taken, each at least as similar as it |
| Suggest.TopPeersIsRanking | main/app/utils/suggest.py:44-52 | the peers are distinct, qualify, come by non-increasing similarity, and are a top-20 of the qualifying rows |
| Suggest.Corpus.GetSimilarProject | main/app/utils/suggest.py:44-52 | a similarity vector as long as the dataset replaces the `cos` column of every row and no other column, and the result is a peer ranking; any other length fails with the dataset unchanged |
| Suggest.UnionAll | main/app/utils/suggest.py:60-63 | the union holds every peer's token set and nothing outside them |
| Suggest.FirstIndex | main/app/utils/suggest.py:83-86 | the index of the first occurrence of the token in the filter vocabulary |
| Suggest.CandidateIndices | main/app/utils/suggest.py:64-86 | every candidate index points to the first occurrence of a vocabulary token that is in the candidate set |
| Suggest.MaskCount | main/app/utils/suggest.py:72-82 | the row sum of a token's document mask is the number of peer documents containing it |
| Suggest.PeersWithLength | main/app/utils/suggest.py:127-131 | the peer list selected by a mask has one entry per true mask position |
| Suggest.PeersWithMember | main/app/utils/suggest.py:127-131 | a value is in the selected peer list exactly when some peer whose mask position is true has that value |
| Suggest.RecommendationAt | main/app/utils/suggest.py:111-131 | the j-th recommendation carries the j-th ranked candidate's token, document count and p-value, with the titles and links of the peers containing it |
| Suggest.RecommendationSound | main/app/utils/suggest.py:56-131 | a recommended token occurs in some peer, is not one of the project's own tokens, is in the filter vocabulary, has df = number of peer documents containing it and df > 1, has odds > 1 and pvals = the chi2 value at its index, and lists exactly df peer titles and links |
| Suggest.RecommendationsOrdered | main/app/utils/suggest.py:107-137 | at most 20 recommendations per field, in non-decreasing p-value order |
| Suggest.RecommendationsComplete | main/app/utils/suggest.py:64-137 | a qualifying candidate is recommended unless 20 recommendations with p-value at most its own were made |
| Suggest.RecommendationsDistinct | main/app/utils/suggest.py:64-71 | no token is recommended twice for one field |
| Suggest.TextSuggestionTotal | main/app/utils/suggest.py:132-137 | the corrected text suggestion has an entry for all three fields, each with at most 20 recommendations |
| Suggest.TextSuggestionAsWritten | main/app/utils/suggest.py:72-82 | as written, the text suggestion fails, and only with the axis error, exactly when some field has no candidate token; when it succeeds it equals the corrected text suggestion |
| Suggest.CoveredHasNoCandidates | main/app/utils/suggest.py:64-71 | when every peer token of a field is one of the project's own, the field has no candidates |
| Suggest.NoCandidatesExactly | main/app/utils/suggest.py:60-71 | a field has no candidate token exactly when every peer token that is in the filter vocabulary is one of the project's own tokens |
| Suggest.CoveredPeersRaiseAxisError | main/app/utils/suggest.py:64-82 | as written, such a field makes the whole text suggestion fail with an axis error |
| Suggest.CoveredFieldGetsEmptyTable | main/app/utils/suggest.py:72-82 | corrected, such a field gets an empty recommendation list |
| Suggest.AddPeerColumns | main/app/utils/suggest.py:124-131 | the nested loop gives every field's table both peer columns, built from its rows' masks, and leaves the rows unchanged |
| Suggest.TextTables | main/app/utils/suggest.py:111-137 | the per-field tables, after the peer columns are added and the records taken, are each field's recommendation list for the given peer titles and links |
| Suggest.Corpus.GetTextSuggestion | main/app/utils/suggest.py:54-138 | the method raises the axis error exactly when some field has no candidate token, and otherwise returns each field's recommendation list for the stored dataset and artifacts |
| Suggest.Quantile | main/app/utils/suggest.py:146 | a quantile exists exactly when the column is non-empty |
| Suggest.Position | main/app/utils/suggest.py:146 | the interpolation position q·(n−1) lies between the first and last index |
| Suggest.InterpolateBetween | main/app/utils/suggest.py:146 | on a sorted column the interpolated value lies between the two neighbouring order statistics |
| Suggest.InterpolateMono | main/app/utils/suggest.py:146 | on a sorted column interpolation is monotone in the position |
| Suggest.InterpolateAtIndex | main/app/utils/suggest.py:146 | at an integer position interpolation gives that order statistic |
| Suggest.AscendingFirstIsMinimum | main/app/utils/suggest.py:146 | the first sorted value is a column value and the minimum |
| Suggest.AscendingLastIsMaximum | main/app/utils/suggest.py:146 | the last sorted value is a column value and the maximum |
| Suggest.QuantileExtremes | main/app/utils/suggest.py:144-146 | the 0 quantile is the column minimum and the 1 quantile the column maximum |
| Suggest.QuantileMono | main/app/utils/suggest.py:146 | quantiles are non-decreasing in q |
| Suggest.MedianPosition | main/app/utils/suggest.py:150-151 | the median position is the middle index for odd lengths and halfway between the two middle indices for even lengths |
| Suggest.MedianIsMiddle | main/app/utils/suggest.py:150-151 | the median is the middle order statistic, or the mean of the two middle ones |
| Suggest.MetaSuggestion | main/app/utils/suggest.py:140-165 | there is an entry for each of the six metadata columns |
| Suggest.BoxOrdered | main/app/utils/suggest.py:144-149 | min ≤ 25% ≤ 50% ≤ 75% ≤ max quantiles, the extremes are column values, and every value lies between them |
| Suggest.MetaBoxOrdered | main/app/utils/suggest.py:144-150 | with peers, all five box values exist and are ordered, box_50 is the median, and every peer's value lies between box_min and box_max |
| Suggest.MetaCountsBounded | main/app/utils/suggest.py:150-160 | success_greater + success_less is at most the number of successful peers, project_value is the project's value, and each median is missing exactly when its subset is empty |
| Suggest.MostCommon | main/app/utils/suggest.py:178-183 | the chosen value is a candidate and no candidate occurs more often |
| Suggest.MostCommonOverall | main/app/utils/suggest.py:178-183 | no value occurs more often among the peers than the most common one |
| Suggest.OccurrencesAbsent | main/app/utils/suggest.py:180 | a value no peer has occurs zero times |
| Suggest.Categories | main/app/utils/suggest.py:176-184 | the categories map has exactly the domain and type entries |
| Suggest.CategoryStatFacts | main/app/utils/suggest.py:177-184 | 0 ≤ same_rate ≤ most.rate ≤ 1 and most.rate > 0; most.name is some peer's value at least as frequent as any other; same_rate is 0 exactly when no peer shares the project's value |
| Suggest.SharesOrdered | main/app/utils/suggest.py:180-183 | the shares of two counts out of the peer count keep their order, lie in [0, 1], and are zero exactly for a zero count |
| Suggest.NoPeersEmptySuggestion | main/app/utils/suggest.py:193-205 | with no peers: peer_cnt 0, peer_success_cnt 0, and empty peers, categories, recommend_tokens and metadata |
| Suggest.SuggestionAsWritten | main/app/utils/suggest.py:167-206 | as written, get_suggestion fails, only with the axis error, exactly when there are peers and some field has no candidate token; otherwise it gives the suggestion with empty-peer fallback |
| Suggest.SuggestionShape | main/app/utils/suggest.py:172-205 | with peers: peer_cnt is their number, peer_success_cnt counts those with percentage ≥ 1 and is at most peer_cnt; one peer entry per peer with its title, link, success and cos; and categories, recommend_tokens and metadata have all their keys |
| Suggest.Corpus.GetSuggestion | main/app/utils/suggest.py:167-206 | a mismatched similarity vector fails with the dataset unchanged; otherwise the `cos` column is replaced, and with peers a field without candidates raises the axis error, while in every other case the result is the suggestion for the top peers |
| Suggest.Corpus.constructor | main/app/utils/suggest.py:26-42 | the corpus holds the given dataset and the artifacts aligned with it |
| Estimate.SelectIsFilter | main/app/utils/estimate.py:47-50 | masking the names keeps exactly the selected names, in vocabulary order |
| Estimate.SelectedFeatures | main/app/utils/estimate.py:47-50 | the kept feature names are vectorizer names that are also selected tokens |
| Estimate.InputVector | main/app/utils/estimate.py:85-90 | masking fails exactly when the vector and the names differ in width, and then with a length mismatch; otherwise the result is as wide as the feature list |
| Estimate.MaskKeepsPairs | main/app/utils/estimate.py:47-90 | the kept features and the kept vector columns pair up exactly as the vector's original (name, value) pairs whose name is selected |
| Estimate.MaskPairs | main/app/utils/estimate.py:47-90 | one mask applied to names and values keeps them aligned |
| Estimate.WholeDays | main/app/utils/estimate.py:99 | the duration is the number of whole days: d days ≤ end − start < d + 1 days, in nanoseconds |
| Estimate.Written | main/app/utils/estimate.py:99-103 | the project gains exactly duration_days, description_length and content_length (not title_length), and keeps every other key |
| Estimate.BaseColumns | main/app/utils/estimate.py:96-104 | writes the three keys into the project and gives the indicator, count, duration and length columns |
| Estimate.OneHotColumns | main/app/utils/estimate.py:106-113 | keeps the earlier columns and sets every type and domain column to the project's indicator |
| Estimate.LogColumnsAdded | main/app/utils/estimate.py:115-122 | adds the three log columns and drops the two timestamps |
| Estimate.GetMetadata | main/app/utils/estimate.py:94-133 | writes the three keys into the project and returns the 32-column row and its column names in the fixed order |
| Estimate.MetadataRow | main/app/utils/estimate.py:124-133 | the row has exactly 32 columns |
| Estimate.LeadingValues | main/app/utils/estimate.py:96-125 | columns 0-8 are the four indicators, set_count, whole days, and the description, content and title lengths |
| Estimate.TimestampsDropped | main/app/utils/estimate.py:120-133 | start_time and end_time are not among the row's columns |
| Estimate.LogValues | main/app/utils/estimate.py:115-118 | log_goal is 1 when goal is 0 and ln(goal) otherwise, log_max_set_prices likewise, and log_min_set_prices is ln(min_set_prices + 1) |
| Estimate.TypeNamesIncrease | main/app/utils/estimate.py:106 | the three type names start with strictly increasing characters, so they are distinct |
| Estimate.DomainNamesIncrease | main/app/utils/estimate.py:106-109 | the seventeen domain names start with strictly increasing characters, so they are distinct |
| Estimate.OneHotBlock | main/app/utils/estimate.py:111-113 | an indicator group over distinct names has at most one 1, and no 1 when the value is not a name |
| Estimate.TypeOneHot | main/app/utils/estimate.py:106-132 | columns 9-11 hold 1 exactly at the project's type, at most one 1, and all zero for an unknown type |
| Estimate.DomainOneHot | main/app/utils/estimate.py:106-132 | columns 12-28 hold 1 exactly at the project's domain, at most one 1, and all zero for an unknown domain |
| Estimate.InputLayout | main/app/utils/estimate.py:141-148 | the row is the title, description, content and metadata vectors in that order; the names carry the `title:`, `description:`, `content:` and `meta:` prefixes in the same order; the width is the three feature counts plus 32 |
| Estimate.InputFrameBuilt | main/app/utils/estimate.py:147-149 | the frame is built exactly when the total widths of row and names agree, in particular when each field's vector is as wide as its feature list |
| Estimate.InputFrame | main/app/utils/estimate.py:149 | a failure is a shape mismatch, and a frame has as many columns as values |
| Estimate.TextColumns | main/app/utils/estimate.py:141-146 | the hstack loop concatenates the three field vectors and their prefixed names in field order |
| Estimate.GetInput | main/app/utils/estimate.py:135-151 | writes the three keys into the project and returns the frame of the vectors, the feature names and the project's metadata row |
| Estimate.GreaterThan | main/app/utils/estimate.py:161 | no value exactly when there are no historical scores; otherwise a fraction in [0, 1] |
| Estimate.GreaterThanMono | main/app/utils/estimate.py:161 | the fraction is non-decreasing in the probability |
| Estimate.GreaterThanExtremes | main/app/utils/estimate.py:161 | 1 when every historical score is strictly below the probability, 0 when none is |
| Estimate.TokenizeText | main/app/utils/estimate.py:52-64 | a field's tokens are the preprocessor's single_process of the segmenter's output |
| Estimate.TokenizeClean | main/app/utils/estimate.py:52-64 | with the default filter words every token of every field is non-empty, free of whitespace, and holds no digit, `$` or `%` |
| Estimate.InputVectors | main/app/utils/estimate.py:85-90 | masking succeeds exactly when each field's vector is as wide as its vectorizer's names, and the masked vectors are as wide as the selected features |
| Estimate.ScoreShapes | main/app/utils/estimate.py:155-159 | when the vectors fit the vectorizers, only the classifier can make scoring fail |
| Estimate.Classify | main/app/utils/estimate.py:155-159 | tokenize, mask, build the input frame and score it; the three keys are written exactly when masking succeeds |
| Estimate.GetEstimation | main/app/utils/estimate.py:153-168 | a scoring failure returns that error with the dataset unchanged; otherwise the `cos` column is replaced, the axis error of the text suggestion is passed on, and in every other case the result holds the score, the share of historical scores below it, and the suggestion for the top peers |

## Left out

- Word segmentation (the CKIP segmenter) is the parameter `segment` of `Estimate.Pipeline`: an external neural model.
- The vectorizers' `transform` is the parameter `transform`: a library computation on sparse matrices.
- The L2 normalisation and the `filter_tokens` column selection feed only the cosine similarity. The normalisation has no zero-norm guard. Both sit inside the parameter `similarity`, which gives one real per dataset row: float square roots and dot products are not modelled.
- The estimator's `predict_proba` is the function field of `Thresholder.Estimator`. `fit` only delegates to the estimator and is not modelled.
- `ln` is a parameter: only the guard branches of the log columns matter.
- Pickle and file I/O at import time and in `save`/`load` are not modelled. The loaded artifacts are immutable inputs. `save`/`load` are modelled as building the dictionary and validating it.
- Logging and timing calls are not modelled.
- The Flask application, the views, the marshmallow schema and the endpoint tests are outside the estimation core.
- Tie order: the functions use a stable insertion sort, so tied elements keep their input order. This is one admissible outcome of the source's sorts. The lemmas state only order-independent properties.
- Set iteration order for the unused tokens is replaced by the vocabulary's order.
- Timestamps are integers in nanoseconds, as pandas stores them. `.dt.days` is floor division by one day.
- NaN results are `None`: the medians of an empty success or failure subset, and `greater_than` with no historical scores.
- The dataset index is assumed to be a RangeIndex, so `.index` and `iloc` agree. Peers are row positions.
- The code guards the log of `goal` and `max_set_prices` on a value different from zero, not on a positive value. The model follows the code.
- `get_similar_project` sorts with pandas' default sort, which is not stable. No stability is claimed.
- Preprocessor.DeliChars: the delimiter-to-space property is proved for one-character delimiters only. The delimiter list is loaded from a pickle and its contents are not known. For longer delimiters the model states only that an absent delimiter changes nothing (Preprocessor.ReplaceAbsent), because replacing one longer pattern can create or break occurrences of another.
- Suggest.MetaSuggestion: its own contract states only the keys. The box order, medians and counts are proved in Suggest.MetaBoxOrdered and Suggest.MetaCountsBounded.

## Findings

| source | as written | input that shows it | evidently intended | confidence | as-written member | corrected member |
|---|---|---|---|---|---|---|
| main/app/utils/suggest.py:72-82 | when a field has no candidate token, the document-mask array is one-dimensional and empty, and `sum(axis=1)` raises AxisError, failing the whole estimation | peers whose tokens for one field are all among the project's own tokens for that field (for example all peers share the project's title tokens) | that field gets an empty recommendation list and the other fields are unaffected | not executed | Suggest.TextSuggestionAsWritten, Suggest.CoveredPeersRaiseAxisError | Suggest.CoveredFieldGetsEmptyTable, Suggest.TextSuggestionTotal |

The methods `Suggest.Corpus.GetTextSuggestion`, `Suggest.Corpus.GetSuggestion`
and `Estimate.GetEstimation` follow the code as written: they raise the axis
error after the `cos` column has been written. `Suggest.SuggestionAsWritten`
states when. On every other input their result is the one the corrected
functions `Suggest.TextSuggestionFor` and `Suggest.SuggestionFor` give.
