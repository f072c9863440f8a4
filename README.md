# TripAdvisor restaurants: ingestion, rating updates and the popularity query

A Dafny model of the core of a small Python program that loads the
TripAdvisor European-restaurants CSV into a MongoDB database and then runs
queries and updates on it. Three parts of it are modelled.

- **Ingestion** (`initializeDB`, `src/main.py`). Every CSV row becomes one
  restaurant document. The document has six root fields and seven sub-records:
  Position, Popularity, Price, FoodInfo, Schedule, Review and Rating. Each
  sub-record repeats the row's `restaurant_link`. Cells are normalised as
  follows:
  - List-valued cells lose their spaces and are split on commas.
  - The continent is the location text before its first comma, once `[` and
    `"` are deleted.
  - The price range loses its commas and has `CHF` plus a no-break space
    rewritten to `$`. It is then split on `-`, and each of the first two
    pieces, without its currency character, is read as an integer.
  - An empty numeric cell becomes 0. The exceptions are the three schedule
    numbers, which become null, and an empty opening-hours cell, which
    becomes the empty mapping.

  The first row that cannot be converted aborts the whole load.
- **Rating update** (`Rating` and `update_ratings`, `src/MongoHelper.py`). A
  new review in one of five categories (weights 5 down to 1) increments that
  category's counter. The average is recomputed as the count-weighted mean of
  the five counters, and the new average and counter are written. The
  restaurant's review record gains one review.
- **Popular in a city** (`search_popular_in_city`, `src/MongoHelper.py`).
  This query selects the popularity records whose generic rank matches
  `^#[0-9]\D.*<city>$`. It sorts them ascending on that string and returns
  the links of at most three of them.

Modules:

| file | module | contents |
|---|---|---|
| `results.dfy` | `Results` | `Option` and `Result` (with `:-` support) |
| `strings.dfy` | `Text` | Python's `replace`, `split`, `int()` on decimal text, lexicographic order |
| `documents.dfy` | `Documents` | the restaurant document and its seven sub-records |
| `ingestion.dfy` | `Ingestion` | cell conversions, one row as a document, the load loop |
| `ratings.dfy` | `Ratings` | rating weights, the weighted mean, the two stored collections and the update |
| `popularity.dfy` | `PopularQuery` | the rank pattern, the ascending sort, the top three |

Design choices:
- The CSV is given to the model as a header map (column name to index) and a
  sequence of rows of cells.
- Python's `float` and `json.loads` are parameters of the load
  (`Ingestion.Parsers`). Each returns `None` where Python would raise, and also
  where Python returns a value the model cannot represent (see "## Left out").
- The ingestion errors are a missing column, a short row, an unparsable
  number, an undecodable opening-hours cell and a malformed price range. They
  are checked in the order the source reads the cells.
- Stored counters and averages are `real`, because the load stores them as
  Python floats.

## Model

| member | source | states |
|---|---|---|
| Text.Split | src/main.py:23 | splitting on one character never yields an empty list, no piece holds the separator, and joining the pieces with the separator gives back the text |
| Text.SplitJoin | src/main.py:23 | splitting the join of separator-free pieces gives back exactly those pieces |
| Text.Remove | src/main.py:23 | `replace(c, "")`: the character is gone, every other character present before is still there and nothing new appears, text without it is unchanged |
| Text.ReplaceKeepsPrefix | src/main.py:52 | `replace` leaves text that cannot start an occurrence of the pattern as it is and carries on after it |
| Text.ReplaceAll | src/main.py:52 | `replace` with the pattern itself as the replacement leaves the text unchanged, and a replacement no longer than the pattern never makes the text longer |
| Text.ReplaceFirstOccurrence | src/main.py:52 | when no occurrence of the pattern starts in the text before a given occurrence, `replace` keeps that text, writes the replacement in place of the occurrence and goes on with the rest |
| Text.ReplaceNoOccurrence | src/main.py:52 | `replace` leaves text in which no occurrence of the pattern starts unchanged |
| Text.ReplaceAbsent | src/main.py:52 | `replace` leaves text without the pattern's first character unchanged |
| Text.ParseShow | src/main.py:56-57 | `int()` reads back the canonical decimal form of every natural number, with or without a leading minus |
| Text.ParseInt | src/main.py:56-57 | `int()` on decimal text succeeds exactly on an optional sign followed by at least one digit |
| Ingestion.Cell | src/main.py:24 | reading `line[headers[column]]` succeeds exactly when the column is known and the row is long enough, and then gives that cell |
| Ingestion.ListCell | src/main.py:23 | an empty cell gives no items and only it does; otherwise the items joined with commas are the cell without its spaces, and no item holds a comma or a space |
| Ingestion.Continent | src/main.py:31 | the continent is a prefix of the location with `[` and `"` deleted, holds no comma, and is followed by a comma or by nothing; without a comma it is the whole cleaned location |
| Ingestion.ParsePriceRange | src/main.py:51-57 | the bounds are both set or both null; null exactly when the cleaned range is empty; an empty cell gives null bounds; a non-empty range without `-` is an error |
| Ingestion.RangeRoundTrip | src/main.py:51-57 | for every currency character other than `,` and `-` (so `$`, `€`, `£`, and also `C`), the range `<cur>a-<cur>b` is read as the bounds a and b |
| Ingestion.FrancRangeRoundTrip | src/main.py:51-57 | the range `CHF a-CHF b`, with no-break spaces, is read as the bounds a and b |
| Ingestion.PriceIgnoresExtraPieces | src/main.py:56-57 | only the first two `-`-separated pieces are read: whatever follows a second `-` does not change the result |
| Ingestion.NumberOrZero | src/main.py:41-42 | the cell converts exactly when it exists and is empty or a number; an empty cell gives 0 and any other the parsed number; an existing unparsable cell is a number error |
| Ingestion.NumberOrNone | src/main.py:79-81 | the schedule cell converts exactly when it exists and is empty or a number; an empty cell gives null and any other the parsed number; an existing unparsable cell is a number error |
| Ingestion.OpenHoursCell | src/main.py:78 | the cell converts exactly when it exists and is empty or decodes; an empty cell gives the empty mapping and any other the decoded mapping; an existing undecodable cell is an opening-hours error |
| Ingestion.ReadRoot | src/main.py:23-30 | the root fields are read exactly when their six cells exist; link, name, claimed, awards and keywords are then copied unchanged and features is the list the cell gives |
| Ingestion.ReadPosition | src/main.py:31-43 | the Position record is produced exactly when its cells exist and both coordinates are empty or numbers; it carries the link, the continent of the location, the copied place cells and the zero-defaulted coordinates |
| Ingestion.ReadPopularity | src/main.py:44-50 | the Popularity record is produced exactly when its three cells exist; it carries the link, the top-tags list and the two copied popularity strings |
| Ingestion.ReadPrice | src/main.py:51-64 | the Price record is produced exactly when the range exists and parses and the level exists; it carries the link, the copied level and the parsed bounds; a present but malformed range gives a price error |
| Ingestion.ReadFoodInfo | src/main.py:65-75 | the FoodInfo record is produced exactly when its six cells exist; it carries the link, the meals and cuisines lists and the four copied diet cells (`special_diets` is not split) |
| Ingestion.ReadSchedule | src/main.py:76-82 | the Schedule record is produced exactly when the opening hours are empty or decode and the three numbers are empty or numbers; it carries the link, the opening hours (empty mapping for an empty cell, the decoded mapping otherwise) and the three null-defaulted numbers |
| Ingestion.ReadReview | src/main.py:83-91 | the Review record is produced exactly when the language cell exists and both counts are empty or numbers; it carries the link, the copied language and the two zero-defaulted counts |
| Ingestion.ReadRating | src/main.py:92-104 | the Rating record is produced exactly when all ten cells are empty or numbers; it carries the link and the ten zero-defaulted numbers |
| Ingestion.NormalizeRow | src/main.py:23-111 | a row converts exactly when every cell it reads exists, every non-empty numeric cell is a number, the opening hours are empty or decode and the price range parses; a converted row's link is its `restaurant_link` cell and all seven sub-records carry that same link |
| Ingestion.NormalizedTextFields | src/main.py:23-71 | in a document, awards, keywords and special diets are the cells as they are; features, top tags, meals and cuisines are list cells; the continent is derived from the location |
| Ingestion.NormalizedNumbers | src/main.py:41-91 | in a document, empty coordinates and review counts are 0 and other cells their parsed numbers (lines 41-42, 85-90); the three schedule numbers are null when empty (lines 79-81); the opening hours are the empty mapping for an empty cell and the decoded mapping otherwise (line 78) |
| Ingestion.NormalizedRatings | src/main.py:92-104 | in a document, each of the ten rating numbers is 0 for an empty cell and the parsed number otherwise |
| Ingestion.NormalizedPrice | src/main.py:51-64 | in a document, min and max price are the parsed bounds of the range cell: both null (empty cleaned range) or both set |
| Ingestion.BadPriceAbortsRow | src/main.py:55-57 | a present but malformed price range makes the row fail |
| Ingestion.OkPrefixStep | src/main.py:22-112 | appending the next successful document keeps the documents equal to the first converted rows |
| Ingestion.InitializeDB | src/main.py:17-112 | the load succeeds exactly when every row converts, that is, every row meets the conditions of NormalizeRow; then it yields one document per row, in row order, each the conversion of its row; otherwise it reports the error of a failing row before which every row converted |
| Ratings.Weight | src/MongoHelper.py:6-11 | every category weighs between 1 and 5 (excellent 5 down to terrible 1) |
| Ratings.Counters.Set | src/MongoHelper.py:161 | writing one category's counter leaves the other four unchanged |
| Ratings.Bump | src/MongoHelper.py:161 | the chosen counter grows by one and the other four are unchanged |
| Ratings.AverageOf | src/MongoHelper.py:163-168 | the accumulation loop fails with a division by zero exactly when the counts sum to zero, and otherwise yields the count-weighted mean |
| Ratings.SumsOverCategories | src/MongoHelper.py:165-167 | running over the five categories in table order sums to the weighted total and to the review count |
| Ratings.MeanInRange | src/MongoHelper.py:163-168 | with non-negative counters and at least one review the weighted mean lies between 1 and 5 |
| Ratings.BumpedMeanInRange | src/MongoHelper.py:161-168 | after the increment of non-negative counters the count is at least 1, so the division is safe, and the new mean lies between 1 and 5 |
| Ratings.WorkedExample | src/MongoHelper.py:161-168 | counters (2, 0, 0, 1, 0) plus one excellent review become (3, 0, 0, 1, 0) with mean 4.25 |
| Ratings.Rated | src/MongoHelper.py:170-174 | the `$set` gives the rating record the new average and the incremented counter, and keeps its link and other scores |
| Ratings.Reviewed | src/MongoHelper.py:176-177 | the `$inc` adds one to the total review count and keeps every other field |
| Ratings.RatingStore.UpdateRatings | src/MongoHelper.py:143-177 | an unknown link fails and nothing changes; otherwise the rating record gets the incremented counter and the weighted mean of the new counters, so it is consistent afterwards, and the review record, if present, gains one review; the records stay keyed by their links, so the records written are the ones whose `restaurant_link` is the given link |
| PopularQuery.RankOfCityMatches | src/MongoHelper.py:57 | a rank such as `#1 of 20 restaurants in <city>` matches the pattern |
| PopularQuery.Matching | src/MongoHelper.py:57 | the filter keeps only records whose generic rank matches, drawn from the collection |
| PopularQuery.MatchingCounts | src/MongoHelper.py:57 | the filter keeps every matching record as often as it occurs and drops all others |
| PopularQuery.Insert | src/MongoHelper.py:57 | inserting adds exactly one record |
| PopularQuery.InsertSorted | src/MongoHelper.py:57 | inserting into a list in ascending rank order keeps it in order |
| PopularQuery.SortByRank | src/MongoHelper.py:57 | the ascending sort is a permutation of its input |
| PopularQuery.SortByRankSorted | src/MongoHelper.py:57 | the sort yields ascending rank order |
| PopularQuery.TopRanked | src/MongoHelper.py:57 | the result has min(3, number of matches) records; each matches and comes from the collection; they are in ascending order; they are drawn from the matches; every other match ranks no earlier than any of them |
| PopularQuery.SearchPopularInCity | src/MongoHelper.py:51-58 | at most three links, those of the top-ranked matching records, in order |
| Text.LexLeTransitive | src/MongoHelper.py:57 | the string order used by the sort is transitive (LexLeTotal: total, LexLeAntisymmetric: antisymmetric) |

## Left out

- The CSV file reading (`src/CsvHandler.py`) is not modelled. The header map and the rows are inputs.
- The MongoDB connection and `insert_many` are not modelled. The load returns the documents it would insert. The load writes only the nested documents of the "Restaurants" collection (`src/main.py:115`). The update reads and writes the separate "Ratings" and "Review" collections, and the query reads "Popularity". These three collections are values that do not depend on the load: two maps in `RatingStore` and a sequence for the popularity collection.
- Python's `float()` and `json.loads` are parameters, not definitions.
- Ingestion.NumberOrZero: `float()` also accepts `nan`, `inf` and `-inf` (and their spellings with a sign or in other case), which have no `real` value. A `float` parameter can only return `None` for them, so a row holding one fails in the model, while Python stores the special value and the load goes on. The same holds for `Ingestion.NumberOrNone`.
- Ingestion.OpenHoursCell: `json.loads` also returns values that are not an opening-hours mapping, for example on `null`, `[]`, `3` or a quoted string. The source stores any such value at `src/main.py:78` and the load goes on. The model's opening hours are a map, so a `json` parameter must either return `None` for them, which fails the row, or stand them in by some mapping.
- Floating-point arithmetic is modelled as exact `real` arithmetic, so rounding in the weighted mean is not modelled.
- The other methods of `MongoHelper` are not modelled: `add_to_collection`, `add_many_to_collection`, `get_restaurants`, `search_in_city`, `search_with_feature`, `search_close_restaurants`, `database`, `get_vegan_restaurants_in_cities`, `sort_with_weighted_rating` and `get_english_speaking_always_open_restaurants`.
- The empty stubs at `src/main.py:118-127` are not modelled.
- Text.ParseInt: accepts only ASCII digits with an optional sign. Python's `int()` also accepts surrounding whitespace, underscores between digits and other Unicode digits.
- Ingestion.InitializeDB: a CSV without data rows gives `Ok([])`. In the source, `insert_many` rejects an empty document list, so the load fails at `src/main.py:115`. The insertion is not part of this model.
- Ingestion.InitializeDB: a failing row is reported with the error of the first cell the model finds bad. Python raises at the first failing cell expression in the same order, but the kind of exception (KeyError, IndexError, ValueError) is collapsed into `IngestionError`.
- Ingestion.ParsePriceRange: `min_price <= max_price` is not enforced, because the code does not check it. A range such as `$20-$10` is stored as read.
- Ratings.RatingStore.UpdateRatings: the code's guard for a missing record tests the rating argument, which is always truthy, instead of the fetched record. A missing link therefore fails on the fetched `None` before anything is written. It does not log a warning and leave the data unchanged. The model reports `LinkNotFound` and changes nothing, which matches the state effect but not the exception.
- Ratings.RatingStore.UpdateRatings: a rating record without one of the five counters is not modelled. Python fails with a TypeError before any write: at `src/MongoHelper.py:161` when the missing counter is the chosen one, otherwise at line 166 (`review_count + val`). The model's counters are always present.
- Ratings.RatingStore.UpdateRatings: the rule that every stored average equals the weighted mean of its counters is established only for the record the update writes. The "Ratings" collection is given to `RatingStore` as it stands, so its other records may hold any average.
- PopularQuery.MatchesRank: the city is matched literally. A city name holding regular-expression metacharacters would be read by MongoDB as part of the pattern.
- PopularQuery.SortByRank: rank strings are compared by character code. Ties between equal rank strings are broken by the sort's own stable order, while MongoDB leaves their order unspecified.
