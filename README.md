# Movie rating prediction: a Dafny model

This project models the logic of the movie-database server. That logic is in two places.

**The rating prediction in `server/blueprints/ratings.py`.** The endpoint builds one PostgreSQL query and maps its single row to a JSON object. The model has three layers.

- **Query text** (`query_text.dfy`). The four builders `movie_avg_rating`, `user_avg_rating`, `genre_avg_rating` and `tag_avg_rating` each take a `subset` flag. `bias(func)` wraps `func(False) / func(True)` in `COALESCE(..., 1)`. The prediction query composes them. Every fragment is the exact text, whitespace included. The proofs show:
  - each restricted variant is the unrestricted one with a single user-membership clause inserted;
  - each bias divides the unrestricted variant by the restricted one, never the reverse;
  - each of the five builder columns of the prediction query wraps the builder its alias names.
- **Query meaning over in-memory tables** (`sql_values.dfy`, `populations.dfy`).
  - SQL NULL is `None`.
  - `AVG` of an empty bag is NULL.
  - Division is NULL when either operand is NULL. Division by zero is an error, which `COALESCE` does not catch.
  - An inner join repeats a rating once per matching joined row.
  - `user_avg_rating` is the average of per-user averages. It groups after the user filter and reads every movie.
  - Ratings are exact reals.
- **The prediction row and the response** (`prediction.dfy`):
  - the three bias factors;
  - the seven columns of the outer `SELECT`;
  - the request defaults `movie = ""` and `users = []`;
  - the mapping of columns 0..6 to the camelCase response keys;
  - status 500 when the query fails.

**The handlers in `server/server.py`.**

- **Autocomplete** (`autocomplete.dfy`). Five autocomplete handlers share one prefix filter. It is case-insensitive (ASCII only) and keeps list order.
- **Request guards** (`request_guards.dfy`). Three POST handlers guard their input with Python truthiness. On failure they answer HTTP 400 with a fixed message.

`wrappers.dfy` holds the `Option` and `Result` types.

A movie that nobody has rated need not get neutral biases. Its movie averages and predicted rating are NULL (`Prediction.UnratedMovieIsNull`). The biases are different:
- `user_avg_rating` never reads `%(movie)s`, so the user bias compares two averages over all movies. `Prediction.UnratedMovieKeepsUserBias` exhibits a user bias of 0.75 for an unrated title.
- The genre and tag biases read the ratings of other movies that share a genre or tag with the title.

## Model

| member | source | states |
|---|---|---|
| QueryText.MovieAvgRating | server/blueprints/ratings.py:9-31 | the text opens with the `SELECT AVG(r.rating) FROM ratings r INNER JOIN movies m ... WHERE` head and closes with the `m.title = %(movie)s` filter; the user clause stands right after the `WHERE` exactly when `subset` is set |
| QueryText.UserAvgRating | server/blueprints/ratings.py:34-59 | the text opens with the per-user `AVG(r.rating) AS avg_rating ... FROM ratings r` head and closes with `GROUP BY r.user_id`; the `WHERE r.user_id = ANY(...)` clause stands before the grouping exactly when `subset` is set |
| QueryText.GenreAvgRating | server/blueprints/ratings.py:62-93 | the text opens with the `movies_genres` join and closes with the genre subquery for `%(movie)s`; the user clause follows the `WHERE` exactly when `subset` is set |
| QueryText.TagAvgRating | server/blueprints/ratings.py:96-127 | the text opens with the `movies_users_tags` join on movie and user and closes with the `DISTINCT` tag subquery; the user clause follows the `WHERE` exactly when `subset` is set |
| QueryText.MovieSubsetInsertsClause | server/blueprints/ratings.py:9-31 | `movie_avg_rating(True)` is `movie_avg_rating(False)` with `r.user_id = ANY(%(users)s) AND` inserted at one place; the rest of the text, title filter included, is unchanged |
| QueryText.UserSubsetInsertsClause | server/blueprints/ratings.py:34-59 | `user_avg_rating(True)` is `user_avg_rating(False)` with one `WHERE r.user_id = ANY(%(users)s)` clause inserted, and nothing else changed |
| QueryText.GenreSubsetInsertsClause | server/blueprints/ratings.py:62-93 | `genre_avg_rating(True)` is `genre_avg_rating(False)` with the membership clause inserted at one place |
| QueryText.TagSubsetInsertsClause | server/blueprints/ratings.py:96-127 | `tag_avg_rating(True)` is `tag_avg_rating(False)` with the membership clause inserted at one place |
| QueryText.BuildInsertsClause | server/blueprints/ratings.py:9-31 | for any head, clause and tail, the flagged build is the unflagged one with the clause inserted where the head ends, and longer by exactly the clause |
| QueryText.Bias | server/blueprints/ratings.py:130-139 | `bias(func)` opens `COALESCE (`, then holds `func(False)` as numerator, then ` / `, then `func(True)` as denominator, and closes with the fallback `1` |
| QueryText.BiasDirectionMatters | server/blueprints/ratings.py:130-139 | when the two variants of a builder differ at a position, `bias(f)` differs from the bias with numerator and denominator swapped |
| QueryText.UserBiasNotReversed | server/blueprints/ratings.py:130-139 | the same for `bias(user_avg_rating)` |
| QueryText.GenreBiasNotReversed | server/blueprints/ratings.py:130-139 | the same for `bias(genre_avg_rating)` |
| QueryText.TagBiasNotReversed | server/blueprints/ratings.py:130-139 | the same for `bias(tag_avg_rating)` |
| QueryText.PredictionQuery | server/blueprints/ratings.py:191-208 | the query selects `movie_avg_rating(False) AS average_rating`, `movie_avg_rating(True) AS subset_rating`, and `bias(...) AS user_bias / genre_bias / tag_bias`, each over its own builder |
| SqlValues.Avg | server/blueprints/ratings.py:13 | `AVG` is NULL exactly on an empty bag; otherwise it is the value that, times the bag's size, gives the bag's sum |
| SqlValues.SumAppend | server/blueprints/ratings.py:13 | the sum of a concatenation is the sum of the sums |
| SqlValues.SumWithin | server/blueprints/ratings.py:13 | a bag of n values within [lo, hi] sums to between n·lo and n·hi |
| SqlValues.MeanWithin | server/blueprints/ratings.py:13 | the mean of a non-empty bag within [lo, hi] lies within [lo, hi] |
| SqlValues.Divide | server/blueprints/ratings.py:135 | `/` is NULL when either side is NULL; it fails exactly when a non-NULL numerator meets a zero divisor; otherwise the quotient times the divisor is the numerator |
| Populations.OfUsers | server/blueprints/ratings.py:23 | `r.user_id = ANY(%(users)s)` keeps exactly the ratings of listed users, each as many times as the table holds it, and is never longer than the table |
| Populations.UserIds | server/blueprints/ratings.py:53-54 | the `GROUP BY r.user_id` keys are exactly the users with a rating, each once |
| Populations.GroupAverages | server/blueprints/ratings.py:41 | group i's `AVG(r.rating)` is the mean of the ratings of user i |
| Populations.PerUserAverages | server/blueprints/ratings.py:40-54 | the inner grouped query yields one average per user with a rating, and each is the mean of all that user's selected ratings |
| Populations.Joined | server/blueprints/ratings.py:14-17 | an inner join yields one rating value per joined row |
| Populations.GenresOf | server/blueprints/ratings.py:80-89 | the `IN` subquery holds exactly the genres of `movies_genres` rows whose movie carries the requested title |
| Populations.TagsOf | server/blueprints/ratings.py:114-123 | the `IN` subquery holds exactly the tags of `movies_users_tags` rows whose movie carries the requested title |
| Populations.MovieAvgRating | server/blueprints/ratings.py:9-31 | movie_avg_rating is the mean of the selected ratings, each counted once per `movies` row with the requested title |
| Populations.UserAvgRating | server/blueprints/ratings.py:34-59 | user_avg_rating is NULL exactly when its variant reads no rating at all, whatever the movie |
| Populations.GenreAvgRating | server/blueprints/ratings.py:62-93 | genre_avg_rating is the mean of the selected ratings, each counted once per `movies_genres` row of its movie whose genre is one of the requested movie's genres |
| Populations.TagAvgRating | server/blueprints/ratings.py:96-127 | tag_avg_rating is the mean of the selected ratings, each counted once per `movies_users_tags` row of the same movie and user whose tag the requested movie carries |
| Populations.Average | server/blueprints/ratings.py:9-127 | every population query is NULL when its variant reads no rating |
| Populations.SubsetOnlyFiltersRatings | server/blueprints/ratings.py:21-26 | every restricted average equals the unrestricted query over the listed users' ratings; the unrestricted variant does not depend on `users` |
| Populations.AverageDependsOnSelection | server/blueprints/ratings.py:21-26 | two requests for the same movie whose user filters select the same ratings get the same averages in both variants |
| Populations.OfUsersAsSet | server/blueprints/ratings.py:23 | `ANY` reads the list as a set: lists with the same members filter alike |
| Populations.OfNoUsers | server/blueprints/ratings.py:23 | no rating matches `ANY` of an empty array |
| Populations.EmptySubsetIsNull | server/blueprints/ratings.py:21-26 | with no listed user, every restricted average is NULL |
| Populations.GroupOfListedUser | server/blueprints/ratings.py:46-54 | the filter runs before `GROUP BY`: a listed user's group keeps all of that user's ratings, over every movie, and an unlisted user's group is empty |
| Populations.RatingsByAppend | server/blueprints/ratings.py:53-54 | the ratings of a user in two concatenated tables are the concatenation of that user's ratings in each |
| Populations.RestrictedUserGroups | server/blueprints/ratings.py:46-54 | the restricted per-user query groups exactly the listed users who have ratings |
| Populations.RestrictedUserAverages | server/blueprints/ratings.py:34-59 | each restricted group average is the mean of that user's ratings over every movie, not just the requested one |
| Populations.SumRepeat | server/blueprints/ratings.py:66-70 | a rating repeated n times by a join sums to n copies of it |
| Populations.JoinedSum | server/blueprints/ratings.py:66-70 | the joined bag sums to the sum of each rating weighted by its joined rows |
| Populations.JoinAverageIsWeighted | server/blueprints/ratings.py:66-70 | `AVG` over an inner join is the mean weighted by joined rows |
| Populations.GenreRowsAreNotDistinct | server/blueprints/ratings.py:62-93 | a movie in two of the requested genres counts twice: ratings 4 and 2 average to 10/3, not 3 |
| Populations.JoinedWithin | server/blueprints/ratings.py:66-70 | a join keeps every value of the bag within the rating scale |
| Populations.RatingsByWithin | server/blueprints/ratings.py:41 | one user's ratings lie within the rating scale |
| Populations.PerUserAveragesWithin | server/blueprints/ratings.py:39-56 | every per-user average lies within the rating scale |
| Populations.AverageWithin | server/blueprints/ratings.py:9-127 | every population average, in both variants, lies within the rating scale when it is not NULL |
| Populations.NoJoinedRows | server/blueprints/ratings.py:16-17 | ratings that match no joined row give an empty bag |
| Populations.UnratedMovieAverage | server/blueprints/ratings.py:9-31 | a movie that no rating joins has a NULL `movie_avg_rating` in both variants |
| Prediction.CoalescedRatio | server/blueprints/ratings.py:134-137 | `COALESCE(num / den, 1)` fails exactly on a non-NULL numerator over a zero divisor; it is 1 when either side is NULL, and otherwise the ratio |
| Prediction.Bias | server/blueprints/ratings.py:130-139 | each bias fails exactly when the unrestricted average is non-NULL and the restricted one is 0; it is 1 when either is NULL, and otherwise the unrestricted average over the restricted one |
| Prediction.BiasIsNeutral | server/blueprints/ratings.py:130-139 | a bias that does not fail is exactly 1 iff either average is NULL or both are equal |
| Prediction.RatioNonNegative | server/blueprints/ratings.py:134-137 | the ratio of two non-negative averages is never negative |
| Prediction.RatioWithin | server/blueprints/ratings.py:134-137 | on a scale from lo > 0 to hi, the ratio never fails and lies within [lo/hi, hi/lo] |
| Prediction.QuotientWithin | server/blueprints/ratings.py:135 | the quotient of two values in [lo, hi] lies within [lo/hi, hi/lo] |
| Prediction.BiasNonNegative | server/blueprints/ratings.py:130-139 | with non-negative ratings, a bias that does not fail is non-negative |
| Prediction.BiasWithin | server/blueprints/ratings.py:130-139 | on a positive scale no bias fails, and each lies within [lo/hi, hi/lo] |
| Prediction.PredictionColumns | server/blueprints/ratings.py:192-206 | the outer `SELECT` passes the averages and the three (COALESCEd, never NULL) biases through in order, sets average_bias to their mean, and makes predicted_rating NULL exactly when subset_rating is, and otherwise subset_rating times average_bias |
| Prediction.PredictedRating | server/blueprints/ratings.py:199 | `subset_rating * (...) / 3` is NULL iff subset_rating is, and otherwise subset_rating times the average bias |
| Prediction.PredictionRow | server/blueprints/ratings.py:191-208 | the query fails iff one of the three biases fails; otherwise its row is the outer columns over the movie averages and the three biases |
| Prediction.NoUsersIsNeutral | server/blueprints/ratings.py:209-211 | with `users = []`, subset and predicted ratings are NULL, every bias and the average bias are 1, and the row never fails |
| Prediction.UserOrderIrrelevant | server/blueprints/ratings.py:211 | user lists with the same members give the same prediction |
| Prediction.PositiveScaleNeverFails | server/blueprints/ratings.py:191-208 | on a positive scale the query never fails; the movie averages lie on the scale, and biases and average bias lie within [lo/hi, hi/lo] |
| Prediction.ColumnsWithin | server/blueprints/ratings.py:193-199 | the outer `SELECT` keeps averages on the scale, and puts the average bias within the bounds of the three biases |
| Prediction.UnratedMovieIsNull | server/blueprints/ratings.py:191-202 | for a movie nobody rated, average, subset and predicted ratings are NULL |
| Prediction.UnratedMovieKeepsUserBias | server/blueprints/ratings.py:34-59 | an unrated title still gets a user bias of 0.75 in a two-user table, since user_avg_rating never reads the movie |
| Prediction.RowToJson | server/blueprints/ratings.py:213-221 | the response object holds `row[i]` under the camelCase form of column i's name, for i = 0..6 |
| Prediction.CamelCaseKeepsWord | server/blueprints/ratings.py:214-220 | a word without `_` passes through the camelCase conversion unchanged |
| Prediction.CamelCaseJoins | server/blueprints/ratings.py:214-220 | `first_second` becomes `firstSecond` |
| Prediction.KeyOf | server/blueprints/ratings.py:214-220 | a concrete snake_case column name maps to its camelCase key |
| Prediction.ResponseKeyIsCamelCase | server/blueprints/ratings.py:214-220 | key i of the response is the camelCase form of column i's alias |
| Prediction.ResponseKeysAreCamelCase | server/blueprints/ratings.py:214-220 | all seven keys, averageRating … predictedRating, are the camelCase forms of the columns in SELECT order |
| Prediction.OmittedMovieIsEmptyTitle | server/blueprints/ratings.py:210 | a request without `movie` gets the same reply as one asking for the title `""` |
| Prediction.OmittedUsersIsEmptyList | server/blueprints/ratings.py:211 | a request without `users` gets the same reply as one listing no user |
| Prediction.GetPrediction | server/blueprints/ratings.py:188-223 | the endpoint answers 500 iff the query fails; otherwise it answers a one-element list whose object holds the row's columns under their keys |
| Prediction.OmittedUsersIsNeutral | server/blueprints/ratings.py:209-211 | a request without `users` gets NULL subset and predicted ratings and every bias 1 |
| Autocomplete.Lower | server/server.py:150 | `lower()` keeps the length, leaves no capital letter, and changes nothing but letter case |
| Autocomplete.LowerIsLower | server/server.py:150-151 | lowercased text has no capital letter, and lowercasing it again changes nothing |
| Autocomplete.LowerOfEqualIgnoringCase | server/server.py:150-151 | strings that differ only in letter case lowercase alike |
| Autocomplete.SubsequenceIsShorter | server/server.py:151 | a subsequence is never longer than its list |
| Autocomplete.Filter | server/server.py:151 | the comprehension's result is a subsequence of the sample list, so it keeps list order |
| Autocomplete.FilterMembers | server/server.py:151 | an entry is in the result exactly when it is in the list and its lowercase form starts with the lowercased prefix |
| Autocomplete.FilterCounts | server/server.py:151 | each matching entry occurs in the result as often as in the list; no other entry occurs |
| Autocomplete.FilterEmptyPrefix | server/server.py:150-151 | the empty prefix keeps every entry, in order |
| Autocomplete.Matches | server/server.py:150-151 | the matches are entries of the list in list order, and the empty prefix keeps the whole list |
| Autocomplete.Autocomplete | server/server.py:150-152 | a handler returns entries of its list in list order; without a `prefix` argument it returns the whole list |
| Autocomplete.MatchesAreFewer | server/server.py:151 | the result is never longer than the sample list |
| Autocomplete.CaseInsensitive | server/server.py:150-151 | prefixes that differ only in letter case give the same result |
| Autocomplete.PrefixCaseIsIgnored | server/server.py:150-151 | matching a prefix is matching its lowercase form |
| Autocomplete.GenreAutocomplete | server/server.py:146-155 | genre_autocomplete returns sample genres in list order, all of them without a prefix |
| Autocomplete.TagsAutocomplete | server/server.py:159-168 | tags_autocomplete returns sample tags in list order, all of them without a prefix |
| Autocomplete.FilmsAutocomplete | server/server.py:172-181 | films_autocomplete returns sample films in list order, all of them without a prefix |
| Autocomplete.UsersAutocomplete | server/server.py:185-194 | users_autocomplete returns sample users in list order, all of them without a prefix |
| Autocomplete.PersonalitiesAutocomplete | server/server.py:198-206 | personalities_autocomplete returns sample personalities in list order, all of them without a prefix |
| Autocomplete.GenreExample | server/server.py:147-151 | `genre_autocomplete` with prefix "DR" returns ["Drama"] |
| Autocomplete.TagsExample | server/server.py:161-164 | `tags_autocomplete` with prefix "r" returns ["Romance"] and not "Thriller" |
| Autocomplete.FilmsExample | server/server.py:174-177 | `films_autocomplete` with prefix "f" returns all five films in order |
| Autocomplete.UsersExample | server/server.py:187-190 | `users_autocomplete` with prefix "u3" returns nothing |
| Autocomplete.PersonalitiesExample | server/server.py:200-203 | `personalities_autocomplete` with prefix "E" returns ["Extrovert"] |
| RequestGuards.UsersSkew | server/server.py:92-105 | 500 iff the body is not an object; success ("higher") iff `users` is truthy and `films` or `genres` is truthy; otherwise 400 with the fixed message |
| RequestGuards.MoviePrediction | server/server.py:109-123 | 500 iff the body is not an object; 400 iff `tags` and `users` are absent or falsy and `ratings` is present and falsy; otherwise 4.37 |
| RequestGuards.PersonalitiesSkew | server/server.py:128-142 | 500 iff the body is not an object; success iff `personality` and `genre` are both truthy; otherwise 400 |
| RequestGuards.OmittedRatingsSucceeds | server/server.py:114-117 | a body without `ratings` always gets 4.37 |
| RequestGuards.EmptyRatingsAreRefused | server/server.py:112-119 | empty `ratings` with `tags` and `users` empty or absent is refused |
| RequestGuards.UsersSkewNeedsUsers | server/server.py:97-101 | without truthy `users` the user skew is refused, whatever else is sent |
| RequestGuards.UsersSkewNeedsFilmOrGenre | server/server.py:97-101 | users alone are refused; users with genres succeed |
| RequestGuards.PersonalitiesSkewRefusesEmptyText | server/server.py:134-138 | an empty-string personality is refused like a missing one |

## Left out

- The database connection, the Redis cache and environment variables in `server/blueprints/common.py` are I/O. The query result is computed from tables passed as values. `get_response` appears only as its contract: it maps the row function over the rows, or answers 500 when the query raises.
- `transform_response`, which `ratings.py` imports, is not defined in `server/blueprints/common.py`. It is not part of this model, and `Prediction.GetPrediction` stops at the `get_response` reply.
- The model does not parse or plan SQL. The SQL text and its meaning are two separate models: `QueryText` is the text and `Populations` the relational meaning. Nothing here proves that PostgreSQL evaluates one to the other.
- Only the SQL errors the query can raise by its own arithmetic are modelled: division by zero. Other database errors are outside the model. The adaptation of the `users` list to a PostgreSQL array, done by `psycopg` (version 3) in `execute_query`, is read as list membership.
- Ratings and averages are exact reals, not floating point. The constant 4.37 is an exact real.
- `Autocomplete.Lower` lowercases ASCII letters only. Python's Unicode case mapping is left out.
- `RequestGuards.UsersSkew`, `RequestGuards.MoviePrediction` and `RequestGuards.PersonalitiesSkew` take the decoded JSON body. Failures of `request.get_json()` itself, such as a wrong content type or a malformed body, are left out. These are Flask behaviour.
- The `users` field is taken as a list of integers. A non-list `users` is left out. An explicit `"users": null` is also left out: it reaches PostgreSQL as NULL, `r.user_id = ANY(NULL)` matches no row, and the result would be the same as for `[]`. The model's request type has no null value.
- `Prediction.GetPrediction` takes the decoded `movie` and `users` fields. Three request cases are left out:
  - a JSON body that is not an object. `request.json.get` raises at `ratings.py:210`, outside `get_response`'s `try`, so Flask answers with its own error and not the model's `Error500`;
  - an explicit `"movie": null`. It is sent as NULL, `m.title = NULL` matches no movie, and every average that reads the title is NULL;
  - a non-string `movie`.
- Flask setup, CORS, routing, the Swagger block, the mock endpoints that return constant records, and `server.py`'s own `execute_query`/`db_params` are outside the modelled logic.
- The handlers' `print` of the error message is left out.
