/** get_prediction in server/blueprints/ratings.py: the three bias factors,
    the seven-column row of the prediction query, and the response that maps
    the row's columns to JSON keys. */
module Prediction {
  import opened Wrappers
  import opened SqlValues
  import opened Populations

  /** `r` is what `COALESCE(num / den, 1)` yields: an error exactly on a
      non-NULL numerator over a zero divisor, 1 when either side is NULL, and
      otherwise the value that times `den` gives `num`. */
  predicate IsCoalescedRatio(r: Result<real, SqlError>, num: Option<real>, den: Option<real>)
  {
    && (r.Err? <==> num.Some? && den == Some(0.0))
    && (r.Ok? && (num.None? || den.None?) ==> r.value == 1.0)
    && (r.Ok? && num.Some? && den.Some? ==> r.value * den.value == num.value)
  }

  /** `COALESCE(num / den, 1)`: the ratio, or 1 when either side is NULL. A
      zero divisor under a non-NULL numerator fails the whole query, since
      COALESCE only replaces a NULL. */
  function CoalescedRatio(num: Option<real>, den: Option<real>): (r: Result<real, SqlError>)
    ensures IsCoalescedRatio(r, num, den)
  {
    var ratio :- Divide(num, den);
    Ok(Coalesce(ratio, 1.0))
  }

  /** `bias(func)`: the unrestricted variant `func(False)` over the restricted
      variant `func(True)`. */
  function Bias(pop: Population, db: Database, p: Params): (r: Result<real, SqlError>)
    ensures IsCoalescedRatio(r, Average(pop, db, p, false), Average(pop, db, p, true))
  {
    var num, den := Average(pop, db, p, false), Average(pop, db, p, true);
    CoalescedRatio(num, den)
  }

  /** A bias is exactly 1, no adjustment, when either average is NULL or the
      subset averages the same as everyone. */
  lemma BiasIsNeutral(pop: Population, db: Database, p: Params)
    requires Bias(pop, db, p).Ok?
    ensures var num, den := Average(pop, db, p, false), Average(pop, db, p, true);
            Bias(pop, db, p).value == 1.0 <==> num.None? || den.None? || num == den
  {
    RatioIsNeutral(Average(pop, db, p, false), Average(pop, db, p, true));
  }

  /** `COALESCE(num / den, 1)` is 1 exactly when a side is NULL or both are equal. */
  lemma RatioIsNeutral(num: Option<real>, den: Option<real>)
    requires CoalescedRatio(num, den).Ok?
    ensures CoalescedRatio(num, den).value == 1.0 <==> num.None? || den.None? || num == den
  {
    var r := CoalescedRatio(num, den);
    if num.Some? && den.Some? {
      assert den.value != 0.0;
      assert r.value * den.value == num.value;
      if num == den {
        UnitRatio(r.value, den.value);
      }
    }
  }

  /** Only 1 times a non-zero `d` gives `d`. */
  lemma UnitRatio(x: real, d: real)
    requires d != 0.0 && x * d == d
    ensures x == 1.0
  {
    assert (x - 1.0) * d == 0.0;
  }

  /** A ratio of two non-negative averages that does not fail is never negative. */
  lemma RatioNonNegative(num: Option<real>, den: Option<real>)
    requires num.Some? ==> num.value >= 0.0
    requires den.Some? ==> den.value >= 0.0
    requires CoalescedRatio(num, den).Ok?
    ensures CoalescedRatio(num, den).value >= 0.0
  {
    if num.Some? && den.Some? {
      var b := CoalescedRatio(num, den).value;
      assert b * den.value == num.value;
    }
  }

  /** A ratio of two averages on a positive scale from `lo` to `hi` does not
      fail and lies between `lo / hi` and `hi / lo`. */
  lemma RatioWithin(num: Option<real>, den: Option<real>, lo: real, hi: real)
    requires 0.0 < lo <= hi
    requires num.Some? ==> lo <= num.value <= hi
    requires den.Some? ==> lo <= den.value <= hi
    ensures CoalescedRatio(num, den).Ok?
    ensures lo / hi <= CoalescedRatio(num, den).value <= hi / lo
  {
    OneWithin(lo, hi);
    if num.Some? && den.Some? {
      assert CoalescedRatio(num, den).value == num.value / den.value;
      QuotientWithin(num.value, den.value, lo, hi);
    }
  }

  lemma OneWithin(lo: real, hi: real)
    requires 0.0 < lo <= hi
    ensures lo / hi <= 1.0 <= hi / lo
  {
    QuotientShrinks(lo, lo, hi);
    QuotientShrinks(hi, lo, hi);
  }

  /** Dividing a non-negative number by a larger divisor gives a smaller quotient. */
  lemma QuotientShrinks(x: real, small: real, large: real)
    requires 0.0 <= x
    requires 0.0 < small <= large
    ensures x / large <= x / small
  {
    var a, b := x / small, x / large;
    assert a * small == x;
    assert b * large == x;
    if b > a {
      assert b * large > a * large;
      assert a * large >= a * small;
    }
  }

  /** Over a positive divisor, a larger dividend gives a larger quotient. */
  lemma QuotientGrows(small: real, large: real, d: real)
    requires small <= large
    requires 0.0 < d
    ensures small / d <= large / d
  {
    var a, b := small / d, large / d;
    assert a * d == small;
    assert b * d == large;
    if a > b {
      assert a * d > b * d;
    }
  }

  lemma QuotientWithin(x: real, y: real, lo: real, hi: real)
    requires 0.0 < lo <= x <= hi
    requires lo <= y <= hi
    ensures lo / hi <= x / y <= hi / lo
  {
    QuotientShrinks(x, y, hi);
    QuotientShrinks(x, lo, y);
    QuotientGrows(lo, x, hi);
    QuotientGrows(x, hi, lo);
  }

  lemma MeanOfThreeWithin(a: real, b: real, c: real, lo: real, hi: real)
    requires lo <= a <= hi && lo <= b <= hi && lo <= c <= hi
    ensures lo <= (a + b + c) / 3.0 <= hi
  {
  }

  /** With ratings on a scale from `lo >= 0` to `hi`, a bias that does not fail is never negative. */
  lemma BiasNonNegative(pop: Population, db: Database, p: Params, lo: real, hi: real)
    requires 0.0 <= lo
    requires RatingsWithin(db.ratings, lo, hi)
    requires Bias(pop, db, p).Ok?
    ensures Bias(pop, db, p).value >= 0.0
  {
    AverageWithin(pop, db, p, false, lo, hi);
    AverageWithin(pop, db, p, true, lo, hi);
    RatioNonNegative(Average(pop, db, p, false), Average(pop, db, p, true));
  }

  /** With a strictly positive scale from `lo` to `hi` no bias fails, and each
      lies between `lo / hi` and `hi / lo`. */
  lemma BiasWithin(pop: Population, db: Database, p: Params, lo: real, hi: real)
    requires 0.0 < lo <= hi
    requires RatingsWithin(db.ratings, lo, hi)
    ensures Bias(pop, db, p).Ok?
    ensures lo / hi <= Bias(pop, db, p).value <= hi / lo
  {
    AverageWithin(pop, db, p, false, lo, hi);
    AverageWithin(pop, db, p, true, lo, hi);
    RatioWithin(Average(pop, db, p, false), Average(pop, db, p, true), lo, hi);
  }

  /** The outer SELECT of the prediction query over the columns of its inner
      SELECT: average_rating, subset_rating, user_bias, genre_bias, tag_bias,
      average_bias, predicted_rating, in that order. */
  function PredictionColumns(averageRating: Option<real>, subsetRating: Option<real>,
                             userBias: real, genreBias: real, tagBias: real): (row: seq<Option<real>>)
    ensures |row| == 7
    ensures row[0] == averageRating && row[1] == subsetRating
    ensures row[2] == Some(userBias) && row[3] == Some(genreBias) && row[4] == Some(tagBias)
    ensures row[5] == Some((userBias + genreBias + tagBias) / 3.0)
    ensures row[6].None? <==> subsetRating.None?
    ensures subsetRating.Some? ==> row[6].Some? && row[6].value == subsetRating.value * row[5].value
  {
    var biasSum := userBias + genreBias + tagBias;
    var predictedRating := PredictedRating(subsetRating, biasSum);
    [averageRating,
     subsetRating,
     Some(userBias),
     Some(genreBias),
     Some(tagBias),
     Some(biasSum / 3.0),
     predictedRating]
  }

  /** `subset_rating * (user_bias + genre_bias + tag_bias) / 3`: NULL when the
      subset rating is, otherwise the subset rating scaled by the average bias. */
  function PredictedRating(subsetRating: Option<real>, biasSum: real): (r: Option<real>)
    ensures r.None? <==> subsetRating.None?
    ensures r.Some? ==> r.value == subsetRating.value * (biasSum / 3.0)
  {
    match subsetRating
    case None => None
    case Some(rating) =>
      AverageBiasScales(rating, biasSum);
      Some(rating * biasSum / 3.0)
  }

  /** `subset_rating * (...) / 3` multiplies before it divides; over the reals
      that equals the subset rating times the average bias. */
  lemma AverageBiasScales(rating: real, biasSum: real)
    ensures rating * biasSum / 3.0 == rating * (biasSum / 3.0)
  {
    var averageBias := biasSum / 3.0;
    assert averageBias * 3.0 == biasSum;
    assert rating * biasSum == (rating * averageBias) * 3.0;
  }

  /** The prediction query: the inner SELECT computes the subset rating and
      the three biases, and fails when a bias does. */
  function PredictionRow(db: Database, p: Params): (r: Result<seq<Option<real>>, SqlError>)
    ensures r.Err? <==> Bias(UserRating, db, p).Err? || Bias(GenreRating, db, p).Err? || Bias(TagRating, db, p).Err?
    ensures r.Ok? ==>
              r.value == PredictionColumns(MovieAvgRating(db, p, false), MovieAvgRating(db, p, true),
                                           Bias(UserRating, db, p).value, Bias(GenreRating, db, p).value,
                                           Bias(TagRating, db, p).value)
  {
    var subsetRating := MovieAvgRating(db, p, true);
    var userBias :- Bias(UserRating, db, p);
    var genreBias :- Bias(GenreRating, db, p);
    var tagBias :- Bias(TagRating, db, p);
    Ok(PredictionColumns(MovieAvgRating(db, p, false), subsetRating, userBias, genreBias, tagBias))
  }

  /** With no listed user the subset rating is NULL, every bias falls back to
      1, and so does the average bias; the predicted rating is NULL. */
  lemma NoUsersIsNeutral(db: Database, movie: string)
    ensures var p := Params(movie, []);
            (PredictionRow(db, p)
               == Ok([MovieAvgRating(db, p, false), None, Some(1.0), Some(1.0), Some(1.0), Some(1.0), None]))
  {
    EmptySubsetIsNull(MovieRating, db, movie);
    EmptySubsetIsNull(UserRating, db, movie);
    EmptySubsetIsNull(GenreRating, db, movie);
    EmptySubsetIsNull(TagRating, db, movie);
  }

  /** The prediction depends on the listed users as a set: order and
      repetition in the request do not change it. */
  lemma UserOrderIrrelevant(db: Database, movie: string, users1: seq<int>, users2: seq<int>)
    requires forall u :: u in users1 <==> u in users2
    ensures PredictionRow(db, Params(movie, users1)) == PredictionRow(db, Params(movie, users2))
  {
    var p1, p2 := Params(movie, users1), Params(movie, users2);
    OfUsersAsSet(db.ratings, users1, users2);
    AverageDependsOnSelection(MovieRating, db, p1, p2);
    AverageDependsOnSelection(UserRating, db, p1, p2);
    AverageDependsOnSelection(GenreRating, db, p1, p2);
    AverageDependsOnSelection(TagRating, db, p1, p2);
    assert Bias(UserRating, db, p1) == Bias(UserRating, db, p2);
    assert Bias(GenreRating, db, p1) == Bias(GenreRating, db, p2);
    assert Bias(TagRating, db, p1) == Bias(TagRating, db, p2);
  }

  /** A prediction row whose non-NULL movie averages lie between `lo` and
      `hi` and whose bias columns are non-NULL and between `biasLo` and `biasHi`. */
  predicate RowWithin(row: seq<Option<real>>, lo: real, hi: real, biasLo: real, biasHi: real)
  {
    && |row| == 7
    && (row[0].Some? ==> lo <= row[0].value <= hi)
    && (row[1].Some? ==> lo <= row[1].value <= hi)
    && (forall i :: 2 <= i <= 5 ==> row[i].Some? && biasLo <= row[i].value <= biasHi)
  }

  /** On a strictly positive rating scale the query never fails, both movie
      averages lie on the scale when not NULL, and every bias, and so their
      average, lies between `lo / hi` and `hi / lo`. */
  lemma PositiveScaleNeverFails(db: Database, p: Params, lo: real, hi: real)
    requires 0.0 < lo <= hi
    requires RatingsWithin(db.ratings, lo, hi)
    ensures PredictionRow(db, p).Ok?
    ensures RowWithin(PredictionRow(db, p).value, lo, hi, lo / hi, hi / lo)
  {
    BiasWithin(UserRating, db, p, lo, hi);
    BiasWithin(GenreRating, db, p, lo, hi);
    BiasWithin(TagRating, db, p, lo, hi);
    AverageWithin(MovieRating, db, p, false, lo, hi);
    AverageWithin(MovieRating, db, p, true, lo, hi);
    var averageRating, subsetRating := MovieAvgRating(db, p, false), MovieAvgRating(db, p, true);
    var userBias, genreBias, tagBias := Bias(UserRating, db, p).value, Bias(GenreRating, db, p).value, Bias(TagRating, db, p).value;
    assert PredictionRow(db, p).value == PredictionColumns(averageRating, subsetRating, userBias, genreBias, tagBias);
    ColumnsWithin(averageRating, subsetRating, userBias, genreBias, tagBias, lo, hi, lo / hi, hi / lo);
  }

  /** The outer SELECT keeps both movie averages on the rating scale, and the
      average bias between the bounds of the three biases. */
  lemma ColumnsWithin(averageRating: Option<real>, subsetRating: Option<real>,
                      userBias: real, genreBias: real, tagBias: real,
                      lo: real, hi: real, biasLo: real, biasHi: real)
    requires averageRating.Some? ==> lo <= averageRating.value <= hi
    requires subsetRating.Some? ==> lo <= subsetRating.value <= hi
    requires biasLo <= userBias <= biasHi
    requires biasLo <= genreBias <= biasHi
    requires biasLo <= tagBias <= biasHi
    ensures RowWithin(PredictionColumns(averageRating, subsetRating, userBias, genreBias, tagBias),
                      lo, hi, biasLo, biasHi)
  {
    MeanOfThreeWithin(userBias, genreBias, tagBias, biasLo, biasHi);
  }

  /** A movie nobody rated has NULL average, subset and predicted ratings. The
      biases need not be 1: user_avg_rating ignores the movie, and the genre
      and tag averages read the ratings of other movies. */
  lemma UnratedMovieIsNull(db: Database, p: Params)
    requires Unrated(db, p.movie)
    requires PredictionRow(db, p).Ok?
    ensures PredictionRow(db, p).value[0] == None
    ensures PredictionRow(db, p).value[1] == None
    ensures PredictionRow(db, p).value[6] == None
  {
    UnratedMovieAverage(db, p, false);
    UnratedMovieAverage(db, p, true);
  }

  /** An unrated movie still gets a user bias other than 1: with users 1 and
      2 rating movie 10 with 4 and 2, a request for the unrated title "X"
      restricted to user 1 has user bias 3 / 4. */
  lemma UnratedMovieKeepsUserBias()
    ensures Unrated(ExampleTable, "X")
    ensures Bias(UserRating, ExampleTable, Params("X", [1])) == Ok(0.75)
  {
    var db, p := ExampleTable, Params("X", [1]);
    assert Unrated(db, "X") by {
      assert TitledCount(db.movies, 10, "X") == 0 by { assert db.movies[1..] == []; }
    }
    ExampleUnrestrictedUserAvg(db, p);
    ExampleRestrictedUserAvg(db, p);
    UserBiasOf(db, p);
    assert CoalescedRatio(Some(3.0), Some(4.0)) == Ok(0.75);
  }

  /** The user bias is the ratio of the two variants of user_avg_rating. */
  lemma UserBiasOf(db: Database, p: Params)
    ensures Bias(UserRating, db, p) == CoalescedRatio(UserAvgRating(db, p, false), UserAvgRating(db, p, true))
  {
  }

  /** Users 1 and 2 rated movie 10, titled "A", with 4 and 2. */
  const ExampleTable: Database := Database([Rating(1, 10, 4.0), Rating(2, 10, 2.0)], [Movie(10, "A")], [], [])

  /** user_avg_rating over the example table averages users 1 and 2. */
  lemma ExampleUnrestrictedUserAvg(db: Database, p: Params)
    requires db.ratings == [Rating(1, 10, 4.0), Rating(2, 10, 2.0)]
    ensures UserAvgRating(db, p, false) == Some(3.0)
  {
    ExampleTwoUsers();
    assert Sum([4.0, 2.0]) == 6.0 by { assert [4.0, 2.0][1..] == [2.0]; assert [2.0][1..] == []; }
  }

  /** Restricted to user 1, user_avg_rating over the example table is user 1's average. */
  lemma ExampleRestrictedUserAvg(db: Database, p: Params)
    requires db.ratings == [Rating(1, 10, 4.0), Rating(2, 10, 2.0)]
    requires p.users == [1]
    ensures UserAvgRating(db, p, true) == Some(4.0)
  {
    ExampleOneUser();
    assert Sum([4.0]) == 4.0 by { assert [4.0][1..] == []; }
  }

  /** The per-user averages of the example table. */
  lemma ExampleTwoUsers()
    ensures PerUserAverages([Rating(1, 10, 4.0), Rating(2, 10, 2.0)]) == [4.0, 2.0]
  {
    var rs := [Rating(1, 10, 4.0), Rating(2, 10, 2.0)];
    ExampleGroups();
    ExampleMeans();
    GroupAveragesOfTwo(rs, 1, 2);
  }

  /** Grouping two users gives their two means. */
  lemma GroupAveragesOfTwo(rs: seq<Rating>, u: int, v: int)
    requires RatingsBy(rs, u) != [] && RatingsBy(rs, v) != []
    ensures GroupAverages(rs, [u, v]) == [Mean(RatingsBy(rs, u)), Mean(RatingsBy(rs, v))]
  {
    assert [u, v][1..] == [v];
    assert [v][1..] == [];
  }

  /** The example table restricted to user 1, and its per-user averages. */
  lemma ExampleOneUser()
    ensures OfUsers([Rating(1, 10, 4.0), Rating(2, 10, 2.0)], [1]) == [Rating(1, 10, 4.0)]
    ensures PerUserAverages([Rating(1, 10, 4.0)]) == [4.0]
  {
    var one := [Rating(1, 10, 4.0)];
    ExampleGroups();
    ExampleMeans();
    assert GroupAverages(one, [1]) == [4.0] by { assert [1][1..] == []; }
  }

  /** The groups of the example table. */
  lemma ExampleGroups()
    ensures var rs := [Rating(1, 10, 4.0), Rating(2, 10, 2.0)];
            && UserIds(rs) == [1, 2] && RatingsBy(rs, 1) == [4.0] && RatingsBy(rs, 2) == [2.0]
            && OfUsers(rs, [1]) == [Rating(1, 10, 4.0)]
            && UserIds([Rating(1, 10, 4.0)]) == [1] && RatingsBy([Rating(1, 10, 4.0)], 1) == [4.0]
  {
    var one, two := [Rating(1, 10, 4.0)], [Rating(2, 10, 2.0)];
    var rs := [Rating(1, 10, 4.0), Rating(2, 10, 2.0)];
    assert one[1..] == [] && two[1..] == [] && rs[1..] == two;
    assert UserIds(two) == [2];
    assert RatingsBy(two, 1) == [] && RatingsBy(two, 2) == [2.0];
    assert OfUsers(two, [1]) == [];
  }

  lemma ExampleMeans()
    ensures Mean([4.0]) == 4.0 && Mean([2.0]) == 2.0
  {
    assert [4.0][1..] == [] && [2.0][1..] == [];
  }

  // ---------------------------------------------------------------------
  // The response

  /** The column names of the prediction query, in SELECT order. */
  const ColumnNames: seq<string> :=
    ["average_rating", "subset_rating", "user_bias", "genre_bias", "tag_bias", "average_bias", "predicted_rating"]

  function UpperChar(c: char): char
  {
    if 'a' <= c <= 'z' then (c as int - 32) as char else c
  }

  /** snake_case to camelCase: drop each `_` and capitalise the letter after it. */
  function CamelCase(s: string): string
  {
    if |s| < 2 then s
    else if s[0] == '_' then [UpperChar(s[1])] + CamelCase(s[2..])
    else [s[0]] + CamelCase(s[1..])
  }

  /** The keys of the response object, one per column, as get_prediction spells them. */
  const ResponseKeys: seq<string> :=
    ["averageRating", "subsetRating", "userBias", "genreBias", "tagBias", "averageBias", "predictedRating"]

  /** The `func` of get_prediction: `row[i]` under the camelCase name of column i. */
  function RowToJson(row: seq<Option<real>>): (obj: seq<(string, Option<real>)>)
    requires |row| == 7
    ensures |obj| == 7
    ensures forall i :: 0 <= i < 7 ==> obj[i] == (CamelCase(ColumnNames[i]), row[i])
  {
    ResponseKeysAreCamelCase();
    seq(7, i requires 0 <= i < 7 => (ResponseKeys[i], row[i]))
  }

  /** A word without `_` passes through CamelCase unchanged. */
  lemma {:induction false} CamelCaseKeepsWord(word: string, rest: string)
    requires '_' !in word
    ensures CamelCase(word + rest) == word + CamelCase(rest)
  {
    if word != [] {
      assert word[0] in word;
      assert (word + rest)[0] == word[0];
      assert (word + rest)[1..] == word[1..] + rest;
      assert '_' !in word[1..] by {
        forall c | c in word[1..] ensures c != '_' {
          assert c in word;
        }
      }
      CamelCaseKeepsWord(word[1..], rest);
    } else {
      assert word + rest == rest;
    }
  }

  /** `first_second` becomes `firstSecond`. */
  lemma CamelCaseJoins(first: string, second: string)
    requires '_' !in first && '_' !in second
    requires second != [] && 'a' <= second[0] <= 'z'
    ensures CamelCase(first + "_" + second) == first + [UpperChar(second[0])] + second[1..]
  {
    CamelCaseKeepsWord(first, "_" + second);
    assert first + "_" + second == first + ("_" + second);
    assert ("_" + second)[2..] == second[1..];
    CamelCaseKeepsWord(second[1..], []);
    assert second[1..] + [] == second[1..];
  }

  /** `first_second` becomes `firstSecond`, for a concrete name. */
  lemma KeyOf(name: string, first: string, second: string, key: string)
    requires '_' !in first && '_' !in second
    requires second != [] && 'a' <= second[0] <= 'z'
    requires name == first + "_" + second
    requires key == first + [UpperChar(second[0])] + second[1..]
    ensures CamelCase(name) == key
  {
    CamelCaseJoins(first, second);
  }

  lemma ResponseKeyIsCamelCase(i: nat)
    requires i < 7
    ensures CamelCase(ColumnNames[i]) == ResponseKeys[i]
  {
    if i == 0 {
      KeyOf(ColumnNames[0], "average", "rating", ResponseKeys[0]);
    } else if i == 1 {
      KeyOf(ColumnNames[1], "subset", "rating", ResponseKeys[1]);
    } else if i == 2 {
      KeyOf(ColumnNames[2], "user", "bias", ResponseKeys[2]);
    } else if i == 3 {
      KeyOf(ColumnNames[3], "genre", "bias", ResponseKeys[3]);
    } else if i == 4 {
      KeyOf(ColumnNames[4], "tag", "bias", ResponseKeys[4]);
    } else if i == 5 {
      KeyOf(ColumnNames[5], "average", "bias", ResponseKeys[5]);
    } else {
      KeyOf(ColumnNames[6], "predicted", "rating", ResponseKeys[6]);
    }
  }

  /** The response keys are the column names in camelCase. */
  lemma ResponseKeysAreCamelCase()
    ensures forall i :: 0 <= i < 7 ==> CamelCase(ColumnNames[i]) == ResponseKeys[i]
  {
    forall i | 0 <= i < 7
      ensures CamelCase(ColumnNames[i]) == ResponseKeys[i]
    {
      ResponseKeyIsCamelCase(i);
    }
  }

  /** The JSON body fields the endpoint reads; `None` when a field is absent. */
  datatype PredictionRequest = PredictionRequest(movie: Option<string>, users: Option<seq<int>>)

  /** `request.json.get("movie", "")` and `request.json.get("users", [])`. */
  function ParamsOf(req: PredictionRequest): (p: Params)
    ensures req.movie.Some? ==> p.movie == req.movie.value
    ensures req.movie.None? ==> p.movie == ""
    ensures req.users.Some? ==> p.users == req.users.value
    ensures req.users.None? ==> p.users == []
  {
    Params(req.movie.GetOr(""), req.users.GetOr([]))
  }

  /** get_response: the mapped rows with status 200, or status 500 when the query fails. */
  datatype Response = Ok200(rows: seq<seq<(string, Option<real>)>>) | Error500

  function GetPrediction(db: Database, req: PredictionRequest): (resp: Response)
    ensures resp.Error500? <==> PredictionRow(db, ParamsOf(req)).Err?
    ensures resp.Ok200? ==>
              && |resp.rows| == 1
              && |resp.rows[0]| == 7
              && forall i :: 0 <= i < 7 ==>
                   resp.rows[0][i] == (CamelCase(ColumnNames[i]), PredictionRow(db, ParamsOf(req)).value[i])
  {
    match PredictionRow(db, ParamsOf(req))
    case Ok(row) => Ok200([RowToJson(row)])
    case Err(_) => Error500
  }

  /** Two requests that bind the same query parameters get the same reply. */
  lemma SameParamsSameReply(db: Database, r1: PredictionRequest, r2: PredictionRequest)
    requires ParamsOf(r1) == ParamsOf(r2)
    ensures GetPrediction(db, r1) == GetPrediction(db, r2)
  {
  }

  /** A request without `movie` is answered as one asking for the title `""`. */
  lemma OmittedMovieIsEmptyTitle(db: Database, users: Option<seq<int>>)
    ensures GetPrediction(db, PredictionRequest(None, users)) == GetPrediction(db, PredictionRequest(Some(""), users))
  {
    SameParamsSameReply(db, PredictionRequest(None, users), PredictionRequest(Some(""), users));
  }

  /** A request without `users` is answered as one listing no user. */
  lemma OmittedUsersIsEmptyList(db: Database, movie: Option<string>)
    ensures GetPrediction(db, PredictionRequest(movie, None)) == GetPrediction(db, PredictionRequest(movie, Some([])))
  {
    SameParamsSameReply(db, PredictionRequest(movie, None), PredictionRequest(movie, Some([])));
  }

  /** A request without `users` gets the neutral prediction: NULL subset and
      predicted ratings, and every bias 1. */
  lemma OmittedUsersIsNeutral(db: Database, movie: Option<string>)
    ensures var p := Params(movie.GetOr(""), []);
            (GetPrediction(db, PredictionRequest(movie, None))
               == Ok200([RowToJson([MovieAvgRating(db, p, false), None, Some(1.0), Some(1.0), Some(1.0), Some(1.0), None])]))
  {
    NoUsersIsNeutral(db, movie.GetOr(""));
  }
}
