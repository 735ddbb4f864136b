/** The relational meaning of the four population queries that
    server/blueprints/ratings.py builds as SQL text (movie_avg_rating,
    user_avg_rating, genre_avg_rating, tag_avg_rating), over in-memory
    tables. Each comes in the two variants its `subset` flag selects: the
    restricted one adds the predicate `r.user_id = ANY(%(users)s)` on the
    ratings, and nothing else differs. */
module Populations {
  import opened Wrappers
  import opened SqlValues

  /** A row of `ratings`. */
  datatype Rating = Rating(userId: int, movieId: int, rating: real)

  /** A row of `movies`; only the columns the queries use. */
  datatype Movie = Movie(movieId: int, title: string)

  /** A row of `movies_genres`. */
  datatype MovieGenre = MovieGenre(movieId: int, genreId: int)

  /** A row of `movies_users_tags`: `userId` tagged `movieId` with `tagId`. */
  datatype MovieUserTag = MovieUserTag(movieId: int, userId: int, tagId: int)

  /** The four tables the queries read, each a bag of rows. */
  datatype Database = Database(
    ratings: seq<Rating>,
    movies: seq<Movie>,
    moviesGenres: seq<MovieGenre>,
    moviesUsersTags: seq<MovieUserTag>)

  /** The two query parameters, `%(movie)s` and `%(users)s`. */
  datatype Params = Params(movie: string, users: seq<int>)

  /** The four population queries, one per builder. */
  datatype Population = MovieRating | UserRating | GenreRating | TagRating

  predicate RatingsWithin(rs: seq<Rating>, lo: real, hi: real)
  {
    forall r :: r in rs ==> lo <= r.rating <= hi
  }

  /** `WHERE r.user_id = ANY(%(users)s)`: the ratings of listed users, in table order. */
  function OfUsers(rs: seq<Rating>, users: seq<int>): (s: seq<Rating>)
    ensures |s| <= |rs|
    ensures forall r :: r in s <==> r in rs && r.userId in users
    ensures forall r :: multiset(s)[r] == if r.userId in users then multiset(rs)[r] else 0
  {
    if rs == [] then []
    else
      assert rs == [rs[0]] + rs[1..];
      (if rs[0].userId in users then [rs[0]] else []) + OfUsers(rs[1..], users)
  }

  /** The ratings a variant reads: all of them, or those of the listed users. */
  function Selected(rs: seq<Rating>, users: seq<int>, subset: bool): seq<Rating>
  {
    if subset then OfUsers(rs, users) else rs
  }

  /** Rows of `movies m` joined to a rating of `movieId` that pass `m.title = %(movie)s`. */
  function TitledCount(movies: seq<Movie>, movieId: int, title: string): nat
  {
    if movies == [] then 0
    else
      (if movies[0].movieId == movieId && movies[0].title == title then 1 else 0)
        + TitledCount(movies[1..], movieId, title)
  }

  /** Rows of `movies_genres mg` joined to a rating of `movieId` whose genre is in `genres`. */
  function GenreRowCount(moviesGenres: seq<MovieGenre>, movieId: int, genres: set<int>): nat
  {
    if moviesGenres == [] then 0
    else
      var g := moviesGenres[0];
      (if g.movieId == movieId && g.genreId in genres then 1 else 0)
        + GenreRowCount(moviesGenres[1..], movieId, genres)
  }

  /** Rows of `movies_users_tags mut` joined to a rating of (`movieId`, `userId`) whose tag is in `tags`. */
  function TagRowCount(moviesUsersTags: seq<MovieUserTag>, movieId: int, userId: int, tags: set<int>): nat
  {
    if moviesUsersTags == [] then 0
    else
      var t := moviesUsersTags[0];
      (if t.movieId == movieId && t.userId == userId && t.tagId in tags then 1 else 0)
        + TagRowCount(moviesUsersTags[1..], movieId, userId, tags)
  }

  /** The table a population query joins `ratings r` with, and the filter on the joined rows. */
  datatype Join =
    | TitleJoin(movies: seq<Movie>, title: string)
    | GenreJoin(moviesGenres: seq<MovieGenre>, genres: set<int>)
    | TagJoin(moviesUsersTags: seq<MovieUserTag>, tags: set<int>)

  /** How many joined rows one rating produces. */
  function Multiplicity(j: Join, r: Rating): nat
  {
    match j
    case TitleJoin(movies, title) => TitledCount(movies, r.movieId, title)
    case GenreJoin(moviesGenres, genres) => GenreRowCount(moviesGenres, r.movieId, genres)
    case TagJoin(moviesUsersTags, tags) => TagRowCount(moviesUsersTags, r.movieId, r.userId, tags)
  }

  function Repeat(x: real, n: nat): (xs: seq<real>)
    ensures |xs| == n
    ensures forall i :: 0 <= i < n ==> xs[i] == x
  {
    seq(n, _ => x)
  }

  /** The bag of `r.rating` values an inner join produces: each rating once per matching joined row. */
  function Joined(rs: seq<Rating>, j: Join): (xs: seq<real>)
    ensures |xs| == TotalWeight(rs, j)
  {
    if rs == [] then []
    else Repeat(rs[0].rating, Multiplicity(j, rs[0])) + Joined(rs[1..], j)
  }

  /** The genres of the movies titled `title`: `SELECT mg.genre_id FROM movies_genres mg
      INNER JOIN movies m ... WHERE m.title = %(movie)s`, read as the set `IN` tests. */
  function GenresOf(db: Database, title: string): (genres: set<int>)
    ensures forall g :: g in genres <==>
              exists mg :: mg in db.moviesGenres && mg.genreId == g && TitledCount(db.movies, mg.movieId, title) > 0
  {
    TitledCountCountsTitles(db.movies, title);
    set mg, m | mg in db.moviesGenres && m in db.movies && mg.movieId == m.movieId && m.title == title
      :: mg.genreId
  }

  /** The tags any user put on a movie titled `title` (the `DISTINCT mut.tag_id` subquery). */
  function TagsOf(db: Database, title: string): (tags: set<int>)
    ensures forall g :: g in tags <==>
              exists t :: t in db.moviesUsersTags && t.tagId == g && TitledCount(db.movies, t.movieId, title) > 0
  {
    TitledCountCountsTitles(db.movies, title);
    set t, m | t in db.moviesUsersTags && m in db.movies && t.movieId == m.movieId && m.title == title
      :: t.tagId
  }

  /** A movie id joins some row of `movies` with the title exactly when that
      row exists. */
  lemma TitledCountCountsTitles(movies: seq<Movie>, title: string)
    ensures forall id :: TitledCount(movies, id, title) > 0 <==> exists m :: m in movies && m.movieId == id && m.title == title
  {
    forall id
      ensures TitledCount(movies, id, title) > 0 <==> exists m :: m in movies && m.movieId == id && m.title == title
    {
      TitledCountPositive(movies, id, title);
    }
  }

  lemma {:induction false} TitledCountPositive(movies: seq<Movie>, id: int, title: string)
    ensures TitledCount(movies, id, title) > 0 <==> exists m :: m in movies && m.movieId == id && m.title == title
  {
    if movies != [] {
      TitledCountPositive(movies[1..], id, title);
      assert movies == [movies[0]] + movies[1..];
    }
  }

  /** The ratings of user `u`, over every movie. */
  function RatingsBy(rs: seq<Rating>, u: int): seq<real>
  {
    if rs == [] then []
    else (if rs[0].userId == u then [rs[0].rating] else []) + RatingsBy(rs[1..], u)
  }

  /** The `GROUP BY r.user_id` keys: each user with a rating, once. */
  function UserIds(rs: seq<Rating>): (ids: seq<int>)
    ensures forall u :: u in ids <==> RatingsBy(rs, u) != []
    ensures forall i, j :: 0 <= i < j < |ids| ==> ids[i] != ids[j]
  {
    if rs == [] then []
    else
      var rest := UserIds(rs[1..]);
      if rs[0].userId in rest then rest else [rs[0].userId] + rest
  }

  function GroupAverages(rs: seq<Rating>, ids: seq<int>): (avgs: seq<real>)
    requires forall u :: u in ids ==> RatingsBy(rs, u) != []
    ensures |avgs| == |ids|
    ensures forall i :: 0 <= i < |ids| ==> avgs[i] == Mean(RatingsBy(rs, ids[i]))
  {
    if ids == [] then []
    else [Mean(RatingsBy(rs, ids[0]))] + GroupAverages(rs, ids[1..])
  }

  /** The inner `SELECT AVG(r.rating) AS avg_rating ... GROUP BY r.user_id`. */
  function PerUserAverages(rs: seq<Rating>): (avgs: seq<real>)
    ensures |avgs| == |UserIds(rs)|
    ensures forall i :: 0 <= i < |avgs| ==> RatingsBy(rs, UserIds(rs)[i]) != [] && avgs[i] == Mean(RatingsBy(rs, UserIds(rs)[i]))
  {
    GroupAverages(rs, UserIds(rs))
  }

  /** movie_avg_rating: AVG of the ratings of the movies titled `%(movie)s`. */
  function MovieAvgRating(db: Database, p: Params, subset: bool): (r: Option<real>)
    ensures r == WeightedAvg(Selected(db.ratings, p.users, subset), TitleJoin(db.movies, p.movie))
  {
    JoinAverageIsWeighted(Selected(db.ratings, p.users, subset), TitleJoin(db.movies, p.movie));
    Avg(Joined(Selected(db.ratings, p.users, subset), TitleJoin(db.movies, p.movie)))
  }

  /** user_avg_rating: AVG over users of each user's average rating. It does not read `%(movie)s`. */
  function UserAvgRating(db: Database, p: Params, subset: bool): (r: Option<real>)
    ensures r.None? <==> Selected(db.ratings, p.users, subset) == []
  {
    var rs := Selected(db.ratings, p.users, subset);
    assert rs != [] ==> rs[0].userId in UserIds(rs) by {
      if rs != [] {
        assert RatingsBy(rs, rs[0].userId) != [];
      }
    }
    Avg(PerUserAverages(Selected(db.ratings, p.users, subset)))
  }

  /** genre_avg_rating: AVG of the ratings of movies sharing a genre with `%(movie)s`, per joined row. */
  function GenreAvgRating(db: Database, p: Params, subset: bool): (r: Option<real>)
    ensures r == WeightedAvg(Selected(db.ratings, p.users, subset), GenreJoin(db.moviesGenres, GenresOf(db, p.movie)))
  {
    JoinAverageIsWeighted(Selected(db.ratings, p.users, subset), GenreJoin(db.moviesGenres, GenresOf(db, p.movie)));
    Avg(Joined(Selected(db.ratings, p.users, subset), GenreJoin(db.moviesGenres, GenresOf(db, p.movie))))
  }

  /** tag_avg_rating: AVG of the ratings whose (movie, user) carries a tag of `%(movie)s`, per joined row. */
  function TagAvgRating(db: Database, p: Params, subset: bool): (r: Option<real>)
    ensures r == WeightedAvg(Selected(db.ratings, p.users, subset), TagJoin(db.moviesUsersTags, TagsOf(db, p.movie)))
  {
    JoinAverageIsWeighted(Selected(db.ratings, p.users, subset), TagJoin(db.moviesUsersTags, TagsOf(db, p.movie)));
    Avg(Joined(Selected(db.ratings, p.users, subset), TagJoin(db.moviesUsersTags, TagsOf(db, p.movie))))
  }

  /** The population query `pop`; whatever the population, it is NULL when
      its variant reads no rating at all. */
  function Average(pop: Population, db: Database, p: Params, subset: bool): (r: Option<real>)
    ensures Selected(db.ratings, p.users, subset) == [] ==> r.None?
  {
    match pop
    case MovieRating => MovieAvgRating(db, p, subset)
    case UserRating => UserAvgRating(db, p, subset)
    case GenreRating => GenreAvgRating(db, p, subset)
    case TagRating => TagAvgRating(db, p, subset)
  }

  // ---------------------------------------------------------------------
  // The two variants

  /** The restricted variant is the unrestricted query over the listed users'
      ratings only, and the unrestricted variant does not read `users`. */
  lemma SubsetOnlyFiltersRatings(pop: Population, db: Database, p: Params, others: seq<int>)
    ensures Average(pop, db, p, true) == Average(pop, db.(ratings := OfUsers(db.ratings, p.users)), p, false)
    ensures Average(pop, db, p, false) == Average(pop, db, p.(users := others), false)
  {
    var db' := db.(ratings := OfUsers(db.ratings, p.users));
    assert GenresOf(db', p.movie) == GenresOf(db, p.movie);
    assert TagsOf(db', p.movie) == TagsOf(db, p.movie);
  }

  /** Two requests for the same movie whose variants read the same ratings
      get the same averages. */
  lemma AverageDependsOnSelection(pop: Population, db: Database, p1: Params, p2: Params)
    requires p1.movie == p2.movie
    requires OfUsers(db.ratings, p1.users) == OfUsers(db.ratings, p2.users)
    ensures Average(pop, db, p1, false) == Average(pop, db, p2, false)
    ensures Average(pop, db, p1, true) == Average(pop, db, p2, true)
  {
  }

  /** `ANY(%(users)s)` reads the list as a set: order and repetition do not matter. */
  lemma {:induction false} OfUsersAsSet(rs: seq<Rating>, users1: seq<int>, users2: seq<int>)
    requires forall u :: u in users1 <==> u in users2
    ensures OfUsers(rs, users1) == OfUsers(rs, users2)
  {
    if rs != [] {
      OfUsersAsSet(rs[1..], users1, users2);
    }
  }

  /** No rating matches `ANY` of an empty array. */
  lemma {:induction false} OfNoUsers(rs: seq<Rating>)
    ensures OfUsers(rs, []) == []
  {
    if rs != [] {
      OfNoUsers(rs[1..]);
    }
  }

  /** With no listed user every restricted variant is NULL. */
  lemma EmptySubsetIsNull(pop: Population, db: Database, movie: string)
    ensures Average(pop, db, Params(movie, []), true) == None
  {
    OfNoUsers(db.ratings);
    assert UserIds([]) == [];
  }

  // ---------------------------------------------------------------------
  // user_avg_rating: the filter runs before GROUP BY

  /** Filtering by `users` before grouping keeps a listed user's whole group
      (all of their ratings, over every movie) and drops everyone else's. */
  lemma {:induction false} GroupOfListedUser(rs: seq<Rating>, users: seq<int>, u: int)
    ensures RatingsBy(OfUsers(rs, users), u) == if u in users then RatingsBy(rs, u) else []
  {
    if rs != [] {
      GroupOfListedUser(rs[1..], users, u);
      var head := if rs[0].userId in users then [rs[0]] else [];
      assert OfUsers(rs, users) == head + OfUsers(rs[1..], users);
      RatingsByAppend(head, OfUsers(rs[1..], users), u);
    }
  }

  lemma {:induction false} RatingsByAppend(xs: seq<Rating>, ys: seq<Rating>, u: int)
    ensures RatingsBy(xs + ys, u) == RatingsBy(xs, u) + RatingsBy(ys, u)
  {
    if xs == [] {
      assert xs + ys == ys;
    } else {
      assert (xs + ys)[1..] == xs[1..] + ys;
      RatingsByAppend(xs[1..], ys, u);
    }
  }

  /** The restricted user_avg_rating groups exactly the listed users who
      have ratings. */
  lemma RestrictedUserGroups(rs: seq<Rating>, users: seq<int>)
    ensures forall u :: u in UserIds(OfUsers(rs, users)) <==> u in users && u in UserIds(rs)
  {
    forall u
      ensures u in UserIds(OfUsers(rs, users)) <==> u in users && u in UserIds(rs)
    {
      GroupOfListedUser(rs, users, u);
    }
  }

  /** Each group of the restricted user_avg_rating averages that user's
      ratings over every movie, not only the requested one and not only
      some of them. */
  lemma RestrictedUserAverages(rs: seq<Rating>, users: seq<int>)
    ensures var ids := UserIds(OfUsers(rs, users));
            var avgs := PerUserAverages(OfUsers(rs, users));
            && |avgs| == |ids|
            && forall i :: 0 <= i < |ids| ==>
                 && ids[i] in users
                 && RatingsBy(rs, ids[i]) != []
                 && avgs[i] == Mean(RatingsBy(rs, ids[i]))
  {
    var ids := UserIds(OfUsers(rs, users));
    forall i | 0 <= i < |ids|
      ensures ids[i] in users && RatingsBy(rs, ids[i]) != []
      ensures RatingsBy(OfUsers(rs, users), ids[i]) == RatingsBy(rs, ids[i])
    {
      assert ids[i] in ids;
      GroupOfListedUser(rs, users, ids[i]);
    }
  }

  // ---------------------------------------------------------------------
  // Genre and tag averages weigh a rating by its joined rows

  function TotalWeight(rs: seq<Rating>, j: Join): nat
  {
    if rs == [] then 0 else Multiplicity(j, rs[0]) + TotalWeight(rs[1..], j)
  }

  /** `n` copies of `x` added up, that is `n * x`. */
  function Scaled(n: nat, x: real): real
  {
    if n == 0 then 0.0 else x + Scaled(n - 1, x)
  }

  /** The sum of the ratings, each weighted by its number of joined rows. */
  function WeightedSum(rs: seq<Rating>, j: Join): real
  {
    if rs == [] then 0.0
    else Scaled(Multiplicity(j, rs[0]), rs[0].rating) + WeightedSum(rs[1..], j)
  }

  /** The mean of the ratings, each weighted by its number of joined rows. */
  function WeightedAvg(rs: seq<Rating>, j: Join): Option<real>
  {
    var w := TotalWeight(rs, j);
    if w == 0 then None else Some(WeightedSum(rs, j) / w as real)
  }

  lemma {:induction false} SumRepeat(x: real, n: nat)
    ensures Sum(Repeat(x, n)) == Scaled(n, x)
  {
    if n > 0 {
      assert Repeat(x, n)[1..] == Repeat(x, n - 1);
      SumRepeat(x, n - 1);
    }
  }

  lemma {:induction false} JoinedSum(rs: seq<Rating>, j: Join)
    ensures Sum(Joined(rs, j)) == WeightedSum(rs, j)
  {
    if rs != [] {
      var x, m := rs[0].rating, Multiplicity(j, rs[0]);
      var head, tail := Repeat(x, m), Joined(rs[1..], j);
      assert Joined(rs, j) == head + tail;
      SumAppend(head, tail);
      SumRepeat(x, m);
      JoinedSum(rs[1..], j);
      assert WeightedSum(rs, j) == Scaled(m, x) + WeightedSum(rs[1..], j);
    }
  }

  /** AVG over an inner join is the mean of the ratings weighted by how many
      joined rows each produces: a rating is not counted once, but once per
      matching row. */
  lemma JoinAverageIsWeighted(rs: seq<Rating>, j: Join)
    ensures Avg(Joined(rs, j)) == WeightedAvg(rs, j)
  {
    JoinedSum(rs, j);
  }

  /** A movie in two of the requested movie's genres weighs twice: ratings 4
      (movie 10, genres 1 and 2) and 2 (movie 20, genre 1) average to 10/3,
      not to 3. */
  lemma GenreRowsAreNotDistinct()
    ensures var db := Database(
              [Rating(1, 10, 4.0), Rating(2, 20, 2.0)],
              [Movie(10, "A"), Movie(20, "B")],
              [MovieGenre(10, 1), MovieGenre(10, 2), MovieGenre(20, 1)],
              []);
            GenreAvgRating(db, Params("A", []), false) == Some(10.0 / 3.0)
  {
    var db := Database(
      [Rating(1, 10, 4.0), Rating(2, 20, 2.0)],
      [Movie(10, "A"), Movie(20, "B")],
      [MovieGenre(10, 1), MovieGenre(10, 2), MovieGenre(20, 1)],
      []);
    var genres := GenresOf(db, "A");
    assert MovieGenre(10, 1) in db.moviesGenres && Movie(10, "A") in db.movies;
    assert MovieGenre(10, 2) in db.moviesGenres;
    assert 1 in genres && 2 in genres;
    var j := GenreJoin(db.moviesGenres, genres);
    var mgs := db.moviesGenres;
    assert mgs[1..][1..][1..] == [];
    assert GenreRowCount(mgs[1..][1..], 10, genres) == 0;
    assert GenreRowCount(mgs[1..][1..], 20, genres) == 1;
    assert mgs[1..][0] == MovieGenre(10, 2);
    assert GenreRowCount(mgs[1..], 10, genres) == 1;
    assert GenreRowCount(mgs[1..], 20, genres) == 1;
    assert Multiplicity(j, Rating(1, 10, 4.0)) == 2;
    assert Multiplicity(j, Rating(2, 20, 2.0)) == 1;
  }

  // ---------------------------------------------------------------------
  // Rating scale

  lemma {:induction false} JoinedWithin(rs: seq<Rating>, j: Join, lo: real, hi: real)
    requires RatingsWithin(rs, lo, hi)
    ensures AllWithin(Joined(rs, j), lo, hi)
  {
    if rs != [] {
      assert RatingsWithin(rs[1..], lo, hi) by {
        forall r | r in rs[1..] ensures lo <= r.rating <= hi { assert r in rs; }
      }
      JoinedWithin(rs[1..], j, lo, hi);
      assert rs[0] in rs;
    }
  }

  lemma {:induction false} RatingsByWithin(rs: seq<Rating>, u: int, lo: real, hi: real)
    requires RatingsWithin(rs, lo, hi)
    ensures AllWithin(RatingsBy(rs, u), lo, hi)
  {
    if rs != [] {
      assert RatingsWithin(rs[1..], lo, hi) by {
        forall r | r in rs[1..] ensures lo <= r.rating <= hi { assert r in rs; }
      }
      RatingsByWithin(rs[1..], u, lo, hi);
      assert rs[0] in rs;
    }
  }

  lemma PerUserAveragesWithin(rs: seq<Rating>, lo: real, hi: real)
    requires RatingsWithin(rs, lo, hi)
    ensures AllWithin(PerUserAverages(rs), lo, hi)
  {
    var ids := UserIds(rs);
    forall i | 0 <= i < |ids|
      ensures lo <= PerUserAverages(rs)[i] <= hi
    {
      assert ids[i] in ids;
      RatingsByWithin(rs, ids[i], lo, hi);
      MeanWithin(RatingsBy(rs, ids[i]), lo, hi);
    }
  }

  /** Every population average, in either variant, lies within the rating
      scale whenever it is not NULL. */
  lemma AverageWithin(pop: Population, db: Database, p: Params, subset: bool, lo: real, hi: real)
    requires RatingsWithin(db.ratings, lo, hi)
    ensures Average(pop, db, p, subset).Some? ==> lo <= Average(pop, db, p, subset).value <= hi
  {
    var rs := Selected(db.ratings, p.users, subset);
    assert RatingsWithin(rs, lo, hi);
    var bag := match pop
      case MovieRating => Joined(rs, TitleJoin(db.movies, p.movie))
      case UserRating => PerUserAverages(rs)
      case GenreRating => Joined(rs, GenreJoin(db.moviesGenres, GenresOf(db, p.movie)))
      case TagRating => Joined(rs, TagJoin(db.moviesUsersTags, TagsOf(db, p.movie)));
    match pop {
      case MovieRating => JoinedWithin(rs, TitleJoin(db.movies, p.movie), lo, hi);
      case UserRating => PerUserAveragesWithin(rs, lo, hi);
      case GenreRating => JoinedWithin(rs, GenreJoin(db.moviesGenres, GenresOf(db, p.movie)), lo, hi);
      case TagRating => JoinedWithin(rs, TagJoin(db.moviesUsersTags, TagsOf(db, p.movie)), lo, hi);
    }
    assert Average(pop, db, p, subset) == Avg(bag);
    if bag != [] {
      MeanWithin(bag, lo, hi);
    }
  }

  /** No rating joins a movie titled `title`. */
  predicate Unrated(db: Database, title: string)
  {
    forall r :: r in db.ratings ==> TitledCount(db.movies, r.movieId, title) == 0
  }

  lemma {:induction false} NoJoinedRows(rs: seq<Rating>, j: Join)
    requires forall r :: r in rs ==> Multiplicity(j, r) == 0
    ensures Joined(rs, j) == []
  {
    if rs != [] {
      assert rs[0] in rs;
      NoJoinedRows(rs[1..], j);
    }
  }

  /** A movie nobody rated has a NULL average, in both variants. */
  lemma UnratedMovieAverage(db: Database, p: Params, subset: bool)
    requires Unrated(db, p.movie)
    ensures MovieAvgRating(db, p, subset) == None
  {
    NoJoinedRows(Selected(db.ratings, p.users, subset), TitleJoin(db.movies, p.movie));
  }
}
