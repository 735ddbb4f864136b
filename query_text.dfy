/** The SQL text that server/blueprints/ratings.py builds: the four average
    builders, each with an unrestricted and a user-restricted variant, the
    bias wrapper around a builder, and the prediction query composed from
    them. Every fragment is the exact text, whitespace included. */
module QueryText {

  // ---------------------------------------------------------------------
  // The builders

  /** The predicate a restricted variant inserts in front of its WHERE filter. */
  const UserFilterAnd: string :=
    "\n                r.user_id = ANY(%(users)s) AND" +
    "\n        "

  /** The WHERE clause the restricted per-user average inserts before GROUP BY. */
  const UserFilterWhere: string :=
    "\n                WHERE" +
    "\n                    r.user_id = ANY(%(users)s)" +
    "\n        "

  const MovieHead: string :=
    "\n        (" +
    "\n            SELECT" +
    "\n                AVG(r.rating)" +
    "\n            FROM" +
    "\n                ratings r" +
    "\n            INNER JOIN" +
    "\n                movies m ON r.movie_id = m.movie_id" +
    "\n            WHERE" +
    "\n    "
  const MovieTail: string :=
    "\n                m.title = %(movie)s" +
    "\n        )" +
    "\n    "

  const UserHead: string :=
    "\n        (" +
    "\n            SELECT" +
    "\n                AVG(avg_rating)" +
    "\n            FROM (" +
    "\n                SELECT" +
    "\n                    AVG(r.rating) AS avg_rating" +
    "\n                FROM" +
    "\n                    ratings r" +
    "\n    "
  const UserTail: string :=
    "\n                GROUP BY" +
    "\n                    r.user_id" +
    "\n            )" +
    "\n        )" +
    "\n    "

  const GenreHead: string :=
    "\n        (" +
    "\n            SELECT" +
    "\n                AVG(r.rating)" +
    "\n            FROM" +
    "\n                ratings r" +
    "\n            INNER JOIN" +
    "\n                movies_genres mg ON r.movie_id = mg.movie_id" +
    "\n            WHERE" +
    "\n    "
  const GenreTail: string :=
    "\n                mg.genre_id IN (" +
    "\n                    SELECT" +
    "\n                        mg.genre_id" +
    "\n                    FROM" +
    "\n                        movies_genres mg" +
    "\n                    INNER JOIN" +
    "\n                        movies m ON mg.movie_id = m.movie_id" +
    "\n                    WHERE" +
    "\n                        m.title = %(movie)s" +
    "\n                )" +
    "\n        )" +
    "\n    "

  const TagHead: string :=
    "\n        (" +
    "\n            SELECT" +
    "\n                AVG(r.rating)" +
    "\n            FROM" +
    "\n                ratings r" +
    "\n            INNER JOIN" +
    "\n                movies_users_tags mut ON r.movie_id = mut.movie_id AND r.user_id = mut.user_id" +
    "\n            WHERE" +
    "\n    "
  const TagTail: string :=
    "\n                mut.tag_id IN (" +
    "\n                    SELECT" +
    "\n                        DISTINCT mut.tag_id" +
    "\n                    FROM" +
    "\n                        movies_users_tags mut" +
    "\n                    INNER JOIN" +
    "\n                        movies m ON mut.movie_id = m.movie_id" +
    "\n                    WHERE" +
    "\n                        m.title = %(movie)s" +
    "\n                )" +
    "\n        )" +
    "\n    "

  /** `piece` occurs in `q` starting at position `k`. */
  predicate PieceAt(q: string, k: nat, piece: string)
  {
    k + |piece| <= |q| && q[k..k + |piece|] == piece
  }

  /** `q` ends with `piece`. */
  predicate EndsWith(q: string, piece: string)
  {
    |piece| <= |q| && q[|q| - |piece|..] == piece
  }

  /** A builder: the head, then the clause when `subset` is set, then the tail. */
  function Build(head: string, clause: string, tail: string, subset: bool): (q: string)
    ensures head <= q
    ensures EndsWith(q, tail)
    ensures subset ==> PieceAt(q, |head|, clause)
    ensures |q| == |head| + |tail| + if subset then |clause| else 0
  {
    if subset then
      var q := head + clause + tail;
      assert q[..|head|] == head;
      assert q[|head|..|head| + |clause|] == clause;
      q
    else
      var q := head + tail;
      assert q[..|head|] == head;
      q
  }

  /** movie_avg_rating: opens with the `SELECT AVG(r.rating) ... WHERE` head
      and closes with the title filter; the user clause follows the `WHERE`
      exactly in the restricted variant. */
  function MovieAvgRating(subset: bool): (q: string)
    ensures MovieHead <= q && EndsWith(q, MovieTail)
    ensures subset <==> PieceAt(q, |MovieHead|, UserFilterAnd)
  {
    assert MovieTail[17] != UserFilterAnd[17] by { assert MovieTail[17] == 'm' && UserFilterAnd[17] == 'r'; }
    ClauseMarksSubset(MovieHead, UserFilterAnd, MovieTail, subset, 17);
    Build(MovieHead, UserFilterAnd, MovieTail, subset)
  }

  /** user_avg_rating: the per-user subquery over `ratings r`, then
      `GROUP BY r.user_id`; the `WHERE` clause comes before the grouping
      exactly in the restricted variant. */
  function UserAvgRating(subset: bool): (q: string)
    ensures UserHead <= q && EndsWith(q, UserTail)
    ensures subset <==> PieceAt(q, |UserHead|, UserFilterWhere)
  {
    assert UserTail[17] != UserFilterWhere[17] by { assert UserTail[17] == 'G' && UserFilterWhere[17] == 'W'; }
    ClauseMarksSubset(UserHead, UserFilterWhere, UserTail, subset, 17);
    Build(UserHead, UserFilterWhere, UserTail, subset)
  }

  /** genre_avg_rating: the `movies_genres` join, then the genre subquery;
      the user clause follows the `WHERE` exactly in the restricted variant. */
  function GenreAvgRating(subset: bool): (q: string)
    ensures GenreHead <= q && EndsWith(q, GenreTail)
    ensures subset <==> PieceAt(q, |GenreHead|, UserFilterAnd)
  {
    assert GenreTail[17] != UserFilterAnd[17] by { assert GenreTail[17] == 'm' && UserFilterAnd[17] == 'r'; }
    ClauseMarksSubset(GenreHead, UserFilterAnd, GenreTail, subset, 17);
    Build(GenreHead, UserFilterAnd, GenreTail, subset)
  }

  /** tag_avg_rating: the `movies_users_tags` join, then the tag subquery;
      the user clause follows the `WHERE` exactly in the restricted variant. */
  function TagAvgRating(subset: bool): (q: string)
    ensures TagHead <= q && EndsWith(q, TagTail)
    ensures subset <==> PieceAt(q, |TagHead|, UserFilterAnd)
  {
    assert TagTail[17] != UserFilterAnd[17] by { assert TagTail[17] == 'm' && UserFilterAnd[17] == 'r'; }
    ClauseMarksSubset(TagHead, UserFilterAnd, TagTail, subset, 17);
    Build(TagHead, UserFilterAnd, TagTail, subset)
  }

  /** When clause and tail differ at offset `i`, the clause stands right
      after the head exactly in the flagged build. */
  lemma ClauseMarksSubset(head: string, clause: string, tail: string, subset: bool, i: nat)
    requires i < |clause| && i < |tail|
    requires clause[i] != tail[i]
    ensures subset <==> PieceAt(Build(head, clause, tail, subset), |head|, clause)
  {
    var q := Build(head, clause, tail, subset);
    if !subset {
      HeadThenDiffers(head, clause, tail, i);
      if |head| + |clause| <= |q| {
        assert q[|head|..|head| + |clause|][i] == tail[i];
      }
    }
  }

  /** `restricted` is `unrestricted` with `clause` inserted at one place and
      nothing else changed. */
  predicate InsertsClause(unrestricted: string, clause: string, restricted: string)
  {
    exists k :: 0 <= k <= |unrestricted| && restricted == unrestricted[..k] + clause + unrestricted[k..]
  }

  /** The restricted variant of a builder is its unrestricted variant with
      the clause inserted where the head ends. */
  lemma BuildInsertsClause(head: string, clause: string, tail: string)
    ensures InsertsClause(Build(head, clause, tail, false), clause, Build(head, clause, tail, true))
    ensures var unrestricted := Build(head, clause, tail, false);
            Build(head, clause, tail, true) == unrestricted[..|head|] + clause + unrestricted[|head|..]
    ensures |Build(head, clause, tail, true)| == |Build(head, clause, tail, false)| + |clause|
  {
    var unrestricted := head + tail;
    assert unrestricted[..|head|] == head;
    assert unrestricted[|head|..] == tail;
  }

  lemma MovieSubsetInsertsClause()
    ensures InsertsClause(MovieAvgRating(false), UserFilterAnd, MovieAvgRating(true))
  {
    BuildInsertsClause(MovieHead, UserFilterAnd, MovieTail);
  }

  lemma UserSubsetInsertsClause()
    ensures InsertsClause(UserAvgRating(false), UserFilterWhere, UserAvgRating(true))
  {
    BuildInsertsClause(UserHead, UserFilterWhere, UserTail);
  }

  lemma GenreSubsetInsertsClause()
    ensures InsertsClause(GenreAvgRating(false), UserFilterAnd, GenreAvgRating(true))
  {
    BuildInsertsClause(GenreHead, UserFilterAnd, GenreTail);
  }

  lemma TagSubsetInsertsClause()
    ensures InsertsClause(TagAvgRating(false), UserFilterAnd, TagAvgRating(true))
  {
    BuildInsertsClause(TagHead, UserFilterAnd, TagTail);
  }

  // ---------------------------------------------------------------------
  // The bias wrapper

  const BiasOpen: string :=
    "\n        (" +
    "\n            SELECT" +
    "\n                COALESCE (" +
    "\n                    "
  const BiasDivide: string := " / "
  const BiasClose: string :=
    "," +
    "\n                    1" +
    "\n                )" +
    "\n        )" +
    "\n    "

  /** `bias(func)`: `COALESCE(func(False) / func(True), 1)` as text. */
  function Bias(f: bool -> string): (q: string)
    ensures BiasOpen <= q && EndsWith(q, BiasClose)
    ensures PieceAt(q, |BiasOpen|, f(false))
    ensures PieceAt(q, |BiasOpen| + |f(false)|, BiasDivide)
    ensures PieceAt(q, |BiasOpen| + |f(false)| + |BiasDivide|, f(true))
  {
    var num, den := f(false), f(true);
    var q := BiasOpen + num + BiasDivide + den + BiasClose;
    var k := |BiasOpen| + |num| + |BiasDivide|;
    assert q[..|BiasOpen|] == BiasOpen;
    assert q[|BiasOpen|..|BiasOpen| + |num|] == num;
    assert q[|BiasOpen| + |num|..k] == BiasDivide;
    assert q[k..k + |den|] == den;
    assert q[|q| - |BiasClose|..] == BiasClose;
    q
  }

  /** The builder with its flag inverted, so that `Bias(Flipped(f))` is the
      bias with numerator and denominator swapped. */
  function Flipped(f: bool -> string): bool -> string
  {
    subset => f(!subset)
  }

  /** Where the two variants of a builder differ, swapping numerator and
      denominator changes the bias text. */
  lemma BiasDirectionMatters(f: bool -> string, i: nat)
    requires i < |f(false)| && i < |f(true)|
    requires f(false)[i] != f(true)[i]
    ensures Bias(f) != Bias(Flipped(f))
  {
    var k := |BiasOpen| + i;
    assert Bias(f)[k] == f(false)[i];
    assert Bias(Flipped(f))[k] == f(true)[i];
  }

  /** user_avg_rating's bias divides the unrestricted average by the
      restricted one, not the other way round: 17 characters after the head
      the tail has the `G` of `GROUP BY` where the clause has the `W` of `WHERE`. */
  lemma UserBiasNotReversed()
    ensures Bias(UserAvgRating) != Bias(Flipped(UserAvgRating))
  {
    assert UserTail[17] == 'G' && UserFilterWhere[17] == 'W';
    HeadThenDiffers(UserHead, UserFilterWhere, UserTail, 17);
    BiasDirectionMatters(UserAvgRating, |UserHead| + 17);
  }

  /** genre_avg_rating's bias is not reversed: `mg.genre_id` against `r.user_id`. */
  lemma GenreBiasNotReversed()
    ensures Bias(GenreAvgRating) != Bias(Flipped(GenreAvgRating))
  {
    assert GenreTail[17] == 'm' && UserFilterAnd[17] == 'r';
    HeadThenDiffers(GenreHead, UserFilterAnd, GenreTail, 17);
    BiasDirectionMatters(GenreAvgRating, |GenreHead| + 17);
  }

  /** tag_avg_rating's bias is not reversed: `mut.tag_id` against `r.user_id`. */
  lemma TagBiasNotReversed()
    ensures Bias(TagAvgRating) != Bias(Flipped(TagAvgRating))
  {
    assert TagTail[17] == 'm' && UserFilterAnd[17] == 'r';
    HeadThenDiffers(TagHead, UserFilterAnd, TagTail, 17);
    BiasDirectionMatters(TagAvgRating, |TagHead| + 17);
  }

  /** The variants of a builder agree on the head and then show, at offset
      `i` after it, the character of the tail and of the clause. */
  lemma HeadThenDiffers(head: string, clause: string, tail: string, i: nat)
    requires i < |clause| && i < |tail|
    ensures Build(head, clause, tail, false)[|head| + i] == tail[i]
    ensures Build(head, clause, tail, true)[|head| + i] == clause[i]
  {
  }

  // ---------------------------------------------------------------------
  // The prediction query

  /** `expr AS alias`: one column of a SELECT list. */
  function As(expr: string, alias: string): string
  {
    expr + " AS " + alias
  }

  const SelectOpen: string :=
    "\n            SELECT" +
    "\n                "

  /** The rest of the outer SELECT list, up to the inner SELECT's first column. */
  const OuterColumns: string :=
    "," +
    "\n                subset_rating," +
    "\n                user_bias," +
    "\n                genre_bias," +
    "\n                tag_bias," +
    "\n                (user_bias + genre_bias + tag_bias) / 3 AS average_bias," +
    "\n                subset_rating * (user_bias + genre_bias + tag_bias) / 3 AS predicted_rating" +
    "\n            FROM (" +
    "\n                SELECT" +
    "\n                    "

  const InnerSeparator: string :=
    "," +
    "\n                    "

  const QueryClose: string :=
    "\n            )" +
    "\n            ;" +
    "\n            "

  /** The text of an f-string: its literal parts and substitutions in order. */
  function Concat(pieces: seq<string>): string
  {
    if pieces == [] then "" else pieces[0] + Concat(pieces[1..])
  }

  /** `column` occurs in `query`. */
  predicate Selects(query: string, column: string)
  {
    exists k :: 0 <= k <= |query| && column <= query[k..]
  }

  /** Every piece of a concatenation occurs in it. */
  lemma {:induction false} ConcatHasPieces(pieces: seq<string>, i: nat)
    requires i < |pieces|
    ensures Selects(Concat(pieces), pieces[i])
  {
    var rest := Concat(pieces[1..]);
    var query := pieces[0] + rest;
    assert Concat(pieces) == query;
    if i == 0 {
      assert query[0..] == query;
    } else {
      ConcatHasPieces(pieces[1..], i - 1);
      var k :| 0 <= k <= |rest| && pieces[1..][i - 1] <= rest[k..];
      assert pieces[1..][i - 1] == pieces[i];
      assert query[|pieces[0]| + k..] == rest[k..];
      assert pieces[i] <= query[|pieces[0]| + k..];
    }
  }

  /** The query get_prediction runs: the unrestricted movie average as
      average_rating, then, in the inner SELECT, the restricted movie average
      as subset_rating and each bias column over its own builder. */
  function PredictionQuery(): (q: string)
    ensures Selects(q, As(MovieAvgRating(false), "average_rating"))
    ensures Selects(q, As(MovieAvgRating(true), "subset_rating"))
    ensures Selects(q, As(Bias(UserAvgRating), "user_bias"))
    ensures Selects(q, As(Bias(GenreAvgRating), "genre_bias"))
    ensures Selects(q, As(Bias(TagAvgRating), "tag_bias"))
  {
    var pieces := [SelectOpen, As(MovieAvgRating(false), "average_rating"), OuterColumns,
                   As(MovieAvgRating(true), "subset_rating"), InnerSeparator,
                   As(Bias(UserAvgRating), "user_bias"), InnerSeparator,
                   As(Bias(GenreAvgRating), "genre_bias"), InnerSeparator,
                   As(Bias(TagAvgRating), "tag_bias"), QueryClose];
    assert Selects(Concat(pieces), pieces[1]) by { ConcatHasPieces(pieces, 1); }
    assert Selects(Concat(pieces), pieces[3]) by { ConcatHasPieces(pieces, 3); }
    assert Selects(Concat(pieces), pieces[5]) by { ConcatHasPieces(pieces, 5); }
    assert Selects(Concat(pieces), pieces[7]) by { ConcatHasPieces(pieces, 7); }
    assert Selects(Concat(pieces), pieces[9]) by { ConcatHasPieces(pieces, 9); }
    Concat(pieces)
  }
}
