/** The five autocomplete handlers of server/server.py: each lowercases the
    `prefix` query argument (empty when absent) and keeps, in list order, the
    entries of a fixed sample list whose lowercase form starts with it.
    Lowercasing is ASCII only. */
module Autocomplete {
  import opened Wrappers

  function LowerChar(c: char): char
  {
    if 'A' <= c <= 'Z' then (c as int + 32) as char else c
  }

  /** `str.lower()` on ASCII text. */
  function Lower(s: string): (r: string)
    ensures |r| == |s|
    ensures IsLower(r)
    ensures EqualIgnoringCase(s, r)
  {
    seq(|s|, i requires 0 <= i < |s| => LowerChar(s[i]))
  }

  predicate IsLower(s: string)
  {
    forall i :: 0 <= i < |s| ==> !('A' <= s[i] <= 'Z')
  }

  /** Lowercased text has no capital letter left, and lowercasing it again
      changes nothing. */
  lemma LowerIsLower(s: string)
    ensures IsLower(Lower(s))
    ensures Lower(Lower(s)) == Lower(s)
  {
    var r := Lower(s);
    forall i | 0 <= i < |s|
      ensures !('A' <= r[i] <= 'Z') && LowerChar(r[i]) == r[i]
    {
      assert r[i] == LowerChar(s[i]);
    }
  }

  /** Two strings that differ only in the case of their letters. */
  predicate EqualIgnoringCase(a: string, b: string)
  {
    |a| == |b| && forall i :: 0 <= i < |a| ==> LowerChar(a[i]) == LowerChar(b[i])
  }

  lemma LowerOfEqualIgnoringCase(a: string, b: string)
    requires EqualIgnoringCase(a, b)
    ensures Lower(a) == Lower(b)
  {
    assert forall i :: 0 <= i < |a| ==> Lower(a)[i] == LowerChar(a[i]);
  }

  /** `s.startswith(prefix)`. */
  predicate StartsWith(s: string, prefix: string)
  {
    prefix <= s
  }

  predicate IsMatch(entry: string, lowered: string)
  {
    StartsWith(Lower(entry), lowered)
  }

  /** `xs` is `ys` with some entries dropped and the rest in their order. */
  predicate SubsequenceOf<T(==)>(xs: seq<T>, ys: seq<T>)
  {
    if xs == [] then true
    else if ys == [] then false
    else (xs[0] == ys[0] && SubsequenceOf(xs[1..], ys[1..])) || SubsequenceOf(xs, ys[1..])
  }

  lemma {:induction false} SubsequenceIsShorter<T>(xs: seq<T>, ys: seq<T>)
    requires SubsequenceOf(xs, ys)
    ensures |xs| <= |ys|
  {
    if xs != [] {
      if xs[0] == ys[0] && SubsequenceOf(xs[1..], ys[1..]) {
        SubsequenceIsShorter(xs[1..], ys[1..]);
      } else {
        SubsequenceIsShorter(xs, ys[1..]);
      }
    }
  }

  /** `[entry for entry in samples if entry.lower().startswith(lowered)]`:
      the matching entries, in list order. */
  function Filter(samples: seq<string>, lowered: string): (r: seq<string>)
    ensures SubsequenceOf(r, samples)
  {
    if samples == [] then []
    else
      var rest := Filter(samples[1..], lowered);
      if IsMatch(samples[0], lowered) then
        assert ([samples[0]] + rest)[1..] == rest;
        [samples[0]] + rest
      else
        rest
  }

  /** An entry is in the result exactly when it is in the list and matches. */
  lemma {:induction false} FilterMembers(samples: seq<string>, lowered: string, e: string)
    ensures e in Filter(samples, lowered) <==> e in samples && IsMatch(e, lowered)
  {
    if samples != [] {
      FilterMembers(samples[1..], lowered, e);
      assert samples == [samples[0]] + samples[1..];
    }
  }

  /** Each matching entry occurs in the result as often as in the list, and
      no other entry occurs at all. */
  lemma {:induction false} FilterCounts(samples: seq<string>, lowered: string, e: string)
    ensures multiset(Filter(samples, lowered))[e] == if IsMatch(e, lowered) then multiset(samples)[e] else 0
  {
    if samples != [] {
      FilterCounts(samples[1..], lowered, e);
      assert samples == [samples[0]] + samples[1..];
    }
  }

  /** The empty prefix starts every entry, so it keeps the whole list. */
  lemma {:induction false} FilterEmptyPrefix(samples: seq<string>)
    ensures Filter(samples, "") == samples
  {
    if samples != [] {
      FilterEmptyPrefix(samples[1..]);
      assert [samples[0]] + samples[1..] == samples;
    }
  }

  /** The entries of `samples` that match `prefix` regardless of case, in
      list order; the empty prefix keeps them all. */
  function Matches(samples: seq<string>, prefix: string): (r: seq<string>)
    ensures SubsequenceOf(r, samples)
    ensures prefix == "" ==> r == samples
  {
    FilterEmptyPrefix(samples);
    Filter(samples, Lower(prefix))
  }

  /** An autocomplete handler: the matching entries in list order; a missing
      `prefix` argument is the empty prefix and returns the whole list. */
  function Autocomplete(samples: seq<string>, prefix: Option<string>): (r: seq<string>)
    ensures SubsequenceOf(r, samples)
    ensures prefix.None? ==> r == samples
  {
    Matches(samples, prefix.GetOr(""))
  }

  /** The result is never longer than the sample list. */
  lemma MatchesAreFewer(samples: seq<string>, prefix: string)
    ensures |Matches(samples, prefix)| <= |samples|
  {
    SubsequenceIsShorter(Matches(samples, prefix), samples);
  }

  /** Prefixes that differ only in letter case give the same result. */
  lemma CaseInsensitive(samples: seq<string>, prefix1: string, prefix2: string)
    requires EqualIgnoringCase(prefix1, prefix2)
    ensures Matches(samples, prefix1) == Matches(samples, prefix2)
  {
    LowerOfEqualIgnoringCase(prefix1, prefix2);
  }

  /** Matching the prefix is matching its lowercase form. */
  lemma PrefixCaseIsIgnored(samples: seq<string>, prefix: string)
    ensures Matches(samples, prefix) == Matches(samples, Lower(prefix))
  {
    LowerIsLower(prefix);
  }

  // ---------------------------------------------------------------------
  // The five handlers and their sample lists

  const SampleGenres: seq<string> := ["Action", "Comedy", "Drama", "Horror", "Science Fiction"]
  const SampleTags: seq<string> := ["Adventure", "Romance", "Thriller", "Fantasy", "Mystery"]
  const SampleFilms: seq<string> := ["Film1", "Film2", "Film3", "Film4", "Film5"]
  const SampleUsers: seq<string> := ["User1", "User2", "User3", "User4", "User5"]
  const SamplePersonalities: seq<string> := ["Introvert", "Extrovert", "Ambivert"]

  /** genre_autocomplete: sample entries only, in list order. */
  function GenreAutocomplete(prefix: Option<string>): (r: seq<string>)
    ensures SubsequenceOf(r, SampleGenres)
    ensures prefix.None? ==> r == SampleGenres
  {
    Autocomplete(SampleGenres, prefix)
  }

  /** tags_autocomplete: sample entries only, in list order. */
  function TagsAutocomplete(prefix: Option<string>): (r: seq<string>)
    ensures SubsequenceOf(r, SampleTags)
    ensures prefix.None? ==> r == SampleTags
  {
    Autocomplete(SampleTags, prefix)
  }

  /** films_autocomplete: sample entries only, in list order. */
  function FilmsAutocomplete(prefix: Option<string>): (r: seq<string>)
    ensures SubsequenceOf(r, SampleFilms)
    ensures prefix.None? ==> r == SampleFilms
  {
    Autocomplete(SampleFilms, prefix)
  }

  /** users_autocomplete: sample entries only, in list order. */
  function UsersAutocomplete(prefix: Option<string>): (r: seq<string>)
    ensures SubsequenceOf(r, SampleUsers)
    ensures prefix.None? ==> r == SampleUsers
  {
    Autocomplete(SampleUsers, prefix)
  }

  /** personalities_autocomplete: sample entries only, in list order. */
  function PersonalitiesAutocomplete(prefix: Option<string>): (r: seq<string>)
    ensures SubsequenceOf(r, SamplePersonalities)
    ensures prefix.None? ==> r == SamplePersonalities
  {
    Autocomplete(SamplePersonalities, prefix)
  }

  /** "DR" finds "Drama" alone: the prefix is lowercased, and each entry
      is compared from its first letter. */
  lemma GenreExample()
    ensures GenreAutocomplete(Some("DR")) == ["Drama"]
  {
    var l := Lower("DR");
    assert l == "dr" by { assert l[0] == 'd'; assert l[1] == 'r'; }
    assert Lower("Action")[0] == 'a';
    assert Lower("Comedy")[0] == 'c';
    assert Lower("Drama")[0] == 'd' && Lower("Drama")[1] == 'r';
    assert Lower("Horror")[0] == 'h';
    assert Lower("Science Fiction")[0] == 's';
  }

  /** "r" finds "Romance" but not "Thriller": only the start of an entry counts. */
  lemma TagsExample()
    ensures TagsAutocomplete(Some("r")) == ["Romance"]
  {
    assert Lower("r") == "r" by { assert Lower("r")[0] == 'r'; }
    assert Lower("Adventure")[0] == 'a';
    assert Lower("Romance")[0] == 'r';
    assert Lower("Thriller")[0] == 't';
    assert Lower("Fantasy")[0] == 'f';
    assert Lower("Mystery")[0] == 'm';
  }

  /** "f" keeps every sample film, in order. */
  lemma FilmsExample()
    ensures FilmsAutocomplete(Some("f")) == SampleFilms
  {
    assert Lower("f") == "f" by { assert Lower("f")[0] == 'f'; }
    assert Lower("Film1")[0] == 'f';
    assert Lower("Film2")[0] == 'f';
    assert Lower("Film3")[0] == 'f';
    assert Lower("Film4")[0] == 'f';
    assert Lower("Film5")[0] == 'f';
  }

  /** "u3" finds nothing: "User3" contains a 3 but does not start with "u3". */
  lemma UsersExample()
    ensures UsersAutocomplete(Some("u3")) == []
  {
    var l := Lower("u3");
    assert l == "u3" by { assert l[0] == 'u'; assert l[1] == '3'; }
    assert Lower("User1")[1] == 's';
    assert Lower("User2")[1] == 's';
    assert Lower("User3")[1] == 's';
    assert Lower("User4")[1] == 's';
    assert Lower("User5")[1] == 's';
  }

  /** "E" finds "Extrovert" alone. */
  lemma PersonalitiesExample()
    ensures PersonalitiesAutocomplete(Some("E")) == ["Extrovert"]
  {
    assert Lower("E") == "e" by { assert Lower("E")[0] == 'e'; }
    assert Lower("Introvert")[0] == 'i';
    assert Lower("Extrovert")[0] == 'e';
    assert Lower("Ambivert")[0] == 'a';
  }
}
