/**
  The six-point Rating scale and the static and default members of the
  Reteable interface: convert, the default rating and applyRating(int).
 */
module Ratings {

  /** Rating, in declaration order NOT_RATED .. FIVE_STAR. */
  datatype Rating = NotRated | OneStar | TwoStar | ThreeStar | FourStar | FiveStar

  /** Rating.values(): every rating, in declaration order. */
  const Values: seq<Rating> := [NotRated, OneStar, TwoStar, ThreeStar, FourStar, FiveStar]

  /** Rating.ordinal(): the position of r in Rating.values(). */
  function Ordinal(r: Rating): (n: nat)
    ensures n < |Values| && Values[n] == r
  {
    match r
    case NotRated => 0
    case OneStar => 1
    case TwoStar => 2
    case ThreeStar => 3
    case FourStar => 4
    case FiveStar => 5
  }

  /** Two ratings with one ordinal are one rating. */
  lemma OrdinalInjective(a: Rating, b: Rating)
    requires Ordinal(a) == Ordinal(b)
    ensures a == b
  {
    assert Values[Ordinal(a)] == a;
  }

  /** Reteable.DEFAULT_RATING. */
  const DefaultRating: Rating := NotRated

  /** Reteable.getRating(): the default every implementor starts from is the lowest rating. */
  function DefaultGetRating(): (r: Rating)
    ensures Ordinal(r) == 0
  {
    DefaultRating
  }

  /** Reteable.convert(stars): the rating with ordinal stars, NOT_RATED outside 0..5. */
  function Convert(stars: int): (r: Rating)
    ensures 0 <= stars <= 5 ==> Ordinal(r) == stars
    ensures !(0 <= stars <= 5) ==> r == NotRated
  {
    if 0 <= stars <= 5 then Values[stars] else NotRated
  }

  /** convert undoes ordinal: convert(r.ordinal()) == r for every rating. */
  lemma ConvertOrdinal(r: Rating)
    ensures Convert(Ordinal(r)) == r
  {
    OrdinalInjective(Convert(Ordinal(r)), r);
  }

  const FilledStar: char := '\U{2605}'
  const EmptyStar: char := '\U{2606}'

  function Repeat(c: char, n: nat): (s: string)
    ensures |s| == n && forall i :: 0 <= i < n ==> s[i] == c
  {
    if n == 0 then [] else [c] + Repeat(c, n - 1)
  }

  /**
    Rating.getStars(): one filled star per point, padded with empty stars to
    five glyphs.
   */
  function Stars(r: Rating): (s: string)
  {
    Repeat(FilledStar, Ordinal(r)) + Repeat(EmptyStar, 5 - Ordinal(r))
  }

  /** The star text has five glyphs, the first ordinal of them filled. */
  lemma StarsShape(r: Rating)
    ensures |Stars(r)| == 5
    ensures forall i :: 0 <= i < 5 ==> (Stars(r)[i] == FilledStar <==> i < Ordinal(r))
  {
  }

  /** Distinct ratings have distinct star texts, so grouping by text is grouping by rating. */
  lemma StarsInjective(a: Rating, b: Rating)
    requires Stars(a) == Stars(b)
    ensures a == b
  {
    StarsShape(a);
    StarsShape(b);
    // the first empty glyph, if any, sits at the ordinal
    assert Ordinal(a) < 5 ==> Stars(b)[Ordinal(a)] != FilledStar;
    assert Ordinal(b) < 5 ==> Stars(a)[Ordinal(b)] != FilledStar;
    OrdinalInjective(a, b);
  }
}
