/** Rating updates (src/MongoHelper.py, `Rating` and `update_ratings`): a new
    review in one of five categories increments that category's counter,
    recomputes the average as the count-weighted mean of the five counters,
    and bumps the restaurant's review count. */
module Ratings {
  import opened Results
  import opened Documents

  /** The review categories; the weight is the enum's value. */
  datatype Rating = Excellent | VeryGood | Average | Poor | Terrible

  function Weight(c: Rating): (w: nat)
    ensures 1 <= w <= 5
  {
    match c
    case Excellent => 5
    case VeryGood => 4
    case Average => 3
    case Poor => 2
    case Terrible => 1
  }

  /** The order in which the counter table is iterated. */
  const Categories: seq<Rating> := [Excellent, VeryGood, Average, Poor, Terrible]

  /** The five counters of a rating record (the table built from `old_rating`). */
  datatype Counters = Counters(excellent: real, veryGood: real, average: real, poor: real, terrible: real) {

    function Get(c: Rating): real {
      match c
      case Excellent => excellent
      case VeryGood => veryGood
      case Average => average
      case Poor => poor
      case Terrible => terrible
    }

    /** The counters with `c` set to `v`: that one changes, the other four do not. */
    function Set(c: Rating, v: real): (r: Counters)
      ensures r.Get(c) == v
      ensures forall d :: d != c ==> r.Get(d) == Get(d)
    {
      match c
      case Excellent => this.(excellent := v)
      case VeryGood => this.(veryGood := v)
      case Average => this.(average := v)
      case Poor => this.(poor := v)
      case Terrible => this.(terrible := v)
    }

    predicate NonNegative() {
      excellent >= 0.0 && veryGood >= 0.0 && average >= 0.0 && poor >= 0.0 && terrible >= 0.0
    }
  }

  function TableOf(r: RatingRecord): Counters {
    Counters(r.excellent, r.veryGood, r.average, r.poor, r.terrible)
  }

  /** One more review in category `c`. */
  function Bump(t: Counters, c: Rating): (r: Counters)
    ensures r.Get(c) == t.Get(c) + 1.0
    ensures forall d :: d != c ==> r.Get(d) == t.Get(d)
  {
    t.Set(c, t.Get(c) + 1.0)
  }

  // ---------------------------------------------------------------------------
  // The weighted mean
  // ---------------------------------------------------------------------------

  /** Sum of count times weight over all five categories. */
  function WeightedTotal(t: Counters): real {
    t.excellent * Weight(Excellent) as real + t.veryGood * Weight(VeryGood) as real
      + t.average * Weight(Average) as real + t.poor * Weight(Poor) as real
      + t.terrible * Weight(Terrible) as real
  }

  /** Sum of the five counts. */
  function ReviewCount(t: Counters): real {
    t.excellent + t.veryGood + t.average + t.poor + t.terrible
  }

  function WeightedMean(t: Counters): real
    requires ReviewCount(t) != 0.0
  {
    WeightedTotal(t) / ReviewCount(t)
  }

  /** Running sums over the first categories visited. */
  function TotalOver(cats: seq<Rating>, t: Counters): real {
    if cats == [] then 0.0
    else TotalOver(cats[..|cats| - 1], t) + t.Get(cats[|cats| - 1]) * Weight(cats[|cats| - 1]) as real
  }

  function CountOver(cats: seq<Rating>, t: Counters): real {
    if cats == [] then 0.0
    else CountOver(cats[..|cats| - 1], t) + t.Get(cats[|cats| - 1])
  }

  /** The loop of `update_ratings` that accumulates `total` and `review_count`
      and divides; a zero count is Python's ZeroDivisionError. */
  method AverageOf(t: Counters) returns (r: Result<real, UpdateError>)
    ensures r.Err? <==> ReviewCount(t) == 0.0
    ensures r.Err? ==> r.error == DivisionByZero
    ensures r.Ok? ==> ReviewCount(t) != 0.0 && r.value == WeightedMean(t)
  {
    var total, count := 0.0, 0.0;
    for i := 0 to |Categories|
      invariant total == TotalOver(Categories[..i], t)
      invariant count == CountOver(Categories[..i], t)
    {
      var c := Categories[i];
      assert Categories[..i + 1][..i] == Categories[..i];
      count := count + t.Get(c);
      total := total + t.Get(c) * Weight(c) as real;
    }
    assert Categories[..|Categories|] == Categories;
    SumsOverCategories(t);
    if count == 0.0 {
      return Err(DivisionByZero);
    }
    return Ok(total / count);
  }

  /** Visiting all five categories gives the closed-form sums. */
  lemma SumsOverCategories(t: Counters)
    ensures TotalOver(Categories, t) == WeightedTotal(t)
    ensures CountOver(Categories, t) == ReviewCount(t)
  {
    var c1, c2, c3, c4 := [Excellent], [Excellent, VeryGood], [Excellent, VeryGood, Average],
                          [Excellent, VeryGood, Average, Poor];
    assert c1[..0] == [] && c2[..1] == c1 && c3[..2] == c2 && c4[..3] == c3 && Categories[..4] == c4;
    assert TotalOver(c1, t) == t.excellent * 5.0 && CountOver(c1, t) == t.excellent;
    assert TotalOver(c2, t) == TotalOver(c1, t) + t.veryGood * 4.0;
    assert TotalOver(c3, t) == TotalOver(c2, t) + t.average * 3.0;
    assert TotalOver(c4, t) == TotalOver(c3, t) + t.poor * 2.0;
    assert TotalOver(Categories, t) == TotalOver(c4, t) + t.terrible * 1.0;
    assert CountOver(c2, t) == CountOver(c1, t) + t.veryGood;
    assert CountOver(c3, t) == CountOver(c2, t) + t.average;
    assert CountOver(c4, t) == CountOver(c3, t) + t.poor;
    assert CountOver(Categories, t) == CountOver(c4, t) + t.terrible;
  }

  /** With non-negative counters the mean is a score between 1 and 5. */
  lemma MeanInRange(t: Counters)
    requires t.NonNegative() && ReviewCount(t) > 0.0
    ensures 1.0 <= WeightedMean(t) <= 5.0
  {
    var n, w := ReviewCount(t), WeightedTotal(t);
    assert 1.0 * n <= w <= 5.0 * n;
    QuotientBounds(w, n, 1.0);
    QuotientBounds(w, n, 5.0);
  }

  /** Dividing by a positive number keeps a bound. */
  lemma QuotientBounds(w: real, n: real, k: real)
    requires n > 0.0
    ensures k * n <= w ==> k <= w / n
    ensures w <= k * n ==> w / n <= k
  {
    var m := w / n;
    assert m * n == w;
    assert (k - m) * n == k * n - w;
  }

  /** After one more review the count is at least 1, so the division is safe
      and the new mean lies in [1, 5]. */
  lemma BumpedMeanInRange(t: Counters, c: Rating)
    requires t.NonNegative()
    ensures ReviewCount(Bump(t, c)) >= 1.0
    ensures 1.0 <= WeightedMean(Bump(t, c)) <= 5.0
  {
    var b := Bump(t, c);
    assert b.NonNegative() by {
      assert forall d :: b.Get(d) >= 0.0;
      assert b.excellent == b.Get(Excellent) && b.veryGood == b.Get(VeryGood) && b.average == b.Get(Average)
          && b.poor == b.Get(Poor) && b.terrible == b.Get(Terrible);
    }
    assert ReviewCount(b) == ReviewCount(t) + 1.0 by {
      match c
      case Excellent =>
      case VeryGood =>
      case Average =>
      case Poor =>
      case Terrible =>
    }
    MeanInRange(b);
  }

  /** Two excellent, one poor, and one more excellent: (3, 0, 0, 1, 0), mean 17/4. */
  lemma WorkedExample()
    ensures Bump(Counters(2.0, 0.0, 0.0, 1.0, 0.0), Excellent) == Counters(3.0, 0.0, 0.0, 1.0, 0.0)
    ensures WeightedMean(Counters(3.0, 0.0, 0.0, 1.0, 0.0)) == 4.25
  {
  }

  // ---------------------------------------------------------------------------
  // The stored records
  // ---------------------------------------------------------------------------

  datatype UpdateError = LinkNotFound | DivisionByZero

  /** The `$set` written to the rating record: the new average and the chosen
      counter; every other field keeps its value. */
  function Rated(rec: RatingRecord, c: Rating, avg: real): (r: RatingRecord)
    ensures r.avgRating == avg
    ensures TableOf(r) == Bump(TableOf(rec), c)
    ensures r.restaurantLink == rec.restaurantLink
    ensures r.food == rec.food && r.service == rec.service && r.value == rec.value && r.atmosphere == rec.atmosphere
  {
    var t := Bump(TableOf(rec), c);
    rec.(avgRating := avg, excellent := t.excellent, veryGood := t.veryGood, average := t.average,
         poor := t.poor, terrible := t.terrible)
  }

  /** The `$inc` written to the review record: one more review, nothing else. */
  function Reviewed(rec: Review): (r: Review)
    ensures r.totalReviewsCount == rec.totalReviewsCount + 1.0
    ensures r.restaurantLink == rec.restaurantLink && r.defaultLanguage == rec.defaultLanguage
    ensures r.reviewsCountInDefaultLanguage == rec.reviewsCountInDefaultLanguage
  {
    rec.(totalReviewsCount := rec.totalReviewsCount + 1.0)
  }

  /** A rating record whose average is the weighted mean of its counters. */
  predicate Consistent(rec: RatingRecord) {
    ReviewCount(TableOf(rec)) != 0.0 && rec.avgRating == WeightedMean(TableOf(rec))
  }

  /** The "Ratings" and "Review" collections, each keyed by restaurant link. */
  class RatingStore {
    var ratings: map<string, RatingRecord>
    var reviews: map<string, Review>

    /** Each record is stored under its own link, so looking a link up in the
        map is the source's query on the `restaurant_link` field. */
    ghost predicate Valid()
      reads this
    {
      (forall k :: k in ratings ==> ratings[k].restaurantLink == k) &&
      (forall k :: k in reviews ==> reviews[k].restaurantLink == k)
    }

    constructor (ratings0: map<string, RatingRecord>, reviews0: map<string, Review>)
      requires forall k :: k in ratings0 ==> ratings0[k].restaurantLink == k
      requires forall k :: k in reviews0 ==> reviews0[k].restaurantLink == k
      ensures Valid() && ratings == ratings0 && reviews == reviews0
    {
      ratings := ratings0;
      reviews := reviews0;
    }

    /** One more review of `link` in category `rating`. A link without a rating
        record fails before anything is written (the fetched record is None);
        a zero review count fails in the division, also before any write.
        Otherwise the rating record gets the new average and the incremented
        counter, and the review record, if there is one, one more review. */
    method UpdateRatings(link: string, rating: Rating) returns (r: Result<(), UpdateError>)
      requires Valid()
      modifies this
      ensures Valid()
      ensures link !in old(ratings) ==> r == Err(LinkNotFound)
      ensures r.Err? ==> ratings == old(ratings) && reviews == old(reviews)
      ensures link in old(ratings) ==>
        var bumped := Bump(TableOf(old(ratings)[link]), rating);
        && (r.Err? <==> ReviewCount(bumped) == 0.0)
        && (r.Ok? ==> ratings == old(ratings)[link := Rated(old(ratings)[link], rating, WeightedMean(bumped))])
        && (r.Ok? ==> reviews == if link in old(reviews) then old(reviews)[link := Reviewed(old(reviews)[link])]
                                  else old(reviews))
      ensures r.Ok? ==> link in ratings && Consistent(ratings[link])
      ensures r.Ok? ==> ratings[link].restaurantLink == link
      ensures r.Ok? && link in reviews ==> reviews[link].restaurantLink == link
    {
      if link !in ratings {
        return Err(LinkNotFound);
      }
      var current := ratings[link];
      var table := Bump(TableOf(current), rating);
      var avg := AverageOf(table);
      if avg.Err? {
        return Err(avg.error);
      }
      ratings := ratings[link := Rated(current, rating, avg.value)];
      if link in reviews {
        reviews := reviews[link := Reviewed(reviews[link])];
      }
      return Ok(());
    }
  }
}
