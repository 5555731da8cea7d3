/** `RatingStars`: five stars, the first `floor(rating)` of them filled. */
module RatingStars {
  import opened Wrappers

  const Count := 5

  /** Five stars, star i filled iff i is below the rating rounded down; a
      missing rating is 0. */
  function Stars(rating: Option<real>): (r: seq<bool>)
    ensures |r| == Count
    ensures forall i :: 0 <= i < Count ==> (r[i] <==> i < rating.GetOr(0.0).Floor)
  {
    var full := rating.GetOr(0.0).Floor;
    seq(Count, i requires 0 <= i < Count => i < full)
  }

  function Filled(stars: seq<bool>): nat {
    if stars == [] then 0 else (if stars[0] then 1 else 0) + Filled(stars[1..])
  }

  /** The filled stars come first, and there are `floor(rating)` of them,
      clamped to `0..5`. */
  lemma StarsShape(rating: Option<real>)
    ensures forall i, j :: 0 <= j < i < Count && Stars(rating)[i] ==> Stars(rating)[j]
    ensures Filled(Stars(rating)) ==
      (var f := rating.GetOr(0.0).Floor; if f < 0 then 0 else if f > Count then Count else f)
  {
    var f := rating.GetOr(0.0).Floor;
    var s := Stars(rating);
    var k := if f < 0 then 0 else if f > Count then Count else f;
    FilledPrefix(s, k);
  }

  lemma {:induction false} FilledPrefix(s: seq<bool>, k: nat)
    requires k <= |s| && forall i :: 0 <= i < |s| ==> (s[i] <==> i < k)
    ensures Filled(s) == k
  {
    if s != [] {
      FilledPrefix(s[1..], if k > 0 then k - 1 else 0);
    }
  }

  /** No rating fills nothing; a rating of 5 or more fills every star. */
  lemma Extremes(rating: real)
    ensures forall i :: 0 <= i < Count ==> !Stars(None)[i]
    ensures rating >= 5.0 ==> forall i :: 0 <= i < Count ==> Stars(Some(rating))[i]
  {
  }
}
