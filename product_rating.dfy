/**
 * The star row of the product rating: five slots, each a full, half or empty star, chosen from
 * the rating value by the same two thresholds per slot.
 */
module ProductRating {

  datatype Star = Full | Half | Empty

  /** Slot k (1 to 5): full from k, half from k - 0.5, empty below. */
  function Slot(value: real, k: int): (s: Star)
    ensures s == Full <==> value >= k as real
    ensures s == Half <==> k as real - 0.5 <= value < k as real
    ensures s == Empty <==> value < k as real - 0.5
  {
    if value >= k as real then Full else if value >= k as real - 0.5 then Half else Empty
  }

  function Stars(value: real): (r: seq<Star>)
    ensures |r| == 5
    // r[i] is the slot for k = i + 1
    ensures forall i | 0 <= i < 5 :: r[i] == Full <==> value >= (i + 1) as real
    ensures forall i | 0 <= i < 5 :: r[i] == Half <==> (i + 1) as real - 0.5 <= value < (i + 1) as real
    ensures forall i | 0 <= i < 5 :: r[i] == Empty <==> value < (i + 1) as real - 0.5
  {
    [Slot(value, 1), Slot(value, 2), Slot(value, 3), Slot(value, 4), Slot(value, 5)]
  }

  function Rank(s: Star): nat {
    match s
    case Full => 2
    case Half => 1
    case Empty => 0
  }

  function CountOf(r: seq<Star>, s: Star): nat {
    if r == [] then 0 else (if r[0] == s then 1 else 0) + CountOf(r[1..], s)
  }

  /** Full stars come first, then at most one half star, then empty stars. */
  lemma StarsOrdered(value: real)
    ensures forall i, j | 0 <= i < j < 5 :: Rank(Stars(value)[i]) >= Rank(Stars(value)[j])
    ensures forall i, j | 0 <= i < j < 5 :: !(Stars(value)[i] == Half && Stars(value)[j] == Half)
  {
  }

  /** The first ⌊value⌋ slots are full (at most five), the rest are not. */
  lemma FullSlotsAreFloor(value: real)
    ensures forall k | 0 <= k < 5 :: Stars(value)[k] == Full <==> k < value.Floor
  {
  }

  /** For a non-negative value the number of full stars is min(5, ⌊value⌋). */
  lemma {:induction false} FullCount(value: real)
    requires value >= 0.0
    ensures CountOf(Stars(value), Full) == if value.Floor < 5 then value.Floor else 5
  {
    var r := Stars(value);
    FullSlotsAreFloor(value);
    assert r[1..][1..][1..][1..][1..] == [];
    assert CountOf(r[1..][1..][1..][1..], Full) == (if r[4] == Full then 1 else 0);
    assert CountOf(r[1..][1..][1..], Full) == (if r[3] == Full then 1 else 0) + (if r[4] == Full then 1 else 0);
    assert CountOf(r[1..][1..], Full) == (if r[2] == Full then 1 else 0) + CountOf(r[1..][1..][1..], Full);
    assert CountOf(r[1..], Full) == (if r[1] == Full then 1 else 0) + CountOf(r[1..][1..], Full);
  }

  /** 0 gives five empty stars, 5 five full stars, 4.5 four full stars and a half. */
  lemma Examples()
    ensures Stars(0.0) == [Empty, Empty, Empty, Empty, Empty]
    ensures Stars(5.0) == [Full, Full, Full, Full, Full]
    ensures Stars(4.5) == [Full, Full, Full, Full, Half]
  {
  }
}
