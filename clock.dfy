/** The clock resolver: the current time-of-day slot and the slots that are
    still ahead today, as functions of the wall-clock hour. */
module Clock {

  import opened Entities

  /** The three daily slots in chronological order. */
  const AllSlots: seq<TimeOfDay> := [Morning, Afternoon, Evening]

  /** The position of a slot in the day. */
  function Rank(t: TimeOfDay): (n: nat)
    ensures n < |AllSlots| && AllSlots[n] == t
  {
    match t
    case Morning => 0
    case Afternoon => 1
    case Evening => 2
  }

  /** `getCurrentTimeOfDay`: noon and six in the evening open the later slots. */
  function CurrentTimeOfDay(hour: Hour): (t: TimeOfDay)
    ensures t == Morning <==> hour < 12
    ensures t == Afternoon <==> 12 <= hour < 18
    ensures t == Evening <==> hour >= 18
  {
    if hour < 12 then Morning else if hour < 18 then Afternoon else Evening
  }

  /** The slots still to come today, the current one first. */
  function RemainingTimeSlots(hour: Hour): (r: seq<TimeOfDay>)
    ensures r == AllSlots[Rank(CurrentTimeOfDay(hour))..]
    ensures |r| == (if hour < 12 then 3 else if hour < 18 then 2 else 1)
    ensures r[0] == CurrentTimeOfDay(hour)
    ensures forall t :: t in r <==> Rank(t) >= Rank(CurrentTimeOfDay(hour))
  {
    if hour < 12 then [Morning, Afternoon, Evening]
    else if hour < 18 then [Afternoon, Evening]
    else [Evening]
  }

  /** As the day advances the remaining slots only shrink, from the front. */
  lemma RemainingSlotsShrink(earlier: Hour, later: Hour)
    requires earlier <= later
    ensures Rank(CurrentTimeOfDay(earlier)) <= Rank(CurrentTimeOfDay(later))
    ensures RemainingTimeSlots(later)
         == RemainingTimeSlots(earlier)[Rank(CurrentTimeOfDay(later)) - Rank(CurrentTimeOfDay(earlier))..]
  {
  }
}
