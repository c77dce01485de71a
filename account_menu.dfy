/** The settings dialog: the rank stepper, the rank slider and the default pot-capacity select. */
module AccountMenu {
  import opened Wrappers
  import opened Decimal
  import opened UserSettingsSchema

  /** The rank after pressing "+": unset counts as 0, and nothing happens at 60 or above. */
  function IncrementedRank(rank: Option<int>): (r: Option<int>)
    ensures r.Some? && r.value >= rank.GetOr(0)
    ensures rank.GetOr(0) <= MaxRank ==> r.value <= MaxRank
  {
    var current := rank.GetOr(0);
    if current < 60 then Some(current + 1) else rank
  }

  /** The rank after pressing "-": unset counts as 1, and at 1 or below the rank becomes unset. */
  function DecrementedRank(rank: Option<int>): (r: Option<int>)
    ensures r.Some? ==> MinRank <= r.value < rank.GetOr(1)
  {
    var current := rank.GetOr(1);
    if current > 1 then Some(current - 1) else None
  }

  /** The "-" button is disabled exactly when no rank is set. */
  predicate DecrementDisabled(rank: Option<int>) {
    rank == None
  }

  /** The "+" button is disabled exactly at rank 60. */
  predicate IncrementDisabled(rank: Option<int>) {
    rank == Some(60)
  }

  lemma IncrementSteps(r: int)
    ensures IncrementedRank(None) == Some(1)
    ensures r < 60 ==> IncrementedRank(Some(r)) == Some(r + 1)
    ensures IncrementedRank(Some(60)) == Some(60)
  {
  }

  lemma DecrementSteps(r: int)
    ensures r > 1 ==> DecrementedRank(Some(r)) == Some(r - 1)
    ensures DecrementedRank(Some(1)) == None
    ensures DecrementedRank(None) == None
  {
  }

  /** Both steps keep a valid rank valid. */
  lemma StepsPreserveValidRank(rank: Option<int>)
    requires ValidRank(rank)
    ensures ValidRank(IncrementedRank(rank))
    ensures ValidRank(DecrementedRank(rank))
  {
  }

  /** "-" undoes "+" everywhere except at the top rank, and "+" undoes "-" on every set rank. */
  lemma StepsUndoEachOther(rank: Option<int>)
    ensures rank.None? || 1 <= rank.value < 60 ==> DecrementedRank(IncrementedRank(rank)) == rank
    ensures rank.Some? && 1 <= rank.value <= 60 ==> IncrementedRank(DecrementedRank(rank)) == rank
  {
  }

  /** On a valid rank a button is disabled exactly when pressing it would change nothing. */
  lemma DisabledExactlyWhenNoEffect(rank: Option<int>)
    requires ValidRank(rank)
    ensures IncrementDisabled(rank) <==> IncrementedRank(rank) == rank
    ensures DecrementDisabled(rank) <==> DecrementedRank(rank) == rank
  {
  }

  /** The option string of the pot-capacity select for a setting: "" when unset. */
  function PotCapacityOption(potCapacity: Option<int>): (s: string)
    requires ValidPotCapacity(potCapacity)
    ensures s == "" <==> potCapacity.None?
    ensures s != "" ==> IsDecimal(s)
  {
    match potCapacity
    case None => ""
    case Some(c) => NatToString(c)
  }

  /** The setting chosen by an option string of the select: "" is unset, digits are their number. */
  function ParsePotCapacityOption(value: string): (r: Option<int>)
    requires value == "" || IsDecimal(value)
    ensures r.None? <==> value == ""
    ensures r.Some? ==> r.value >= 0
  {
    if value == "" then None else Some(ParseDecimal(value))
  }

  /** Choosing the option shown for a setting gives that setting back. */
  lemma PotCapacityOptionRoundTrip(potCapacity: Option<int>)
    requires ValidPotCapacity(potCapacity)
    ensures ParsePotCapacityOption(PotCapacityOption(potCapacity)) == potCapacity
  {
    if potCapacity.Some? {
      ParseNatToString(potCapacity.value);
    }
  }

  /** Different settings show as different options, so no two capacities share an option. */
  lemma PotCapacityOptionInjective(a: Option<int>, b: Option<int>)
    requires ValidPotCapacity(a) && ValidPotCapacity(b)
    requires PotCapacityOption(a) == PotCapacityOption(b)
    ensures a == b
  {
    if a.Some? && b.Some? {
      NatToStringInjective(a.value, b.value);
    }
  }

  /** The position of the rank slider: a set rank shows as itself, an unset one as 1. */
  function SliderPosition(rank: Option<int>): (p: int)
    ensures rank.None? ==> p == MinRank
    ensures rank.Some? ==> p == rank.value
    ensures ValidRank(rank) ==> MinRank <= p <= MaxRank
  {
    rank.GetOr(1)
  }

  /** The dialog's view of the saved settings. */
  class AccountMenu {
    var settings: UserSettings

    constructor (initial: UserSettings)
      ensures settings == initial
    {
      settings := initial;
    }

    /** `handleRankChange`: saves a new rank and keeps the pot capacity. */
    method HandleRankChange(value: Option<int>)
      modifies this
      ensures settings == old(settings).(rank := value)
    {
      settings := settings.(rank := value);
    }

    /** `handlePotCapacityChange`: saves a new default pot capacity and keeps the rank. */
    method HandlePotCapacityChange(value: Option<int>)
      modifies this
      ensures settings == old(settings).(potCapacity := value)
    {
      settings := settings.(potCapacity := value);
    }

    method IncrementRank()
      modifies this
      ensures settings == old(settings).(rank := IncrementedRank(old(settings.rank)))
      ensures ValidSettings(old(settings)) ==> ValidSettings(settings)
    {
      var current := settings.rank.GetOr(0);
      if current < 60 {
        HandleRankChange(Some(current + 1));
      }
    }

    method DecrementRank()
      modifies this
      ensures settings == old(settings).(rank := DecrementedRank(old(settings.rank)))
      ensures ValidSettings(old(settings)) ==> ValidSettings(settings)
    {
      var current := settings.rank.GetOr(1);
      if current > 1 {
        HandleRankChange(Some(current - 1));
      } else {
        HandleRankChange(None);
      }
    }

    /** Moving the slider saves the rank it was moved to. */
    method HandleRankSlider(value: string)
      requires IsDecimal(value)
      modifies this
      ensures settings == old(settings).(rank := Some(ParseDecimal(value)))
      ensures ValidSettings(old(settings)) && MinRank <= ParseDecimal(value) <= MaxRank ==> ValidSettings(settings)
    {
      HandleRankChange(Some(ParseDecimal(value)));
    }

    /** Picking an option of the pot-capacity select. */
    method HandlePotCapacitySelect(value: string)
      requires value == "" || IsDecimal(value)
      modifies this
      ensures settings == old(settings).(potCapacity := ParsePotCapacityOption(value))
    {
      HandlePotCapacityChange(if value == "" then None else Some(ParseDecimal(value)));
    }
  }
}
