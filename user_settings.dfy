/** The user-settings schema, its defaults and the preset tables it is built from. */
module UserSettingsSchema {
  import opened Wrappers
  import opened Decimal

  /** The saved settings; `None` stands for "not set". */
  datatype UserSettings = UserSettings(rank: Option<int>, potCapacity: Option<int>)

  const MinRank: int := 1
  const MaxRank: int := 60

  /** A research rank is unset or an integer from 1 to 60. */
  predicate ValidRank(rank: Option<int>) {
    rank.None? || MinRank <= rank.value <= MaxRank
  }

  /** A default pot capacity is unset or a positive integer. */
  predicate ValidPotCapacity(potCapacity: Option<int>) {
    potCapacity.None? || potCapacity.value > 0
  }

  /** What `UserSettingsSchema` accepts. */
  predicate ValidSettings(settings: UserSettings) {
    ValidRank(settings.rank) && ValidPotCapacity(settings.potCapacity)
  }

  const DefaultUserSettings: UserSettings := UserSettings(None, None)

  lemma DefaultSettingsValid()
    ensures DefaultUserSettings.rank.None? && DefaultUserSettings.potCapacity.None?
    ensures ValidSettings(DefaultUserSettings)
  {
  }

  datatype RankPreset = RankPreset(displayLabel: string, value: int)

  /** The rank bands offered for selection, ten ranks each. */
  const RankPresets: seq<RankPreset> := [
    RankPreset("ランク 1-10", 10),
    RankPreset("ランク 11-20", 20),
    RankPreset("ランク 21-30", 30),
    RankPreset("ランク 31-40", 40),
    RankPreset("ランク 41-50", 50),
    RankPreset("ランク 51-60", 60)
  ]

  /** The label of the band of ten ranks ending at `top`. */
  function RankBandLabel(top: nat): string
    requires top >= 10
  {
    "ランク " + NatToString(top - 9) + "-" + NatToString(top)
  }

  /** Band `i` ends at rank `10 * (i + 1)`, is labelled with its first and last rank, and ends at a valid rank. */
  lemma RankPresetsFollowPattern()
    ensures |RankPresets| == 6
    ensures forall i :: 0 <= i < |RankPresets| ==>
              RankPresets[i].value == 10 * (i + 1) &&
              ValidRank(Some(RankPresets[i].value)) &&
              RankPresets[i].displayLabel == RankBandLabel(RankPresets[i].value)
  {
    assert NatToString(1) == "1" && NatToString(11) == "11" && NatToString(21) == "21";
    assert NatToString(31) == "31" && NatToString(41) == "41" && NatToString(51) == "51";
    assert NatToString(10) == "10" && NatToString(20) == "20" && NatToString(30) == "30";
    assert NatToString(40) == "40" && NatToString(50) == "50" && NatToString(60) == "60";
  }

  /** A pot preset of the calculator utilities: its capacity and its label. */
  datatype CalculatorPotPreset = CalculatorPotPreset(value: int, displayLabel: string)

  /** `POT_CAPACITY_VALUES`: the capacities of the calculator presets, in their order. */
  function PotCapacityValues(presets: seq<CalculatorPotPreset>): (values: seq<int>)
    ensures |values| == |presets|
    ensures forall i :: 0 <= i < |presets| ==> values[i] == presets[i].value
    ensures values != [] <==> presets != []
  {
    seq(|presets|, i requires 0 <= i < |presets| => presets[i].value)
  }

  /** When every preset capacity is positive, every extracted value is a valid default pot capacity. */
  lemma PotCapacityValuesValid(presets: seq<CalculatorPotPreset>)
    requires forall i :: 0 <= i < |presets| ==> presets[i].value > 0
    ensures forall v :: v in PotCapacityValues(presets) ==> ValidPotCapacity(Some(v))
  {
  }
}
