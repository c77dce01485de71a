/** The pot-capacity presets: one per pot level. */
module PotCapacity {
  import opened Decimal

  datatype PotCapacityPreset = PotCapacityPreset(level: int, capacity: int, displayLabel: string)

  const PotCapacityPresets: seq<PotCapacityPreset> := [
    PotCapacityPreset(1, 15, "Lv.1 (15)"),
    PotCapacityPreset(2, 21, "Lv.2 (21)"),
    PotCapacityPreset(3, 27, "Lv.3 (27)"),
    PotCapacityPreset(4, 33, "Lv.4 (33)"),
    PotCapacityPreset(5, 39, "Lv.5 (39)"),
    PotCapacityPreset(6, 45, "Lv.6 (45)"),
    PotCapacityPreset(7, 51, "Lv.7 (51)"),
    PotCapacityPreset(8, 57, "Lv.8 (57)")
  ]

  /** The label a preset with this level and capacity is shown with. */
  function PresetLabel(level: nat, capacity: nat): string {
    "Lv." + NatToString(level) + " (" + NatToString(capacity) + ")"
  }

  /** Level `i + 1` holds `15 + 6 * i` ingredients, for the eight levels in order. */
  lemma PresetsFollowPattern()
    ensures |PotCapacityPresets| == 8
    ensures forall i :: 0 <= i < 8 ==>
              PotCapacityPresets[i].level == i + 1 &&
              PotCapacityPresets[i].capacity == 15 + 6 * (PotCapacityPresets[i].level - 1)
  {
  }

  lemma PresetLabelsSpellLevelAndCapacity()
    ensures forall i :: 0 <= i < |PotCapacityPresets| ==>
              PotCapacityPresets[i].level > 0 && PotCapacityPresets[i].capacity > 0 &&
              PotCapacityPresets[i].displayLabel ==
                PresetLabel(PotCapacityPresets[i].level, PotCapacityPresets[i].capacity)
  {
    assert NatToString(15) == "15" && NatToString(21) == "21" && NatToString(27) == "27";
    assert NatToString(33) == "33" && NatToString(39) == "39" && NatToString(45) == "45";
    assert NatToString(51) == "51" && NatToString(57) == "57";
  }

  /** Capacities strictly increase with the level, so no two presets share one. */
  lemma CapacitiesStrictlyIncrease()
    ensures forall i, j :: 0 <= i < j < |PotCapacityPresets| ==>
              PotCapacityPresets[i].capacity < PotCapacityPresets[j].capacity
    ensures forall i, j :: 0 <= i < |PotCapacityPresets| && 0 <= j < |PotCapacityPresets| ==>
              PotCapacityPresets[i].capacity == PotCapacityPresets[j].capacity ==> i == j
  {
    PresetsFollowPattern();
  }

  /** The label determines the preset. */
  lemma LabelsDistinct()
    ensures forall i, j :: 0 <= i < |PotCapacityPresets| && 0 <= j < |PotCapacityPresets| ==>
              PotCapacityPresets[i].displayLabel == PotCapacityPresets[j].displayLabel ==> i == j
  {
    forall i, j | 0 <= i < |PotCapacityPresets| && 0 <= j < |PotCapacityPresets| &&
                  PotCapacityPresets[i].displayLabel == PotCapacityPresets[j].displayLabel
      ensures i == j
    {
      assert PotCapacityPresets[i].displayLabel[3] == PotCapacityPresets[j].displayLabel[3];
    }
  }
}
