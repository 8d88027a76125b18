/** The catalogue of bookable 15-minute slots the patient dashboard builds
    for a clinic day (`generateTimeSlots` and its inner `addSlots`). */
module Slots {
  import opened Common

  /** `${h}:${m}` as the loop forms it: the hour is zero-padded below 10 and
      a zero minute is written "00"; other values are printed as they are. */
  function SlotLabel(hour: nat, minute: nat): string
  {
    (if hour < 10 then "0" + NatToString(hour) else NatToString(hour))
    + ":" + (if minute == 0 then "00" else NatToString(minute))
  }

  /** The four slots of one hour, in the order the inner loop pushes them. */
  function HourSlots(hour: nat): seq<string>
  {
    [SlotLabel(hour, 0), SlotLabel(hour, 15), SlotLabel(hour, 30), SlotLabel(hour, 45)]
  }

  /** Reference definition of `addSlots(startHour, endHour)`: the slots of the
      hours from `startHour` up to, not including, `endHour`. */
  function Catalogue(startHour: nat, endHour: nat): seq<string>
    decreases endHour
  {
    if endHour <= startHour then [] else Catalogue(startHour, endHour - 1) + HourSlots(endHour - 1)
  }

  /** The calendar value of an "HH:MM" string, in minutes after midnight;
      `None` for anything else. */
  function ParseSlot(s: string): Option<nat>
  {
    if |s| == 5 && IsDigit(s[0]) && IsDigit(s[1]) && s[2] == ':' && IsDigit(s[3]) && IsDigit(s[4]) then
      Some(60 * (10 * DigitValue(s[0]) + DigitValue(s[1])) + 10 * DigitValue(s[3]) + DigitValue(s[4]))
    else
      None
  }

  predicate IsQuarter(minute: nat)
  {
    minute == 0 || minute == 15 || minute == 30 || minute == 45
  }

  /** Shape of one slot: five characters "HH:MM", a leading "0" below ten
      o'clock, a minute part of "00", "15", "30" or "45", and it reads back
      as the time it was built from. */
  lemma SlotLabelShape(hour: nat, minute: nat)
    requires hour < 100 && IsQuarter(minute)
    ensures var s := SlotLabel(hour, minute);
      && |s| == 5 && s[2] == ':'
      && (hour < 10 ==> s[0] == '0')
      && s[3..] in {"00", "15", "30", "45"}
      && ParseSlot(s) == Some(60 * hour + minute)
  {
    var s := SlotLabel(hour, minute);
    var hh := if hour < 10 then "0" + NatToString(hour) else NatToString(hour);
    var mm := if minute == 0 then "00" else NatToString(minute);
    if hour >= 10 {
      assert NatToString(hour) == NatToString(hour / 10) + [DigitChar(hour % 10)];
      assert NatToString(hour / 10) == [DigitChar(hour / 10)];
    }
    assert |hh| == 2 && 10 * DigitValue(hh[0]) + DigitValue(hh[1]) == hour;
    if minute != 0 {
      assert NatToString(minute) == NatToString(minute / 10) + [DigitChar(minute % 10)];
      assert NatToString(minute / 10) == [DigitChar(minute / 10)];
    }
    assert |mm| == 2 && 10 * DigitValue(mm[0]) + DigitValue(mm[1]) == minute;
    assert mm == "00" || mm == "15" || mm == "30" || mm == "45" by {
      if minute == 15 { assert mm == [DigitChar(1), DigitChar(5)]; }
      else if minute == 30 { assert mm == [DigitChar(3), DigitChar(0)]; }
      else if minute == 45 { assert mm == [DigitChar(4), DigitChar(5)]; }
    }
    assert s == hh + ":" + mm;
    assert s[3..] == mm;
  }

  lemma {:induction false} CatalogueLength(startHour: nat, endHour: nat)
    ensures |Catalogue(startHour, endHour)| == if endHour <= startHour then 0 else 4 * (endHour - startHour)
    decreases endHour
  {
    if endHour > startHour {
      CatalogueLength(startHour, endHour - 1);
    }
  }

  /** Slot `i` of the catalogue is minute `15 * (i % 4)` of hour `startHour + i / 4`. */
  lemma CatalogueAt(startHour: nat, endHour: nat, i: nat)
    requires startHour < endHour && i < 4 * (endHour - startHour)
    ensures |Catalogue(startHour, endHour)| == 4 * (endHour - startHour)
    ensures Catalogue(startHour, endHour)[i] == SlotLabel(startHour + i / 4, 15 * (i % 4))
  {
    var q, k := i / 4, i % 4;
    assert i == 4 * q + k;
    CatalogueQuarter(startHour, endHour, q, k);
    HourSlotsAt(startHour + q, k);
  }

  /** Quarter `k` of an hour's slots is minute `15 * k`. */
  lemma HourSlotsAt(hour: nat, k: nat)
    requires k < 4
    ensures HourSlots(hour)[k] == SlotLabel(hour, 15 * k)
  {
    if k == 0 {} else if k == 1 {} else if k == 2 {} else {}
  }

  /** Quarter `k` of the `q`-th hour sits at position `4 * q + k`. */
  lemma {:induction false} CatalogueQuarter(startHour: nat, endHour: nat, q: nat, k: nat)
    requires startHour + q < endHour && k < 4
    ensures |Catalogue(startHour, endHour)| == 4 * (endHour - startHour)
    ensures Catalogue(startHour, endHour)[4 * q + k] == HourSlots(startHour + q)[k]
    decreases endHour
  {
    CatalogueLength(startHour, endHour);
    CatalogueLength(startHour, endHour - 1);
    var prefix := Catalogue(startHour, endHour - 1);
    assert Catalogue(startHour, endHour) == prefix + HourSlots(endHour - 1);
    if startHour + q < endHour - 1 {
      CatalogueQuarter(startHour, endHour - 1, q, k);
      assert Catalogue(startHour, endHour)[4 * q + k] == prefix[4 * q + k];
    } else {
      assert |prefix| == 4 * q;
    }
  }

  /** Every slot of a catalogue that ends by hour 100 reads back as
      `startHour` o'clock plus 15 minutes per position, so the catalogue is
      strictly ascending in time, spaced by 15 minutes. */
  lemma CatalogueTimes(startHour: nat, endHour: nat, i: nat)
    requires startHour < endHour <= 100 && i < 4 * (endHour - startHour)
    ensures |Catalogue(startHour, endHour)| == 4 * (endHour - startHour)
    ensures |Catalogue(startHour, endHour)[i]| == 5
    ensures ParseSlot(Catalogue(startHour, endHour)[i]) == Some(60 * startHour + 15 * i)
  {
    CatalogueAt(startHour, endHour, i);
    PositionTime(startHour + i / 4, 15 * (i % 4), startHour, i);
  }

  lemma PositionTime(hour: nat, minute: nat, startHour: nat, i: nat)
    requires hour == startHour + i / 4 && minute == 15 * (i % 4) && hour < 100
    ensures |SlotLabel(hour, minute)| == 5
    ensures ParseSlot(SlotLabel(hour, minute)) == Some(60 * startHour + 15 * i)
  {
    QuarterSteps(startHour, i);
    SlotLabelShape(hour, minute);
  }

  lemma QuarterSteps(startHour: nat, i: nat)
    ensures 60 * (startHour + i / 4) + 15 * (i % 4) == 60 * startHour + 15 * i
  {
    var q, r := i / 4, i % 4;
    assert i == 4 * q + r;
    calc {
      60 * (startHour + q) + 15 * r;
      60 * startHour + 15 * (4 * q + r);
      60 * startHour + 15 * i;
    }
  }

  /** No slot occurs twice: two positions hold different labels. */
  lemma CatalogueDistinct(startHour: nat, endHour: nat, i: nat, j: nat)
    requires startHour < endHour <= 100 && i < j < 4 * (endHour - startHour)
    ensures |Catalogue(startHour, endHour)| == 4 * (endHour - startHour)
    ensures Catalogue(startHour, endHour)[i] != Catalogue(startHour, endHour)[j]
  {
    CatalogueTimes(startHour, endHour, i);
    CatalogueTimes(startHour, endHour, j);
    var c := Catalogue(startHour, endHour);
    ReadsDiffer(c[i], c[j]);
  }

  /** Labels that read back as different times are different labels. */
  lemma ReadsDiffer(a: string, b: string)
    requires ParseSlot(a) != ParseSlot(b)
    ensures a != b
  {
  }

  /** `addSlots(startHour, endHour)`: the nested loops over hours and
      quarter hours pushing each label. */
  method AddSlots(startHour: nat, endHour: nat) returns (slots: seq<string>)
    ensures slots == Catalogue(startHour, endHour)
  {
    slots := [];
    var hour := startHour;
    while hour < endHour
      invariant startHour <= hour
      invariant startHour < endHour ==> hour <= endHour
      invariant endHour <= startHour ==> hour == startHour
      invariant slots == Catalogue(startHour, hour)
    {
      var minute := 0;
      while minute < 60
        invariant minute in {0, 15, 30, 45, 60}
        invariant slots == Catalogue(startHour, hour) + HourSlots(hour)[..minute / 15]
      {
        slots := slots + [SlotLabel(hour, minute)];
        minute := minute + 15;
      }
      hour := hour + 1;
    }
  }

  /** `generateTimeSlots()`: the 09:00 to 17:00 catalogue, 32 slots from
      "09:00" to "16:45", each "HH:MM", strictly ascending in time and hence
      free of duplicates. */
  method GenerateTimeSlots() returns (slots: seq<string>)
    ensures slots == Catalogue(9, 17)
    ensures |slots| == 32 && slots[0] == "09:00" && slots[31] == "16:45"
    ensures forall i :: 0 <= i < |slots| ==> |slots[i]| == 5 && ParseSlot(slots[i]) == Some(540 + 15 * i)
    ensures forall i, j :: 0 <= i < j < |slots| ==> slots[i] != slots[j]
  {
    slots := AddSlots(9, 17);
    CatalogueLength(9, 17);
    forall i | 0 <= i < |slots|
      ensures |slots[i]| == 5 && ParseSlot(slots[i]) == Some(540 + 15 * i)
    {
      CatalogueTimes(9, 17, i);
    }
    forall i, j | 0 <= i < j < |slots|
      ensures slots[i] != slots[j]
    {
      CatalogueDistinct(9, 17, i, j);
    }
    BusinessDayEnds();
  }

  /** The 09:00 to 17:00 catalogue opens with "09:00" and closes with "16:45". */
  lemma BusinessDayEnds()
    ensures |Catalogue(9, 17)| == 32
    ensures Catalogue(9, 17)[0] == "09:00" && Catalogue(9, 17)[31] == "16:45"
  {
    CatalogueAt(9, 17, 0);
    CatalogueAt(9, 17, 31);
    OpeningLabel();
    ClosingLabel();
  }

  lemma OpeningLabel()
    ensures SlotLabel(9, 0) == "09:00"
  {
    assert SlotLabel(9, 0) == "0" + [DigitChar(9)] + ":" + "00";
  }

  lemma ClosingLabel()
    ensures SlotLabel(16, 45) == "16:45"
  {
    assert NatToString(16) == NatToString(1) + [DigitChar(6)];
    assert NatToString(45) == NatToString(4) + [DigitChar(5)];
    assert SlotLabel(16, 45) == [DigitChar(1), DigitChar(6)] + ":" + [DigitChar(4), DigitChar(5)];
  }
}
