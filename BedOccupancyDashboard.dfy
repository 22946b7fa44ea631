/** The bed occupancy dashboard (features/RunningRoom/Bookings/BedOccupancyDashboard.tsx):
    every occupancy status of the enums gets a colour by its position, each
    bed is coloured by its status, each room's border says whether all,
    none or some of its beds have the first status, and a clicked bed's
    details list its fields. */
module BedOccupancyDashboard {
  import opened Common
  import opened Seqs
  import opened BedOccupancyHook

  /** One entry of an enum list: a key and its label. */
  datatype EnumItem = EnumItem(key: string, labelText: string)

  const DefaultColor: string := "bg-green-500"

  /** The five colours the statuses cycle through. */
  const StatusColors: seq<string> := ["bg-green-500", "bg-gray-500", "bg-yellow-500", "bg-blue-400", "bg-gray-500"]

  function Keys(statuses: seq<EnumItem>): (r: seq<string>)
    ensures |r| == |statuses|
    ensures forall i :: 0 <= i < |statuses| ==> r[i] == statuses[i].key
  {
    seq(|statuses|, i requires 0 <= i < |statuses| => statuses[i].key)
  }

  /** `colors[index % colors.length] || defaultColor`. */
  function ColorAt(index: nat): (r: string)
    ensures r == StatusColors[index % 5]
  {
    var c := StatusColors[index % |StatusColors|];
    if c != "" then c else DefaultColor
  }

  /** The record `occupancyColors` should become: each key maps to the
      colour of its last position among the statuses. */
  function OccupancyColors(statuses: seq<EnumItem>): (m: map<string, string>)
    ensures forall k :: k in m <==> k in Keys(statuses)
    ensures forall k :: k in m ==> m[k] == StatusColors[LastIndex(Keys(statuses), k) % 5]
  {
    map k | k in Keys(statuses) :: ColorAt(LastIndex(Keys(statuses), k))
  }

  lemma OccupancyColorsStep(statuses: seq<EnumItem>, i: int)
    requires 0 <= i < |statuses|
    ensures OccupancyColors(statuses[..i + 1]) == OccupancyColors(statuses[..i])[statuses[i].key := ColorAt(i)]
  {
    var prefix := statuses[..i];
    assert statuses[..i + 1] == prefix + [statuses[i]];
    assert Keys(statuses[..i + 1]) == Keys(prefix) + [statuses[i].key];
    forall k | k in Keys(prefix)
      ensures LastIndex(Keys(statuses[..i + 1]), k) == (if k == statuses[i].key then i else LastIndex(Keys(prefix), k))
    {
      LastIndexAppend(Keys(prefix), statuses[i].key, k);
    }
    LastIndexAppend(Keys(prefix), statuses[i].key, statuses[i].key);
  }

  /** `enums?.occupancyStatus.forEach((status, index) => ...)`: no colours
      at all while the enums are absent. */
  method BuildOccupancyColors(occupancyStatus: Option<seq<EnumItem>>) returns (occupancyColors: map<string, string>)
    ensures occupancyStatus.None? ==> occupancyColors == map[]
    ensures occupancyStatus.Some? ==> occupancyColors == OccupancyColors(occupancyStatus.value)
  {
    occupancyColors := map[];
    if occupancyStatus.None? {
      return;
    }
    var statuses := occupancyStatus.value;
    var index := 0;
    while index < |statuses|
      invariant 0 <= index <= |statuses|
      invariant occupancyColors == OccupancyColors(statuses[..index])
    {
      OccupancyColorsStep(statuses, index);
      occupancyColors := occupancyColors[statuses[index].key := ColorAt(index)];
      index := index + 1;
    }
    assert statuses[..|statuses|] == statuses;
  }

  /** The status at position i, when no later status repeats its key, is
      coloured `colors[i % 5]`; a repeated key takes the later colour. The
      mapping is not one to one: positions 1 and 4 are both grey. */
  lemma StatusColourByPosition(statuses: seq<EnumItem>, i: int)
    requires 0 <= i < |statuses|
    ensures (forall j :: i < j < |statuses| ==> statuses[j].key != statuses[i].key) ==>
      OccupancyColors(statuses)[statuses[i].key] == StatusColors[i % 5]
    ensures forall j :: i < j < |statuses| && statuses[j].key == statuses[i].key ==>
      OccupancyColors(statuses)[statuses[i].key] == StatusColors[LastIndex(Keys(statuses), statuses[i].key) % 5]
      && i < LastIndex(Keys(statuses), statuses[i].key)
    ensures StatusColors[1] == StatusColors[4] == "bg-gray-500"
  {
    var keys := Keys(statuses);
    assert keys[i] == statuses[i].key;
    if forall j :: i < j < |statuses| ==> statuses[j].key != statuses[i].key {
      assert LastIndex(keys, statuses[i].key) == i;
    }
  }

  /** `getBedColor`: the default for a missing or empty status or one
      without a colour, else the status's colour. */
  function BedColor(occupancyColors: map<string, string>, status: Option<string>): (r: string)
    ensures !IsTruthy(status) ==> r == DefaultColor
    ensures IsTruthy(status) && status.value in occupancyColors && occupancyColors[status.value] != "" ==>
      r == occupancyColors[status.value]
    ensures IsTruthy(status) && status.value !in occupancyColors ==> r == DefaultColor
  {
    if !IsTruthy(status) then DefaultColor
    else if status.value in occupancyColors && occupancyColors[status.value] != "" then occupancyColors[status.value]
    // A mapped but empty colour also falls back; it does not arise, since
    // every colour the record receives is a non-empty palette entry.
    else DefaultColor
  }

  /** A bed whose status is one of the enums' keys gets that key's palette
      colour; with the enums absent every bed gets the default. */
  lemma BedColorOfKnownStatus(statuses: seq<EnumItem>, status: string)
    requires status != "" && status in Keys(statuses)
    ensures BedColor(OccupancyColors(statuses), Some(status)) == StatusColors[LastIndex(Keys(statuses), status) % 5]
    ensures BedColor(map[], Some(status)) == DefaultColor
  {
  }

  /** The beds whose status is the key. */
  predicate AllHave(beds: seq<Bed>, key: string)
  {
    forall i :: 0 <= i < |beds| ==> beds[i].occupancyStatus == key
  }

  predicate NoneHave(beds: seq<Bed>, key: string)
  {
    forall i :: 0 <= i < |beds| ==> beds[i].occupancyStatus != key
  }

  /** `getRoomColor`: grey while the enums are absent; otherwise the first
      status is "available" and the border is green when every bed is
      available, grey when none is and light green when some are. Reading
      `occupancyStatus[0].key` throws when there are beds but no statuses. */
  function RoomColor(occupancyStatus: Option<seq<EnumItem>>, beds: seq<Bed>): (r: Throws<string>)
    ensures occupancyStatus.None? ==> r == Value("border-gray-300")
    ensures occupancyStatus.Some? && beds == [] ==> r == Value("border-green-500")
    ensures r.TypeError? <==> occupancyStatus.Some? && occupancyStatus.value == [] && beds != []
    ensures occupancyStatus.Some? && occupancyStatus.value != [] ==>
      var first := occupancyStatus.value[0].key;
      (r == Value("border-green-500") <==> forall i :: 0 <= i < |beds| ==> beds[i].occupancyStatus == first)
      && (r == Value("border-gray-500") <==>
            beds != [] && forall i :: 0 <= i < |beds| ==> beds[i].occupancyStatus != first)
      && (r == Value("border-green-300") <==>
            (exists i :: 0 <= i < |beds| && beds[i].occupancyStatus == first)
            && (exists i :: 0 <= i < |beds| && beds[i].occupancyStatus != first))
  {
    if occupancyStatus.None? then Value("border-gray-300")
    else if beds == [] then Value("border-green-500")
    else if occupancyStatus.value == [] then TypeError
    else
      var first := occupancyStatus.value[0].key;
      assert AllHave(beds, first) ==> beds[0].occupancyStatus == first;
      if AllHave(beds, first) then Value("border-green-500")
      else if NoneHave(beds, first) then Value("border-gray-500")
      else Value("border-green-300")
  }

  /** The Rest Hours line of the details dialog, shown when `restHours !==
      undefined`. */
  function RestHoursLine(bed: Bed): (r: Option<int>)
    ensures r.Some? <==> bed.restHours.Some?
  {
    bed.restHours
  }

  /** The dialog tests `restHours !== undefined` so as to show zero, but the
      hook has already turned a zero into `undefined`: a bed that reports 0
      rest hours never shows the line. */
  lemma ZeroRestHoursNeverShown(reply: RoomOccupancy, room: string, i: int)
    requires room in reply && 0 <= i < |reply[room]| && reply[room][i].restHours == Some(0)
    ensures RestHoursLine(NormalizedRooms(reply)[room][i]).None?
  {
  }
}
