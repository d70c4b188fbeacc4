/** The bike-selection screen (components/BookingScreen.tsx): toggling bikes in and
    out of a selection of at most three, rewriting the bike statuses to agree with
    the selection, the price for the party, the seat rows and the confirm button. */
module BookingScreen {
  import opened Types
  import opened Collections

  const MaxSelectedBikes := 3

  /** Bikes that cannot be clicked: taken or under maintenance. */
  predicate Blocked(b: Bike)
  {
    b.status == Taken || b.status == Maintenance
  }

  /** `bikes.find(b => b.id === bikeId)`. */
  function FindBike(bikes: seq<Bike>, bikeId: string): Option<Bike>
  {
    Find(bikes, (b: Bike) => b.id == bikeId)
  }

  /** The selection after a click on `bikeId`, or None where the handler returns
      early and changes nothing. */
  function ToggleSelection(bikes: seq<Bike>, selected: seq<string>, bikeId: string): Option<seq<string>>
  {
    match FindBike(bikes, bikeId)
    case None => None
    case Some(bike) =>
      if Blocked(bike) then None
      else if bikeId in selected then Some(Filter(selected, (id: string) => id != bikeId))
      else if |selected| < MaxSelectedBikes then Some(selected + [bikeId])
      else None
  }

  /** The status a bike is given once the selection is `sel`. */
  function Refresh(b: Bike, sel: seq<string>): Bike
  {
    if Blocked(b) then b
    else if b.id in sel then b.(status := Selected)
    else b.(status := Available)
  }

  /** The rewritten bike list handed to `onBikesChange`. */
  function ApplySelection(bikes: seq<Bike>, sel: seq<string>): seq<Bike>
  {
    seq(|bikes|, i requires 0 <= i < |bikes| => Refresh(bikes[i], sel))
  }

  /** A click that does not return early keeps the selection free of duplicates and
      within three bikes, and the selection only ever gains the clicked id. */
  lemma ToggleKeepsSelectionValid(bikes: seq<Bike>, selected: seq<string>, bikeId: string)
    requires |selected| <= MaxSelectedBikes && DistinctKeys(selected, (id: string) => id)
    ensures match ToggleSelection(bikes, selected, bikeId)
      case None => true
      case Some(s) =>
        |s| <= MaxSelectedBikes && DistinctKeys(s, (id: string) => id) &&
        forall i :: 0 <= i < |s| ==> s[i] in selected || s[i] == bikeId
  {
    if bikeId in selected {
      FilterDistinctKeys(selected, (id: string) => id != bikeId, (id: string) => id);
    }
  }

  /** What a click does, case by case: an absent, taken or maintenance bike, or a fourth
      bike, is a no-op; a selected bike is dropped (and nothing else is); any other bike
      is appended at the end. */
  lemma ToggleCases(bikes: seq<Bike>, selected: seq<string>, bikeId: string)
    ensures var found := FindBike(bikes, bikeId);
      ToggleSelection(bikes, selected, bikeId).None? <==>
        found.None? || Blocked(found.value) || (bikeId !in selected && |selected| >= MaxSelectedBikes)
    ensures var found := FindBike(bikes, bikeId);
      found.Some? && !Blocked(found.value) && bikeId in selected ==>
        var s := ToggleSelection(bikes, selected, bikeId).value;
        bikeId !in s && IsSubsequence(s, selected) &&
        forall i :: 0 <= i < |selected| && selected[i] != bikeId ==> selected[i] in s
    ensures var found := FindBike(bikes, bikeId);
      found.Some? && !Blocked(found.value) && bikeId !in selected && |selected| < MaxSelectedBikes ==>
        ToggleSelection(bikes, selected, bikeId) == Some(selected + [bikeId])
  {
    FilterIsSubsequence(selected, (id: string) => id != bikeId);
  }

  /** After a click every bike agrees with the selection: taken and maintenance bikes
      keep their status, selected ids show `selected`, the rest `available`; ids and
      order are untouched. The rewrite depends only on the selection, so a later
      rewrite overrides an earlier one. */
  lemma ApplySelectionSpec(bikes: seq<Bike>, sel: seq<string>, sel': seq<string>)
    ensures var r := ApplySelection(bikes, sel);
      |r| == |bikes| &&
      (forall i :: 0 <= i < |r| ==> r[i].id == bikes[i].id) &&
      (forall i :: 0 <= i < |r| && Blocked(bikes[i]) ==> r[i] == bikes[i]) &&
      (forall i :: 0 <= i < |r| && !Blocked(bikes[i]) ==>
         (r[i].status == Selected <==> bikes[i].id in sel) &&
         (r[i].status == Available <==> bikes[i].id !in sel))
    ensures ApplySelection(ApplySelection(bikes, sel), sel') == ApplySelection(bikes, sel')
  {
  }

  predicate IsSelectedBike(b: Bike)
  {
    b.status == Selected
  }

  /** The rewrite keeps every id, so distinct ids stay distinct, and a bike shows
      `selected` only when its id is in the selection. */
  lemma ApplySelectionIds(bikes: seq<Bike>, sel: seq<string>)
    requires DistinctKeys(bikes, (b: Bike) => b.id)
    ensures DistinctKeys(ApplySelection(bikes, sel), (b: Bike) => b.id)
    ensures forall i :: 0 <= i < |bikes| && IsSelectedBike(ApplySelection(bikes, sel)[i]) ==>
      ApplySelection(bikes, sel)[i].id in sel
  {
  }

  /** With distinct bike ids, no more bikes show `selected` than there are ids in the
      selection; so after any click at most three bikes are shown selected. */
  lemma SelectedBikesBounded(bikes: seq<Bike>, sel: seq<string>)
    requires DistinctKeys(bikes, (b: Bike) => b.id)
    ensures |Filter(ApplySelection(bikes, sel), IsSelectedBike)| <= |sel|
  {
    var r := ApplySelection(bikes, sel);
    var shown := Filter(r, IsSelectedBike);
    ApplySelectionIds(bikes, sel);
    FilterDistinctKeys(r, IsSelectedBike, (b: Bike) => b.id);
    forall i | 0 <= i < |shown|
      ensures shown[i].id in sel
    {
      var k :| 0 <= k < |r| && r[k] == shown[i];
    }
    DistinctKeysBound(shown, (b: Bike) => b.id, sel);
  }

  /** The booking screen's total: the per-person price times the party size for one,
      two or three riders, and 0 for any other count. */
  function TotalPrice(count: int, pricing: Pricing): (total: real)
    ensures !(1 <= count <= 3) ==> total == 0.0
    ensures 1 <= count <= 3 ==>
      total == count as real * (if count == 1 then pricing.individual
                                else if count == 2 then pricing.group2 else pricing.group3)
  {
    if count == 1 then pricing.individual
    else if count == 2 then pricing.group2 * 2.0
    else if count == 3 then pricing.group3 * 3.0
    else 0.0
  }

  // Seat rows

  const RowPatterns: seq<int> := [4, 3, 4, 3, 4]

  /** `rowPatterns[patternIndex % rowPatterns.length] || 4`. */
  function RowSize(patternIndex: nat): (n: int)
    ensures 3 <= n <= 4
  {
    var v := RowPatterns[patternIndex % |RowPatterns|];
    if v != 0 then v else 4
  }

  /** The row size is the pattern entry itself, so the `|| 4` fallback never applies:
      rows of 4, 3, 4, 3, 4 repeat. */
  lemma RowSizeSpec(patternIndex: nat)
    ensures RowSize(patternIndex) == RowPatterns[patternIndex % |RowPatterns|]
    ensures RowSize(patternIndex) == if patternIndex % 5 == 1 || patternIndex % 5 == 3 then 3 else 4
  {
  }

  function Ids(bikes: seq<Bike>): (ids: seq<string>)
    ensures |ids| == |bikes| && forall i :: 0 <= i < |bikes| ==> ids[i] == bikes[i].id
  {
    seq(|bikes|, i requires 0 <= i < |bikes| => bikes[i].id)
  }

  function Min(a: int, b: int): int
  {
    if a <= b then a else b
  }

  /** The rows cut from `ids` when the first row uses pattern entry `patternIndex`. */
  function Rows(ids: seq<string>, patternIndex: nat): seq<seq<string>>
    decreases |ids|
  {
    if ids == [] then []
    else
      var n := Min(RowSize(patternIndex), |ids|);
      [ids[..n]] + Rows(ids[n..], patternIndex + 1)
  }

  function Flatten(rows: seq<seq<string>>): seq<string>
  {
    if rows == [] then [] else rows[0] + Flatten(rows[1..])
  }

  /** Reading the rows left to right, top to bottom gives back the ids in order. */
  lemma {:induction false} RowsFlatten(ids: seq<string>, patternIndex: nat)
    ensures Flatten(Rows(ids, patternIndex)) == ids
    decreases |ids|
  {
    if ids != [] {
      var n := Min(RowSize(patternIndex), |ids|);
      RowsFlatten(ids[n..], patternIndex + 1);
      assert Rows(ids, patternIndex)[1..] == Rows(ids[n..], patternIndex + 1);
      assert ids == ids[..n] + ids[n..];
    }
  }

  /** Row k is non-empty and has at most the size its pattern entry gives, and
      exactly that size unless it is the last row. */
  lemma {:induction false} RowAt(ids: seq<string>, patternIndex: nat, k: nat)
    requires k < |Rows(ids, patternIndex)|
    ensures 0 < |Rows(ids, patternIndex)[k]| <= RowSize(patternIndex + k)
    ensures k < |Rows(ids, patternIndex)| - 1 ==> |Rows(ids, patternIndex)[k]| == RowSize(patternIndex + k)
    decreases k
  {
    var n := Min(RowSize(patternIndex), |ids|);
    var tail := Rows(ids[n..], patternIndex + 1);
    assert Rows(ids, patternIndex) == [ids[..n]] + tail;
    if k > 0 {
      RowAt(ids[n..], patternIndex + 1, k - 1);
      assert patternIndex + 1 + (k - 1) == patternIndex + k;
    } else if tail != [] {
      assert ids[n..] != [];
    }
  }

  /** Every row is non-empty and has at most the size its pattern entry gives; only
      the last row may fall short of it. */
  lemma RowsSizes(ids: seq<string>, patternIndex: nat)
    ensures var rows := Rows(ids, patternIndex);
      (forall k :: 0 <= k < |rows| ==> 0 < |rows[k]| <= RowSize(patternIndex + k)) &&
      (forall k :: 0 <= k < |rows| - 1 ==> |rows[k]| == RowSize(patternIndex + k))
  {
    forall k | 0 <= k < |Rows(ids, patternIndex)| {
      RowAt(ids, patternIndex, k);
    }
  }

  /** The ids from index i on, or nothing once i has run past the end. */
  function Drop(ids: seq<string>, i: nat): seq<string>
  {
    if i < |ids| then ids[i..] else []
  }

  /** One turn of the layout loop: the next row is `ids.slice(i, i + rowSize)`, and
      appending it to the rows cut so far keeps them a prefix of all the rows. */
  lemma RowsStep(ids: seq<string>, i: nat, patternIndex: nat, done: seq<seq<string>>)
    requires i < |ids|
    ensures done + [ids[i..Min(i + RowSize(patternIndex), |ids|)]] + Rows(Drop(ids, i + RowSize(patternIndex)), patternIndex + 1)
         == done + Rows(Drop(ids, i), patternIndex)
  {
    var rest := ids[i..];
    var n := Min(RowSize(patternIndex), |rest|);
    var row := ids[i..Min(i + RowSize(patternIndex), |ids|)];
    assert rest[..n] == row;
    assert rest[n..] == Drop(ids, i + RowSize(patternIndex));
    assert Rows(rest, patternIndex) == [row] + Rows(Drop(ids, i + RowSize(patternIndex)), patternIndex + 1);
  }

  /** The `bikeLayout` loop: cut the bike ids into rows of 4, 3, 4, 3, 4, 4, 3, ... */
  method BikeLayout(bikes: seq<Bike>) returns (layout: seq<seq<string>>)
    ensures layout == Rows(Ids(bikes), 0)
    ensures Flatten(layout) == Ids(bikes)
  {
    var bikeIds := Ids(bikes);
    layout := [];
    var i := 0;
    var patternIndex := 0;
    while i < |bikeIds|
      invariant patternIndex == |layout|
      invariant layout + Rows(Drop(bikeIds, i), patternIndex) == Rows(bikeIds, 0)
      decreases |bikeIds| - i
    {
      var rowSize := RowSize(patternIndex);
      var row := bikeIds[i..Min(i + rowSize, |bikeIds|)];
      RowsStep(bikeIds, i, patternIndex, layout);
      layout := layout + [row];
      i := i + rowSize;
      patternIndex := patternIndex + 1;
    }
    assert Drop(bikeIds, i) == [];
    RowsFlatten(bikeIds, 0);
  }

  /** The screen's own state: the ids picked so far, in click order. */
  class BikeSelection {
    var selectedBikes: seq<string>

    ghost predicate Valid()
      reads this
    {
      |selectedBikes| <= MaxSelectedBikes && DistinctKeys(selectedBikes, (id: string) => id)
    }

    constructor ()
      ensures Valid() && selectedBikes == []
    {
      selectedBikes := [];
    }

    /** `partySize`. */
    function PartySize(): int
      reads this
    {
      |selectedBikes|
    }

    /** `handleSelectBike`: update the selection and return the bike list passed to
        `onBikesChange`, or None when the handler returns without calling it. */
    method SelectBike(bikes: seq<Bike>, bikeId: string) returns (bikesChange: Option<seq<Bike>>)
      requires Valid()
      modifies this
      ensures Valid()
      ensures ToggleSelection(bikes, old(selectedBikes), bikeId).None? ==>
        selectedBikes == old(selectedBikes) && bikesChange.None?
      ensures ToggleSelection(bikes, old(selectedBikes), bikeId).Some? ==>
        selectedBikes == ToggleSelection(bikes, old(selectedBikes), bikeId).value &&
        bikesChange == Some(ApplySelection(bikes, selectedBikes))
    {
      ToggleKeepsSelectionValid(bikes, selectedBikes, bikeId);
      var bike := FindBike(bikes, bikeId);
      if bike.None? || bike.value.status == Taken || bike.value.status == Maintenance {
        return None;
      }
      var isSelected := bikeId in selectedBikes;
      var newSelectedBikes := selectedBikes;
      if isSelected {
        newSelectedBikes := Filter(newSelectedBikes, (id: string) => id != bikeId);
      } else {
        if |selectedBikes| < MaxSelectedBikes {
          newSelectedBikes := newSelectedBikes + [bikeId];
        } else {
          return None;
        }
      }
      selectedBikes := newSelectedBikes;
      bikesChange := Some(ApplySelection(bikes, newSelectedBikes));
    }

    /** The confirm button: calls `onConfirm(selectedBikes, partySize)` only when at
        least one bike is selected. */
    method Confirm() returns (confirmed: Option<BookingDetails>)
      ensures confirmed.Some? <==> |selectedBikes| > 0
      ensures confirmed.Some? ==> confirmed.value.bikeIds == selectedBikes &&
                                  confirmed.value.partySize == |selectedBikes|
    {
      var partySize := |selectedBikes|;
      if partySize > 0 {
        confirmed := Some(BookingDetails(selectedBikes, partySize));
      } else {
        confirmed := None;
      }
    }
  }
}
