/** The seat picker (src/pages/userPage/paymentPage/SeatSelectionPage.tsx): the
    generated 4×12 grid, the selection that clicking toggles, and the price shown. */
module SeatSelection {
  import opened Text
  import opened Seqs

  datatype Status = Available | Selected | Reserved | Booked

  datatype Seat = Seat(id: string, row: char, number: int, status: Status, price: int)

  const Rows: seq<char> := ['A', 'B', 'C', 'D']
  const SeatsPerRow: nat := 12
  const SeatPrice: int := 1200
  const Fee: int := 50

  /** The status `generateSeats` gives a seat: the later checks win, as in the
      loop body. */
  function InitialStatus(row: char, number: int): Status {
    var booked := if number in [1, 2, 6, 7, 11, 12] && row == 'A' then Booked else Available;
    var b5 := if number == 5 && row == 'B' then Reserved else booked;
    if number == 8 && row == 'C' then Reserved else b5
  }

  /** The status of seat `k` of the grid. */
  function StatusAt(k: nat): Status
    requires k < |Rows| * SeatsPerRow
  {
    InitialStatus(Rows[k / SeatsPerRow], k % SeatsPerRow + 1)
  }

  /** Seat `k` of the grid, counting row by row. */
  function SeatAt(k: nat): (s: Seat)
    requires k < |Rows| * SeatsPerRow
  {
    var row := Rows[k / SeatsPerRow];
    var number := k % SeatsPerRow + 1;
    Seat([row] + NatToString(number), row, number, StatusAt(k), SeatPrice)
  }

  predicate IsGridSeat(s: Seat) {
    exists k :: 0 <= k < |Rows| * SeatsPerRow && SeatAt(k) == s
  }

  /** `generateSeats()`. */
  method GenerateSeats() returns (generated: seq<Seat>)
    ensures |generated| == |Rows| * SeatsPerRow
    ensures forall k :: 0 <= k < |generated| ==> generated[k] == SeatAt(k)
  {
    generated := [];
    var id := 1;
    var r := 0;
    while r < |Rows|
      invariant 0 <= r <= |Rows|
      invariant |generated| == SeatsPerRow * r
      invariant forall k :: 0 <= k < |generated| ==> generated[k] == SeatAt(k)
      invariant id == |generated| + 1
    {
      var row := Rows[r];
      var num := 1;
      while num <= SeatsPerRow
        invariant 1 <= num <= SeatsPerRow + 1
        invariant |generated| == SeatsPerRow * r + num - 1
        invariant forall k :: 0 <= k < |generated| ==> generated[k] == SeatAt(k)
        invariant id == |generated| + 1
      {
        var status := Available;
        if num in [1, 2, 6, 7, 11, 12] && row == 'A' {
          status := Booked;
        }
        if num == 5 && row == 'B' {
          status := Reserved;
        }
        if num == 8 && row == 'C' {
          status := Reserved;
        }
        GridPosition(r, num);
        assert status == InitialStatus(row, num);
        generated := generated + [Seat([row] + NatToString(num), row, num, status, SeatPrice)];
        id := id + 1;
        num := num + 1;
      }
      r := r + 1;
    }
  }

  /** Seat `num` of row `r` sits at position `12 * r + num - 1` of the grid. */
  lemma GridPosition(r: nat, num: nat)
    requires r < |Rows| && 1 <= num <= SeatsPerRow
    ensures SeatsPerRow * r + num - 1 < |Rows| * SeatsPerRow
    ensures (SeatsPerRow * r + num - 1) / SeatsPerRow == r
    ensures (SeatsPerRow * r + num - 1) % SeatsPerRow + 1 == num
  {
    var k := 12 * r + num - 1;
    assert k / 12 == r && k % 12 == num - 1;
  }

  /** The 48 generated seats have pairwise distinct ids (they are the React keys and
      the selection is keyed on them). */
  lemma GridIdsDistinct(j: nat, k: nat)
    requires j < k < |Rows| * SeatsPerRow
    ensures SeatAt(j).id != SeatAt(k).id
  {
    var a := SeatAt(j);
    var b := SeatAt(k);
    if a.id == b.id {
      assert a.id[0] == a.row && b.id[0] == b.row;
      assert a.id[1..] == NatToString(a.number) && b.id[1..] == NatToString(b.number);
      NatToStringInjective(a.number, b.number);
    }
  }

  /** Exactly A1, A2, A6, A7, A11 and A12 are booked, exactly B5 and C8 are reserved,
      and every other seat is available. */
  lemma GridStatus(k: nat)
    requires k < |Rows| * SeatsPerRow
    ensures SeatAt(k).status == Booked <==>
              SeatAt(k).row == 'A' && SeatAt(k).number in [1, 2, 6, 7, 11, 12]
    ensures SeatAt(k).status == Reserved <==>
              (SeatAt(k).row == 'B' && SeatAt(k).number == 5) || (SeatAt(k).row == 'C' && SeatAt(k).number == 8)
    ensures SeatAt(k).status != Selected
  {
  }

  /** How many of the seats numbered 1 to n in a row are available. */
  function AvailableInRow(row: char, n: nat): nat {
    if n == 0 then 0
    else AvailableInRow(row, n - 1) + (if InitialStatus(row, n) == Available then 1 else 0)
  }

  /** How many seats of the first `r` rows are available. */
  function AvailableInRows(r: nat): nat
    requires r <= |Rows|
  {
    if r == 0 then 0 else AvailableInRows(r - 1) + AvailableInRow(Rows[r - 1], SeatsPerRow)
  }

  /** 40 of the 48 seats are available: 6 in row A, 11 in rows B and C, 12 in row D. */
  lemma FortyAvailable()
    ensures AvailableInRows(|Rows|) == 40
  {
    RowACount();
    RowBCount();
    RowCCount();
    RowDCount();
    assert AvailableInRows(2) == 17;
  }

  lemma RowACount()
    ensures AvailableInRow('A', SeatsPerRow) == 6
  {
    assert AvailableInRow('A', 2) == 0;
    assert AvailableInRow('A', 5) == 3;
    assert AvailableInRow('A', 7) == 3;
    assert AvailableInRow('A', 10) == 6;
  }

  lemma RowBCount()
    ensures AvailableInRow('B', SeatsPerRow) == 11
  {
    assert AvailableInRow('B', 6) == 5;
  }

  lemma RowCCount()
    ensures AvailableInRow('C', SeatsPerRow) == 11
  {
    assert AvailableInRow('C', 6) == 6;
  }

  lemma RowDCount()
    ensures AvailableInRow('D', SeatsPerRow) == 12
  {
    assert AvailableInRow('D', 6) == 6;
  }

  // ---- the selection ----

  predicate HasSeatId(selected: seq<Seat>, id: string) {
    exists i :: 0 <= i < |selected| && selected[i].id == id
  }

  function SeatId(s: Seat): string { s.id }

  /** An available grid seat, marked selected. */
  predicate SelectedGridSeat(s: Seat) {
    exists k :: 0 <= k < |Rows| * SeatsPerRow && StatusAt(k) == Available
                && SeatAt(k).(status := Selected) == s
  }

  /** What the page keeps in `selectedSeats`: available grid seats marked selected,
      no id twice. */
  predicate CartValid(selected: seq<Seat>) {
    DistinctBy(selected, SeatId)
    && forall i :: 0 <= i < |selected| ==> SelectedGridSeat(selected[i])
  }

  /** The selection after `toggleSeat(seat)`. */
  function ToggleSelection(selected: seq<Seat>, seat: Seat): seq<Seat> {
    if seat.status != Available then selected
    else if HasSeatId(selected, seat.id) then RemoveSeatId(selected, seat.id)
    else selected + [seat.(status := Selected)]
  }

  /** `prev.filter(s => s.id !== id)`. */
  function RemoveSeatId(selected: seq<Seat>, id: string): seq<Seat> {
    Filter(selected, (s: Seat) => s.id != id)
  }

  lemma RemoveDropsId(selected: seq<Seat>, id: string)
    ensures !HasSeatId(RemoveSeatId(selected, id), id)
  {
    var r := RemoveSeatId(selected, id);
    forall i | 0 <= i < |r| ensures r[i].id != id {
      assert r[i] in r;
    }
  }

  lemma RemoveKeepsOtherIds(selected: seq<Seat>, id: string, other: string)
    requires other != id
    ensures HasSeatId(RemoveSeatId(selected, id), other) <==> HasSeatId(selected, other)
  {
    var r := RemoveSeatId(selected, id);
    if HasSeatId(r, other) {
      var i :| 0 <= i < |r| && r[i].id == other;
      assert r[i] in r;
      var j :| 0 <= j < |selected| && selected[j] == r[i];
    }
    if HasSeatId(selected, other) {
      var j :| 0 <= j < |selected| && selected[j].id == other;
      assert selected[j] in r;
      var i :| 0 <= i < |r| && r[i] == selected[j];
    }
  }

  /** Toggling an available seat flips whether its id is selected and leaves every
      other id as it was; toggling any other seat changes nothing. */
  lemma ToggleFlipsOnlyThatSeat(selected: seq<Seat>, seat: Seat)
    ensures seat.status != Available ==> ToggleSelection(selected, seat) == selected
    ensures seat.status == Available ==>
              (HasSeatId(ToggleSelection(selected, seat), seat.id) <==> !HasSeatId(selected, seat.id))
    ensures forall other :: other != seat.id ==>
              (HasSeatId(ToggleSelection(selected, seat), other) <==> HasSeatId(selected, other))
  {
    var next := ToggleSelection(selected, seat);
    if seat.status == Available {
      if HasSeatId(selected, seat.id) {
        RemoveDropsId(selected, seat.id);
        forall other | other != seat.id
          ensures HasSeatId(next, other) <==> HasSeatId(selected, other)
        {
          RemoveKeepsOtherIds(selected, seat.id, other);
        }
      } else {
        assert next[|selected|].id == seat.id;
        forall other | other != seat.id
          ensures HasSeatId(next, other) <==> HasSeatId(selected, other)
        {
          if HasSeatId(next, other) {
            var i :| 0 <= i < |next| && next[i].id == other;
            assert i < |selected| && selected[i] == next[i];
          }
          if HasSeatId(selected, other) {
            var i :| 0 <= i < |selected| && selected[i].id == other;
            assert next[i] == selected[i];
          }
        }
      }
    }
  }

  lemma AppendKeepsDistinctIds(selected: seq<Seat>, s: Seat)
    requires DistinctBy(selected, SeatId) && !HasSeatId(selected, s.id)
    ensures DistinctBy(selected + [s], SeatId)
  {
    var r := selected + [s];
    forall i, j | 0 <= i < j < |r| ensures SeatId(r[i]) != SeatId(r[j]) {
      if j == |selected| {
        assert r[i] == selected[i];
      } else {
        assert r[i] == selected[i] && r[j] == selected[j];
      }
    }
  }

  /** Toggling a grid seat keeps the selection a set of available grid seats with
      distinct ids. */
  lemma ToggleKeepsCart(selected: seq<Seat>, seat: Seat)
    requires CartValid(selected) && IsGridSeat(seat)
    ensures CartValid(ToggleSelection(selected, seat))
  {
    var next := ToggleSelection(selected, seat);
    if seat.status == Available {
      if HasSeatId(selected, seat.id) {
        var p := (s: Seat) => s.id != seat.id;
        FilterDistinctBy(selected, SeatId, p);
        forall i | 0 <= i < |next| ensures SelectedGridSeat(next[i]) {
          assert next[i] in next;
          var j :| 0 <= j < |selected| && selected[j] == next[i];
        }
      } else {
        AppendKeepsDistinctIds(selected, seat.(status := Selected));
        var k :| 0 <= k < |Rows| * SeatsPerRow && SeatAt(k) == seat;
        assert SelectedGridSeat(next[|selected|]);
        forall i | 0 <= i < |next| ensures SelectedGridSeat(next[i]) {
          if i < |selected| {
            assert next[i] == selected[i];
          }
        }
      }
    }
  }

  /** Clicking an unselected available seat twice restores the selection exactly. */
  lemma ToggleTwiceRestores(selected: seq<Seat>, seat: Seat)
    requires seat.status == Available && !HasSeatId(selected, seat.id)
    ensures ToggleSelection(ToggleSelection(selected, seat), seat) == selected
  {
    var added := seat.(status := Selected);
    var next := selected + [added];
    assert next[|selected|].id == seat.id;
    var p := (s: Seat) => s.id != seat.id;
    FilterAppend(selected, [added], p);
    forall k | 0 <= k < |selected| ensures p(selected[k]) {
      if !p(selected[k]) {
        assert HasSeatId(selected, seat.id);
      }
    }
    FilterKeepsAll(selected, p);
    assert Filter([added], p) == [];
  }

  /** `selectedSeats.reduce((sum, s) => sum + s.price, 0)`. */
  function Subtotal(selected: seq<Seat>): int
    decreases |selected|
  {
    if selected == [] then 0
    else Subtotal(selected[..|selected| - 1]) + selected[|selected| - 1].price
  }

  /** Every selected seat costs 1200, so the subtotal is 1200 per seat. */
  lemma {:induction false} SubtotalPerSeat(selected: seq<Seat>)
    requires forall i :: 0 <= i < |selected| ==> selected[i].price == SeatPrice
    ensures Subtotal(selected) == SeatPrice * |selected|
    decreases |selected|
  {
    if selected != [] {
      SubtotalPerSeat(selected[..|selected| - 1]);
    }
  }

  /** The selection panel: "No seats selected", or the subtotal, the 50 ETB fee, the
      total, and the "Proceed to Payment" button that navigates to /payment. */
  datatype Panel = NoSeats | Priced(subtotal: int, fee: int, total: int, proceedTo: string)

  function SelectionPanel(selected: seq<Seat>): Panel {
    if |selected| == 0 then NoSeats
    else
      var total := Subtotal(selected);
      Priced(total, Fee, total + Fee, "/payment")
  }

  /** The button to pay appears exactly when a seat is selected, and in a valid
      selection the total is 1200 per seat plus the 50 ETB fee. */
  lemma PanelPrices(selected: seq<Seat>)
    requires CartValid(selected)
    ensures SelectionPanel(selected).Priced? <==> selected != []
    ensures selected != [] ==>
              SelectionPanel(selected).total == SeatPrice * |selected| + Fee
              && SelectionPanel(selected).proceedTo == "/payment"
  {
    forall i | 0 <= i < |selected| ensures selected[i].price == SeatPrice {
      var k :| 0 <= k < |Rows| * SeatsPerRow && StatusAt(k) == Available
               && SeatAt(k).(status := Selected) == selected[i];
    }
    SubtotalPerSeat(selected);
  }

  // ---- the seat map ----

  /** A seat button is disabled unless the seat it shows is available or selected. */
  predicate ButtonDisabled(shown: Status) {
    shown != Available && shown != Selected
  }

  /** The status the map shows for seat `k` as written: the map is drawn from the
      freshly generated grid, which the selection never touches. */
  function MapStatusAsWritten(k: nat, selected: seq<Seat>): Status
    requires k < |Rows| * SeatsPerRow
  {
    SeatAt(k).status
  }

  /** Selecting a seat does not turn it blue on the map: after clicking available seat
      `k`, the map still shows it available although it is in the selection. */
  lemma MapIgnoresSelection(selected: seq<Seat>, k: nat)
    requires k < |Rows| * SeatsPerRow && StatusAt(k) == Available
    requires !HasSeatId(selected, SeatAt(k).id)
    ensures HasSeatId(ToggleSelection(selected, SeatAt(k)), SeatAt(k).id)
    ensures MapStatusAsWritten(k, ToggleSelection(selected, SeatAt(k))) == Available
  {
    ToggleFlipsOnlyThatSeat(selected, SeatAt(k));
  }

  /** The status the map evidently means to show: selected when the seat is in the
      selection, otherwise its generated status. */
  function ShownStatus(k: nat, selected: seq<Seat>): Status
    requires k < |Rows| * SeatsPerRow
  {
    if HasSeatId(selected, SeatAt(k).id) then Selected else StatusAt(k)
  }

  /** With the corrected map, a seat shows as selected exactly when it is in the
      selection, only available seats can show as selected, and the disabled buttons
      are exactly the booked and reserved seats. */
  lemma ShownStatusFollowsSelection(selected: seq<Seat>, k: nat)
    requires CartValid(selected) && k < |Rows| * SeatsPerRow
    ensures ShownStatus(k, selected) == Selected <==> HasSeatId(selected, SeatAt(k).id)
    ensures ShownStatus(k, selected) == Selected ==> StatusAt(k) == Available
    ensures ButtonDisabled(ShownStatus(k, selected)) <==> StatusAt(k) != Available
  {
    assert StatusAt(k) != Selected;
    if HasSeatId(selected, SeatAt(k).id) {
      SelectedSeatAvailable(selected, k);
    }
  }

  /** A grid seat whose id is in a valid selection was available. */
  lemma SelectedSeatAvailable(selected: seq<Seat>, k: nat)
    requires CartValid(selected) && k < |Rows| * SeatsPerRow
    requires HasSeatId(selected, SeatAt(k).id)
    ensures StatusAt(k) == Available
  {
    var i :| 0 <= i < |selected| && selected[i].id == SeatAt(k).id;
    assert SelectedGridSeat(selected[i]);
    var k' :| 0 <= k' < |Rows| * SeatsPerRow && StatusAt(k') == Available
              && SeatAt(k').(status := Selected) == selected[i];
    assert SeatAt(k').id == SeatAt(k).id;
    GridIdDetermines(k', k);
  }

  lemma GridIdDetermines(j: nat, k: nat)
    requires j < |Rows| * SeatsPerRow && k < |Rows| * SeatsPerRow
    requires SeatAt(j).id == SeatAt(k).id
    ensures j == k
  {
    if j < k {
      GridIdsDistinct(j, k);
    } else if k < j {
      GridIdsDistinct(k, j);
    }
  }

  /** The seat picker's state: the selection, changed by clicks on the map. */
  class SeatPicker {
    var selectedSeats: seq<Seat>

    ghost predicate Valid()
      reads this
    {
      CartValid(selectedSeats)
    }

    constructor ()
      ensures selectedSeats == [] && Valid()
    {
      selectedSeats := [];
    }

    /** `toggleSeat(seat)` for a seat of the map. */
    method ToggleSeat(seat: Seat)
      requires Valid() && IsGridSeat(seat)
      modifies this
      ensures selectedSeats == ToggleSelection(old(selectedSeats), seat)
      ensures Valid()
    {
      ToggleKeepsCart(selectedSeats, seat);
      if seat.status != Available {
        return;
      }
      if HasSeatId(selectedSeats, seat.id) {
        selectedSeats := RemoveSeatId(selectedSeats, seat.id);
      } else {
        selectedSeats := selectedSeats + [seat.(status := Selected)];
      }
    }
  }
}
