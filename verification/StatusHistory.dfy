/**
 The status history as it is read back. A history row carries the moment its transaction
 began, and readers sort by it; the trail of a booking is in the order the rows were written.
 Where calls overlap the two orders can differ.
 */
module StatusHistory {
  import opened Common
  import opened Bookings

  /** A row of booking_status_history with its created_at. */
  datatype HistoryRow = HistoryRow(entry: Entry, createdAt: int)

  /** A booking and the created_at of each entry of its trail. */
  datatype Logged = Logged(booking: Booking, createdAt: seq<int>)

  /** A write and the moment its transaction began. */
  datatype Arrival = Arrival(landing: Landing, begun: int)

  predicate Valid(r: Logged) {
    |r.createdAt| == |r.booking.trail|
  }

  function Rows(r: Logged): (rows: seq<HistoryRow>)
    requires Valid(r)
    ensures |rows| == |r.createdAt|
    ensures forall i :: 0 <= i < |rows| ==> rows[i] == HistoryRow(r.booking.trail[i], r.createdAt[i])
  {
    seq(|r.createdAt|, i requires 0 <= i < |r.createdAt| => HistoryRow(r.booking.trail[i], r.createdAt[i]))
  }

  /** The write lands and moves the status. */
  predicate Changes(b: Booking, l: Landing) {
    Checks(Moved(b, l)) && Destination(b, l) != b.status
  }

  function Arrive(r: Logged, a: Arrival): Logged {
    Logged(Land(r.booking, a.landing), if Changes(r.booking, a.landing) then r.createdAt + [a.begun] else r.createdAt)
  }

  function ArriveAll(r: Logged, arrivals: seq<Arrival>): Logged
    decreases |arrivals|
  {
    if arrivals == [] then r else ArriveAll(Arrive(r, arrivals[0]), arrivals[1..])
  }

  // ---- Reading back -----------------------------------------------------------------------

  predicate Ascending(rows: seq<HistoryRow>) {
    forall i :: 0 < i < |rows| ==> rows[i - 1].createdAt <= rows[i].createdAt
  }

  predicate Rising(times: seq<int>) {
    forall i :: 0 < i < |times| ==> times[i - 1] < times[i]
  }

  /** What ORDER BY created_at may answer: the same rows, sorted; ties in any order. */
  ghost predicate Reading(read: seq<HistoryRow>, rows: seq<HistoryRow>) {
    multiset(read) == multiset(rows) && Ascending(read)
  }

  function Entries(rows: seq<HistoryRow>): (entries: seq<Entry>)
    ensures |entries| == |rows| && forall i :: 0 <= i < |rows| ==> entries[i] == rows[i].entry
  {
    seq(|rows|, i requires 0 <= i < |rows| => rows[i].entry)
  }

  lemma {:induction false} AscendingAtMost(rows: seq<HistoryRow>, i: nat, j: nat)
    requires Ascending(rows) && i <= j < |rows|
    ensures rows[i].createdAt <= rows[j].createdAt
    decreases j
  {
    if i < j { AscendingAtMost(rows, i, j - 1); }
  }

  lemma {:induction false} RisingLess(times: seq<int>, i: nat, j: nat)
    requires Rising(times) && i < j < |times|
    ensures times[i] < times[j]
    decreases j
  {
    if i + 1 < j { RisingLess(times, i, j - 1); }
  }

  predicate RisingRows(rows: seq<HistoryRow>) {
    forall i :: 0 < i < |rows| ==> rows[i - 1].createdAt < rows[i].createdAt
  }

  lemma {:induction false} RowsRise(rows: seq<HistoryRow>, i: nat, j: nat)
    requires RisingRows(rows) && i < j < |rows|
    ensures rows[i].createdAt < rows[j].createdAt
    decreases j
  {
    if i + 1 < j { RowsRise(rows, i, j - 1); }
  }

  lemma SameLength(a: seq<HistoryRow>, b: seq<HistoryRow>)
    requires multiset(a) == multiset(b)
    ensures |a| == |b| && forall x :: x in a <==> x in b
  {
    assert |a| == |multiset(a)| == |multiset(b)| == |b|;
    assert forall x :: x in a <==> x in multiset(a);
  }

  lemma SameLast(read: seq<HistoryRow>, rows: seq<HistoryRow>)
    requires Reading(read, rows) && RisingRows(rows) && rows != []
    ensures |read| == |rows| && read[|read| - 1] == rows[|rows| - 1]
  {
    hide RisingRows;
    SameLength(read, rows);
    var n := |rows| - 1;
    assert rows[n] in read && read[n] in rows;
    var i :| 0 <= i < |read| && read[i] == rows[n];
    var j :| 0 <= j < |rows| && rows[j] == read[n];
    AscendingAtMost(read, i, n);
    if j < n { RowsRise(rows, j, n); }
  }

  lemma SameFront(a: seq<HistoryRow>, b: seq<HistoryRow>)
    requires multiset(a) == multiset(b) && a != [] && b != [] && a[|a| - 1] == b[|b| - 1]
    ensures multiset(a[..|a| - 1]) == multiset(b[..|b| - 1])
  {
    var x := a[|a| - 1];
    assert a == a[..|a| - 1] + [x] && b == b[..|b| - 1] + [x];
    assert multiset(a) == multiset(a[..|a| - 1]) + multiset{x};
    assert multiset(b) == multiset(b[..|b| - 1]) + multiset{x};
    assert multiset(a) - multiset{x} == multiset(a[..|a| - 1]);
    assert multiset(b) - multiset{x} == multiset(b[..|b| - 1]);
  }

  /** Rows in strict order can be read back in one way only. */
  lemma {:induction false} RisingReadsAsWritten(read: seq<HistoryRow>, rows: seq<HistoryRow>)
    requires Reading(read, rows) && RisingRows(rows)
    ensures read == rows
    decreases |rows|
  {
    hide *;
    ReadingParts(read, rows);
    SameLength(read, rows);
    if rows != [] {
      var n := |rows| - 1;
      SameLast(read, rows);
      SameFront(read, rows);
      FrontsInOrder(read, rows);
      RisingReadsAsWritten(read[..n], rows[..n]);
      assert read == read[..n] + [read[n]] && rows == rows[..n] + [rows[n]];
    }
  }

  lemma ReadingParts(read: seq<HistoryRow>, rows: seq<HistoryRow>)
    requires Reading(read, rows)
    ensures multiset(read) == multiset(rows)
  {
  }

  lemma FrontsInOrder(read: seq<HistoryRow>, rows: seq<HistoryRow>)
    requires Reading(read, rows) && RisingRows(rows) && rows != [] && |read| == |rows|
    requires multiset(read[..|rows| - 1]) == multiset(rows[..|rows| - 1])
    ensures Reading(read[..|rows| - 1], rows[..|rows| - 1]) && RisingRows(rows[..|rows| - 1])
  {
  }

  function InsertRow(row: HistoryRow, sorted: seq<HistoryRow>): seq<HistoryRow> {
    if sorted == [] || row.createdAt <= sorted[0].createdAt then [row] + sorted
    else [sorted[0]] + InsertRow(row, sorted[1..])
  }

  lemma {:induction false} InsertKeepsOrder(row: HistoryRow, sorted: seq<HistoryRow>)
    requires Ascending(sorted)
    ensures Ascending(InsertRow(row, sorted)) && multiset(InsertRow(row, sorted)) == multiset(sorted) + multiset{row}
    ensures InsertRow(row, sorted)[0].createdAt == row.createdAt
            || (sorted != [] && InsertRow(row, sorted)[0] == sorted[0])
  {
    if sorted != [] && row.createdAt > sorted[0].createdAt {
      InsertKeepsOrder(row, sorted[1..]);
      assert sorted == [sorted[0]] + sorted[1..];
    }
  }

  /** Some reading always exists. */
  lemma {:induction false} SomeReading(rows: seq<HistoryRow>) returns (read: seq<HistoryRow>)
    ensures Reading(read, rows)
  {
    if rows == [] {
      read := [];
    } else {
      var rest := SomeReading(rows[1..]);
      read := InsertRow(rows[0], rest);
      InsertKeepsOrder(rows[0], rest);
      assert rows == [rows[0]] + rows[1..];
    }
  }

  /** Two neighbours written in one instant can be read either way round. */
  lemma TiesSwap(rows: seq<HistoryRow>, i: nat)
    requires Ascending(rows) && 0 < i < |rows| && rows[i - 1].createdAt == rows[i].createdAt
    ensures Reading(rows[i - 1 := rows[i]][i := rows[i - 1]], rows)
  {
    var read := rows[i - 1 := rows[i]][i := rows[i - 1]];
    forall k | 0 < k < |read|
      ensures read[k - 1].createdAt <= read[k].createdAt
    {
      assert rows[k - 1].createdAt <= rows[k].createdAt;
    }
    assert rows == rows[..i - 1] + [rows[i - 1], rows[i]] + rows[i + 1..];
    assert read == rows[..i - 1] + [rows[i], rows[i - 1]] + rows[i + 1..];
  }

  /** Every reading is in the order of writing exactly when the begin times rise strictly. */
  lemma ReadsAsWrittenIffRising(rows: seq<HistoryRow>)
    requires forall i :: 0 < i < |rows| ==> rows[i - 1] != rows[i]
    ensures (forall read :: Reading(read, rows) ==> read == rows) <==> RisingRows(rows)
  {
    if RisingRows(rows) {
      forall read | Reading(read, rows) ensures read == rows { RisingReadsAsWritten(read, rows); }
    } else {
      var i :| 0 < i < |rows| && rows[i - 1].createdAt >= rows[i].createdAt;
      if Ascending(rows) {
        TiesSwap(rows, i);
        assert rows[i - 1 := rows[i]][i := rows[i - 1]][i] != rows[i];
      } else {
        var read := SomeReading(rows);
      }
    }
  }

  // ---- Over a run ---------------------------------------------------------------------------

  ghost predicate Sound(r: Logged) {
    Valid(r) && r.createdAt != [] && TrailInv(r.booking)
  }

  /** The write moves the status, and its transaction began no later than the one before it did. */
  predicate BeganEarlier(r: Logged, a: Arrival) {
    Changes(r.booking, a.landing) && r.createdAt != [] && a.begun <= r.createdAt[|r.createdAt| - 1]
  }

  /** Writes that move the status land in the order in which their transactions began. */
  predicate InOrder(r: Logged, arrivals: seq<Arrival>)
    decreases |arrivals|
  {
    arrivals == [] || (!BeganEarlier(r, arrivals[0]) && InOrder(Arrive(r, arrivals[0]), arrivals[1..]))
  }

  lemma ArriveShape(r: Logged, a: Arrival)
    requires Sound(r)
    ensures Sound(Arrive(r, a))
    ensures Arrive(r, a).createdAt == if Changes(r.booking, a.landing) then r.createdAt + [a.begun] else r.createdAt
  {
    hide TrailInv, Checks;
    MovedShape(r.booking, a.landing);
    LandKeepsTrail(r.booking, a.landing);
  }

  lemma RisingAppend(times: seq<int>, at: int)
    requires times != []
    ensures Rising(times + [at]) <==> Rising(times) && times[|times| - 1] < at
  {
    var longer := times + [at];
    if Rising(longer) {
      assert longer[|times| - 1] < longer[|times|];
      forall i | 0 < i < |times| ensures times[i - 1] < times[i] { assert longer[i - 1] < longer[i]; }
    }
  }

  lemma {:induction false} RisesIffInOrder(r: Logged, arrivals: seq<Arrival>)
    requires Sound(r)
    ensures Sound(ArriveAll(r, arrivals))
    ensures Rising(ArriveAll(r, arrivals).createdAt) <==> Rising(r.createdAt) && InOrder(r, arrivals)
    decreases |arrivals|
  {
    hide Sound, Arrive, Rising, Changes;
    if arrivals != [] {
      var a := arrivals[0];
      ArriveShape(r, a);
      RisesIffInOrder(Arrive(r, a), arrivals[1..]);
      OneArrival(r, a);
    }
  }

  lemma OneArrival(r: Logged, a: Arrival)
    requires Sound(r)
    ensures Rising(Arrive(r, a).createdAt) <==> Rising(r.createdAt) && !BeganEarlier(r, a)
  {
    hide TrailInv;
    ArriveShape(r, a);
    RisingAppend(r.createdAt, a.begun);
    hide Rising, Arrive, Changes;
  }

  lemma NeighboursDiffer(r: Logged)
    requires Sound(r)
    ensures forall i :: 0 < i < |Rows(r)| ==> Rows(r)[i - 1] != Rows(r)[i]
    ensures RisingRows(Rows(r)) <==> Rising(r.createdAt)
  {
    hide Checks;
    var rows, times := Rows(r), r.createdAt;
    assert forall i :: 0 <= i < |rows| ==> rows[i].createdAt == times[i];
    if RisingRows(rows) {
      forall i | 0 < i < |times| ensures times[i - 1] < times[i] { assert rows[i - 1].createdAt < rows[i].createdAt; }
    }
  }

  /** A booking inserted by a transaction that began at `begun`. */
  function Inserted(booking: Booking, begun: int): Logged {
    Logged(booking, [begun])
  }

  /**
   However calls overlap, every reading of the history sorted by created_at is the trail in the
   order it was written if and only if the writes that moved the status landed in the order in
   which their transactions began.
   */
  lemma ReadsAsTrailIffInOrder(booking: Booking, begun: int, arrivals: seq<Arrival>)
    requires TrailInv(booking) && |booking.trail| == 1
    ensures var r := ArriveAll(Inserted(booking, begun), arrivals);
      && Valid(r)
      && ((forall read :: Reading(read, Rows(r)) ==> read == Rows(r)) <==> InOrder(Inserted(booking, begun), arrivals))
  {
    var r := ArriveAll(Inserted(booking, begun), arrivals);
    assert Sound(Inserted(booking, begun)) && Rising(Inserted(booking, begun).createdAt);
    RisesIffInOrder(Inserted(booking, begun), arrivals);
    NeighboursDiffer(r);
    ReadsAsWrittenIffRising(Rows(r));
  }

  /** Then the history as read is the chain that ends at the current status. */
  lemma InOrderReadsAsChain(booking: Booking, begun: int, arrivals: seq<Arrival>, read: seq<HistoryRow>)
    requires TrailInv(booking) && |booking.trail| == 1 && InOrder(Inserted(booking, begun), arrivals)
    requires Valid(ArriveAll(Inserted(booking, begun), arrivals))
    requires Reading(read, Rows(ArriveAll(Inserted(booking, begun), arrivals)))
    ensures IsChain(Entries(read), ArriveAll(Inserted(booking, begun), arrivals).booking.status)
  {
    var r := ArriveAll(Inserted(booking, begun), arrivals);
    ReadsAsTrailIffInOrder(booking, begun, arrivals);
    assert Sound(Inserted(booking, begun));
    RisesIffInOrder(Inserted(booking, begun), arrivals);
    assert Entries(read) == r.booking.trail;
  }

  const ACCEPTED_BOOKING := Insert(0, 0, 1, 2, Accepted, 100, None, 500)

  /** The confirmation began second and landed first. */
  const CROSSING := [Arrival(Landed(Confirm(3)), 2), Arrival(Landed(Cancel(false, 1, 4)), 1)]

  const WRITTEN := [Entry(None, PendingConfirmation), Entry(Some(PendingConfirmation), Confirmed),
                    Entry(Some(Confirmed), CancelledByCustomer)]

  lemma CrossingLands()
    ensures var r := ArriveAll(Inserted(ACCEPTED_BOOKING, 0), CROSSING);
      r.createdAt == [0, 2, 1] && r.booking.trail == WRITTEN && r.booking.status == CancelledByCustomer
  {
    var r1 := Arrive(Inserted(ACCEPTED_BOOKING, 0), CROSSING[0]);
    assert r1.createdAt == [0, 2] && r1.booking.status == Confirmed && r1.booking.trail == WRITTEN[..2];
    var r2 := Arrive(r1, CROSSING[1]);
    assert r2.createdAt == [0, 2, 1] && r2.booking.trail == WRITTEN;
    assert CROSSING[1..] == [CROSSING[1]] && [CROSSING[1]][1..] == [];
    hide Arrive;
    assert ArriveAll(r1, [CROSSING[1]]) == ArriveAll(r2, []);
  }

  /**
   A customer's cancellation begins, a provider's confirmation begins and lands, the
   cancellation lands: as read back, the cancellation precedes the confirmation, the rows do
   not link up, and the last one is not the current status.
   */
  lemma OverlapReadsOutOfOrder()
    ensures var r := ArriveAll(Inserted(ACCEPTED_BOOKING, 0), CROSSING);
      var read := [HistoryRow(WRITTEN[0], 0), HistoryRow(WRITTEN[2], 1), HistoryRow(WRITTEN[1], 2)];
      Valid(r) && Reading(read, Rows(r)) && !IsChain(Entries(read), r.booking.status)
  {
    hide ArriveAll;
    CrossingLands();
    var r := ArriveAll(Inserted(ACCEPTED_BOOKING, 0), CROSSING);
    var a, b, c := HistoryRow(WRITTEN[0], 0), HistoryRow(WRITTEN[1], 2), HistoryRow(WRITTEN[2], 1);
    assert Rows(r) == [a, b, c];
    assert multiset([a, c, b]) == multiset([a, b, c]);
    assert Entries([a, c, b])[2].to != r.booking.status;
  }
}
