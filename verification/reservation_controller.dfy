/** The reservation controller: adding a table with its images (`addTable`), booking a
    table (`bookTable`), changing a reservation's status (`updateReservationStatus`), and
    the two listings (`getAllTables`, `getAllReservations`). The tables `tables`,
    `table_images` and `reservations` are sequences of rows in insertion order. */
module ReservationController {
  import opened Wrappers
  import opened Sequences

  // ---------------------------------------------------------------------------
  // Rows

  /** A row of `tables`; `status` is whatever the column default gives a new row. */
  datatype Table = Table(tableId: int, tableNumber: string, tableType: string, capacity: int,
                         description: Option<string>, status: Option<string>)

  /** A row of `table_images`. */
  datatype TableImage = TableImage(tableId: int, fileName: string, filePath: string, isPrimary: bool)

  /** A row of `reservations`. A NULL status is `None`; dates and times are their text forms. */
  datatype Reservation = Reservation(
    reservationId: int,
    tableId: int,
    customerId: int,
    customerName: string,
    phone: string,
    email: Option<string>,
    date: string,
    time: string,
    guests: int,
    specialRequests: Option<string>,
    status: Option<string>)

  // ---------------------------------------------------------------------------
  // addTable

  /** The multipart form fields. A field that is absent or empty is `None`. */
  datatype TableRequest = TableRequest(tableNumber: Option<string>, tableType: Option<string>,
                                       capacity: Option<int>, description: Option<string>)

  /** A file multer accepted: the name it was stored under and its path. */
  datatype UploadedFile = UploadedFile(fileName: string, path: string)

  /** The two error replies, and `Unanswered`: an insert the database rejects raises inside the
      upload callback, outside the handler's `try`, so no reply is sent at all. */
  datatype AddTableError = UploadRejected | MissingTableFields | Unanswered

  /** The three fields `addTable` demands. Multipart fields are text, so a capacity of 0 was sent
      as the non-empty string "0" and counts as given. */
  predicate TableFieldsGiven(req: TableRequest)
  {
    TextGiven(req.tableNumber) && TextGiven(req.tableType) && req.capacity.Some?
  }

  /** The image rows for a new table: one per file in upload order, the first one primary. */
  function ImageRows(tableId: int, files: seq<UploadedFile>): (rows: seq<TableImage>)
    ensures |rows| == |files|
    ensures forall k :: 0 <= k < |rows| ==>
              rows[k].tableId == tableId && rows[k].fileName == files[k].fileName && rows[k].filePath == files[k].path
    ensures forall k :: 0 <= k < |rows| ==> (rows[k].isPrimary <==> k == 0)
  {
    seq(|files|, k requires 0 <= k < |files| => TableImage(tableId, files[k].fileName, files[k].path, k == 0))
  }

  // ---------------------------------------------------------------------------
  // getAllTables

  /** `primary_image: { name, path }`; `None` when the table has no primary image. */
  datatype ImageRef = ImageRef(name: string, path: string)

  datatype TableView = TableView(table: Table, primaryImage: Option<ImageRef>)

  function IsPrimaryOf(tableId: int): TableImage -> bool
  {
    (im: TableImage) => im.tableId == tableId && im.isPrimary
  }

  /** The `... WHERE table_id = t.table_id AND is_primary = 1 LIMIT 1` sub-query: the first such row. */
  function PrimaryImage(images: seq<TableImage>, tableId: int): (r: Option<ImageRef>)
    ensures r.None? <==> forall k :: 0 <= k < |images| ==> !(images[k].tableId == tableId && images[k].isPrimary)
    ensures r.Some? ==> exists k :: 0 <= k < |images| && images[k].tableId == tableId && images[k].isPrimary
                                    && r.value == ImageRef(images[k].fileName, images[k].filePath)
  {
    var k := FirstIndex(images, IsPrimaryOf(tableId));
    if k < 0 then None else Some(ImageRef(images[k].fileName, images[k].filePath))
  }

  predicate IsAvailable(t: Table)
  {
    t.status == Some("available")
  }

  /** `ORDER BY table_type, capacity`. */
  predicate TypeThenCapacity(a: Table, b: Table)
  {
    if a.tableType == b.tableType then a.capacity <= b.capacity else LexLe(a.tableType, b.tableType)
  }

  lemma TypeThenCapacityIsPreorder()
    ensures TotalPreorder(TypeThenCapacity)
  {
    forall a: Table, b: Table ensures TypeThenCapacity(a, b) || TypeThenCapacity(b, a) {
      LexTotal(a.tableType, b.tableType);
    }
    forall a: Table, b: Table, c: Table | TypeThenCapacity(a, b) && TypeThenCapacity(b, c)
      ensures TypeThenCapacity(a, c)
    {
      LexTransitive(a.tableType, b.tableType, c.tableType);
      LexAntisymmetric(a.tableType, b.tableType);
    }
  }

  /** The rows of `tables` whose status is `'available'`, ordered by type and then capacity. */
  function AvailableSorted(tables: seq<Table>): (r: seq<Table>)
    ensures multiset(r) == multiset(Filter(tables, IsAvailable))
    ensures forall t :: t in r <==> t in tables && t.status == Some("available")
    ensures forall i, j :: 0 <= i < j < |r| ==>
              LexLe(r[i].tableType, r[j].tableType)
              && (r[i].tableType == r[j].tableType ==> r[i].capacity <= r[j].capacity)
  {
    var available := Filter(tables, IsAvailable);
    TypeThenCapacityIsPreorder();
    var sorted := Sort(available, TypeThenCapacity);
    assert forall t :: t in sorted <==> t in available by {
      forall t ensures t in sorted <==> t in available {
        assert t in sorted <==> t in multiset(sorted);
        assert t in available <==> t in multiset(available);
      }
    }
    assert forall i, j :: 0 <= i < j < |sorted| ==> LexLe(sorted[i].tableType, sorted[j].tableType) by {
      forall i, j | 0 <= i < j < |sorted| ensures LexLe(sorted[i].tableType, sorted[j].tableType) {
        assert TypeThenCapacity(sorted[i], sorted[j]);
        LexTotal(sorted[i].tableType, sorted[j].tableType);
      }
    }
    sorted
  }

  /** `getAllTables`: each available table, and no other, with its primary image, ordered by type
      and then capacity. */
  function AllTables(tables: seq<Table>, images: seq<TableImage>): (views: seq<TableView>)
    ensures |views| == |Filter(tables, IsAvailable)|
    ensures forall t :: t in tables && t.status == Some("available") ==>
              TableView(t, PrimaryImage(images, t.tableId)) in views
    ensures forall k :: 0 <= k < |views| ==>
              && views[k].table in tables && views[k].table.status == Some("available")
              && views[k].primaryImage == PrimaryImage(images, views[k].table.tableId)
    ensures forall i, j :: 0 <= i < j < |views| ==>
              LexLe(views[i].table.tableType, views[j].table.tableType)
              && (views[i].table.tableType == views[j].table.tableType ==> views[i].table.capacity <= views[j].table.capacity)
  {
    var sorted := AvailableSorted(tables);
    var views := seq(|sorted|, k requires 0 <= k < |sorted| => TableView(sorted[k], PrimaryImage(images, sorted[k].tableId)));
    ViewsOfAvailable(tables, images, sorted, views);
    views
  }

  lemma ViewsOfAvailable(tables: seq<Table>, images: seq<TableImage>, sorted: seq<Table>, views: seq<TableView>)
    requires sorted == AvailableSorted(tables)
    requires |views| == |sorted|
    requires forall k :: 0 <= k < |sorted| ==> views[k] == TableView(sorted[k], PrimaryImage(images, sorted[k].tableId))
    ensures |views| == |Filter(tables, IsAvailable)|
    ensures forall t :: t in tables && t.status == Some("available") ==>
              TableView(t, PrimaryImage(images, t.tableId)) in views
    ensures forall k :: 0 <= k < |views| ==>
              && views[k].table in tables && views[k].table.status == Some("available")
              && views[k].primaryImage == PrimaryImage(images, views[k].table.tableId)
    ensures forall i, j :: 0 <= i < j < |views| ==>
              LexLe(views[i].table.tableType, views[j].table.tableType)
              && (views[i].table.tableType == views[j].table.tableType ==> views[i].table.capacity <= views[j].table.capacity)
  {
    assert |multiset(sorted)| == |multiset(Filter(tables, IsAvailable))|;
    forall t | t in tables && t.status == Some("available") ensures TableView(t, PrimaryImage(images, t.tableId)) in views {
      assert t in sorted;
      var k :| 0 <= k < |sorted| && sorted[k] == t;
      assert views[k] == TableView(t, PrimaryImage(images, t.tableId));
    }
    forall k | 0 <= k < |views| ensures views[k].table in tables && views[k].table.status == Some("available") {
      assert views[k].table == sorted[k];
      assert sorted[k] in sorted;
    }
    forall i, j | 0 <= i < j < |views|
      ensures LexLe(views[i].table.tableType, views[j].table.tableType)
              && (views[i].table.tableType == views[j].table.tableType ==> views[i].table.capacity <= views[j].table.capacity)
    {
      assert views[i].table == sorted[i] && views[j].table == sorted[j];
    }
  }

  /** The partner of the `i === 0` rule: once a table's images are stored, its listed primary image
      is the first file uploaded, and a table stored without files lists none. */
  lemma {:induction false} NewTablePrimaryImage(images: seq<TableImage>, tableId: int, files: seq<UploadedFile>)
    requires forall k :: 0 <= k < |images| ==> images[k].tableId < tableId
    ensures PrimaryImage(images + ImageRows(tableId, files), tableId)
            == if |files| == 0 then None else Some(ImageRef(files[0].fileName, files[0].path))
  {
    var all := images + ImageRows(tableId, files);
    var k := FirstIndex(all, IsPrimaryOf(tableId));
    if |files| == 0 {
      assert k == -1;
    } else {
      assert IsPrimaryOf(tableId)(all[|images|]);
      assert k == |images|;
    }
  }

  // ---------------------------------------------------------------------------
  // bookTable

  /** The booking form (`customer_id` is the authenticated `userId`); absent fields are `None`. */
  datatype BookingRequest = BookingRequest(
    tableId: Option<int>,
    customerId: Option<int>,
    customerName: Option<string>,
    phone: Option<string>,
    email: Option<string>,
    date: Option<string>,
    time: Option<string>,
    guests: Option<int>,
    specialRequests: Option<string>)

  datatype BookingError = MissingBookingFields | SlotTaken

  /** The seven fields whose falsy value rejects the booking; email and special requests may be absent. */
  predicate BookingComplete(req: BookingRequest)
  {
    && IntGiven(req.tableId) && IntGiven(req.customerId)
    && TextGiven(req.customerName) && TextGiven(req.phone)
    && TextGiven(req.date) && TextGiven(req.time)
    && IntGiven(req.guests)
  }

  /** The availability query's condition: same table, date and time, and `status != 'cancelled'`,
      which a NULL status does not satisfy. */
  predicate Blocks(r: Reservation, tableId: int, date: string, time: string)
  {
    r.tableId == tableId && r.date == date && r.time == time && r.status.Some? && r.status.value != "cancelled"
  }

  function BlocksSlot(tableId: int, date: string, time: string): Reservation -> bool
  {
    (r: Reservation) => Blocks(r, tableId, date, time)
  }

  function NewReservation(reservationId: int, req: BookingRequest, defaultStatus: Option<string>): Reservation
    requires BookingComplete(req)
  {
    Reservation(reservationId, req.tableId.value, req.customerId.value, req.customerName.value, req.phone.value,
                req.email, req.date.value, req.time.value, req.guests.value, req.specialRequests, defaultStatus)
  }

  /** `bookTable`: the reply (the new reservation's id) and the reservations afterwards.
      `defaultStatus` is the status column's default, which the insert does not set. */
  function Book(reservations: seq<Reservation>, nextId: int, req: BookingRequest, defaultStatus: Option<string>)
    : (out: (Result<int, BookingError>, seq<Reservation>))
    ensures out.0.Failure? ==> out.1 == reservations
    ensures !BookingComplete(req) ==> out.0 == Failure(MissingBookingFields)
    ensures out.0.Success? <==>
              BookingComplete(req) &&
              forall i :: 0 <= i < |reservations| ==>
                !Blocks(reservations[i], req.tableId.value, req.date.value, req.time.value)
    ensures BookingComplete(req) ==>
              (out.0 == Failure(SlotTaken) <==>
                 exists i :: 0 <= i < |reservations| &&
                   Blocks(reservations[i], req.tableId.value, req.date.value, req.time.value))
    ensures out.0.Success? ==>
              && BookingComplete(req)
              && out.0.value == nextId
              && |out.1| == |reservations| + 1
              && out.1[..|reservations|] == reservations
              && var r := out.1[|reservations|];
                 && r.reservationId == nextId && r.tableId == req.tableId.value
                 && r.customerId == req.customerId.value && r.customerName == req.customerName.value
                 && r.phone == req.phone.value && r.email == req.email
                 && r.date == req.date.value && r.time == req.time.value
                 && r.guests == req.guests.value && r.specialRequests == req.specialRequests
                 && r.status == defaultStatus
  {
    if !BookingComplete(req) then (Failure(MissingBookingFields), reservations)
    else
      var slot := BlocksSlot(req.tableId.value, req.date.value, req.time.value);
      var existing := Filter(reservations, slot);
      if |existing| > 0 then
        assert existing[0] in reservations;
        (Failure(SlotTaken), reservations)
      else
        assert forall i :: 0 <= i < |reservations| ==> !slot(reservations[i]) by {
          forall i | 0 <= i < |reservations| ensures !slot(reservations[i]) {
            var x := reservations[i];
            assert x in reservations;
          }
        }
        var r := NewReservation(nextId, req, defaultStatus);
        assert (reservations + [r])[..|reservations|] == reservations;
        (Success(nextId), reservations + [r])
  }

  /** No two reservations that are not cancelled hold the same table at the same date and time. */
  predicate NoDoubleBooking(rs: seq<Reservation>)
  {
    forall i, j :: 0 <= i < j < |rs| && Blocks(rs[i], rs[j].tableId, rs[j].date, rs[j].time) ==>
      !Blocks(rs[j], rs[j].tableId, rs[j].date, rs[j].time)
  }

  /** Booking through `bookTable` never creates a double booking. */
  lemma BookKeepsNoDoubleBooking(reservations: seq<Reservation>, nextId: int, req: BookingRequest,
                                 defaultStatus: Option<string>)
    requires NoDoubleBooking(reservations)
    ensures NoDoubleBooking(Book(reservations, nextId, req, defaultStatus).1)
  {
    var out := Book(reservations, nextId, req, defaultStatus);
    if out.0.Success? {
      var rs := out.1;
      var n := |reservations|;
      forall i, j | 0 <= i < j < |rs| && Blocks(rs[i], rs[j].tableId, rs[j].date, rs[j].time)
        ensures !Blocks(rs[j], rs[j].tableId, rs[j].date, rs[j].time)
      {
        assert rs[i] == reservations[i];
        assert j < n ==> rs[j] == reservations[j];
      }
    }
  }

  // ---------------------------------------------------------------------------
  // updateReservationStatus

  datatype ReservationError = ReservationNotFound

  /** `WHERE reservation_id = ?`; an absent id compares with NULL and matches nothing. */
  function HasReservationId(id: Option<int>): Reservation -> bool
  {
    (r: Reservation) => id == Some(r.reservationId)
  }

  /** `affectedRows` of the update: the number of rows whose id matches. */
  function AffectedRows(rs: seq<Reservation>, id: Option<int>): (n: nat)
    ensures n <= |rs|
    ensures n == 0 <==> forall i :: 0 <= i < |rs| ==> id != Some(rs[i].reservationId)
  {
    var matched := Filter(rs, HasReservationId(id));
    if |matched| > 0 then
      assert matched[0] in matched;
      |matched|
    else
      assert forall i :: 0 <= i < |rs| ==> id != Some(rs[i].reservationId) by {
        forall i | 0 <= i < |rs| ensures id != Some(rs[i].reservationId) {
          var x := rs[i];
          assert x in rs;
        }
      }
      0
  }

  /** `UPDATE reservations SET status = ? WHERE reservation_id = ?`. */
  function SetStatusWhere(rs: seq<Reservation>, id: Option<int>, status: Option<string>): (r: seq<Reservation>)
    ensures |r| == |rs|
    ensures forall i :: 0 <= i < |rs| ==> r[i] == if id == Some(rs[i].reservationId) then rs[i].(status := status) else rs[i]
  {
    seq(|rs|, i requires 0 <= i < |rs| => if id == Some(rs[i].reservationId) then rs[i].(status := status) else rs[i])
  }

  /** `updateReservationStatus`: not found when no row has the id; otherwise only those rows' status changes. */
  function ReservationStatusUpdate(rs: seq<Reservation>, id: Option<int>, status: Option<string>)
    : (out: (Result<(), ReservationError>, seq<Reservation>))
    ensures out.0.Failure? <==> forall i :: 0 <= i < |rs| ==> id != Some(rs[i].reservationId)
    ensures out.0.Failure? ==> out.1 == rs
    ensures |out.1| == |rs|
    ensures forall i :: 0 <= i < |rs| ==>
              out.1[i] == if id == Some(rs[i].reservationId) then rs[i].(status := status) else rs[i]
  {
    if AffectedRows(rs, id) == 0 then (Failure(ReservationNotFound), rs)
    else
      (Success(()), SetStatusWhere(rs, id, status))
  }

  /** After cancelling the reservation that holds a slot, no reservation blocks that slot. */
  lemma CancelledSlotUnblocked(rs: seq<Reservation>, k: int)
    requires NoDoubleBooking(rs)
    requires 0 <= k < |rs| && Blocks(rs[k], rs[k].tableId, rs[k].date, rs[k].time)
    ensures var after := SetStatusWhere(rs, Some(rs[k].reservationId), Some("cancelled"));
            forall i :: 0 <= i < |after| ==> !Blocks(after[i], rs[k].tableId, rs[k].date, rs[k].time)
  {
    var id := Some(rs[k].reservationId);
    var after := SetStatusWhere(rs, id, Some("cancelled"));
    var t, d, h := rs[k].tableId, rs[k].date, rs[k].time;
    forall i | 0 <= i < |after| ensures !Blocks(after[i], t, d, h) {
      var ri, rk := rs[i], rs[k];
      assert after[i] == if id == Some(ri.reservationId) then ri.(status := Some("cancelled")) else ri;
      assert i < k ==> (Blocks(ri, t, d, h) ==> !Blocks(rk, t, d, h));
      assert k < i ==> (Blocks(rk, ri.tableId, ri.date, ri.time) ==> !Blocks(ri, ri.tableId, ri.date, ri.time));
    }
  }

  /** Cancelling a reservation that holds a slot frees the slot: a complete booking for the
      same table, date and time then succeeds. */
  lemma CancellationFreesSlot(rs: seq<Reservation>, k: int, nextId: int, req: BookingRequest,
                              defaultStatus: Option<string>)
    requires NoDoubleBooking(rs)
    requires 0 <= k < |rs| && Blocks(rs[k], rs[k].tableId, rs[k].date, rs[k].time)
    requires BookingComplete(req)
    requires req.tableId.value == rs[k].tableId && req.date.value == rs[k].date && req.time.value == rs[k].time
    ensures var cancelled := ReservationStatusUpdate(rs, Some(rs[k].reservationId), Some("cancelled"));
            cancelled.0.Success? && Book(cancelled.1, nextId, req, defaultStatus).0 == Success(nextId)
  {
    var id := Some(rs[k].reservationId);
    var cancelled := ReservationStatusUpdate(rs, id, Some("cancelled"));
    assert cancelled.0.Success? by {
      assert id == Some(rs[k].reservationId);
    }
    assert cancelled.1 == SetStatusWhere(rs, id, Some("cancelled"));
    CancelledSlotUnblocked(rs, k);
  }

  // ---------------------------------------------------------------------------
  // getAllReservations

  /** One element of the reply: the reservation with the joined table row, whose number, type and
      capacity the reply carries. */
  datatype ReservationView = ReservationView(reservation: Reservation, table: Table)

  /** `ORDER BY r.reservation_date DESC, r.reservation_time DESC`. */
  predicate LatestFirst(a: Reservation, b: Reservation)
  {
    if a.date == b.date then LexLe(b.time, a.time) else LexLe(b.date, a.date)
  }

  lemma LatestFirstIsPreorder()
    ensures TotalPreorder(LatestFirst)
  {
    forall a: Reservation, b: Reservation ensures LatestFirst(a, b) || LatestFirst(b, a) {
      LexTotal(a.date, b.date);
      LexTotal(a.time, b.time);
    }
    forall a: Reservation, b: Reservation, c: Reservation | LatestFirst(a, b) && LatestFirst(b, c)
      ensures LatestFirst(a, c)
    {
      LexTransitive(c.date, b.date, a.date);
      LexTransitive(c.time, b.time, a.time);
      LexAntisymmetric(c.date, b.date);
      LexAntisymmetric(b.date, a.date);
    }
  }

  /** The inner join keeps a reservation whose table row exists; the customer filter applies
      only when a customer id is given (a falsy one selects every customer). */
  predicate Listed(r: Reservation, tables: seq<Table>, customerId: Option<int>)
  {
    (exists t :: t in tables && t.tableId == r.tableId)
    && (IntGiven(customerId) ==> r.customerId == customerId.value)
  }

  function ListedFilter(tables: seq<Table>, customerId: Option<int>): Reservation -> bool
  {
    (r: Reservation) => Listed(r, tables, customerId)
  }

  /** The selected reservations, latest first. */
  function SelectedLatestFirst(rs: seq<Reservation>, tables: seq<Table>, customerId: Option<int>): (r: seq<Reservation>)
    ensures multiset(r) == multiset(Filter(rs, ListedFilter(tables, customerId)))
    ensures forall x :: x in r <==> x in rs && Listed(x, tables, customerId)
    ensures forall i, j :: 0 <= i < j < |r| ==> LatestFirst(r[i], r[j])
    ensures forall i, j :: 0 <= i < j < |r| ==> LexLe(r[j].date, r[i].date)
  {
    var selected := Filter(rs, ListedFilter(tables, customerId));
    LatestFirstIsPreorder();
    var sorted := Sort(selected, LatestFirst);
    assert forall x :: x in sorted <==> x in selected by {
      forall x ensures x in sorted <==> x in selected {
        assert x in sorted <==> x in multiset(sorted);
        assert x in selected <==> x in multiset(selected);
      }
    }
    assert forall i, j :: 0 <= i < j < |sorted| ==> LexLe(sorted[j].date, sorted[i].date) by {
      forall i, j | 0 <= i < j < |sorted| ensures LexLe(sorted[j].date, sorted[i].date) {
        assert LatestFirst(sorted[i], sorted[j]);
        LexTotal(sorted[i].date, sorted[j].date);
      }
    }
    sorted
  }

  function TableOf(tables: seq<Table>, tableId: int): (t: Table)
    requires exists t :: t in tables && t.tableId == tableId
    ensures t in tables && t.tableId == tableId
  {
    var k := FirstIndex(tables, (t: Table) => t.tableId == tableId);
    tables[k]
  }

  lemma SelectedAreListed(rs: seq<Reservation>, tables: seq<Table>, customerId: Option<int>)
    ensures var sorted := SelectedLatestFirst(rs, tables, customerId);
            forall k :: 0 <= k < |sorted| ==> Listed(sorted[k], tables, customerId)
  {
    var sorted := SelectedLatestFirst(rs, tables, customerId);
    forall k | 0 <= k < |sorted| ensures Listed(sorted[k], tables, customerId) {
      assert sorted[k] in sorted;
    }
  }

  /** The reply element for a reservation whose table exists. */
  function ViewFor(tables: seq<Table>, r: Reservation): (v: ReservationView)
    requires exists t :: t in tables && t.tableId == r.tableId
    ensures v.reservation == r && v.table in tables && v.table.tableId == r.tableId
  {
    ReservationView(r, TableOf(tables, r.tableId))
  }

  /** `getAllReservations`: the joined reservations of the given customer (or of all customers),
      latest first, each with its table's details. */
  function AllReservations(rs: seq<Reservation>, tables: seq<Table>, customerId: Option<int>)
    : (views: seq<ReservationView>)
    ensures |views| == |SelectedLatestFirst(rs, tables, customerId)|
    ensures forall k :: 0 <= k < |views| ==>
              views[k].reservation == SelectedLatestFirst(rs, tables, customerId)[k]
    ensures forall k :: 0 <= k < |views| ==>
              IntGiven(customerId) ==> views[k].reservation.customerId == customerId.value
    ensures forall k :: 0 <= k < |views| ==>
              views[k].table in tables && views[k].table.tableId == views[k].reservation.tableId
  {
    var sorted := SelectedLatestFirst(rs, tables, customerId);
    SelectedAreListed(rs, tables, customerId);
    seq(|sorted|, k requires 0 <= k < |sorted| => ViewFor(tables, sorted[k]))
  }

  // ---------------------------------------------------------------------------
  // The tables the handlers share

  class ReservationDb {
    var tables: seq<Table>
    var images: seq<TableImage>
    var reservations: seq<Reservation>
    var nextTableId: int
    var nextReservationId: int

    /** Auto-increment ids lie below their counters. */
    ghost predicate Valid()
      reads this
    {
      && (forall k :: 0 <= k < |tables| ==> tables[k].tableId < nextTableId)
      && (forall k :: 0 <= k < |images| ==> images[k].tableId < nextTableId)
      && (forall k :: 0 <= k < |reservations| ==> reservations[k].reservationId < nextReservationId)
    }

    constructor ()
      ensures Valid()
      ensures tables == [] && images == [] && reservations == []
    {
      tables, images, reservations := [], [], [];
      nextTableId, nextReservationId := 1, 1;
    }

    /** `addTable`. `uploadRejected` is multer's verdict on the upload; write `failingWrite` (0 the
        table insert, 1 + i the i-th image insert), if any, is the one the database rejects; the request
        is then left `Unanswered`. There is no transaction, so rows written before a failure stay. */
    method AddTable(uploadRejected: bool, req: TableRequest, files: seq<UploadedFile>,
                    defaultStatus: Option<string>, failingWrite: Option<nat>)
      returns (r: Result<int, AddTableError>)
      requires Valid()
      modifies this
      ensures Valid()
      ensures reservations == old(reservations) && nextReservationId == old(nextReservationId)
      ensures uploadRejected || !TableFieldsGiven(req) || failingWrite == Some(0) ==>
                r.Failure? && tables == old(tables) && images == old(images) && nextTableId == old(nextTableId)
      ensures r == Failure(UploadRejected) <==> uploadRejected
      ensures r == Failure(MissingTableFields) <==> !uploadRejected && !TableFieldsGiven(req)
      ensures !uploadRejected && TableFieldsGiven(req) && failingWrite != Some(0) ==>
                var id := old(nextTableId);
                && tables == old(tables) + [Table(id, req.tableNumber.value, req.tableType.value,
                                                  req.capacity.value, req.description, defaultStatus)]
                && nextTableId == id + 1
                && var stored := if failingWrite.Some? && failingWrite.value - 1 < |files|
                                 then failingWrite.value - 1 else |files|;
                   && images == old(images) + ImageRows(id, files)[..stored]
                   && r == if stored < |files| then Failure(Unanswered) else Success(id)
    {
      if uploadRejected {
        return Failure(UploadRejected);
      }
      if !TextGiven(req.tableNumber) || !TextGiven(req.tableType) || req.capacity.None? {
        return Failure(MissingTableFields);
      }
      if failingWrite == Some(0) {
        return Failure(Unanswered);
      }
      var tableId := nextTableId;
      tables := tables + [Table(tableId, req.tableNumber.value, req.tableType.value, req.capacity.value,
                                req.description, defaultStatus)];
      nextTableId := nextTableId + 1;

      var i := 0;
      while i < |files|
        invariant 0 <= i <= |files|
        invariant failingWrite.None? || failingWrite.value == 0 || failingWrite.value - 1 >= i
        invariant images == old(images) + ImageRows(tableId, files)[..i]
        invariant tables == old(tables) + [Table(tableId, req.tableNumber.value, req.tableType.value,
                                                 req.capacity.value, req.description, defaultStatus)]
        invariant nextTableId == tableId + 1
        invariant reservations == old(reservations) && nextReservationId == old(nextReservationId)
        invariant Valid()
      {
        if failingWrite == Some(1 + i) {
          return Failure(Unanswered);
        }
        images := images + [TableImage(tableId, files[i].fileName, files[i].path, i == 0)];
        assert ImageRows(tableId, files)[..i + 1] == ImageRows(tableId, files)[..i] + [ImageRows(tableId, files)[i]];
        i := i + 1;
      }
      assert ImageRows(tableId, files)[..i] == ImageRows(tableId, files);
      return Success(tableId);
    }

    /** `bookTable`: the required-field check, the slot query, then the insert. */
    method BookTable(req: BookingRequest, defaultStatus: Option<string>) returns (r: Result<int, BookingError>)
      requires Valid()
      modifies this
      ensures Valid()
      ensures (r, reservations) == Book(old(reservations), old(nextReservationId), req, defaultStatus)
      ensures nextReservationId == if r.Success? then old(nextReservationId) + 1 else old(nextReservationId)
      ensures tables == old(tables) && images == old(images) && nextTableId == old(nextTableId)
    {
      if !IntGiven(req.tableId) || !IntGiven(req.customerId) || !TextGiven(req.customerName)
         || !TextGiven(req.phone) || !TextGiven(req.date) || !TextGiven(req.time) || !IntGiven(req.guests) {
        return Failure(MissingBookingFields);
      }

      // `existing` holds the rows that block the slot.
      var existing := Filter(reservations, BlocksSlot(req.tableId.value, req.date.value, req.time.value));
      if |existing| > 0 {
        return Failure(SlotTaken);
      }

      // No row blocks the slot: the new row takes the next id.
      var reservationId := nextReservationId;
      reservations := reservations + [NewReservation(reservationId, req, defaultStatus)];
      nextReservationId := nextReservationId + 1;
      return Success(reservationId);
    }

    /** `updateReservationStatus`: the update, then the affected-rows test. */
    method UpdateReservationStatus(id: Option<int>, status: Option<string>) returns (r: Result<(), ReservationError>)
      requires Valid()
      modifies this
      ensures Valid()
      ensures (r, reservations) == ReservationStatusUpdate(old(reservations), id, status)
      ensures tables == old(tables) && images == old(images)
      ensures nextTableId == old(nextTableId) && nextReservationId == old(nextReservationId)
    {
      var affectedRows := AffectedRows(reservations, id);
      reservations := SetStatusWhere(reservations, id, status);
      if affectedRows == 0 {
        assert reservations == old(reservations);
        return Failure(ReservationNotFound);
      }
      return Success(());
    }
  }
}
