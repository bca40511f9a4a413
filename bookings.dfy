/**
  The booking routes of backend/routes/api/bookings.js over in-memory tables.

  The Spots and SpotImages tables are read-only here and are passed in as
  sequences; the Bookings table is a class whose `rows` the create handler
  extends. Calendar dates are day numbers: ISO `YYYY-MM-DD` strings, which is
  what the DATEONLY columns hold, order the same way.
 */
module Bookings {
  import opened Wrappers
  import Validation

  /** A calendar day. */
  type Day = int

  /** A row of the Bookings table (createdAt/updatedAt are left out). */
  datatype Booking = Booking(id: nat, spotId: nat, userId: nat, startDate: Day, endDate: Day)

  /** The Spot columns the booking routes read. */
  datatype Spot = Spot(id: nat, ownerId: nat, address: string, city: string, state: string,
                       country: string, name: string, description: string)

  /** A row of the SpotImages table. */
  datatype SpotImage = SpotImage(spotId: nat, url: string, preview: bool)

  /** The body of POST /api/spots/:spotId/bookings before validation. */
  datatype DateRequest = DateRequest(startDate: Option<string>, endDate: Option<string>)

  // ---------------------------------------------------------------------------
  // The conflict rule
  // ---------------------------------------------------------------------------

  /** Sequelize's `Op.between`: inclusive at both ends, and empty when lo > hi. */
  predicate Between(x: Day, lo: Day, hi: Day)
  {
    lo <= x <= hi
  }

  /** The three alternatives of the `Op.or` date condition against candidate [s, e]. */
  predicate DateClause(b: Booking, s: Day, e: Day)
  {
    || Between(b.startDate, s, e)
    || Between(b.endDate, s, e)
    || (b.startDate <= s && b.endDate >= e)
  }

  /** The whole where-clause of the conflict query: same spot and the date condition. */
  predicate Conflicts(b: Booking, spotId: nat, s: Day, e: Day)
  {
    b.spotId == spotId && DateClause(b, s, e)
  }

  /** Closed-interval overlap, the reference rule for two date ranges. */
  predicate Overlaps(b: Booking, s: Day, e: Day)
  {
    b.startDate <= e && s <= b.endDate
  }

  /** Two inclusive ranges have a day in common. */
  ghost predicate SharesDay(lo1: Day, hi1: Day, lo2: Day, hi2: Day)
  {
    exists d :: Between(d, lo1, hi1) && Between(d, lo2, hi2)
  }

  lemma SharesDaySymmetric(lo1: Day, hi1: Day, lo2: Day, hi2: Day)
    ensures SharesDay(lo1, hi1, lo2, hi2) <==> SharesDay(lo2, hi2, lo1, hi1)
  {
    if SharesDay(lo1, hi1, lo2, hi2) {
      var d :| Between(d, lo1, hi1) && Between(d, lo2, hi2);
      assert Between(d, lo2, hi2) && Between(d, lo1, hi1);
    }
    if SharesDay(lo2, hi2, lo1, hi1) {
      var d :| Between(d, lo2, hi2) && Between(d, lo1, hi1);
      assert Between(d, lo1, hi1) && Between(d, lo2, hi2);
    }
  }

  /** For well-formed ranges the three-way condition is exactly closed-interval overlap. */
  lemma DateClauseIsOverlap(b: Booking, s: Day, e: Day)
    requires b.startDate <= b.endDate && s <= e
    ensures DateClause(b, s, e) <==> Overlaps(b, s, e)
  {
  }

  /** The condition never misses a real clash: a shared day always matches it, whatever the ranges. */
  lemma SharedDayMatchesClause(b: Booking, s: Day, e: Day)
    ensures SharesDay(b.startDate, b.endDate, s, e) ==> DateClause(b, s, e)
  {
    if SharesDay(b.startDate, b.endDate, s, e) {
      var d :| Between(d, b.startDate, b.endDate) && Between(d, s, e);
      DateClauseIsOverlap(b, s, e);
    }
  }

  /** For well-formed ranges the condition blocks only real clashes: it matches only when a day is shared. */
  lemma ClauseMeansSharedDay(b: Booking, s: Day, e: Day)
    requires b.startDate <= b.endDate && s <= e
    requires DateClause(b, s, e)
    ensures SharesDay(b.startDate, b.endDate, s, e)
  {
    var d := if b.startDate <= s then s else b.startDate;
    assert Between(d, b.startDate, b.endDate) && Between(d, s, e);
  }

  /** Ranges that merely touch (candidate start equals the existing end) conflict. */
  lemma TouchingRangesConflict(b: Booking, e: Day)
    requires b.startDate <= b.endDate <= e
    ensures DateClause(b, b.endDate, e)
  {
  }

  // ---------------------------------------------------------------------------
  // Queries
  // ---------------------------------------------------------------------------

  /** `Spot.findByPk(spotId)`: the first spot with that id, if any. */
  function FindSpot(spots: seq<Spot>, spotId: nat): (r: Option<Spot>)
    ensures r.Some? ==> r.value in spots && r.value.id == spotId
    ensures r.None? <==> forall k :: 0 <= k < |spots| ==> spots[k].id != spotId
  {
    if spots == [] then None
    else if spots[0].id == spotId then Some(spots[0])
    else FindSpot(spots[1..], spotId)
  }

  /** `Booking.findOne` with the conflict where-clause: the index of the first match, if any. */
  function FirstConflict(rows: seq<Booking>, spotId: nat, s: Day, e: Day): (r: Option<nat>)
    ensures r.Some? ==> r.value < |rows| && Conflicts(rows[r.value], spotId, s, e)
    ensures r.None? <==> forall k :: 0 <= k < |rows| ==> !Conflicts(rows[k], spotId, s, e)
  {
    if rows == [] then None
    else if Conflicts(rows[0], spotId, s, e) then Some(0)
    else match FirstConflict(rows[1..], spotId, s, e)
      case None => None
      case Some(k) => Some(k + 1)
  }

  /** The Bookings columns the `findAll` queries filter on. */
  datatype Column = SpotIdColumn | UserIdColumn

  function ValueOf(b: Booking, col: Column): nat
  {
    match col
    case SpotIdColumn => b.spotId
    case UserIdColumn => b.userId
  }

  /** `Booking.findAll({ where: { <col>: value } })`, in table order. */
  function BookingsWhere(rows: seq<Booking>, col: Column, value: nat): (r: seq<Booking>)
    ensures |r| <= |rows|
    ensures forall b :: b in r <==> b in rows && ValueOf(b, col) == value
    ensures forall k :: 0 <= k < |r| ==> ValueOf(r[k], col) == value
  {
    if rows == [] then []
    else if ValueOf(rows[0], col) == value then [rows[0]] + BookingsWhere(rows[1..], col, value)
    else BookingsWhere(rows[1..], col, value)
  }

  /** Every matching row appears as often as in the table, and no other row appears. */
  lemma {:induction false} BookingsWhereCounts(rows: seq<Booking>, col: Column, value: nat)
    ensures forall b :: multiset(BookingsWhere(rows, col, value))[b] ==
                          if ValueOf(b, col) == value then multiset(rows)[b] else 0
  {
    if rows != [] {
      BookingsWhereCounts(rows[1..], col, value);
      assert rows == [rows[0]] + rows[1..];
    }
  }

  // ---------------------------------------------------------------------------
  // POST /api/spots/:spotId/bookings
  // ---------------------------------------------------------------------------

  /** The responses of the create route. */
  datatype CreateResult =
    | Created(booking: Booking)
    | Rejected(err: Validation.BadRequestError)
    | SpotNotFound
    | CannotBookOwnSpot
    | AlreadyBooked
    | CreateFailed
  {
    function Status(): nat
    {
      match this
      case Created(_) => 201
      case Rejected(err) => err.status
      case SpotNotFound => 404
      case CannotBookOwnSpot => 403
      case AlreadyBooked => 403
      case CreateFailed => 500
    }

    function Message(): string
    {
      match this
      case Created(_) => ""
      case Rejected(err) => err.message
      case SpotNotFound => "Spot couldn't be found"
      case CannotBookOwnSpot => "You cannot book your own spot."
      case AlreadyBooked => "Spot is already booked for the specified dates."
      case CreateFailed => "Failed to create booking"
    }
  }

  /** A date field passes `exists({ checkFalsy: true }).isDate()`: present, not empty, and a date. */
  predicate IsDateField(v: Option<string>, parseDate: string -> Option<Day>)
  {
    v.Some? && v.value != "" && parseDate(v.value).Some?
  }

  /** validateBooking's chains, in declaration order. */
  function BookingChains(req: DateRequest, parseDate: string -> Option<Day>): seq<Validation.Chain>
  {
    [ Validation.Chain(IsDateField(req.startDate, parseDate), "startDate", "Please provide a valid start date."),
      Validation.Chain(IsDateField(req.endDate, parseDate), "endDate", "Please provide a valid end date.") ]
  }

  /** The entries validateBooking leaves; empty exactly when both dates are present and are dates. */
  function BookingErrors(req: DateRequest, parseDate: string -> Option<Day>): (errs: seq<Validation.FieldError>)
    ensures errs == [] <==> IsDateField(req.startDate, parseDate) && IsDateField(req.endDate, parseDate)
  {
    var cs := BookingChains(req, parseDate);
    assert (forall j :: 0 <= j < |cs| ==> cs[j].passes) <==> cs[0].passes && cs[1].passes;
    Validation.Run(cs)
  }

  /**
    The handler's decision after validation: spot lookup (404), ownership (403),
    the conflict query (403), and otherwise the one row that is inserted.
   */
  function CreateOutcome(spots: seq<Spot>, rows: seq<Booking>, newId: nat,
                         spotId: nat, userId: nat, s: Day, e: Day): (r: CreateResult)
    ensures r.SpotNotFound? <==> forall k :: 0 <= k < |spots| ==> spots[k].id != spotId
    ensures r.CannotBookOwnSpot? <==> FindSpot(spots, spotId).Some? && FindSpot(spots, spotId).value.ownerId == userId
    ensures r.AlreadyBooked? <==>
              && FindSpot(spots, spotId).Some? && FindSpot(spots, spotId).value.ownerId != userId
              && exists k :: 0 <= k < |rows| && Conflicts(rows[k], spotId, s, e)
    ensures r.Created? <==>
              && FindSpot(spots, spotId).Some? && FindSpot(spots, spotId).value.ownerId != userId
              && forall k :: 0 <= k < |rows| ==> !Conflicts(rows[k], spotId, s, e)
    ensures r.Created? ==> r.booking == Booking(newId, spotId, userId, s, e)
    ensures !r.Rejected? && !r.CreateFailed?
    ensures r.Status() in {201, 403, 404}
  {
    match FindSpot(spots, spotId)
    case None => SpotNotFound
    case Some(spot) =>
      if spot.ownerId == userId then CannotBookOwnSpot
      else if FirstConflict(rows, spotId, s, e).Some? then AlreadyBooked
      else Created(Booking(newId, spotId, userId, s, e))
  }

  /**
    The create handler exactly as bookings.js has it: `Op` is never imported, so
    building the conflict query throws inside the try block and the catch
    answers 500 before any booking is written.
   */
  function CreateOutcomeAsWritten(spots: seq<Spot>, rows: seq<Booking>, newId: nat,
                                  spotId: nat, userId: nat, s: Day, e: Day): (r: CreateResult)
    ensures r.Status() != 201
  {
    match FindSpot(spots, spotId)
    case None => SpotNotFound
    case Some(spot) =>
      if spot.ownerId == userId then CannotBookOwnSpot
      else CreateFailed
  }

  /** As written, every request that gets past the ownership check answers 500. */
  lemma CreateAsWrittenFailsWhereBookingIsDue(spots: seq<Spot>, rows: seq<Booking>, newId: nat,
                                               spotId: nat, userId: nat, s: Day, e: Day)
    requires CreateOutcome(spots, rows, newId, spotId, userId, s, e).Created?
    ensures CreateOutcomeAsWritten(spots, rows, newId, spotId, userId, s, e) == CreateFailed
  {
  }

  /** A concrete request: a free spot owned by user 2, booked by user 3. */
  lemma CreateAsWrittenExample()
    ensures var spots := [Spot(1, 2, "1 Main St", "Town", "ST", "US", "Cabin", "A cabin")];
            && CreateOutcome(spots, [], 1, 1, 3, 10, 12) == Created(Booking(1, 1, 3, 10, 12))
            && CreateOutcomeAsWritten(spots, [], 1, 1, 3, 10, 12).Status() == 500
  {
  }

  /** The whole route: validation runs first, then the handler. */
  function PostOutcome(spots: seq<Spot>, rows: seq<Booking>, newId: nat, spotId: nat, userId: nat,
                       req: DateRequest, parseDate: string -> Option<Day>): (r: CreateResult)
    ensures r.Rejected? <==> BookingErrors(req, parseDate) != []
    ensures BookingErrors(req, parseDate) != [] ==> r.Status() == 400
    ensures r.Rejected? ==>
              r.err == Validation.BadRequestError(400, Validation.BadRequestText, Validation.BadRequestText,
                                                  Validation.ErrorsMap(BookingErrors(req, parseDate)))
    ensures BookingErrors(req, parseDate) == [] ==>
              r == CreateOutcome(spots, rows, newId, spotId, userId,
                                 parseDate(req.startDate.value).value, parseDate(req.endDate.value).value)
  {
    var errs := BookingErrors(req, parseDate);
    if errs != [] then
      Rejected(Validation.BadRequestError(400, Validation.BadRequestText, Validation.BadRequestText,
                                          Validation.ErrorsMap(errs)))
    else
      CreateOutcome(spots, rows, newId, spotId, userId,
                    parseDate(req.startDate.value).value, parseDate(req.endDate.value).value)
  }

  /**
    Validation does not reject a reversed range, and for one the conflict
    condition is no longer overlap: the request for [10, 1] passes
    validateBooking and is then refused as already booked because of the
    one-day booking [5, 5], although the two share no day.
   */
  lemma ReversedCandidateBlockedWithoutSharedDay(parseDate: string -> Option<Day>)
    requires parseDate("10") == Some(10) && parseDate("1") == Some(1)
    ensures BookingErrors(DateRequest(Some("10"), Some("1")), parseDate) == []
    ensures var spots := [Spot(1, 2, "1 Main St", "Town", "ST", "US", "Cabin", "A cabin")];
            PostOutcome(spots, [Booking(1, 1, 4, 5, 5)], 2, 1, 3, DateRequest(Some("10"), Some("1")), parseDate)
              == AlreadyBooked
    ensures !SharesDay(5, 5, 10, 1)
  {
  }

  /** Bookings on other spots never block a create. */
  lemma {:induction false} OtherSpotsNeverBlock(spots: seq<Spot>, rows: seq<Booking>, others: seq<Booking>,
                                                newId: nat, spotId: nat, userId: nat, s: Day, e: Day)
    requires forall k :: 0 <= k < |others| ==> others[k].spotId != spotId
    ensures CreateOutcome(spots, rows + others, newId, spotId, userId, s, e)
         == CreateOutcome(spots, rows, newId, spotId, userId, s, e)
  {
    var all := rows + others;
    assert (exists k :: 0 <= k < |all| && Conflicts(all[k], spotId, s, e))
       <==> (exists k :: 0 <= k < |rows| && Conflicts(rows[k], spotId, s, e)) by {
      if exists k :: 0 <= k < |all| && Conflicts(all[k], spotId, s, e) {
        var k :| 0 <= k < |all| && Conflicts(all[k], spotId, s, e);
        assert k < |rows|;
        assert all[k] == rows[k];
      }
      if exists k :: 0 <= k < |rows| && Conflicts(rows[k], spotId, s, e) {
        var k :| 0 <= k < |rows| && Conflicts(rows[k], spotId, s, e);
        assert all[k] == rows[k];
      }
    }
  }

  /** The ownership check comes before the conflict lookup: the table plays no part in it. */
  lemma OwnSpotDecidedBeforeConflicts(spots: seq<Spot>, rows1: seq<Booking>, rows2: seq<Booking>,
                                      newId: nat, spotId: nat, userId: nat, s: Day, e: Day)
    requires CreateOutcome(spots, rows1, newId, spotId, userId, s, e).CannotBookOwnSpot?
    ensures CreateOutcome(spots, rows2, newId, spotId, userId, s, e).CannotBookOwnSpot?
  {
  }

  /** No two bookings of the same spot share a day. */
  ghost predicate NoDoubleBooking(rows: seq<Booking>)
  {
    forall i, j :: 0 <= i < |rows| && 0 <= j < |rows| && i != j && rows[i].spotId == rows[j].spotId ==>
      !SharesDay(rows[i].startDate, rows[i].endDate, rows[j].startDate, rows[j].endDate)
  }

  /** An accepted create keeps the table free of double bookings, even for reversed ranges. */
  lemma CreatePreservesNoDoubleBooking(spots: seq<Spot>, rows: seq<Booking>, newId: nat,
                                       spotId: nat, userId: nat, s: Day, e: Day)
    requires NoDoubleBooking(rows)
    requires CreateOutcome(spots, rows, newId, spotId, userId, s, e).Created?
    ensures NoDoubleBooking(rows + [Booking(newId, spotId, userId, s, e)])
  {
    var b := Booking(newId, spotId, userId, s, e);
    var all := rows + [b];
    forall i, j | 0 <= i < |all| && 0 <= j < |all| && i != j && all[i].spotId == all[j].spotId
      ensures !SharesDay(all[i].startDate, all[i].endDate, all[j].startDate, all[j].endDate)
    {
      if i == |rows| {
        assert all[j] == rows[j] && !Conflicts(rows[j], spotId, s, e);
        SharedDayMatchesClause(rows[j], s, e);
        SharesDaySymmetric(s, e, rows[j].startDate, rows[j].endDate);
      } else if j == |rows| {
        assert all[i] == rows[i] && !Conflicts(rows[i], spotId, s, e);
        SharedDayMatchesClause(rows[i], s, e);
      } else {
        assert all[i] == rows[i] && all[j] == rows[j];
      }
    }
  }

  // ---------------------------------------------------------------------------
  // GET /api/spots/:spotId/bookings
  // ---------------------------------------------------------------------------

  /** One booking as a caller sees it: every attribute, or only the spot and dates. */
  datatype BookingView = Full(booking: Booking) | Limited(spotId: nat, startDate: Day, endDate: Day)

  datatype SpotBookingsResult = SpotBookingsNotFound | SpotBookingsList(bookings: seq<BookingView>)
  {
    function Status(): nat
    {
      if SpotBookingsNotFound? then 404 else 200
    }
  }

  /** The attribute choice: the owner sees whole rows, anyone else three columns. */
  function Views(bs: seq<Booking>, isOwner: bool): (r: seq<BookingView>)
    ensures |r| == |bs|
    ensures forall k :: 0 <= k < |bs| ==>
              r[k] == if isOwner then Full(bs[k]) else Limited(bs[k].spotId, bs[k].startDate, bs[k].endDate)
  {
    if bs == [] then []
    else [if isOwner then Full(bs[0]) else Limited(bs[0].spotId, bs[0].startDate, bs[0].endDate)]
         + Views(bs[1..], isOwner)
  }

  /** The spot-bookings route: 404 for a missing spot, otherwise the spot's bookings in the caller's view. */
  function SpotBookings(spots: seq<Spot>, rows: seq<Booking>, spotId: nat, userId: nat): (r: SpotBookingsResult)
    ensures r.SpotBookingsNotFound? <==> forall k :: 0 <= k < |spots| ==> spots[k].id != spotId
    ensures r.SpotBookingsList? ==> |r.bookings| == |BookingsWhere(rows, SpotIdColumn, spotId)|
  {
    match FindSpot(spots, spotId)
    case None => SpotBookingsNotFound
    case Some(spot) => SpotBookingsList(Views(BookingsWhere(rows, SpotIdColumn, spotId), spot.ownerId == userId))
  }

  /** The owner receives every booking of the spot, with all of its attributes. */
  lemma OwnerSeesWholeBookings(spots: seq<Spot>, rows: seq<Booking>, spotId: nat, userId: nat)
    requires FindSpot(spots, spotId).Some? && FindSpot(spots, spotId).value.ownerId == userId
    ensures SpotBookings(spots, rows, spotId, userId).SpotBookingsList?
    ensures forall v :: v in SpotBookings(spots, rows, spotId, userId).bookings ==> v.Full?
    ensures forall b :: Full(b) in SpotBookings(spots, rows, spotId, userId).bookings <==> b in rows && b.spotId == spotId
  {
    var bs := BookingsWhere(rows, SpotIdColumn, spotId);
    var vs := Views(bs, true);
    forall b ensures Full(b) in vs <==> b in bs {
      if Full(b) in vs {
        var k :| 0 <= k < |vs| && vs[k] == Full(b);
        assert bs[k] == b;
      }
      if b in bs {
        var k :| 0 <= k < |bs| && bs[k] == b;
        assert vs[k] == Full(b);
      }
    }
  }

  /** Anyone else receives, for every booking of the spot, only its spotId, startDate and endDate. */
  lemma NonOwnerSeesDatesOnly(spots: seq<Spot>, rows: seq<Booking>, spotId: nat, userId: nat)
    requires FindSpot(spots, spotId).Some? && FindSpot(spots, spotId).value.ownerId != userId
    ensures SpotBookings(spots, rows, spotId, userId).SpotBookingsList?
    ensures forall v :: v in SpotBookings(spots, rows, spotId, userId).bookings ==>
              v.Limited? && v.spotId == spotId &&
              exists b :: b in rows && b.spotId == spotId && b.startDate == v.startDate && b.endDate == v.endDate
    ensures forall b :: b in rows && b.spotId == spotId ==>
              Limited(spotId, b.startDate, b.endDate) in SpotBookings(spots, rows, spotId, userId).bookings
  {
    var bs := BookingsWhere(rows, SpotIdColumn, spotId);
    var vs := Views(bs, false);
    forall v | v in vs
      ensures v.Limited? && v.spotId == spotId &&
              exists b :: b in rows && b.spotId == spotId && b.startDate == v.startDate && b.endDate == v.endDate
    {
      var k :| 0 <= k < |vs| && vs[k] == v;
      assert bs[k] in bs;
    }
    forall b | b in rows && b.spotId == spotId
      ensures Limited(spotId, b.startDate, b.endDate) in vs
    {
      assert b in bs;
      var k :| 0 <= k < |bs| && bs[k] == b;
      assert vs[k] == Limited(spotId, b.startDate, b.endDate);
    }
  }

  // ---------------------------------------------------------------------------
  // GET /api/bookings/current
  // ---------------------------------------------------------------------------

  /** The Spot attributes the route includes, with `previewImage` in place of the SpotImages array. */
  datatype SpotSummary = SpotSummary(id: nat, ownerId: nat, address: string, city: string, state: string,
                                     country: string, name: string, previewImage: Option<string>)

  datatype BookingWithSpot = BookingWithSpot(booking: Booking, spot: SpotSummary)

  datatype CurrentResult = CurrentBookings(bookings: seq<BookingWithSpot>) | CurrentFailed
  {
    function Status(): nat
    {
      if CurrentFailed? then 500 else 200
    }
  }

  predicate IsPreviewOf(img: SpotImage, spotId: nat)
  {
    img.spotId == spotId && img.preview
  }

  /**
    `SpotImages[0]?.url || null` over the spot's preview images: the first one's
    url, or null when there is none or its url is the empty string.
   */
  function PreviewImage(images: seq<SpotImage>, spotId: nat): (r: Option<string>)
    ensures r.Some? ==> (r.value != "" &&
              exists k :: 0 <= k < |images| && IsPreviewOf(images[k], spotId) && images[k].url == r.value &&
                          forall j :: 0 <= j < k ==> !IsPreviewOf(images[j], spotId))
    ensures (forall k :: 0 <= k < |images| ==> !IsPreviewOf(images[k], spotId)) ==> r.None?
    ensures forall k :: 0 <= k < |images| && IsPreviewOf(images[k], spotId) &&
                        (forall j :: 0 <= j < k ==> !IsPreviewOf(images[j], spotId)) ==>
                          r == if images[k].url == "" then None else Some(images[k].url)
  {
    if images == [] then None
    else if IsPreviewOf(images[0], spotId) then (if images[0].url == "" then None else Some(images[0].url))
    else
      var r := PreviewImage(images[1..], spotId);
      assert r.Some? ==> exists k :: 0 <= k < |images| && IsPreviewOf(images[k], spotId) && images[k].url == r.value &&
                                     forall j :: 0 <= j < k ==> !IsPreviewOf(images[j], spotId) by {
        if r.Some? {
          var k :| 0 <= k < |images[1..]| && IsPreviewOf(images[1..][k], spotId) && images[1..][k].url == r.value &&
                   forall j :: 0 <= j < k ==> !IsPreviewOf(images[1..][j], spotId);
          assert forall j :: 0 <= j < k + 1 ==> !IsPreviewOf(images[j], spotId) by {
            forall j | 0 <= j < k + 1 ensures !IsPreviewOf(images[j], spotId) {
              if j > 0 { assert images[j] == images[1..][j - 1]; }
            }
          }
        }
      }
      r
  }

  /** The copy the route sends for one spot: its listed attributes and the preview image. */
  function Summary(spot: Spot, images: seq<SpotImage>): SpotSummary
  {
    SpotSummary(spot.id, spot.ownerId, spot.address, spot.city, spot.state, spot.country, spot.name,
                PreviewImage(images, spot.id))
  }

  /**
    GET /current exactly as bookings.js has it: `SpotImage` is never imported,
    so building the include throws inside the try block, before any query, and
    the catch answers 500 whatever the tables hold, even when the caller has no
    bookings or every booking's spot exists.
   */
  function CurrentBookingsAsWritten(rows: seq<Booking>, spots: seq<Spot>, images: seq<SpotImage>,
                                    userId: nat): (r: CurrentResult)
    ensures r.Status() == 500
  {
    CurrentFailed
  }

  // ---------------------------------------------------------------------------
  // The Bookings table
  // ---------------------------------------------------------------------------

  class BookingTable {
    var rows: seq<Booking>
    /** The next value of the auto-increment primary key. */
    var nextId: nat

    ghost predicate Valid()
      reads this
    {
      && (forall k :: 0 <= k < |rows| ==> rows[k].id < nextId)
      && (forall i, j :: 0 <= i < j < |rows| ==> rows[i].id != rows[j].id)
    }

    constructor ()
      ensures Valid() && rows == [] && nextId == 1
    {
      rows := [];
      nextId := 1;
    }

    /**
      The create handler after validation. A rejected request leaves the table
      as it was; an accepted one appends exactly one booking and keeps the
      table free of double bookings.
     */
    method CreateBooking(spots: seq<Spot>, spotId: nat, userId: nat, s: Day, e: Day) returns (r: CreateResult)
      requires Valid()
      modifies this
      ensures Valid()
      ensures r == CreateOutcome(spots, old(rows), old(nextId), spotId, userId, s, e)
      ensures rows == if r.Created? then old(rows) + [r.booking] else old(rows)
      ensures nextId == if r.Created? then old(nextId) + 1 else old(nextId)
      ensures old(NoDoubleBooking(rows)) ==> NoDoubleBooking(rows)
    {
      var spot := FindSpot(spots, spotId);
      if spot.None? {
        return SpotNotFound;
      }
      if spot.value.ownerId == userId {
        return CannotBookOwnSpot;
      }
      var conflict := FirstConflict(rows, spotId, s, e);
      if conflict.Some? {
        return AlreadyBooked;
      }
      var b := Booking(nextId, spotId, userId, s, e);
      if NoDoubleBooking(rows) {
        CreatePreservesNoDoubleBooking(spots, rows, nextId, spotId, userId, s, e);
      }
      rows := rows + [b];
      nextId := nextId + 1;
      r := Created(b);
    }

    /** POST /api/spots/:spotId/bookings: validateBooking, then the handler. */
    method PostBooking(spots: seq<Spot>, spotId: nat, userId: nat, req: DateRequest,
                       parseDate: string -> Option<Day>) returns (r: CreateResult)
      requires Valid()
      modifies this
      ensures Valid()
      ensures r == PostOutcome(spots, old(rows), old(nextId), spotId, userId, req, parseDate)
      ensures rows == if r.Created? then old(rows) + [r.booking] else old(rows)
      ensures nextId == if r.Created? then old(nextId) + 1 else old(nextId)
    {
      var errs := BookingErrors(req, parseDate);
      var calls := Validation.HandleValidationErrors(errs);
      if calls[0].WithError? {
        return Rejected(calls[0].err);
      }
      r := CreateBooking(spots, spotId, userId, parseDate(req.startDate.value).value,
                         parseDate(req.endDate.value).value);
    }

    /**
      GET /api/bookings/current with the imports in place: the caller's bookings
      in table order, each with its spot's summary; 500 when a booking's spot is
      missing (the include then yields null and reading its images throws).
     */
    method GetCurrentBookings(spots: seq<Spot>, images: seq<SpotImage>, userId: nat) returns (r: CurrentResult)
      ensures r.CurrentFailed? <==>
                exists k :: 0 <= k < |BookingsWhere(rows, UserIdColumn, userId)| &&
                            FindSpot(spots, BookingsWhere(rows, UserIdColumn, userId)[k].spotId).None?
      ensures r.CurrentBookings? ==>
                && |r.bookings| == |BookingsWhere(rows, UserIdColumn, userId)|
                && forall k :: 0 <= k < |r.bookings| ==>
                     && r.bookings[k].booking == BookingsWhere(rows, UserIdColumn, userId)[k]
                     && r.bookings[k].booking.userId == userId
                     && FindSpot(spots, r.bookings[k].booking.spotId).Some?
                     && r.bookings[k].spot == Summary(FindSpot(spots, r.bookings[k].booking.spotId).value, images)
    {
      var mine := BookingsWhere(rows, UserIdColumn, userId);
      var out: seq<BookingWithSpot> := [];
      for i := 0 to |mine|
        invariant |out| == i
        invariant forall k :: 0 <= k < i ==> FindSpot(spots, mine[k].spotId).Some?
        invariant forall k :: 0 <= k < i ==>
                    out[k] == BookingWithSpot(mine[k], Summary(FindSpot(spots, mine[k].spotId).value, images))
      {
        var spot := FindSpot(spots, mine[i].spotId);
        if spot.None? {
          assert 0 <= i < |BookingsWhere(rows, UserIdColumn, userId)| && FindSpot(spots, BookingsWhere(rows, UserIdColumn, userId)[i].spotId).None?;
          return CurrentFailed;
        }
        out := out + [BookingWithSpot(mine[i], Summary(spot.value, images))];
      }
      r := CurrentBookings(out);
    }
  }
}
