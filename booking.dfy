/** The booking function (netlify/functions/booking.js): three fixed studio
    locations, six canonical daily slots, a deterministic "booked" pattern
    derived from a hash of location and date, and the request router that
    lists locations, answers availability queries and accepts bookings. */
module Booking {
  import opened Json
  import opened Text
  import opened Lists

  datatype Location = Location(id: string, name: string, address: string, phone: string, hours: string, timezone: string)

  const Timezone: string := "Africa/Casablanca"

  const Locations: seq<Location> := [
    Location("casa", "Casablanca Flagship", "123 Boulevard Mohammed V, Casablanca",
             "+212 522 123 456", "09:00 - 18:00", Timezone),
    Location("marrakech", "Marrakech Studio", "45 Avenue Mohammed VI, Gu\U{00E9}liz, Marrakech",
             "+212 524 987 654", "09:00 - 18:00", Timezone),
    Location("tangier", "Tangier Workshop", "78 Rue de F\U{00E8}s, Tangier",
             "+212 539 456 789", "09:00 - 18:00", Timezone)
  ]

  /** The six canonical appointment slots of a day. */
  const AllSlots: seq<string> := ["09:00", "10:00", "11:00", "14:00", "15:00", "16:00"]

  // ---------------------------------------------------------------------------
  // The slot hash
  // ---------------------------------------------------------------------------

  const TwoTo31: int := 0x8000_0000
  const TwoTo32: int := 0x1_0000_0000

  /** ECMAScript ToInt32 on an integer: the value modulo 2^32, read as signed. */
  function ToInt32(x: int): (r: int)
    ensures -TwoTo31 <= r < TwoTo31
    ensures r == x - ((x + TwoTo31) / TwoTo32) * TwoTo32
    ensures -TwoTo31 <= x < TwoTo31 ==> r == x
  {
    (x + TwoTo31) % TwoTo32 - TwoTo31
  }

  /** One step of the reducer `((a << 5) - a) + code`: only the shift wraps to
      32 bits; the subtraction and the addition are exact. */
  function HashStep(a: int, code: int): int {
    ToInt32(ToInt32(a) * 32) - a + code
  }

  /** The reduction over the code units, from the left, starting at 0. */
  function HashUnits(units: seq<int>): int {
    if units == [] then 0 else HashStep(HashUnits(units[..|units| - 1]), units[|units| - 1])
  }

  /** The hash of `locationId + date` over its UTF-16 code units. */
  function SlotHash(locationId: string, date: string): int {
    HashUnits(Utf16(locationId + date))
  }

  /** The familiar 32-bit rolling hash `h = (31 * h + code) | 0`. */
  function WrappedHash(units: seq<int>): (r: int)
    ensures -TwoTo31 <= r < TwoTo31
  {
    if units == [] then 0 else ToInt32(31 * WrappedHash(units[..|units| - 1]) + units[|units| - 1])
  }

  lemma ToInt32Shift(x: int, k: int)
    ensures ToInt32(x + k * TwoTo32) == ToInt32(x)
  {
    var q := (x + TwoTo31) / TwoTo32;
    var r := (x + TwoTo31) % TwoTo32;
    assert x + k * TwoTo32 + TwoTo31 == (q + k) * TwoTo32 + r;
    ModOfSplit(x + k * TwoTo32 + TwoTo31, q + k, r);
  }

  /** Euclidean division is unique: a quotient and an in-range remainder
      determine the remainder. */
  lemma ModOfSplit(a: int, q: int, r: int)
    requires a == q * TwoTo32 + r && 0 <= r < TwoTo32
    ensures a % TwoTo32 == r
  {
  }

  /** The hash the code computes can leave the 32-bit range, but it agrees
      with the wrapped 32-bit rolling hash modulo 2^32. */
  lemma {:induction false} HashUnitsWraps(units: seq<int>)
    ensures ToInt32(HashUnits(units)) == WrappedHash(units)
  {
    if units != [] {
      var init := units[..|units| - 1];
      var c := units[|units| - 1];
      HashUnitsWraps(init);
      var a := HashUnits(init);
      var j := WrappedHash(init);
      var w1 := (32 * j + TwoTo31) / TwoTo32;
      var w2 := (a + TwoTo31) / TwoTo32;
      assert ToInt32(32 * j) == 32 * j - w1 * TwoTo32;
      assert a == j + w2 * TwoTo32;
      assert HashStep(a, c) == (31 * j + c) + (-(w1 + w2)) * TwoTo32;
      ToInt32Shift(31 * j + c, -(w1 + w2));
    }
  }

  // ---------------------------------------------------------------------------
  // Booked and available slots
  // ---------------------------------------------------------------------------

  /** Slot `i` is booked when `(hash + i) % 3 === 0`. JavaScript's remainder
      truncates, but it is zero exactly when the Euclidean one is. */
  predicate IsBooked(h: int, i: int) {
    (h + i) % 3 == 0
  }

  /** The booked slots among the first `n` canonical slots, in order. */
  function BookedPrefix(h: int, n: nat): seq<string>
    requires n <= |AllSlots|
  {
    if n == 0 then []
    else BookedPrefix(h, n - 1) + (if IsBooked(h, n - 1) then [AllSlots[n - 1]] else [])
  }

  lemma BookedNext(h: int, i: nat)
    requires i < |AllSlots|
    ensures BookedPrefix(h, i + 1) == BookedPrefix(h, i) + (if (h + i) % 3 == 0 then [AllSlots[i]] else [])
  {
  }

  function BookedSlots(locationId: string, date: string): seq<string> {
    BookedPrefix(SlotHash(locationId, date), |AllSlots|)
  }

  function AvailableSlots(locationId: string, date: string): seq<string> {
    Without(AllSlots, BookedSlots(locationId, date))
  }

  /** `getBookedSlots`: the hash, then the loop over the six slots. */
  method GetBookedSlots(locationId: string, date: string) returns (slots: seq<string>)
    ensures slots == BookedSlots(locationId, date)
    ensures forall i :: 0 <= i < |AllSlots| ==>
      (AllSlots[i] in slots <==> IsBooked(SlotHash(locationId, date), i))
  {
    var hash := SlotHash(locationId, date);
    slots := [];
    var i := 0;
    while i < |AllSlots|
      invariant 0 <= i <= |AllSlots|
      invariant slots == BookedPrefix(hash, i)
    {
      BookedNext(hash, i);
      if (hash + i) % 3 == 0 {
        slots := slots + [AllSlots[i]];
      }
      i := i + 1;
    }
    BookedMembership(hash);
  }

  /** `getAvailableSlots`: the canonical slots minus the booked ones. */
  method GetAvailableSlots(locationId: string, date: string) returns (available: seq<string>)
    ensures available == AvailableSlots(locationId, date)
    ensures forall t :: t in available <==> t in AllSlots && t !in BookedSlots(locationId, date)
    ensures IsSublist(available, AllSlots)
  {
    var booked := GetBookedSlots(locationId, date);
    available := Without(AllSlots, booked);
    WithoutIsSublist(AllSlots, booked);
    forall t
      ensures t in available <==> t in AllSlots && t !in BookedSlots(locationId, date)
    {
      WithoutMembers(AllSlots, booked, t);
    }
  }

  /** The hash decides the pattern only through its residue modulo 3: every
      day at every location has exactly two booked and four free slots, in one
      of three arrangements. */
  lemma BookedPattern(h: int)
    ensures BookedPrefix(h, |AllSlots|) ==
      if h % 3 == 0 then ["09:00", "14:00"]
      else if h % 3 == 1 then ["11:00", "16:00"]
      else ["10:00", "15:00"]
  {
    BookedSix(h);
    assert IsBooked(h, 0) <==> h % 3 == 0;
    assert IsBooked(h, 1) <==> h % 3 == 2;
    assert IsBooked(h, 2) <==> h % 3 == 1;
    assert IsBooked(h, 3) <==> h % 3 == 0;
    assert IsBooked(h, 4) <==> h % 3 == 2;
    assert IsBooked(h, 5) <==> h % 3 == 1;
  }

  /** A slot is booked exactly when the hash marks it. */
  lemma BookedMembership(h: int)
    ensures forall i :: 0 <= i < |AllSlots| ==>
      (AllSlots[i] in BookedPrefix(h, |AllSlots|) <==> IsBooked(h, i))
  {
    BookedPattern(h);
    assert AllSlots[0][1] == '9' && AllSlots[1][1] == '0' && AllSlots[2][1] == '1';
    assert AllSlots[3][1] == '4' && AllSlots[4][1] == '5' && AllSlots[5][1] == '6';
  }

  /** Slot `i` as it is added to the booked list. */
  function BookedAt(h: int, i: nat): seq<string>
    requires i < |AllSlots|
  {
    if IsBooked(h, i) then [AllSlots[i]] else []
  }

  lemma BookedSix(h: int)
    ensures BookedPrefix(h, |AllSlots|) ==
      BookedAt(h, 0) + BookedAt(h, 1) + BookedAt(h, 2) + BookedAt(h, 3) + BookedAt(h, 4) + BookedAt(h, 5)
  {
    assert BookedPrefix(h, 0) == [];
    var w0 := BookedPrefix(h, 1);
    var w1 := BookedPrefix(h, 2);
    var w2 := BookedPrefix(h, 3);
    var w3 := BookedPrefix(h, 4);
    var w4 := BookedPrefix(h, 5);
    assert w0 == BookedAt(h, 0);
    assert w1 == w0 + BookedAt(h, 1);
    assert w2 == w1 + BookedAt(h, 2);
    assert w3 == w2 + BookedAt(h, 3);
    assert w4 == w3 + BookedAt(h, 4);
  }

  /** `[x]` unless `x` is one of `ys`. */
  function Kept(x: string, ys: seq<string>): seq<string> {
    if x in ys then [] else [x]
  }

  /** One more element of `xs`, from a known `Without` of the shorter prefix. */
  lemma WithoutNext(xs: seq<string>, ys: seq<string>, n: nat, w: seq<string>)
    requires n < |xs| && Without(xs[..n], ys) == w
    ensures Without(xs[..n + 1], ys) == w + Kept(xs[n], ys)
  {
    WithoutStep(xs, ys, n);
  }

  /** `Without` over a list of six, element by element. */
  lemma WithoutSix(xs: seq<string>, ys: seq<string>)
    requires |xs| == 6
    ensures Without(xs, ys) ==
      Kept(xs[0], ys) + Kept(xs[1], ys) + Kept(xs[2], ys) + Kept(xs[3], ys) + Kept(xs[4], ys) + Kept(xs[5], ys)
  {
    assert xs[..0] == [];
    var w0 := Kept(xs[0], ys);
    WithoutNext(xs, ys, 0, []);
    var w1 := w0 + Kept(xs[1], ys);
    WithoutNext(xs, ys, 1, w0);
    var w2 := w1 + Kept(xs[2], ys);
    WithoutNext(xs, ys, 2, w1);
    var w3 := w2 + Kept(xs[3], ys);
    WithoutNext(xs, ys, 3, w2);
    var w4 := w3 + Kept(xs[4], ys);
    WithoutNext(xs, ys, 4, w3);
    WithoutNext(xs, ys, 5, w4);
    assert xs[..6] == xs;
  }

  /** The canonical slots without one of the three booked pairs. */
  lemma WithoutPair(ys: seq<string>, keep: seq<string>)
    requires (ys == ["09:00", "14:00"] && keep == ["10:00", "11:00", "15:00", "16:00"]) ||
             (ys == ["11:00", "16:00"] && keep == ["09:00", "10:00", "14:00", "15:00"]) ||
             (ys == ["10:00", "15:00"] && keep == ["09:00", "11:00", "14:00", "16:00"])
    ensures Without(AllSlots, ys) == keep
  {
    WithoutSix(AllSlots, ys);
    assert AllSlots[0][1] == '9' && AllSlots[1][1] == '0' && AllSlots[2][1] == '1';
    assert AllSlots[3][1] == '4' && AllSlots[4][1] == '5' && AllSlots[5][1] == '6';
  }

  /** The free slots of a location and date in each of the three arrangements. */
  lemma AvailablePattern(locationId: string, date: string)
    ensures var h := SlotHash(locationId, date);
      AvailableSlots(locationId, date) ==
        if h % 3 == 0 then ["10:00", "11:00", "15:00", "16:00"]
        else if h % 3 == 1 then ["09:00", "10:00", "14:00", "15:00"]
        else ["09:00", "11:00", "14:00", "16:00"]
    ensures |AvailableSlots(locationId, date)| == 4 && |BookedSlots(locationId, date)| == 2
  {
    var h := SlotHash(locationId, date);
    BookedPattern(h);
    if h % 3 == 0 {
      WithoutPair(BookedSlots(locationId, date), ["10:00", "11:00", "15:00", "16:00"]);
    } else if h % 3 == 1 {
      WithoutPair(BookedSlots(locationId, date), ["09:00", "10:00", "14:00", "15:00"]);
    } else {
      WithoutPair(BookedSlots(locationId, date), ["09:00", "11:00", "14:00", "16:00"]);
    }
  }

  // ---------------------------------------------------------------------------
  // The HTTP handler
  // ---------------------------------------------------------------------------

  /** The fields of a booking request. `locationId`, `date` and `time` are
      the empty string when absent (both are falsy). */
  datatype BookRequest = BookRequest(locationId: string, date: string, time: string,
                                     customer: Value, quoteId: Value, vehicle: Value)

  /** `JSON.parse(event.body || '{}')`: text that does not parse, or parses to
      `null`, is Malformed. */
  datatype Body = Malformed | Parsed(request: BookRequest)

  /** The event; `query` is None when `queryStringParameters` is null. */
  datatype Event = Event(httpMethod: string, path: string, query: Option<map<string, string>>, body: Body)

  datatype Appointment = Appointment(date: string, time: string, datetime: string)

  datatype Customer = Customer(name: Value, email: Value, phone: Value)

  /** A confirmed booking; `createdAt` is the clock reading in milliseconds. */
  datatype BookingRecord = BookingRecord(
    id: string, confirmationCode: string, createdAt: int, status: string, location: Location,
    appointment: Appointment, customer: Customer, vehicle: Value, quoteId: Value)

  datatype Response =
    | Preflight
    | LocationList(locations: seq<Location>)
    | Availability(location: string, date: string, availableSlots: seq<string>, timezone: string)
    | BadRequest(error: string)
    | Created(booking: BookingRecord)
    | Failed
    | NotFound

  function StatusCode(r: Response): int {
    match r
    case Preflight => 200
    case LocationList(_) => 200
    case Availability(_, _, _, _) => 200
    case BadRequest(_) => 400
    case Created(_) => 201
    case Failed => 500
    case NotFound => 404
  }

  const FunctionPrefix: string := "/.netlify/functions/booking"

  /** `locations.find(l => l.id === id)`. */
  function FindLocation(id: string): (r: Option<Location>)
    ensures r.Some? <==> exists i :: 0 <= i < |Locations| && Locations[i].id == id
    ensures r.Some? ==> r.value in Locations && r.value.id == id
  {
    if id == "casa" then Some(Locations[0])
    else if id == "marrakech" then Some(Locations[1])
    else if id == "tangier" then Some(Locations[2])
    else None
  }

  /** The confirmation code: "AAW" and six characters of the base-36 text of
      a random number (`random36` is that text, e.g. "0.k3j9x2m1p"). */
  function ConfirmationCode(random36: string): string {
    "AAW" + ToUpper(Substring(random36, 2, 8))
  }

  function Query(e: Event, key: string): string {
    if e.query.Some? && key in e.query.value then e.query.value[key] else ""
  }

  /** The handler; `now` is the clock in milliseconds and `random36` the text
      of the random number. */
  method Handle(e: Event, now: nat, random36: string) returns (r: Response)
    ensures e.httpMethod == "OPTIONS" ==> r == Preflight
    ensures e.httpMethod != "OPTIONS" && e.httpMethod != "GET" && e.httpMethod != "POST" ==> r == NotFound
    ensures e.httpMethod == "GET" ==>
      var p := ReplaceFirst(e.path, FunctionPrefix, "");
      if p == "" || p == "/locations" then r == LocationList(Locations)
      else if p == "/availability" then
        (if Query(e, "location") == "" || Query(e, "date") == "" then r == BadRequest("Location and date required")
         else r == Availability(Query(e, "location"), Query(e, "date"),
                                AvailableSlots(Query(e, "location"), Query(e, "date")), Timezone))
      else r == NotFound
    ensures e.httpMethod == "POST" ==>
      if e.body.Malformed? then r == Failed
      else
        var b := e.body.request;
        if b.locationId == "" || b.date == "" || b.time == "" || !Truthy(b.customer) then
          r == BadRequest("Missing required fields")
        else if FindLocation(b.locationId).None? then r == BadRequest("Invalid location")
        else if b.time !in AvailableSlots(b.locationId, b.date) then r == BadRequest("Time slot not available")
        else r == Created(BookingRecord(
          "BK-" + NatToString(now), ConfirmationCode(random36), now, "confirmed",
          FindLocation(b.locationId).value,
          Appointment(b.date, b.time, b.date + "T" + b.time + ":00"),
          Customer(Field(b.customer, "name"), Field(b.customer, "email"), Field(b.customer, "phone")),
          Or(b.vehicle, Obj(map[])), Or(b.quoteId, Null)))
  {
    if e.httpMethod == "OPTIONS" {
      return Preflight;
    }
    var path := ReplaceFirst(e.path, FunctionPrefix, "");
    if e.httpMethod == "GET" && (path == "" || path == "/locations") {
      return LocationList(Locations);
    }
    if e.httpMethod == "GET" && path == "/availability" {
      var location := Query(e, "location");
      var date := Query(e, "date");
      if location == "" || date == "" {
        return BadRequest("Location and date required");
      }
      var available := GetAvailableSlots(location, date);
      return Availability(location, date, available, Timezone);
    }
    if e.httpMethod == "POST" {
      if e.body.Malformed? {
        return Failed;
      }
      var b := e.body.request;
      if b.locationId == "" || b.date == "" || b.time == "" || !Truthy(b.customer) {
        return BadRequest("Missing required fields");
      }
      var location := FindLocation(b.locationId);
      if location.None? {
        return BadRequest("Invalid location");
      }
      var available := GetAvailableSlots(b.locationId, b.date);
      if b.time !in available {
        return BadRequest("Time slot not available");
      }
      var booking := BookingRecord(
        "BK-" + NatToString(now), ConfirmationCode(random36), now, "confirmed", location.value,
        Appointment(b.date, b.time, b.date + "T" + b.time + ":00"),
        Customer(Field(b.customer, "name"), Field(b.customer, "email"), Field(b.customer, "phone")),
        Or(b.vehicle, Obj(map[])), Or(b.quoteId, Null));
      return Created(booking);
    }
    return NotFound;
  }

  /** A time is offered exactly when it is one of the canonical slots whose
      index the hash does not mark as booked; the availability query and the
      booking check use this same answer, so they never disagree. */
  lemma AvailableIffNotBooked(locationId: string, date: string, time: string)
    ensures time in AvailableSlots(locationId, date) <==>
      exists i :: 0 <= i < |AllSlots| && AllSlots[i] == time && !IsBooked(SlotHash(locationId, date), i)
  {
    var h := SlotHash(locationId, date);
    BookedMembership(h);
    WithoutMembers(AllSlots, BookedSlots(locationId, date), time);
  }
}
