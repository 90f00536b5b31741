/** The VIN decoding function (netlify/functions/vin-decode.js): a cleaned VIN
    is checked for length and for the letters I, O and Q, then looked up by
    its first eight characters; an unknown VIN gets a generated car, which
    the model takes as a parameter. */
module VinServer {
  import opened Json
  import opened Text
  import opened VinText

  const BMW_328I := Car("BMW", "328i", 2011, "#1C1C1C", "Sedan", "3.0L I6")
  const BMW_M3 := Car("BMW", "M3", 2016, "#FFFFFF", "Sedan", "3.0L Twin-Turbo I6")
  const BMW_M4 := Car("BMW", "M4", 2023, "#0066B1", "Coupe", "3.0L Twin-Turbo I6")
  const MERCEDES_C63 := Car("Mercedes-Benz", "C63 AMG", 2022, "#1C1C1C", "Sedan", "4.0L Twin-Turbo V8")
  const MERCEDES_GLE := Car("Mercedes-Benz", "GLE 450", 2023, "#FFFFFF", "SUV", "3.0L Turbo I6")
  const MERCEDES_E := Car("Mercedes-Benz", "E-Class", 2021, "#2C2C2C", "Sedan", "2.0L Turbo I4")
  const PORSCHE_911 := Car("Porsche", "911 Carrera", 2023, "#C0C0C0", "Coupe", "3.0L Twin-Turbo Flat-6")
  const PORSCHE_CAYENNE := Car("Porsche", "Cayenne", 2022, "#1C1C1C", "SUV", "3.0L Turbo V6")
  const PORSCHE_CAYMAN := Car("Porsche", "718 Cayman", 2023, "#FF0000", "Coupe", "2.0L Turbo Flat-4")
  const AUDI_RS6 := Car("Audi", "RS6 Avant", 2023, "#2C2C2C", "Wagon", "4.0L Twin-Turbo V8")
  const AUDI_R8 := Car("Audi", "R8", 2022, "#B22222", "Coupe", "5.2L V10")
  const AUDI_A6 := Car("Audi", "A6", 2023, "#FFFFFF", "Sedan", "3.0L Turbo V6")
  const RANGE_ROVER_SPORT := Car("Land Rover", "Range Rover Sport", 2023, "#1C1C1C", "SUV", "3.0L Turbo I6")
  const RANGE_ROVER := Car("Land Rover", "Range Rover", 2024, "#FFFFFF", "SUV", "4.4L Twin-Turbo V8")
  const HURACAN := Car("Lamborghini", "Hurac\U{00E1}n", 2023, "#FFD700", "Coupe", "5.2L V10")
  const URUS := Car("Lamborghini", "Urus", 2023, "#FF6B00", "SUV", "4.0L Twin-Turbo V8")
  const FERRARI_488 := Car("Ferrari", "488 GTB", 2019, "#FF2800", "Coupe", "3.9L Twin-Turbo V8")
  const FERRARI_ROMA := Car("Ferrari", "Roma", 2023, "#1C1C1C", "Coupe", "3.9L Twin-Turbo V8")

  /** The server's car database. */
  const CarDatabase: map<string, Car> := map[
    "WBAPH5C55BA" := BMW_328I, "WBAPH5C55BA012345" := BMW_328I,
    "WBA8E9C50GK" := BMW_M3, "WBA8E9C50GK234567" := BMW_M3,
    "WBSWD935" := BMW_M4, "WBSWD9350PS123456" := BMW_M4,
    "WDDGF81X" := MERCEDES_C63, "WDDGF81X5NF123456" := MERCEDES_C63,
    "WDC0G4KB" := MERCEDES_GLE, "WDDWJ8EB" := MERCEDES_E,
    "WP0AB2A7" := PORSCHE_911, "WP0AB2A79PS167890" := PORSCHE_911,
    "WP1AA2AY" := PORSCHE_CAYENNE, "WP1AA2AY4MLA12345" := PORSCHE_CAYENNE,
    "WP0CA2A8" := PORSCHE_CAYMAN, "WP0CA2A88NS123456" := PORSCHE_CAYMAN,
    "WAUDFAFL" := AUDI_RS6, "WAUDFAFL5PA123456" := AUDI_RS6,
    "WAUZZZF1" := AUDI_R8, "WAUZZZF15MA234567" := AUDI_R8,
    "WAUENAF4" := AUDI_A6,
    "SALGS2SE" := RANGE_ROVER_SPORT, "SALGS2SE5PA123456" := RANGE_ROVER_SPORT,
    "SALWR2RU" := RANGE_ROVER,
    "ZHWUC1ZF" := HURACAN, "ZHWUC1ZF5PLA12345" := HURACAN,
    "ZHWUR1ZF" := URUS,
    "ZFF76ZFA" := FERRARI_488,
    "ZFF82CLA" := FERRARI_ROMA, "ZFF82CLA5NA123456" := FERRARI_ROMA]

  const TooShort: string := "VIN invalide: Minimum 8 caract\U{00E8}res requis"
  const TooLong: string := "VIN invalide: Maximum 17 caract\U{00E8}res"
  const ForbiddenLetters: string := "VIN invalide: Les lettres I, O, Q ne sont pas autoris\U{00E9}es"

  /** `/[IOQ]/.test(s)`. */
  predicate HasForbiddenLetter(s: string) {
    exists i :: 0 <= i < |s| && s[i] in "IOQ"
  }

  /** `decodeVIN`'s result: an error, or the cleaned VIN with the car's
      fields, `decoded: true` and the timestamp. */
  datatype DecodeResult =
    | VinError(error: string)
    | Decoded(vin: string, car: Car, decoded: bool, timestamp: string)

  /** The database key the lookup uses, when there is an entry under it. */
  function MatchedKey(clean: string): (k: Option<string>)
    ensures k.Some? ==> |clean| >= 8 && k.value in CarDatabase && k.value == clean[..8]
  {
    if |clean| >= 8 && clean[..8] in CarDatabase then Some(clean[..8]) else None
  }

  /** `decodeVIN(vin)`; `generated` is what the random generator would
      return and `timestamp` the clock's ISO text. */
  function Decode(vin: string, generated: Car, timestamp: string): (r: DecodeResult)
    ensures var c := Clean(vin);
      r.Decoded? ==> (r.vin == c && r.decoded && r.timestamp == timestamp &&
        (MatchedKey(c).Some? ==> r.car == CarDatabase[MatchedKey(c).value]) &&
        (MatchedKey(c).None? ==> r.car == generated))
  {
    var c := Clean(vin);
    if |c| < 8 then VinError(TooShort)
    else if |c| > 17 then VinError(TooLong)
    else if HasForbiddenLetter(c) then VinError(ForbiddenLetters)
    else
      var prefix := c[..8];
      var car := if prefix in CarDatabase then CarDatabase[prefix] else generated;
      Decoded(c, car, true, timestamp)
  }

  /** The checks come in a fixed order; the first one that fails decides the
      message, and a VIN passing all three is decoded. */
  lemma DecodeOutcome(vin: string, generated: Car, timestamp: string)
    ensures var c := Clean(vin); var r := Decode(vin, generated, timestamp);
      (|c| < 8 <==> r == VinError(TooShort)) &&
      (8 <= |c| && |c| > 17 <==> r == VinError(TooLong)) &&
      (8 <= |c| <= 17 && HasForbiddenLetter(c) <==> r == VinError(ForbiddenLetters)) &&
      (r.Decoded? <==> 8 <= |c| <= 17 && !HasForbiddenLetter(c))
  {
  }

  /** The keys that are not eight characters long, such as "WBAPH5C55BA" or
      "WBSWD9350PS123456", are never used. */
  lemma OnlyEightCharacterKeysMatch(vin: string)
    ensures MatchedKey(Clean(vin)).Some? ==> |MatchedKey(Clean(vin)).value| == 8
  {
  }

  /** A decoded VIN has its database car or the generated one, and any
      character outside the VIN alphabet has been removed. */
  lemma DecodedVinIsClean(vin: string, generated: Car, timestamp: string)
    requires Decode(vin, generated, timestamp).Decoded?
    ensures var r := Decode(vin, generated, timestamp);
      AllVinChars(r.vin) && 8 <= |r.vin| <= 17 && !HasForbiddenLetter(r.vin)
  {
    CleanChars(vin);
  }

  /** A seeded VIN: the full Porsche 911 VIN is found under its first eight characters. */
  lemma SeedPorsche(vin: string, generated: Car, timestamp: string)
    requires vin == "WP0AB2A7" + "9PS167890"
    ensures Decode(vin, generated, timestamp) == Decoded(vin, PORSCHE_911, true, timestamp)
  {
    assert |vin| == 17;
    assert AllVinChars(vin);
    CleanFixesVinText(vin);
    assert !HasForbiddenLetter(vin);
    assert vin[..8] == "WP0AB2A7";
  }

  // ---------------------------------------------------------------------------
  // The handler
  // ---------------------------------------------------------------------------

  /** The request body: none, text that is not JSON, or a JSON value. */
  datatype Body = NoBody | Malformed | Json(value: Value)

  datatype Event = Event(httpMethod: string, body: Body, query: Option<map<string, string>>)

  datatype Response =
    | Preflight
    | VinRequired
    | Rejected(result: DecodeResult)
    | Success(result: DecodeResult)
    | Failed

  function StatusCode(r: Response): int {
    match r
    case Preflight => 200
    case VinRequired => 400
    case Rejected(_) => 400
    case Success(_) => 200
    case Failed => 500
  }

  /** The `vin` the handler reads: `body.vin` for POST (an absent body is
      `{}`), `?vin` otherwise; None where reading it throws (a body that is
      not JSON, or `null`). */
  function RequestVin(e: Event): (r: Option<Value>)
    ensures r.None? <==> e.httpMethod == "POST" && (e.body.Malformed? || (e.body.Json? && IsNullish(e.body.value)))
    ensures e.httpMethod != "POST" ==> r.Some? && (r.value.Str? || r.value.Undefined?)
    ensures e.httpMethod != "POST" && r.value.Str? ==> e.query.Some? && "vin" in e.query.value && r.value.s == e.query.value["vin"]
  {
    if e.httpMethod == "POST" then
      match e.body
      case NoBody => Some(Undefined)
      case Malformed => None
      case Json(v) => if IsNullish(v) then None else Some(Field(v, "vin"))
    else
      match e.query
      case None => Some(Undefined)
      case Some(q) => Some(if "vin" in q then Str(q["vin"]) else Undefined)
  }

  /** `handler(event)`. A truthy `vin` that is not a string has no
      `toUpperCase`, so decoding it throws and gives 500. */
  function Handle(e: Event, generated: Car, timestamp: string): (r: Response)
    ensures e.httpMethod == "OPTIONS" ==> r == Preflight
    ensures e.httpMethod != "OPTIONS" && RequestVin(e).None? ==> r == Failed
    ensures e.httpMethod != "OPTIONS" && RequestVin(e).Some? && !Truthy(RequestVin(e).value) ==> r == VinRequired
    ensures r.Rejected? || r.Success? ==> (RequestVin(e).Some? && RequestVin(e).value.Str? &&
      r.result == Decode(RequestVin(e).value.s, generated, timestamp))
    ensures r.Rejected? ==> r.result.VinError?
    ensures r.Success? ==> r.result.Decoded?
  {
    if e.httpMethod == "OPTIONS" then Preflight
    else
      match RequestVin(e)
      case None => Failed
      case Some(vin) =>
        if !Truthy(vin) then VinRequired
        else if !vin.Str? then Failed
        else
          var result := Decode(vin.s, generated, timestamp);
          if result.VinError? then Rejected(result) else Success(result)
  }

  /** 400 exactly for a missing VIN or one `decodeVIN` rejects; 200 for a
      decoded one. */
  lemma HandleStatus(e: Event, generated: Car, timestamp: string)
    requires e.httpMethod != "OPTIONS"
    ensures var r := Handle(e, generated, timestamp);
      StatusCode(r) == 400 <==> (RequestVin(e).Some? &&
        (!Truthy(RequestVin(e).value) ||
         (RequestVin(e).value.Str? && Decode(RequestVin(e).value.s, generated, timestamp).VinError?)))
    ensures var r := Handle(e, generated, timestamp);
      StatusCode(r) == 200 <==> (RequestVin(e).Some? && RequestVin(e).value.Str? &&
        RequestVin(e).value.s != "" && Decode(RequestVin(e).value.s, generated, timestamp).Decoded?)
  {
  }
}
