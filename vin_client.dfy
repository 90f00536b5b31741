/** The browser's VIN decoder (src/utils/vinDecoder.js): a cleaned VIN of at
    least eight characters is matched against the database keys in
    declaration order by prefix; there is no upper length limit and no check
    of the letters I, O and Q. An unknown VIN gets a generated car, which the
    model takes as a parameter. */
module VinClient {
  import opened Json
  import opened Text
  import opened VinText
  import VinServer

  /** The client's car database, in declaration order. */
  const CarDatabase: seq<(string, Car)> := [
    ("WBAPH5C55BA", VinServer.BMW_328I),
    ("WBA8E9C50GK", VinServer.BMW_M3),
    ("WBSWD935", VinServer.BMW_M4),
    ("WDDGF81X", VinServer.MERCEDES_C63),
    ("WDC0G4KB", VinServer.MERCEDES_GLE),
    ("WP0AB2A7", VinServer.PORSCHE_911),
    ("WP1AA2AY", VinServer.PORSCHE_CAYENNE),
    ("WAUDFAFL", VinServer.AUDI_RS6),
    ("WAUZZZF1", VinServer.AUDI_R8),
    ("ZFF76ZFA", VinServer.FERRARI_488),
    ("ZHWUC1ZF", VinServer.HURACAN)]

  const TooShort: string := "Le VIN doit comporter au moins 8 caract\U{00E8}res"

  predicate IsPrefix(p: string, s: string) {
    |p| <= |s| && s[..|p|] == p
  }

  /** `Object.entries(carDatabase).find(([key]) => vin.startsWith(key))`:
      the index of the first entry whose key starts the VIN. */
  function FindPrefix(db: seq<(string, Car)>, vin: string): (r: Option<nat>)
    ensures r.Some? ==> r.value < |db| && IsPrefix(db[r.value].0, vin)
    ensures r.Some? ==> forall j :: 0 <= j < r.value ==> !IsPrefix(db[j].0, vin)
    ensures r.None? ==> forall j :: 0 <= j < |db| ==> !IsPrefix(db[j].0, vin)
  {
    if db == [] then None
    else if IsPrefix(db[0].0, vin) then Some(0)
    else
      match FindPrefix(db[1..], vin)
      case None => None
      case Some(i) => Some(i + 1)
  }

  /** `carDatabase[key]`: the first entry under `key` (the keys are distinct). */
  function Lookup(db: seq<(string, Car)>, key: string): (r: Option<Car>)
    ensures r.Some? ==> exists j :: 0 <= j < |db| && db[j] == (key, r.value)
    ensures r.None? ==> forall j :: 0 <= j < |db| ==> db[j].0 != key
  {
    if db == [] then None
    else if db[0].0 == key then Some(db[0].1)
    else
      var r := Lookup(db[1..], key);
      if r.Some? then
        var j :| 0 <= j < |db[1..]| && db[1..][j] == (key, r.value);
        assert db[j + 1] == (key, r.value);
        r
      else r
  }

  datatype DecodeResult = Decoded(vin: string, car: Car, decoded: bool, timestamp: string)

  /** The car the code as written picks: the `find`, then the lookup under
      the first eight characters, then the generated car. */
  function ChosenCar(clean: string, generated: Car): Car
    requires |clean| >= 8
  {
    match FindPrefix(CarDatabase, clean)
    case Some(i) => CarDatabase[i].1
    case None =>
      match Lookup(CarDatabase, clean[..8])
      case Some(car) => car
      case None => generated
  }

  /** `decodeVIN(vin)`: throws (Err) for fewer than eight characters. */
  function Decode(vin: string, generated: Car, timestamp: string): (r: Result<DecodeResult, string>)
    ensures r.Err? <==> |Clean(vin)| < 8
    ensures r.Err? ==> r.error == TooShort
    ensures r.Ok? ==> r.value.vin == Clean(vin) && r.value.decoded && r.value.timestamp == timestamp
  {
    var c := Clean(vin);
    if |c| < 8 then Err(TooShort)
    else Ok(Decoded(c, ChosenCar(c, generated), true, timestamp))
  }

  /** The second lookup never changes the result: a key equal to the first
      eight characters is a prefix of the VIN, so the `find` has already
      matched an entry. The car is the first entry by prefix, or the
      generated one. */
  lemma SecondLookupRedundant(clean: string, generated: Car)
    requires |clean| >= 8
    ensures FindPrefix(CarDatabase, clean).Some? ==>
      ChosenCar(clean, generated) == CarDatabase[FindPrefix(CarDatabase, clean).value].1
    ensures FindPrefix(CarDatabase, clean).None? ==> ChosenCar(clean, generated) == generated
  {
    if FindPrefix(CarDatabase, clean).None? {
      var key := clean[..8];
      assert IsPrefix(key, clean);
      forall j | 0 <= j < |CarDatabase| ensures CarDatabase[j].0 != key {
        assert !IsPrefix(CarDatabase[j].0, clean);
      }
    }
  }

  /** A decoded VIN is cleaned, at least eight characters long, and has the
      car of the first matching key or the generated one. */
  lemma DecodeSpec(vin: string, generated: Car, timestamp: string)
    ensures var r := Decode(vin, generated, timestamp); var c := Clean(vin);
      r.Ok? ==> (AllVinChars(r.value.vin) && |r.value.vin| >= 8 &&
        (FindPrefix(CarDatabase, c).Some? ==> r.value.car == CarDatabase[FindPrefix(CarDatabase, c).value].1) &&
        (FindPrefix(CarDatabase, c).None? ==> r.value.car == generated))
  {
    CleanChars(vin);
    if |Clean(vin)| >= 8 {
      SecondLookupRedundant(Clean(vin), generated);
    }
  }

  /** The two decoders disagree on a VIN with a Q: it is decoded here and
      rejected by the server. */
  lemma QAcceptedByClientOnly(vin: string, generated: Car, timestamp: string)
    requires vin == "WBSWD935" + "Q"
    ensures Decode(vin, generated, timestamp).Ok?
    ensures Decode(vin, generated, timestamp).value.car == VinServer.BMW_M4
    ensures VinServer.Decode(vin, generated, timestamp) == VinServer.VinError(VinServer.ForbiddenLetters)
  {
    assert |vin| == 9;
    assert AllVinChars(vin);
    CleanFixesVinText(vin);
    assert vin[8] == 'Q';
    assert !IsPrefix(CarDatabase[0].0, vin) && !IsPrefix(CarDatabase[1].0, vin);
    assert IsPrefix(CarDatabase[2].0, vin) by { assert vin[..8] == "WBSWD935"; }
    assert FindPrefix(CarDatabase, vin) == Some(2) by {
      assert CarDatabase[1..][1..] == CarDatabase[2..];
      assert FindPrefix(CarDatabase[2..], vin) == Some(0);
    }
  }

  /** They also disagree on a VIN longer than 17 characters. */
  lemma LongAcceptedByClientOnly(vin: string, generated: Car, timestamp: string)
    requires vin == "WBSWD935" + "000000000000"
    ensures Decode(vin, generated, timestamp).Ok?
    ensures VinServer.Decode(vin, generated, timestamp) == VinServer.VinError(VinServer.TooLong)
  {
    assert |vin| == 20;
    assert AllVinChars(vin);
    CleanFixesVinText(vin);
  }
}
