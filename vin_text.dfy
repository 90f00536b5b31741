/** What both VIN decoders share: the cleaning step
    `vin.toUpperCase().replace(/[^A-Z0-9]/g, '')` and the car record their
    databases hold (netlify/functions/vin-decode.js, src/utils/vinDecoder.js). */
module VinText {
  import opened Text

  predicate IsVinChar(c: char) {
    IsUpperAscii(c) || IsDigit(c)
  }

  /** The characters of `s` that are uppercase ASCII letters or digits, in order. */
  function KeepVinChars(s: string): (r: string)
    ensures |r| <= |s|
  {
    if s == [] then []
    else KeepVinChars(s[..|s| - 1]) + (if IsVinChar(s[|s| - 1]) then [s[|s| - 1]] else [])
  }

  /** The cleaned VIN: uppercased, then every character outside [A-Z0-9] removed. */
  function Clean(vin: string): string {
    KeepVinChars(ToUpper(vin))
  }

  predicate AllVinChars(s: string) {
    forall i :: 0 <= i < |s| ==> IsVinChar(s[i])
  }

  /** Filtering keeps only VIN characters, and keeps a text of VIN characters whole. */
  lemma {:induction false} KeepVinCharsSpec(s: string)
    ensures AllVinChars(KeepVinChars(s))
    ensures AllVinChars(s) ==> KeepVinChars(s) == s
  {
    if s != [] {
      KeepVinCharsSpec(s[..|s| - 1]);
      var init := KeepVinChars(s[..|s| - 1]);
      var r := KeepVinChars(s);
      forall i | 0 <= i < |r| ensures IsVinChar(r[i]) {
        if i < |init| {
          assert r[i] == init[i];
        }
      }
      if AllVinChars(s) {
        var prefix := s[..|s| - 1];
        assert AllVinChars(prefix) by {
          forall i | 0 <= i < |prefix| ensures IsVinChar(prefix[i]) {
            assert prefix[i] == s[i];
          }
        }
        assert s == s[..|s| - 1] + [s[|s| - 1]];
      }
    }
  }

  /** A cleaned VIN holds only uppercase letters and digits. */
  lemma CleanChars(vin: string)
    ensures AllVinChars(Clean(vin))
  {
    KeepVinCharsSpec(ToUpper(vin));
  }

  /** A VIN is left unchanged by cleaning exactly when it already consists of
      uppercase letters and digits. */
  lemma CleanFixesVinText(vin: string)
    ensures Clean(vin) == vin <==> AllVinChars(vin)
  {
    CleanChars(vin);
    if AllVinChars(vin) {
      assert ToUpper(vin) == vin by {
        forall i | 0 <= i < |vin| ensures ToUpper(vin)[i] == vin[i] {
          assert IsVinChar(vin[i]);
        }
      }
      KeepVinCharsSpec(vin);
    }
  }

  /** Cleaning twice is cleaning once. */
  lemma CleanIdempotent(vin: string)
    ensures Clean(Clean(vin)) == Clean(vin)
  {
    CleanChars(vin);
    CleanFixesVinText(Clean(vin));
  }

  /** One car of a decoder's database. */
  datatype Car = Car(make: string, model: string, year: int, baseColor: string, bodyStyle: string, engine: string)
}
