/** The translation function `t(key, params)` (src/i18n/useTranslation.js):
    the key is split on '.', the segments are looked up one at a time from
    the current language's tree (French when that language is missing), a
    result that is not a string gives back the key itself, and each
    parameter replaces the first `{name}` in the text. */
module Translation {
  import opened Json
  import opened Text
  import opened Numbers

  /** `value && typeof value === 'object'`: a non-null object or array. */
  predicate IsObjectLike(v: Value) {
    v.Obj? || v.Arr?
  }

  /** A canonical array index: decimal digits without a leading zero. */
  predicate IsIndex(k: string) {
    k != [] && AllDigits(k) && (k == "0" || k[0] != '0')
  }

  /** `value[k]` for an object or an array: an own field; for an array its
      `length` and its elements by index. Anything else reads as
      `undefined`. */
  function Prop(v: Value, k: string): Value
    requires IsObjectLike(v)
  {
    if v.Obj? then Field(v, k)
    else if k == "length" then Num(|v.elems| as real)
    else if IsIndex(k) && DigitsValue(k) < |v.elems| then v.elems[DigitsValue(k)]
    else Undefined
  }

  /** The walk down the segments: None when a value to descend into is not an
      object. */
  function Resolve(v: Value, keys: seq<string>): Option<Value>
    decreases keys
  {
    if keys == [] then Some(v)
    else if IsObjectLike(v) then Resolve(Prop(v, keys[0]), keys[1..])
    else None
  }

  /** `translations[language] || translations['fr']`. */
  function Root(translations: map<string, Value>, language: string): Value {
    Or(Field(Obj(translations), language), Field(Obj(translations), "fr"))
  }

  /** The `forEach` over the parameters, in order: each replaces the first
      `{name}` with its value. */
  function Interpolate(s: string, params: seq<(string, string)>): string {
    if params == [] then s
    else
      var (name, value) := params[|params| - 1];
      ReplaceFirst(Interpolate(s, params[..|params| - 1]), "{" + name + "}", value)
  }

  /** What `t(key, params)` returns. */
  function Translate(translations: map<string, Value>, language: string, key: string,
                     params: seq<(string, string)>): (r: string)
    ensures (!Resolve(Root(translations, language), Split(key, '.')).Some? ||
             !Resolve(Root(translations, language), Split(key, '.')).value.Str?) ==> r == key
    ensures params == [] && Resolve(Root(translations, language), Split(key, '.')).Some? &&
            Resolve(Root(translations, language), Split(key, '.')).value.Str? ==>
      r == Resolve(Root(translations, language), Split(key, '.')).value.s
  {
    match Resolve(Root(translations, language), Split(key, '.'))
    case Some(Str(s)) => Interpolate(s, params)
    case _ => key
  }

  /** `t(key, params)` as written: a loop over the segments, then a loop over
      the parameters. */
  method T(translations: map<string, Value>, language: string, key: string,
           params: seq<(string, string)>) returns (r: string)
    ensures r == Translate(translations, language, key, params)
  {
    var keys := Split(key, '.');
    var value := Root(translations, language);
    var i := 0;
    while i < |keys|
      invariant 0 <= i <= |keys|
      invariant Resolve(Root(translations, language), keys) == Resolve(value, keys[i..])
    {
      if IsObjectLike(value) {
        assert keys[i..][1..] == keys[i + 1..];
        value := Prop(value, keys[i]);
      } else {
        return key;
      }
      i := i + 1;
    }
    assert keys[i..] == [];
    if !value.Str? {
      return key;
    }
    var result := value.s;
    var j := 0;
    while j < |params|
      invariant 0 <= j <= |params|
      invariant result == Interpolate(value.s, params[..j])
    {
      var (name, v) := params[j];
      assert params[..j + 1][..j] == params[..j];
      result := ReplaceFirst(result, "{" + name + "}", v);
      j := j + 1;
    }
    assert params[..j] == params;
    return result;
  }

  /** Walking a path in two parts is walking the first part, then the rest
      from where it ended. */
  lemma {:induction false} ResolveAppend(v: Value, a: seq<string>, b: seq<string>)
    ensures Resolve(v, a + b) == (match Resolve(v, a) case None => None case Some(w) => Resolve(w, b))
    decreases a
  {
    if a == [] {
      assert a + b == b;
    } else {
      assert (a + b)[1..] == a[1..] + b;
      if IsObjectLike(v) {
        ResolveAppend(Prop(v, a[0]), a[1..], b);
      }
    }
  }

  /** A missing language reads the French tree. */
  lemma MissingLanguageFallsBack(translations: map<string, Value>, language: string, key: string,
                                 params: seq<(string, string)>)
    requires language !in translations
    ensures Translate(translations, language, key, params) == Translate(translations, "fr", key, params)
  {
  }

  /** A path that does not end on a string gives back the key: it stops at a
      value that is not an object, or it ends on a missing value or a subtree. */
  lemma NonStringGivesKey(translations: map<string, Value>, language: string, key: string,
                          params: seq<(string, string)>)
    requires var r := Resolve(Root(translations, language), Split(key, '.')); r.None? || !r.value.Str?
    ensures Translate(translations, language, key, params) == key
  {
  }

  /** Descending into anything that is not an object gives back the key. */
  lemma StopsAtNonObject(translations: map<string, Value>, language: string, key: string,
                         params: seq<(string, string)>, n: nat)
    requires n < |Split(key, '.')|
    requires var p := Resolve(Root(translations, language), Split(key, '.')[..n]);
      p.Some? && !IsObjectLike(p.value)
    ensures Translate(translations, language, key, params) == key
  {
    var keys := Split(key, '.');
    assert keys == keys[..n] + keys[n..];
    ResolveAppend(Root(translations, language), keys[..n], keys[n..]);
  }

  /** Without parameters the resolved text comes back as it is. */
  lemma NoParamsUnchanged(translations: map<string, Value>, language: string, key: string, s: string)
    requires Resolve(Root(translations, language), Split(key, '.')) == Some(Str(s))
    ensures Translate(translations, language, key, []) == s
  {
  }

  /** Only the first `{name}` is replaced; a second one stays. */
  lemma OnlyFirstOccurrenceReplaced()
    ensures Interpolate("{n} / {n}", [("n", "3")]) == "3 / {n}"
  {
    var s := "{n} / {n}";
    assert s[0..3] == "{n}";
    assert OccursAt(s, "{n}", 0);
    assert Interpolate(s, []) == s;
    assert [("n", "3")][..0] == [];
  }

  /** A two-segment key that resolves to a text gives that text. */
  lemma TwoSegments(translations: map<string, Value>, language: string, a: string, b: string, s: string)
    requires '.' !in a && '.' !in b
    requires Resolve(Root(translations, language), [a, b]) == Some(Str(s))
    ensures Translate(translations, language, a + "." + b, []) == s
  {
    SplitDotted(a, b);
    SplitOne(b);
  }

  /** A key that goes one segment past a text gives back the key. */
  lemma PastTextGivesKey(translations: map<string, Value>, language: string, a: string, b: string, c: string, s: string)
    requires '.' !in a && '.' !in b && '.' !in c
    requires Resolve(Root(translations, language), [a, b]) == Some(Str(s))
    ensures Translate(translations, language, a + "." + b + "." + c, []) == a + "." + b + "." + c
  {
    var key := a + "." + b + "." + c;
    assert key == a + "." + (b + "." + c);
    SplitDotted(a, b + "." + c);
    SplitDotted(b, c);
    SplitOne(c);
    var keys := Split(key, '.');
    assert keys == [a, b, c];
    assert keys[..2] == [a, b];
    StopsAtNonObject(translations, language, key, [], 2);
  }

  /** The example the hook documents: `t('nav.home')` gives "Accueil", in
      French and, through the fallback, in a language without a tree. */
  lemma NavHome(a: string, b: string)
    requires a == "nav" && b == "home"
    ensures Translate(Sample, "fr", a + "." + b, []) == "Accueil"
    ensures Translate(Sample, "en", a + "." + b, []) == "Accueil"
  {
    var home := Obj(map["home" := Str("Accueil")]);
    var root := Obj(map["nav" := home]);
    assert Root(Sample, "fr") == root && Root(Sample, "en") == root;
    assert Prop(root, a) == home && Prop(home, b) == Str("Accueil");
    assert [a, b][1..] == [b] && [b][1..] == [];
    assert Resolve(home, [b]) == Resolve(Str("Accueil"), []) == Some(Str("Accueil"));
    assert Resolve(root, [a, b]) == Resolve(home, [b]);
    TwoSegments(Sample, "fr", a, b, "Accueil");
    TwoSegments(Sample, "en", a, b, "Accueil");
  }

  /** A path ending on a subtree gives back the key. */
  lemma SubtreeGivesKey()
    ensures Translate(Sample, "fr", "nav", []) == "nav"
  {
    SplitOne("nav");
  }

  const Sample: map<string, Value> := map["fr" := Obj(map["nav" := Obj(map["home" := Str("Accueil")])])]

  /** A text without a dot is one segment. */
  lemma {:induction false} SplitOne(a: string)
    requires '.' !in a
    ensures Split(a, '.') == [a]
  {
    if a != [] {
      SplitOne(a[1..]);
      assert [a[0]] + a[1..] == a;
    }
  }

  /** Splitting `a.b` where `a` has no dot. */
  lemma {:induction false} SplitDotted(a: string, b: string)
    requires '.' !in a
    ensures Split(a + "." + b, '.') == [a] + Split(b, '.')
  {
    if a == [] {
      assert [] + "." + b == "." + b;
      assert ("." + b)[1..] == b;
    } else {
      SplitDotted(a[1..], b);
      assert (a + "." + b)[1..] == a[1..] + "." + b;
      assert [a[0]] + a[1..] == a;
    }
  }
}
