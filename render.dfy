/** When redrawing the page throws. The display code itself is not modelled,
    only the currency lookups in it that can raise an exception: every redraw
    starts by formatting the budget with `formatCurrency`, and the currency
    display looks the selected code up in the tracker's `currencies` table.
    An exception stops the rest of the method that triggered the redraw,
    after whatever it had already changed and saved. */
module Render {
  import opened Model

  /** The own keys of the `currencies` table. */
  const CURRENCY_CODES: set<string> := {"USD", "EUR", "PLN", "MAD"}

  /** The properties every plain object inherits from `Object.prototype`
      (ECMA-262, section 20.1.3 and Annex B.2.2), which a lookup `obj[name]`
      finds although the object does not list them: indexing a table with
      one of these names does not give `undefined`. */
  const OBJECT_PROTOTYPE_NAMES: seq<string> := [
    "constructor", "hasOwnProperty", "isPrototypeOf", "propertyIsEnumerable",
    "toLocaleString", "toString", "valueOf", "__proto__",
    "__defineGetter__", "__defineSetter__", "__lookupGetter__", "__lookupSetter__"]

  /** `name` is one of `names`, found by walking the list. */
  predicate IsOneOf(name: string, names: seq<string>) {
    names != [] && (names[0] == name || IsOneOf(name, names[1..]))
  }

  /** `this.currencies[code]` is not `undefined`, so reading a property of it
      (`.symbol`, `.name`) does not throw. */
  predicate HasCurrencyEntry(code: string) {
    code in CURRENCY_CODES || IsOneOf(code, OBJECT_PROTOTYPE_NAMES)
  }

  predicate IsAsciiLetter(ch: char) {
    'A' <= ch <= 'Z' || 'a' <= ch <= 'z'
  }

  /** The test `Intl.NumberFormat` applies to a `currency` option before it
      accepts it (ECMA-402, section 6.3.1): three ASCII letters, in any case. */
  predicate IsWellFormedCurrencyCode(code: string) {
    |code| == 3 && IsAsciiLetter(code[0]) && IsAsciiLetter(code[1]) && IsAsciiLetter(code[2])
  }

  /** `formatCurrency` returns a string: either `Intl.NumberFormat` accepts
      the code, or its fallback finds the code's symbol. Otherwise the
      fallback reads `.symbol` of `undefined` and throws. */
  predicate FormatsCurrency(code: string) {
    IsWellFormedCurrencyCode(code) || HasCurrencyEntry(code)
  }

  /** What a redraw of the page ends in: it throws exactly when the
      selected code cannot be formatted. For a code of currency length no
      inherited name can match, so that is exactly when the code is not three
      letters. */
  function Redraw(code: string): (r: Outcome)
    ensures |code| < 7 ==> (r == Pass <==> IsWellFormedCurrencyCode(code))
  {
    ShortCodesNotInherited(code);
    EntryFormats(code);
    if FormatsCurrency(code) then Pass else Fail(RenderFailed)
  }

  /** What redrawing the currency display ends in: it throws exactly when
      the code has no entry in the table. For a code of currency length that
      is exactly when it is not one of the four listed codes. */
  function RedrawCurrency(code: string): (r: Outcome)
    ensures |code| < 7 ==> (r == Pass <==> code in CURRENCY_CODES)
  {
    ShortCodesNotInherited(code);
    if HasCurrencyEntry(code) then Pass else Fail(RenderFailed)
  }

  /** A code the currency display can show can also be formatted, and the
      four listed codes are both. */
  lemma EntryFormats(code: string)
    ensures HasCurrencyEntry(code) ==> FormatsCurrency(code)
    ensures code in CURRENCY_CODES ==> HasCurrencyEntry(code) && IsWellFormedCurrencyCode(code)
  {
    if code in CURRENCY_CODES {
      assert code == "USD" || code == "EUR" || code == "PLN" || code == "MAD";
    }
  }

  /** A name shorter than every listed name is not among them. */
  lemma {:induction false} ShorterNotOneOf(name: string, names: seq<string>)
    requires forall k :: 0 <= k < |names| ==> |names[k]| > |name|
    ensures !IsOneOf(name, names)
    decreases |names|
  {
    if names != [] {
      assert forall k :: 0 <= k < |names[1..]| ==> names[1..][k] == names[k + 1];
      ShorterNotOneOf(name, names[1..]);
    }
  }

  /** Every inherited name is at least seven characters long, so no currency
      code of three or four letters is one. */
  lemma ShortCodesNotInherited(code: string)
    ensures |code| < 7 ==> !IsOneOf(code, OBJECT_PROTOTYPE_NAMES)
  {
    if |code| < 7 {
      InheritedNamesAreLong();
      ShorterNotOneOf(code, OBJECT_PROTOTYPE_NAMES);
    }
  }

  lemma InheritedNamesAreLong()
    ensures forall k :: 0 <= k < |OBJECT_PROTOTYPE_NAMES| ==> |OBJECT_PROTOTYPE_NAMES[k]| >= 7
  {
    forall k | 0 <= k < |OBJECT_PROTOTYPE_NAMES| ensures |OBJECT_PROTOTYPE_NAMES[k]| >= 7 {
    }
  }

  /** A well-formed code outside the table formats, but has no display
      entry. */
  lemma WellFormedCodeWithoutEntry()
    ensures FormatsCurrency("XYZ") && !HasCurrencyEntry("XYZ")
  {
    var code := "XYZ";
    assert code[0] == 'X' && code[1] == 'Y' && code[2] == 'Z';
    assert IsWellFormedCurrencyCode(code);
    forall c | c in CURRENCY_CODES ensures c != code {
      assert c[0] != 'X';
    }
    ShortCodesNotInherited(code);
  }

  /** A code that is not three letters and not in the table does neither. */
  lemma MalformedCodeFails()
    ensures !FormatsCurrency("EURO") && !HasCurrencyEntry("EURO")
  {
    ShortCodesNotInherited("EURO");
    assert |"EURO"| == 4;
  }
}
