/** The YML catalogue export (xml-export.page.ts): the active cars are turned
    into `<offer>` elements between a fixed header and footer.  Free text
    goes through XML escaping: the markup characters of section 2.4 of XML
    1.0 become the predefined entities of section 4.6, and the apostrophe
    becomes the character reference `&#39;`. */
module XmlExport {
  import opened Js

  // ---------------------------------------------------------------------
  // Lower-casing

  /** `toLowerCase` on the letters the keyword tables use: ASCII and the
      Russian alphabet (with Ё). */
  function LowerChar(c: char): (r: char)
    ensures !('A' <= r <= 'Z') && !('А' <= r <= 'Я') && r != 'Ё'
  {
    if 'A' <= c <= 'Z' then (c as int + 32) as char
    else if 'А' <= c <= 'Я' then (c as int + 32) as char
    else if c == 'Ё' then 'ё'
    else c
  }

  function Lower(s: string): (r: string)
    ensures |r| == |s|
    ensures forall i :: 0 <= i < |s| ==> r[i] == LowerChar(s[i])
  {
    if s == [] then [] else [LowerChar(s[0])] + Lower(s[1..])
  }

  /** Lower-casing twice is lower-casing once. */
  lemma LowerIdempotent(s: string)
    ensures Lower(Lower(s)) == Lower(s)
  {
    assert forall i :: 0 <= i < |s| ==> LowerChar(LowerChar(s[i])) == LowerChar(s[i]);
  }

  // ---------------------------------------------------------------------
  // Keyword classifiers

  /** `getCategoryId`: 2 ("crossovers") when the lower-cased model mentions
      one of the keywords, else 1; a missing model reads as ''. */
  function CategoryId(model: Option<string>): (r: int)
    ensures r == 1 || r == 2
  {
    var m := if model.Some? then Lower(model.value) else "";
    if Contains(m, "x") || Contains(m, "q") || Contains(m, "cross")
       || Contains(m, "sport") || Contains(m, "crossover") || Contains(m, "suv")
    then 2
    else 1
  }

  /** The category is 2 exactly when the lower-cased model contains one of
      the keywords; "crossover" adds nothing, since it contains "cross". */
  lemma CategorySpec(model: string)
    ensures CategoryId(Some(model)) == 2 <==>
      var m := Lower(model);
      Contains(m, "x") || Contains(m, "q") || Contains(m, "cross") || Contains(m, "sport") || Contains(m, "suv")
  {
    var m := Lower(model);
    if Contains(m, "crossover") {
      var i :| OccursAt(m, "crossover", i);
      assert m[i..i + 5] == m[i..i + 9][..5];
      assert OccursAt(m, "cross", i);
    }
  }

  /** Without a model the category is the default. */
  lemma CategoryOfMissingModel()
    ensures CategoryId(None) == 1
  {
    assert !Contains("", "x") && !Contains("", "q") && !Contains("", "suv");
    assert !Contains("", "cross") && !Contains("", "sport") && !Contains("", "crossover");
  }

  /** Classification ignores letter case. */
  lemma CategoryIgnoresCase(model: string)
    ensures CategoryId(Some(Lower(model))) == CategoryId(Some(model))
  {
    LowerIdempotent(model);
  }

  const Diesel := "Дизель"
  const Hybrid := "Гибрид"
  const Electric := "Электро"
  const Petrol := "Бензин"

  /** `getFuelType`: diesel, then hybrid, then electric, else petrol. */
  function FuelType(fuel: string): (r: string)
    ensures r == Diesel || r == Hybrid || r == Electric || r == Petrol
  {
    var f := Lower(fuel);
    if Contains(f, "дизель") || Contains(f, "diesel") then Diesel
    else if Contains(f, "гибрид") || Contains(f, "hybrid") then Hybrid
    else if Contains(f, "электро") || Contains(f, "electric") then Electric
    else Petrol
  }

  /** The tests run in order: a diesel mention wins over everything, a
      hybrid one over electric, an electric one over the petrol default,
      and petrol is what is left. */
  lemma FuelTypeOrder(fuel: string)
    ensures var f := Lower(fuel);
            var diesel := Contains(f, "дизель") || Contains(f, "diesel");
            var hybrid := Contains(f, "гибрид") || Contains(f, "hybrid");
            var electric := Contains(f, "электро") || Contains(f, "electric");
            && (diesel ==> FuelType(fuel) == Diesel)
            && (!diesel && hybrid ==> FuelType(fuel) == Hybrid)
            && (!diesel && !hybrid && electric ==> FuelType(fuel) == Electric)
            && (!diesel && !hybrid && !electric ==> FuelType(fuel) == Petrol)
  {
  }

  /** Fuel classification ignores letter case. */
  lemma FuelTypeIgnoresCase(fuel: string)
    ensures FuelType(Lower(fuel)) == FuelType(fuel)
  {
    LowerIdempotent(fuel);
  }

  const AllWheel := "Полный привод"
  const RearWheel := "Задний привод"
  const FrontWheel := "Передний привод"

  /** `getDriveType`: all-wheel before rear, front by default. */
  function DriveType(drive: string): (r: string)
    ensures r == AllWheel || r == RearWheel || r == FrontWheel
  {
    var d := Lower(drive);
    if Contains(d, "полный") || Contains(d, "awd") || Contains(d, "4wd") then AllWheel
    else if Contains(d, "задний") || Contains(d, "rwd") then RearWheel
    else FrontWheel
  }

  /** All-wheel wins over rear, rear over the front default. */
  lemma DriveTypeOrder(drive: string)
    ensures var d := Lower(drive);
            var allWheel := Contains(d, "полный") || Contains(d, "awd") || Contains(d, "4wd");
            var rear := Contains(d, "задний") || Contains(d, "rwd");
            && (allWheel ==> DriveType(drive) == AllWheel)
            && (!allWheel && rear ==> DriveType(drive) == RearWheel)
            && (!allWheel && !rear ==> DriveType(drive) == FrontWheel)
  {
  }

  const Automatic := "Автомат"
  const Manual := "Механика"
  const Variator := "Вариатор"

  /** `getGearboxType`: automatic, manual, CVT in that order; automatic by
      default. */
  function GearboxType(gearbox: string): (r: string)
    ensures r == Automatic || r == Manual || r == Variator
  {
    var g := Lower(gearbox);
    if Contains(g, "автомат") || Contains(g, "automatic") then Automatic
    else if Contains(g, "механик") || Contains(g, "manual") then Manual
    else if Contains(g, "вариатор") || Contains(g, "cvt") then Variator
    else Automatic
  }

  /** Automatic wins over manual, manual over CVT; CVT is reported only
      when neither automatic nor manual is mentioned, and a gearbox that
      mentions none of them reads as automatic. */
  lemma GearboxTypeOrder(gearbox: string)
    ensures var g := Lower(gearbox);
            var automatic := Contains(g, "автомат") || Contains(g, "automatic");
            var manual := Contains(g, "механик") || Contains(g, "manual");
            var cvt := Contains(g, "вариатор") || Contains(g, "cvt");
            && (automatic ==> GearboxType(gearbox) == Automatic)
            && (!automatic && manual ==> GearboxType(gearbox) == Manual)
            && (!automatic && !manual && cvt ==> GearboxType(gearbox) == Variator)
            && (!automatic && !manual && !cvt ==> GearboxType(gearbox) == Automatic)
            && (GearboxType(gearbox) == Variator ==> !automatic && !manual)
  {
  }

  // ---------------------------------------------------------------------
  // XML escaping

  /** `escapeXml`: five global replacements, `&` first. */
  function EscapeXml(text: string): string
  {
    if text == "" then ""
    else ReplaceAll(ReplaceAll(ReplaceAll(ReplaceAll(ReplaceAll(text, "&", "&amp;"), "<", "&lt;"), ">", "&gt;"), "\"", "&quot;"), "'", "&#39;")
  }

  /** The escape of one character. */
  function EscapeChar(c: char): string
  {
    if c == '&' then "&amp;"
    else if c == '<' then "&lt;"
    else if c == '>' then "&gt;"
    else if c == '"' then "&quot;"
    else if c == '\'' then "&#39;"
    else [c]
  }

  /** Escaping character by character: the reference the replacement chain
      is measured against. */
  function EscapeChars(s: string): string
  {
    if s == [] then [] else EscapeChar(s[0]) + EscapeChars(s[1..])
  }

  /** One step of a global replacement of a single character. */
  lemma ReplaceCharUnfold(s: string, c: char, rep: string)
    requires s != []
    ensures ReplaceAll(s, [c], rep) == (if s[0] == c then rep else [s[0]]) + ReplaceAll(s[1..], [c], rep)
  {
    assert s[..1] == [s[0]];
  }

  /** A global replacement of one character distributes over concatenation. */
  lemma {:induction false} ReplaceCharAppend(a: string, b: string, c: char, rep: string)
    ensures ReplaceAll(a + b, [c], rep) == ReplaceAll(a, [c], rep) + ReplaceAll(b, [c], rep)
  {
    if a != [] {
      var ab := a + b;
      ReplaceCharAppend(a[1..], b, c, rep);
      assert ab[0] == a[0];
      assert ab[1..] == a[1..] + b;
      ReplaceCharUnfold(ab, c, rep);
      ReplaceCharUnfold(a, c, rep);
    } else {
      assert a + b == b;
    }
  }

  /** A global replacement of a character the text lacks changes nothing. */
  lemma {:induction false} ReplaceCharAbsent(s: string, c: char, rep: string)
    requires c !in s
    ensures ReplaceAll(s, [c], rep) == s
  {
    if s != [] {
      ReplaceCharAbsent(s[1..], c, rep);
      ReplaceCharUnfold(s, c, rep);
      assert s == [s[0]] + s[1..];
    }
  }

  /** The replacement chain applied to one character. */
  function Chain(s: string): string
  {
    ReplaceAll(ReplaceAll(ReplaceAll(ReplaceAll(ReplaceAll(s, "&", "&amp;"), "<", "&lt;"), ">", "&gt;"), "\"", "&quot;"), "'", "&#39;")
  }

  lemma ChainAppend(a: string, b: string)
    ensures Chain(a + b) == Chain(a) + Chain(b)
  {
    ReplaceCharAppend(a, b, '&', "&amp;");
    var a1, b1 := ReplaceAll(a, "&", "&amp;"), ReplaceAll(b, "&", "&amp;");
    ReplaceCharAppend(a1, b1, '<', "&lt;");
    var a2, b2 := ReplaceAll(a1, "<", "&lt;"), ReplaceAll(b1, "<", "&lt;");
    ReplaceCharAppend(a2, b2, '>', "&gt;");
    var a3, b3 := ReplaceAll(a2, ">", "&gt;"), ReplaceAll(b2, ">", "&gt;");
    ReplaceCharAppend(a3, b3, '"', "&quot;");
    var a4, b4 := ReplaceAll(a3, "\"", "&quot;"), ReplaceAll(b3, "\"", "&quot;");
    ReplaceCharAppend(a4, b4, '\'', "&#39;");
  }

  /** One replacement on a one-character string. */
  lemma ReplaceOneChar(c: char, p: char, rep: string)
    ensures ReplaceAll([c], [p], rep) == if c == p then rep else [c]
  {
    ReplaceCharUnfold([c], p, rep);
    assert [c][1..] == [];
  }

  /** The replacements after the one that produced `e` leave it alone. */
  lemma ChainTail(e: string, from: nat)
    requires from <= 4
    requires from <= 0 ==> '<' !in e
    requires from <= 1 ==> '>' !in e
    requires from <= 2 ==> '"' !in e
    requires from <= 3 ==> '\'' !in e
    ensures from == 0 ==> ReplaceAll(ReplaceAll(ReplaceAll(ReplaceAll(e, "<", "&lt;"), ">", "&gt;"), "\"", "&quot;"), "'", "&#39;") == e
    ensures from == 1 ==> ReplaceAll(ReplaceAll(ReplaceAll(e, ">", "&gt;"), "\"", "&quot;"), "'", "&#39;") == e
    ensures from == 2 ==> ReplaceAll(ReplaceAll(e, "\"", "&quot;"), "'", "&#39;") == e
    ensures from == 3 ==> ReplaceAll(e, "'", "&#39;") == e
  {
    if from <= 0 { ReplaceCharAbsent(e, '<', "&lt;"); }
    if from <= 1 { ReplaceCharAbsent(e, '>', "&gt;"); }
    if from <= 2 { ReplaceCharAbsent(e, '"', "&quot;"); }
    if from <= 3 { ReplaceCharAbsent(e, '\'', "&#39;"); }
  }

  /** The chain escapes a single character as `EscapeChar` does: no text a
      replacement inserts contains a character replaced later. */
  lemma ChainOneChar(c: char)
    ensures Chain([c]) == EscapeChar(c)
  {
    ReplaceOneChar(c, '&', "&amp;");
    if c == '&' {
      ChainTail("&amp;", 0);
      return;
    }
    ReplaceOneChar(c, '<', "&lt;");
    if c == '<' {
      ChainTail("&lt;", 1);
      return;
    }
    ReplaceOneChar(c, '>', "&gt;");
    if c == '>' {
      ChainTail("&gt;", 2);
      return;
    }
    ReplaceOneChar(c, '"', "&quot;");
    if c == '"' {
      ChainTail("&quot;", 3);
      return;
    }
    ReplaceOneChar(c, '\'', "&#39;");
  }

  /** Because `&` is replaced first, the chain escapes every character
      exactly once: it equals the character-by-character escape. */
  lemma {:induction false} EscapeIsCharwise(s: string)
    ensures EscapeXml(s) == EscapeChars(s)
  {
    if s != [] {
      EscapeIsCharwise(s[1..]);
      ChainAppend([s[0]], s[1..]);
      ChainOneChar(s[0]);
      assert s == [s[0]] + s[1..];
      if s[1..] == [] {
        assert Chain([]) == [];
      }
    }
  }

  /** The five escapes, recognised at position `i`. */
  predicate EntityAt(s: string, i: int)
  {
    OccursAt(s, "&amp;", i) || OccursAt(s, "&lt;", i) || OccursAt(s, "&gt;", i)
    || OccursAt(s, "&quot;", i) || OccursAt(s, "&#39;", i)
  }

  /** No escape of a character holds a raw `<`, `>`, `"` or `'`. */
  lemma {:induction false} EscapeCharsNoMarkup(s: string)
    ensures '<' !in EscapeChars(s) && '>' !in EscapeChars(s) && '"' !in EscapeChars(s) && '\'' !in EscapeChars(s)
  {
    if s != [] {
      EscapeCharsNoMarkup(s[1..]);
      assert EscapeChars(s) == EscapeChar(s[0]) + EscapeChars(s[1..]);
    }
  }

  lemma OccursShift(pre: string, t: string, pat: string, i: int)
    requires OccursAt(t, pat, i)
    ensures OccursAt(pre + t, pat, |pre| + i)
  {
    assert (pre + t)[|pre| + i..|pre| + i + |pat|] == t[i..i + |pat|];
  }

  lemma EntityShift(pre: string, t: string, i: int)
    requires EntityAt(t, i)
    ensures EntityAt(pre + t, |pre| + i)
  {
    if OccursAt(t, "&amp;", i) { OccursShift(pre, t, "&amp;", i); }
    else if OccursAt(t, "&lt;", i) { OccursShift(pre, t, "&lt;", i); }
    else if OccursAt(t, "&gt;", i) { OccursShift(pre, t, "&gt;", i); }
    else if OccursAt(t, "&quot;", i) { OccursShift(pre, t, "&quot;", i); }
    else { OccursShift(pre, t, "&#39;", i); }
  }

  /** The only `&` in the escape of a character is its first one, and it
      starts an entity whatever follows. */
  lemma EscapeCharEntity(c: char, tail: string, i: int)
    requires 0 <= i < |EscapeChar(c)| && EscapeChar(c)[i] == '&'
    ensures i == 0 && EntityAt(EscapeChar(c) + tail, 0)
  {
    var e := EscapeChar(c);
    assert (e + tail)[..|e|] == e;
  }

  /** Every `&` in escaped text starts one of the five escapes. */
  lemma {:induction false} EscapeCharsEntities(s: string)
    ensures forall i :: 0 <= i < |EscapeChars(s)| && EscapeChars(s)[i] == '&' ==> EntityAt(EscapeChars(s), i)
  {
    if s != [] {
      EscapeCharsEntities(s[1..]);
      var head, tail := EscapeChar(s[0]), EscapeChars(s[1..]);
      var r := head + tail;
      assert EscapeChars(s) == r;
      forall i | 0 <= i < |r| && r[i] == '&' ensures EntityAt(r, i) {
        if i < |head| {
          EscapeCharEntity(s[0], tail, i);
        } else {
          assert tail[i - |head|] == '&';
          EntityShift(head, tail, i - |head|);
        }
      }
    }
  }

  /** Escaped text contains no raw `<`, `>`, `"` or `'`, and every `&` in it
      starts one of the five escapes. */
  lemma EscapedIsClean(s: string)
    ensures '<' !in EscapeXml(s) && '>' !in EscapeXml(s) && '"' !in EscapeXml(s) && '\'' !in EscapeXml(s)
    ensures forall i :: 0 <= i < |EscapeXml(s)| && EscapeXml(s)[i] == '&' ==> EntityAt(EscapeXml(s), i)
  {
    EscapeIsCharwise(s);
    EscapeCharsNoMarkup(s);
    EscapeCharsEntities(s);
  }

  /** Decoding of the five escapes, scanning left to right. */
  function Unescape(s: string): string
    decreases |s|
  {
    if s == [] then []
    else if StartsWith(s, "&amp;") then "&" + Unescape(s[5..])
    else if StartsWith(s, "&lt;") then "<" + Unescape(s[4..])
    else if StartsWith(s, "&gt;") then ">" + Unescape(s[4..])
    else if StartsWith(s, "&quot;") then "\"" + Unescape(s[6..])
    else if StartsWith(s, "&#39;") then "'" + Unescape(s[5..])
    else [s[0]] + Unescape(s[1..])
  }

  /** A text that differs from `pat` at position `k` does not start with it. */
  lemma DiffersAt(s: string, pat: string, k: nat)
    requires k < |pat| && k < |s| && s[k] != pat[k]
    ensures !StartsWith(s, pat)
  {
    if |pat| <= |s| {
      assert s[..|pat|][k] == s[k];
    }
  }

  /** Decoding a known entity at the front. */
  lemma UnescapeEntity(e: string, c: char, rest: string)
    requires e in ["&amp;", "&lt;", "&gt;", "&quot;", "&#39;"]
    requires c == (if e == "&amp;" then '&' else if e == "&lt;" then '<' else if e == "&gt;" then '>'
                   else if e == "&quot;" then '"' else '\'')
    ensures Unescape(e + rest) == [c] + Unescape(rest)
  {
    var s := e + rest;
    assert s[..|e|] == e;
    assert s[|e|..] == rest;
    assert s[1] == e[1];
    if e != "&amp;" { DiffersAt(s, "&amp;", 1); }
    if e != "&lt;" { DiffersAt(s, "&lt;", 1); }
    if e != "&gt;" { DiffersAt(s, "&gt;", 1); }
    if e != "&quot;" { DiffersAt(s, "&quot;", 1); }
  }

  /** Text that does not start with `&` starts with no entity. */
  lemma NoEntityStart(s: string, pat: string)
    requires s != [] && s[0] != '&' && pat != [] && pat[0] == '&'
    ensures !StartsWith(s, pat)
  {
    if |pat| <= |s| {
      assert s[..|pat|][0] == s[0];
    }
  }

  /** Anything other than `&` is copied. */
  lemma UnescapeOther(c: char, rest: string)
    requires c != '&'
    ensures Unescape([c] + rest) == [c] + Unescape(rest)
  {
    var s := [c] + rest;
    assert s[0] == c;
    assert s[1..] == rest;
    NoEntityStart(s, "&amp;");
    NoEntityStart(s, "&lt;");
    NoEntityStart(s, "&gt;");
    NoEntityStart(s, "&quot;");
    NoEntityStart(s, "&#39;");
  }

  /** Decoding one escaped character in front of the rest. */
  lemma UnescapeStep(c: char, rest: string)
    ensures Unescape(EscapeChar(c) + rest) == [c] + Unescape(rest)
  {
    if c == '&' || c == '<' || c == '>' || c == '"' || c == '\'' {
      UnescapeEntity(EscapeChar(c), c, rest);
    } else {
      UnescapeOther(c, rest);
    }
  }

  /** Decoding the five entities returns the input: escaping loses nothing. */
  lemma {:induction false} UnescapeEscape(s: string)
    ensures Unescape(EscapeXml(s)) == s
  {
    EscapeIsCharwise(s);
    UnescapeCharwise(s);
  }

  lemma {:induction false} UnescapeCharwise(s: string)
    ensures Unescape(EscapeChars(s)) == s
  {
    if s != [] {
      UnescapeCharwise(s[1..]);
      UnescapeStep(s[0], EscapeChars(s[1..]));
      assert s == [s[0]] + s[1..];
    }
  }

  /** Text without any of the five characters is left as it is. */
  lemma {:induction false} EscapePlainText(s: string)
    requires forall i :: 0 <= i < |s| ==> s[i] !in "&<>\"'"
    ensures EscapeXml(s) == s
  {
    EscapeIsCharwise(s);
    PlainCharwise(s);
  }

  lemma {:induction false} PlainCharwise(s: string)
    requires forall i :: 0 <= i < |s| ==> s[i] !in "&<>\"'"
    ensures EscapeChars(s) == s
  {
    if s != [] {
      PlainCharwise(s[1..]);
      assert s[0] !in "&<>\"'";
      assert s == [s[0]] + s[1..];
    }
  }

  // ---------------------------------------------------------------------
  // Cars and offers

  /** A text field as the API delivers it: absent, `null`, or a string. */
  datatype Field = Undefined | Null | Str(value: string)

  /** `f || ''` and `f?.…`: `null` and absent both read as missing. */
  function FieldOption(f: Field): (r: Option<string>)
    ensures r.Some? <==> f.Str?
    ensures f.Str? ==> r.value == f.value
  {
    if f.Str? then Some(f.value) else None
  }

  /** How numbers become text: `num` is JavaScript's number-to-string
      conversion (a template interpolation), `locale` is
      `toLocaleString('ru-RU')`. */
  datatype Formats = Formats(num: real -> string, locale: real -> string)

  /** The fields of a car that the export reads.  The numeric fields are
      JavaScript numbers, so they may be fractional; a missing number is 0
      (it prints like `|| 0` yields).  `brand` and `model` keep `null`
      apart from a missing value, because a template prints the two
      differently. */
  datatype Car = Car(
    id: int, brand: Field, model: Field, year: real,
    mileage: real, vin: Option<string>, gearbox: Option<string>,
    fuel: Option<string>, powerValue: real, engine: real,
    drive: Option<string>, price: real, isSold: bool,
    deletedAt: Option<string>)

  /** Neither sold nor deleted. */
  predicate IsActive(car: Car)
  {
    !car.isSold && !Present(car.deletedAt)
  }

  /** `cars.filter(car => !car.isSold && !car.deletedAt)`. */
  function ActiveCars(cars: seq<Car>): seq<Car>
  {
    Filter(IsActive, cars)
  }

  /** The kept cars are exactly the active ones, in their original order. */
  lemma ActiveCarsSpec(cars: seq<Car>)
    ensures forall c :: c in ActiveCars(cars) <==> c in cars && IsActive(c)
    ensures IsSubsequence(ActiveCars(cars), cars)
  {
    FilterIsSubsequence(IsActive, cars);
    forall c | c in cars && IsActive(c) ensures c in ActiveCars(cars) {
      var i :| 0 <= i < |cars| && cars[i] == c;
    }
  }

  /** A template interpolation of a text field: JavaScript prints a
      missing value as "undefined" and `null` as "null". */
  function Interpolate(f: Field): string
  {
    match f
    case Undefined => "undefined"
    case Null => "null"
    case Str(t) => t
  }

  /** `generateCarName`: the year is left out when it is 0, the price is
      formatted for the locale. */
  function CarName(car: Car, fmt: Formats): string
  {
    var year := if car.year != 0.0 then fmt.num(car.year) else "";
    "Авто с пробегом " + Interpolate(car.brand) + " " + Interpolate(car.model) + " " + year
      + " год. Цена " + fmt.locale(car.price) + " ₽"
  }

  /** `generateDescription`: power and engine volume appear only when
      positive, the mileage is formatted for the locale. */
  function Description(car: Car, fmt: Formats): string
  {
    var powerText := if car.powerValue > 0.0 then fmt.num(car.powerValue) + "Л/C" else "";
    var engineText := if car.engine > 0.0 then fmt.num(car.engine) + "л" else "";
    "Как новый! Состояние идеал " + fmt.locale(car.mileage) + " км пробег " + engineText + "(" + powerText + ") "
      + FuelType(OrElse(car.fuel, "")) + ". " + DriveType(OrElse(car.drive, "")) + ". "
      + GearboxType(OrElse(car.gearbox, "")) + "."
  }

  /** The three escaped text fields of an offer. */
  function Vendor(car: Car): string
  {
    EscapeXml(OrElse(FieldOption(car.brand), ""))
  }

  function VendorCode(car: Car): string
  {
    EscapeXml(OrElse(car.vin, ""))
  }

  function OfferName(car: Car, fmt: Formats): string
  {
    EscapeXml(CarName(car, fmt))
  }

  /** The interpolated values of the offer template. */
  datatype Hole = Id | Price | Category | VendorHole | VendorCodeHole | NameHole | DescriptionHole

  /** A piece of a template literal: fixed text or an interpolated value. */
  datatype Part = Text(text: string) | Slot(hole: Hole)

  /** The value interpolated into a hole, for one car. */
  function Fill(hole: Hole, car: Car, fmt: Formats): string
  {
    match hole
    case Id => IntToString(car.id)
    case Price => fmt.num(car.price)
    case Category => IntToString(CategoryId(FieldOption(car.model)))
    case VendorHole => Vendor(car)
    case VendorCodeHole => VendorCode(car)
    case NameHole => OfferName(car, fmt)
    case DescriptionHole => Description(car, fmt)
  }

  /** One piece of a template, for one car. */
  function Show(part: Part, car: Car, fmt: Formats): string
  {
    match part
    case Text(t) => t
    case Slot(h) => Fill(h, car, fmt)
  }

  /** A template with its holes filled in, left to right. */
  function Render(parts: seq<Part>, car: Car, fmt: Formats): string
  {
    if parts == [] then "" else Show(parts[0], car, fmt) + Render(parts[1..], car, fmt)
  }

  /** Rendering from piece `k` on is piece `k` followed by the rest. */
  lemma RenderFrom(parts: seq<Part>, k: nat, car: Car, fmt: Formats)
    requires k < |parts|
    ensures Render(parts[k..], car, fmt) == Show(parts[k], car, fmt) + Render(parts[k + 1..], car, fmt)
  {
    assert parts[k..][1..] == parts[k + 1..];
  }

  // The fixed texts of the `<offer>` template, between its holes.
  const OfferOpen := "\n<offer id=\""
  const UrlOpen := "\" available=\"true\">\n<url>https://adenatrans.ru/car/"
  const PriceOpen := "</url>\n<price>"
  const CategoryOpen := "</price>\n<currencyId>RUB</currencyId>\n<categoryId>"
  const PictureOpen := "</categoryId>\n<picture>https://adenatrans.ru/api/images/cars/"
  const VendorOpen := "</picture>\n<vendor>"
  const VendorCodeOpen := "</vendor>\n<vendorCode>"
  const NameOpen := "</vendorCode>\n<name>"
  /** The description goes into a CDATA section, unescaped. */
  const DescriptionOpen := "</name>\n<description>\n<![CDATA["
  const OfferClose := "]]>\n</description>\n<pickup>true</pickup>\n<delivery>true</delivery>\n</offer>"

  /** The `<offer>` template: the id fills the offer id, the url and the
      picture. */
  const OfferTemplate: seq<Part> := [
    Text(OfferOpen), Slot(Id), Text(UrlOpen), Slot(Id), Text(PriceOpen), Slot(Price),
    Text(CategoryOpen), Slot(Category), Text(PictureOpen), Slot(Id), Text(VendorOpen), Slot(VendorHole),
    Text(VendorCodeOpen), Slot(VendorCodeHole), Text(NameOpen), Slot(NameHole),
    Text(DescriptionOpen), Slot(DescriptionHole), Text(OfferClose)]

  /** One `<offer>` element. */
  function OfferXml(car: Car, fmt: Formats): string
  {
    Render(OfferTemplate, car, fmt)
  }

  /** The offer template with a fixed number format. */
  function OfferOf(fmt: Formats): Car -> string
  {
    car => OfferXml(car, fmt)
  }

  /** `cars.map(...).join('')`: one offer per car, in list order. */
  function Offers(cars: seq<Car>, fmt: Formats): string
  {
    JoinMap(OfferOf(fmt), cars)
  }

  /** The offers of two lists of cars are the offers of each in turn. */
  lemma OffersAppend(a: seq<Car>, b: seq<Car>, fmt: Formats)
    ensures Offers(a + b, fmt) == Offers(a, fmt) + Offers(b, fmt)
  {
    JoinMapAppend(OfferOf(fmt), a, b);
  }

  /** The strings of a list, one after the other. */
  function Concat(ss: seq<string>): string
  {
    if ss == [] then "" else ss[0] + Concat(ss[1..])
  }

  /** The pieces of a template filled in for one car. */
  function Pieces(parts: seq<Part>, car: Car, fmt: Formats): (r: seq<string>)
    ensures |r| == |parts|
    ensures forall i :: 0 <= i < |parts| ==> r[i] == Show(parts[i], car, fmt)
  {
    seq(|parts|, i requires 0 <= i < |parts| => Show(parts[i], car, fmt))
  }

  /** Rendering a template is concatenating its filled-in pieces. */
  lemma {:induction false} RenderPieces(parts: seq<Part>, car: Car, fmt: Formats)
    ensures Render(parts, car, fmt) == Concat(Pieces(parts, car, fmt))
  {
    if parts != [] {
      RenderPieces(parts[1..], car, fmt);
      assert Pieces(parts, car, fmt)[1..] == Pieces(parts[1..], car, fmt);
    }
  }

  /** An offer is its 19 template pieces in order. */
  lemma OfferLayout(car: Car, fmt: Formats)
    ensures OfferXml(car, fmt) == Concat(Pieces(OfferTemplate, car, fmt))
    ensures |Pieces(OfferTemplate, car, fmt)| == 19
  {
    RenderPieces(OfferTemplate, car, fmt);
  }

  /** The car's id fills the offer id, the url and the picture, and its
      price (0 when it has none) the price. */
  lemma OfferIdAndPrice(car: Car, fmt: Formats)
    ensures var p, id := Pieces(OfferTemplate, car, fmt), IntToString(car.id);
            p[1] == id && p[3] == id && p[9] == id && p[5] == fmt.num(car.price)
  {
  }

  /** The description closes the offer, unescaped, inside a CDATA
      section. */
  lemma OfferDescription(car: Car, fmt: Formats)
    ensures var p := Pieces(OfferTemplate, car, fmt);
            p[16] == DescriptionOpen && p[17] == Description(car, fmt) && p[18] == OfferClose
  {
    var p := Pieces(OfferTemplate, car, fmt);
    assert p[17] == Fill(DescriptionHole, car, fmt);
  }

  /** The category, and the three text fields escaped. */
  lemma OfferCategory(car: Car, fmt: Formats)
    ensures Pieces(OfferTemplate, car, fmt)[7] == IntToString(CategoryId(FieldOption(car.model)))
  {
  }

  lemma OfferVendor(car: Car, fmt: Formats)
    ensures var p := Pieces(OfferTemplate, car, fmt);
            p[11] == Vendor(car) && p[13] == VendorCode(car)
  {
  }

  lemma OfferNameField(car: Car, fmt: Formats)
    ensures Pieces(OfferTemplate, car, fmt)[15] == OfferName(car, fmt)
  {
  }

  /** The three escaped fields cannot open or close markup, and each decodes
      back to the text it came from. */
  lemma OfferTextFields(car: Car, fmt: Formats)
    ensures '<' !in Vendor(car) && '<' !in VendorCode(car) && '<' !in OfferName(car, fmt)
    ensures Unescape(Vendor(car)) == OrElse(FieldOption(car.brand), "")
    ensures Unescape(VendorCode(car)) == OrElse(car.vin, "")
    ensures Unescape(OfferName(car, fmt)) == CarName(car, fmt)
  {
    EscapedIsClean(OrElse(FieldOption(car.brand), ""));
    UnescapeEscape(OrElse(FieldOption(car.brand), ""));
    EscapedIsClean(OrElse(car.vin, ""));
    UnescapeEscape(OrElse(car.vin, ""));
    EscapedIsClean(CarName(car, fmt));
    UnescapeEscape(CarName(car, fmt));
  }

  const XmlHeader := "<?xml version=\"1.0\" encoding=\"UTF-8\"?>"

  /** The catalogue header up to the generation date. */
  const CatalogOpen := "<yml_catalog date=\""

  /** The shop description, currencies, categories and delivery options. */
  const ShopHeader :=
    "\">\n<shop>\n<name>Adena Trans</name>\n<company>Adena Trans Company</company>\n<url>https://adenatrans.ru/</url>"
    + "\n<currencies>\n<currency id=\"RUB\" rate=\"1\"/>\n</currencies>\n<categories>"
    + "\n<category id=\"1\">Автомобили</category>\n<category id=\"2\" parentId=\"1\">Кроссоверы</category>"
    + "\n<category id=\"3\" parentId=\"1\">Седаны</category>\n<category id=\"4\" parentId=\"1\">Хэтчбеки</category>"
    + "\n<category id=\"5\" parentId=\"1\">Универсалы</category>\n<category id=\"6\" parentId=\"1\">Купе</category>"
    + "\n<category id=\"7\" parentId=\"1\">Кабриолеты</category>\n</categories>"
    + "\n<delivery-options>\n<option cost=\"0\" days=\"1-3\"/>\n</delivery-options>\n<offers>"

  const Footer := "\n</offers>\n</shop>\n</yml_catalog>"

  /** The whole document: fixed header with the date, the offers, the
      fixed footer. */
  function Document(cars: seq<Car>, date: string, fmt: Formats): string
  {
    XmlHeader + CatalogOpen + date + ShopHeader + Offers(cars, fmt) + Footer
  }

  const LoadErrorMessage := "Ошибка загрузки данных"

  class XmlExportPage {
    var cars: seq<Car>
    var loading: bool
    var error: Option<string>
    var xmlContent: string
    var showXml: bool

    constructor ()
      ensures cars == [] && !loading && error.None? && xmlContent == "" && !showXml
    {
      cars := [];
      loading := false;
      error := None;
      xmlContent := "";
      showXml := false;
    }

    /** The first half of `loadCars`: loading starts and the error clears. */
    method LoadCars()
      modifies this
      ensures loading && error.None?
      ensures cars == old(cars) && xmlContent == old(xmlContent) && showXml == old(showXml)
    {
      loading := true;
      error := None;
    }

    /** The success callback: the car list becomes the active cars of the
        response, the document is regenerated and loading ends. */
    method OnCarsLoaded(response: seq<Car>, date: string, fmt: Formats)
      modifies this
      ensures cars == ActiveCars(response) && xmlContent == Document(cars, date, fmt)
      ensures !loading && error == old(error) && showXml == old(showXml)
    {
      cars := Filter(IsActive, response);
      GenerateXml(date, fmt);
      loading := false;
    }

    /** The error callback: the message is set and loading ends; the cars
        and the document are kept. */
    method OnLoadError()
      modifies this
      ensures error == Some(LoadErrorMessage) && !loading
      ensures cars == old(cars) && xmlContent == old(xmlContent) && showXml == old(showXml)
    {
      error := Some(LoadErrorMessage);
      loading := false;
    }

    /** `generateXml`: the document for the current cars, dated `date`. */
    method GenerateXml(date: string, fmt: Formats)
      modifies this
      ensures xmlContent == Document(cars, date, fmt)
      ensures cars == old(cars) && loading == old(loading) && error == old(error) && showXml == old(showXml)
    {
      xmlContent := Document(cars, date, fmt);
    }

    method ToggleXmlView()
      modifies this
      ensures showXml == !old(showXml)
      ensures cars == old(cars) && loading == old(loading) && error == old(error) && xmlContent == old(xmlContent)
    {
      showXml := !showXml;
    }
  }
}
