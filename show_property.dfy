/**
 * The public listing page (Showproperty): `parsePrice`, which reads a price written
 * in Indian style ("1.5 Crore", "₹1,50,00,000", "50 Lakh") as a number, and the list
 * shown for the applied search, type and price filters.
 *
 * Prices are exact decimals (`real`); floating-point rounding is not modelled.
 */
module ShowPropertyPage {
  import opened Wrappers
  import opened Text
  import opened Decimal
  import opened Json
  import Lists
  import PropertyContext

  // ----- parsePrice -----

  /** A price as the page meets it: missing or null, a number, or text. */
  datatype PriceInput = NoPrice | Number(n: int) | Written(s: string)

  /** The price field of a listing. A value of any other kind reads as missing. */
  function PriceOf(p: Doc): PriceInput {
    match Get(p, "price")
    case Some(Num(n)) => Number(n)
    case Some(Str(s)) => Written(s)
    case Some(Bool(true)) => Written("true")
    case _ => NoPrice
  }

  /** The input is truthy. */
  predicate Given(p: PriceInput) {
    match p
    case NoPrice => false
    case Number(n) => n != 0
    case Written(s) => s != ""
  }

  /** `String(priceStr)` */
  function PriceString(p: PriceInput): string {
    match p
    case NoPrice => ""
    case Number(n) => IntToString(n)
    case Written(s) => s
  }

  function NotComma(): char -> bool { c => c != ',' }

  function DigitOrDot(): char -> bool { c => IsDigit(c) || c == '.' }

  function DigitOrDotNotComma(): char -> bool { c => NotComma()(c) && DigitOrDot()(c) }

  /** `.replace(/,/g, "").replace(/[^0-9.]/g, "")`: every digit and dot of the text,
      in order, run together. */
  function NumericText(s: string): (r: string)
    ensures forall i :: 0 <= i < |r| ==> IsDigit(r[i]) || r[i] == '.'
    ensures r == Lists.Filter(s, DigitOrDot())
  {
    Lists.FilterTwice(s, NotComma(), DigitOrDot(), DigitOrDotNotComma());
    Lists.FilterSameKeep(s, DigitOrDotNotComma(), DigitOrDot());
    Lists.Filter(Lists.Filter(s, NotComma()), DigitOrDot())
  }

  /** The length of the run of digits at the front of `s`. */
  function DigitRun(s: string): (k: nat)
    ensures k <= |s| && AllDigits(s[..k])
    ensures k < |s| ==> !IsDigit(s[k])
  {
    if s == [] || !IsDigit(s[0]) then 0
    else
      var k := 1 + DigitRun(s[1..]);
      assert s[..k] == [s[0]] + s[1..][..k - 1];
      k
  }

  function Pow10(n: nat): (r: nat)
    ensures r >= 1
  {
    if n == 0 then 1 else 10 * Pow10(n - 1)
  }

  /** `parseFloat` of text made of digits and dots: the digits before the first dot,
      then the digits right after it; `None` (NaN) when there is no digit there. */
  function LeadingDecimal(s: string): (r: Option<real>)
    ensures r.Some? ==> r.value >= 0.0
  {
    var k := DigitRun(s);
    var whole := s[..k];
    var fraction := FractionAfter(s, k);
    if k == 0 && fraction == "" then None
    else Some(DigitsValue(whole) as real + FractionValue(fraction))
  }

  /** The digits right after a dot at position `k`; none when there is no dot there. */
  function FractionAfter(s: string, k: nat): (f: string)
    requires k <= |s|
    ensures AllDigits(f)
    ensures k == |s| ==> f == ""
  {
    if k < |s| && s[k] == '.' then s[k + 1..][..DigitRun(s[k + 1..])] else ""
  }

  /** The value of the digits after the dot. */
  function FractionValue(f: string): (r: real)
    requires AllDigits(f)
    ensures r >= 0.0
    ensures f == "" ==> r == 0.0
  {
    if f == "" then 0.0 else DigitsValue(f) as real / Pow10(|f|) as real
  }

  /** A run of digits alone reads as its value. */
  lemma LeadingDecimalOfDigits(s: string)
    requires |s| > 0 && AllDigits(s)
    ensures LeadingDecimal(s) == Some(DigitsValue(s) as real)
  {
    DigitRunAll(s);
    var k := DigitRun(s);
    assert k == |s| && s[..k] == s;
    assert LeadingDecimal(s) == Some(DigitsValue(s[..k]) as real + FractionValue(""));
  }

  lemma {:induction false} DigitRunAll(s: string)
    requires AllDigits(s)
    ensures DigitRun(s) == |s|
  {
    if s != [] {
      DigitRunAll(s[1..]);
    }
  }

  const Crore: real := 10000000.0
  const Lakh: real := 100000.0

  /** `parsePrice`: 0 for a falsy input or when no number can be read; otherwise the
      number read, times ten million when the text says "crore", else times a hundred
      thousand when it says "lakh" (in any case of letters). */
  function ParsePrice(p: PriceInput): (r: real)
    ensures r >= 0.0
    ensures !Given(p) ==> r == 0.0
  {
    if !Given(p) then 0.0
    else
      var str := ToLower(PriceString(p));
      match LeadingDecimal(NumericText(str))
      case None => 0.0
      case Some(v) =>
        if Contains(str, "crore") then v * Crore
        else if Contains(str, "lakh") then v * Lakh
        else v
  }

  /** The multiplier words are only ever found where the text has letters. */
  lemma {:induction false} NoWordInDigits(s: string, word: string)
    requires AllDigits(s) && |word| > 0 && !IsDigit(word[0])
    ensures !Contains(s, word)
  {
    if |s| > 0 {
      assert !StartsWith(s, word) by {
        if |word| <= |s| {
          assert s[..|word|][0] == s[0];
        }
      }
      NoWordInDigits(s[1..], word);
    }
  }

  /** A price stored as a positive number (as the listing schema stores it) reads as
      itself. */
  lemma NumberPriceReadsAsItself(n: int)
    requires n > 0
    ensures ParsePrice(Number(n)) == n as real
  {
    var s := NatToString(n);
    assert PriceString(Number(n)) == s;
    assert ToLower(s) == s;
    Lists.FilterKeepsAll(s, DigitOrDot());
    LeadingDecimalOfDigits(s);
    ParseNatToString(n);
    NoWordInDigits(s, "crore");
    NoWordInDigits(s, "lakh");
  }

  /** Lower-case letters and digits are left alone by `toLowerCase`. */
  lemma LowerKeepsDigitsAndWord(digits: string, word: string)
    requires AllDigits(digits) && forall i :: 0 <= i < |word| ==> !IsUpper(word[i])
    ensures ToLower(digits + word) == digits + word
  {
  }

  /** Digits followed by a word with no digit or dot: the numeric text is the digits. */
  lemma NumericTextOfDigitsWord(digits: string, word: string)
    requires AllDigits(digits) && forall i :: 0 <= i < |word| ==> !IsDigit(word[i]) && word[i] != '.'
    ensures NumericText(digits + word) == digits
  {
    Lists.FilterAppend(digits, word, DigitOrDot());
    Lists.FilterKeepsAll(digits, DigitOrDot());
    Lists.FilterKeepsNone(word, DigitOrDot());
  }

  /** Digits then a word: the value the number part has once the text is lowered. */
  lemma {:induction false} DigitsThenWord(digits: string, word: string)
    requires |digits| > 0 && AllDigits(digits)
    requires forall i :: 0 <= i < |word| ==> !IsDigit(word[i]) && word[i] != '.' && !IsUpper(word[i])
    ensures Given(Written(digits + word))
    ensures ToLower(PriceString(Written(digits + word))) == digits + word
    ensures LeadingDecimal(NumericText(digits + word)) == Some(DigitsValue(digits) as real)
  {
    LowerKeepsDigitsAndWord(digits, word);
    NumericTextOfDigitsWord(digits, word);
    LeadingDecimalOfDigits(digits);
  }

  /** A text shorter than the word cannot contain it. */
  lemma {:induction false} TooShortToContain(s: string, word: string)
    requires |s| < |word|
    ensures !Contains(s, word)
  {
    if |s| > 0 {
      TooShortToContain(s[1..], word);
    }
  }

  /** A word written after the number, behind a space, is found in the text. */
  lemma EndsWithWord(digits: string, word: string)
    requires |word| > 0
    ensures Contains(digits + word, word[1..])
  {
    ContainsItself(digits + word, |digits| + 1);
    assert (digits + word)[|digits| + 1..] == word[1..];
  }

  /** A lower-case written price whose number part reads as `v`. */
  lemma ParseWritten(s: string, v: real)
    requires s != "" && ToLower(s) == s && LeadingDecimal(NumericText(s)) == Some(v)
    ensures ParsePrice(Written(s)) ==
      if Contains(s, "crore") then v * Crore else if Contains(s, "lakh") then v * Lakh else v
  {
  }

  /** "<digits> crore" reads as the digits times ten million. */
  lemma WrittenInCrore(digits: string)
    requires |digits| > 0 && AllDigits(digits)
    ensures ParsePrice(Written(digits + " crore")) == DigitsValue(digits) as real * Crore
  {
    var str := digits + " crore";
    DigitsThenWord(digits, " crore");
    EndsWithWord(digits, " crore");
    ParseWritten(str, DigitsValue(digits) as real);
  }

  /** "<digits> lakh" reads as the digits times a hundred thousand. */
  lemma WrittenInLakh(digits: string)
    requires |digits| > 0 && AllDigits(digits)
    ensures ParsePrice(Written(digits + " lakh")) == DigitsValue(digits) as real * Lakh
  {
    var str := digits + " lakh";
    DigitsThenWord(digits, " lakh");
    EndsWithWord(digits, " lakh");
    NoCroreInLakh(digits);
    ParseWritten(str, DigitsValue(digits) as real);
  }

  lemma {:induction false} NoCroreInLakh(digits: string)
    requires AllDigits(digits)
    ensures !Contains(digits + " lakh", "crore")
  {
    var s := digits + " lakh";
    assert !StartsWith(s, "crore") by {
      if |s| >= 5 {
        assert s[..5][0] == s[0];
      }
    }
    if |digits| > 0 {
      assert s[1..] == digits[1..] + " lakh";
      NoCroreInLakh(digits[1..]);
    } else {
      TooShortToContain(s[1..], "crore");
    }
  }

  // ----- the filters -----

  datatype Filters = Filters(search: string, propertyType: string, price: string)

  /** The filters the page starts with: no search, every type, every price. */
  const DefaultFilters := Filters("", "All", "All")

  /** The page's two copies of the filters: the one being edited and the one applied. */
  datatype FilterState = FilterState(editing: Filters, applied: Filters)

  const InitialState := FilterState(DefaultFilters, DefaultFilters)

  /** Editing a control changes only the filters being edited. */
  function Edit(st: FilterState, next: Filters): (r: FilterState)
    ensures r.applied == st.applied && r.editing == next
  {
    st.(editing := next)
  }

  /** `applyFilters`: the edited filters become the applied ones. */
  function ApplyFilters(st: FilterState): (r: FilterState)
    ensures r.applied == st.editing && r.editing == st.editing
  {
    st.(applied := st.editing)
  }

  /** A text field of a listing; the server requires a title and a location. */
  function TextOf(p: Doc, key: string): string {
    match Get(p, key)
    case Some(Str(s)) => s
    case _ => ""
  }

  /** The title or the location contains the search text, ignoring case. */
  predicate MatchesSearch(search: string, p: Doc) {
    Contains(ToLower(TextOf(p, "title")), ToLower(search))
    || Contains(ToLower(TextOf(p, "location")), ToLower(search))
  }

  /** `Number(text)` for the bounds of a price option: `None` stands for NaN. */
  function Bound(text: string): Option<real> {
    match NumberOfText(text)
    case Some(n) => Some(n as real)
    case None => None
  }

  /** `const [min, max] = filters.price.split("-").map(Number)`; a missing `max` is NaN. */
  function Bounds(price: string): (Option<real>, Option<real>) {
    var pieces := Split(price, '-');
    (Bound(pieces[0]), if |pieces| > 1 then Bound(pieces[1]) else None)
  }

  /** `min <= price && price <= max`, both bounds included; NaN compares false. */
  predicate InPriceRange(price: string, p: Doc) {
    var (lo, hi) := Bounds(price);
    lo.Some? && hi.Some? && lo.value <= ParsePrice(PriceOf(p)) <= hi.value
  }

  function SearchFilter(search: string): Doc -> bool { p => MatchesSearch(search, p) }

  function TypeFilter(t: string): Doc -> bool { p => FieldIs(p, "type", t) }

  function PriceFilter(price: string): Doc -> bool { p => InPriceRange(price, p) }

  /** `filteredList`: each filter that is set narrows the list in turn. */
  function FilteredList(properties: seq<Doc>, f: Filters): (r: seq<Doc>)
    ensures |r| <= |properties|
  {
    var bySearch := if f.search != "" then Lists.Filter(properties, SearchFilter(f.search)) else properties;
    var byType := if f.propertyType != "All" then Lists.Filter(bySearch, TypeFilter(f.propertyType)) else bySearch;
    if f.price != "All" then Lists.Filter(byType, PriceFilter(f.price)) else byType
  }

  /** The page's first view shows every listing. */
  lemma DefaultShowsAll(properties: seq<Doc>)
    ensures FilteredList(properties, DefaultFilters) == properties
  {
  }

  /** A listing is shown exactly when it passes every filter that is set. */
  lemma {:induction false} FilteredListMembers(properties: seq<Doc>, f: Filters, p: Doc)
    ensures p in FilteredList(properties, f) <==>
      p in properties
      && (f.search != "" ==> MatchesSearch(f.search, p))
      && (f.propertyType != "All" ==> FieldIs(p, "type", f.propertyType))
      && (f.price != "All" ==> InPriceRange(f.price, p))
  {
    var bySearch := if f.search != "" then Lists.Filter(properties, SearchFilter(f.search)) else properties;
    var byType := if f.propertyType != "All" then Lists.Filter(bySearch, TypeFilter(f.propertyType)) else bySearch;
    assert p in bySearch <==> p in properties && (f.search != "" ==> MatchesSearch(f.search, p)) by {
      FilterMember(properties, SearchFilter(f.search), p);
    }
    assert p in byType <==> p in bySearch && (f.propertyType != "All" ==> FieldIs(p, "type", f.propertyType)) by {
      FilterMember(bySearch, TypeFilter(f.propertyType), p);
    }
    FilterMember(byType, PriceFilter(f.price), p);
  }

  lemma FilterMember(s: seq<Doc>, keep: Doc -> bool, p: Doc)
    ensures p in Lists.Filter(s, keep) <==> p in s && keep(p)
  {
    var r := Lists.Filter(s, keep);
    if p in r {
      var i :| 0 <= i < |r| && r[i] == p;
    }
    if p in s && keep(p) {
      var i :| 0 <= i < |s| && s[i] == p;
    }
  }

  /** The price filter keeps a listing exactly when its price lies between the two
      bounds of the option, both included. */
  lemma PriceRangeInclusive(properties: seq<Doc>, propertyType: string, price: string, p: Doc, lo: real, hi: real)
    requires price != "All" && Bounds(price) == (Some(lo), Some(hi))
    requires p in properties && (propertyType == "All" || FieldIs(p, "type", propertyType))
    ensures p in FilteredList(properties, Filters("", propertyType, price)) <==> lo <= ParsePrice(PriceOf(p)) <= hi
  {
    FilteredListMembers(properties, Filters("", propertyType, price), p);
  }

  /** The page's mount effect calls the context's `fetchallProperties`, which the
      context does not export, so the call throws. */
  lemma MountCallThrows()
    ensures PropertyContext.CallMember("fetchallProperties") == PropertyContext.TypeError
  {
    PropertyContext.PagesCallMissingMembers();
  }
}
