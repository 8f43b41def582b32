/**
 * The admin leads page (Leads): how a stored phone number is shown, the per-lead
 * "contacted" and "note" maps the page keeps, the body it sends when a lead is
 * saved, the list shown for a search and a tab, and the tab counters.
 *
 * Leads are the user records the server sends, as JSON objects. The page's maps are
 * keyed by a lead's `_id`.
 */
module LeadsPage {
  import opened Wrappers
  import opened Text
  import opened Decimal
  import opened Json
  import Lists

  // ----- formatPhoneNumbers -----

  /** A stored phone as the page receives it: absent, a number, or text. */
  datatype PhoneData = NoData | Number(n: int) | Digits(s: string)

  /** What the phone cell shows: the placeholder, or the formatted number. */
  datatype PhoneCell = NoPhone | Shown(text: string)

  /** The phone is truthy: present, not 0 and not empty text. */
  predicate PhoneGiven(d: PhoneData) {
    match d
    case NoData => false
    case Number(n) => n != 0
    case Digits(s) => s != ""
  }

  /** `phoneData.toString()` */
  function PhoneString(d: PhoneData): string {
    match d
    case NoData => ""
    case Number(n) => IntToString(n)
    case Digits(s) => s
  }

  const CountryPrefix := "+91"

  /** The number with the country prefix: kept as it is (trimmed) when it already has
      it; otherwise a leading "0", or else a leading "91", is dropped and "+91" put first. */
  function WithCountryPrefix(s: string): (r: string)
    ensures StartsWith(r, CountryPrefix)
  {
    var t := Trim(s);
    if StartsWith(t, CountryPrefix) then t
    else if StartsWith(t, "0") then CountryPrefix + t[1..]
    else if StartsWith(t, "91") then CountryPrefix + t[2..]
    else CountryPrefix + t
  }

  /** `formatPhoneNumbers`: the local text is trimmed, then rewritten step by step. */
  method FormatPhoneNumbers(d: PhoneData) returns (cell: PhoneCell)
    ensures cell == NoPhone <==> !PhoneGiven(d)
    ensures cell.Shown? ==> cell.text == WithCountryPrefix(PhoneString(d))
  {
    if !PhoneGiven(d) {
      return NoPhone;
    }
    var formatted := Trim(PhoneString(d));
    if !StartsWith(formatted, CountryPrefix) {
      if StartsWith(formatted, "0") {
        formatted := formatted[1..];
      } else if StartsWith(formatted, "91") {
        formatted := formatted[2..];
      }
      formatted := CountryPrefix + formatted;
    }
    cell := Shown(formatted);
  }

  /** The formatted number has no surrounding white space. */
  lemma {:induction false} WithCountryPrefixTrimmed(s: string)
    ensures Trim(WithCountryPrefix(s)) == WithCountryPrefix(s)
  {
    var t := Trim(s);
    if StartsWith(t, CountryPrefix) {
      TrimIdempotent(s);
    } else if StartsWith(t, "0") {
      PrefixedTrimmed(t[1..]);
    } else if StartsWith(t, "91") {
      PrefixedTrimmed(t[2..]);
    } else {
      PrefixedTrimmed(t);
    }
  }

  /** The prefix put before a number ending in a non-space leaves nothing to trim. */
  lemma PrefixedTrimmed(rest: string)
    requires rest == [] || !IsSpace(rest[|rest| - 1])
    ensures Trim(CountryPrefix + rest) == CountryPrefix + rest
  {
    var r := CountryPrefix + rest;
    assert !IsSpace(r[0]);
    assert !IsSpace(r[|r| - 1]);
    TrimStartNoSpace(r);
    TrimEndNoSpace(r);
  }

  /** Formatting an already formatted number leaves it as it is. */
  lemma WithCountryPrefixIdempotent(s: string)
    ensures WithCountryPrefix(WithCountryPrefix(s)) == WithCountryPrefix(s)
  {
    WithCountryPrefixTrimmed(s);
  }

  /** A ten-digit number that begins with 91 loses those two digits. */
  lemma TenDigitsStartingNinetyOne(s: string)
    requires |s| == 10 && AllDigits(s) && StartsWith(s, "91")
    ensures WithCountryPrefix(s) == CountryPrefix + s[2..]
    ensures |WithCountryPrefix(s)| == 11
  {
    assert !IsSpace(s[0]) && !IsSpace(s[9]);
    TrimStartNoSpace(s);
    TrimEndNoSpace(s);
    assert s[0] != '+';
  }

  /** A number written with a trunk "0" loses it. */
  lemma LeadingZeroDropped(s: string)
    requires AllDigits(s) && StartsWith(s, "0")
    ensures WithCountryPrefix(s) == CountryPrefix + s[1..]
  {
    assert !IsSpace(s[0]) && !IsSpace(s[|s| - 1]);
    TrimStartNoSpace(s);
    TrimEndNoSpace(s);
    assert s[0] != '+';
  }

  // ----- the contacted and notes maps -----

  /** `u.contacted || false` */
  function ContactedOf(u: Doc): Value {
    if Has(u, "contacted") then u["contacted"] else Bool(false)
  }

  /** `u.note || ""` */
  function NoteOf(u: Doc): Value {
    if Has(u, "note") then u["note"] else Str("")
  }

  /** No later lead in `users[..k]` has the same id as `users[i]`. */
  predicate LastOfId(users: seq<Doc>, k: nat, i: nat)
    requires i < k <= |users|
  {
    forall j :: i < j < k ==> IdOf(users[j]) != IdOf(users[i])
  }

  /** The loaded leads fill the two maps, one entry per id; a later lead with the same
      id overwrites an earlier one. */
  method InitMaps(users: seq<Doc>) returns (contacted: map<Option<Value>, Value>, notes: map<Option<Value>, Value>)
    ensures contacted.Keys == notes.Keys
    ensures forall i :: 0 <= i < |users| ==> IdOf(users[i]) in contacted
    ensures forall id :: id in contacted ==> exists i :: 0 <= i < |users| && IdOf(users[i]) == id
    ensures forall i :: 0 <= i < |users| && LastOfId(users, |users|, i) ==>
      contacted[IdOf(users[i])] == ContactedOf(users[i]) && notes[IdOf(users[i])] == NoteOf(users[i])
  {
    contacted := map[];
    notes := map[];
    var k := 0;
    while k < |users|
      invariant 0 <= k <= |users|
      invariant contacted.Keys == notes.Keys
      invariant forall i :: 0 <= i < k ==> IdOf(users[i]) in contacted
      invariant forall id :: id in contacted ==> exists i :: 0 <= i < k && IdOf(users[i]) == id
      invariant forall i :: 0 <= i < k && LastOfId(users, k, i) ==>
        contacted[IdOf(users[i])] == ContactedOf(users[i]) && notes[IdOf(users[i])] == NoteOf(users[i])
    {
      var u := users[k];
      contacted := contacted[IdOf(u) := ContactedOf(u)];
      notes := notes[IdOf(u) := NoteOf(u)];
      k := k + 1;
    }
  }

  // ----- saving a lead -----

  /** The body of the update request. `JSON.stringify` leaves out an undefined field, so
      "contacted" and "note" appear only when given; "lastContactedAt" is the time of
      the save when the lead is marked contacted, and null otherwise. */
  function SavePayload(contacted: Option<Value>, note: Option<Value>, now: int): (r: Doc)
    ensures r.Keys <= {"contacted", "note", "lastContactedAt"}
    ensures "lastContactedAt" in r
    ensures Truthy(contacted) ==> r["lastContactedAt"] == Date(now)
    ensures !Truthy(contacted) ==> r["lastContactedAt"] == Null
    ensures "contacted" in r <==> contacted.Some?
    ensures contacted.Some? ==> r["contacted"] == contacted.value
    ensures "note" in r <==> note.Some?
    ensures note.Some? ==> r["note"] == note.value
  {
    var stamped := map["lastContactedAt" := if Truthy(contacted) then Date(now) else Null];
    var withContacted := if contacted.Some? then stamped["contacted" := contacted.value] else stamped;
    if note.Some? then withContacted["note" := note.value] else withContacted
  }

  /** The saved lead takes the place of every lead with that id; nothing else changes. */
  function ReplaceLead(users: seq<Doc>, userId: Value, updated: Doc): (r: seq<Doc>)
    ensures |r| == |users|
    ensures forall i :: 0 <= i < |users| && IdOf(users[i]) == Some(userId) ==> r[i] == updated
    ensures forall i :: 0 <= i < |users| && IdOf(users[i]) != Some(userId) ==> r[i] == users[i]
  {
    Lists.Replace(users, IdIs(Some(userId)), updated)
  }

  // ----- the list shown -----

  /** A text field of a lead; any other kind of value reads as missing. */
  function TextOf(u: Doc, key: string): Option<string> {
    match Get(u, key)
    case Some(Str(s)) => Some(s)
    case _ => None
  }

  /** `u.key?.toLowerCase().includes(search.toLowerCase())` */
  predicate FieldMatches(u: Doc, key: string, search: string) {
    TextOf(u, key).Some? && Contains(ToLower(TextOf(u, key).value), ToLower(search))
  }

  /** `u.phoneNumber || ""` */
  function PhoneNumberText(u: Doc): string {
    TextOf(u, "phoneNumber").GetOr("")
  }

  /** The search looks at the name, the email and the `phoneNumber` field. */
  predicate MatchesSearch(u: Doc, search: string) {
    FieldMatches(u, "name", search) || FieldMatches(u, "email", search)
    || Contains(ToLower(PhoneNumberText(u)), ToLower(search))
  }

  /** `contacted[u._id]`, which is `undefined` for a lead missing from the map. */
  predicate IsContacted(contacted: map<Option<Value>, Value>, u: Doc) {
    IdOf(u) in contacted && Truthy(Some(contacted[IdOf(u)]))
  }

  /** "all" shows every lead, "contacted" the contacted ones, any other tab the rest. */
  predicate MatchesView(contacted: map<Option<Value>, Value>, view: string, u: Doc) {
    if view == "all" then true
    else if view == "contacted" then IsContacted(contacted, u)
    else !IsContacted(contacted, u)
  }

  function Shows(contacted: map<Option<Value>, Value>, search: string, view: string): Doc -> bool {
    u => MatchesSearch(u, search) && MatchesView(contacted, view, u)
  }

  /** `filtered`: the leads that match the search and the tab, in their order. */
  function Filtered(users: seq<Doc>, search: string, view: string, contacted: map<Option<Value>, Value>): (r: seq<Doc>)
    ensures Lists.SubsequenceOf(r, users)
    ensures forall i :: 0 <= i < |r| ==> MatchesSearch(r[i], search) && MatchesView(contacted, view, r[i])
    ensures forall i :: 0 <= i < |users| ==>
      (MatchesSearch(users[i], search) && MatchesView(contacted, view, users[i]) ==> users[i] in r)
  {
    Lists.FilterIsSubsequence(users, Shows(contacted, search, view));
    Lists.Filter(users, Shows(contacted, search, view))
  }

  /** With an empty search on the "all" tab every lead is listed. */
  lemma {:induction false} EmptySearchShowsAll(users: seq<Doc>, contacted: map<Option<Value>, Value>)
    ensures Filtered(users, "", "all", contacted) == users
  {
    forall i | 0 <= i < |users|
      ensures Shows(contacted, "", "all")(users[i])
    {
      ContainsEmpty(ToLower(PhoneNumberText(users[i])));
    }
    Lists.FilterKeepsAll(users, Shows(contacted, "", "all"));
  }

  /** Stored users have a "phone" field but no "phoneNumber" field, so a non-empty
      search never matches a lead by its phone number. */
  lemma SearchIgnoresPhone(u: Doc, search: string)
    requires "phoneNumber" !in u && search != ""
    ensures MatchesSearch(u, search) <==> FieldMatches(u, "name", search) || FieldMatches(u, "email", search)
  {
    assert PhoneNumberText(u) == "";
    assert ToLower("") == "";
    assert |ToLower(search)| > 0;
  }

  // ----- the tab counters -----

  predicate InTab(contacted: map<Option<Value>, Value>, tab: string, u: Doc) {
    if tab == "contacted" then IsContacted(contacted, u) else !IsContacted(contacted, u)
  }

  function TabFilter(contacted: map<Option<Value>, Value>, tab: string): Doc -> bool {
    u => InTab(contacted, tab, u)
  }

  /** The number next to a tab: the leads in it, whatever the search. */
  function TabCount(users: seq<Doc>, contacted: map<Option<Value>, Value>, tab: string): (r: nat)
    ensures r <= |users|
  {
    |Lists.Filter(users, TabFilter(contacted, tab))|
  }

  /** Every lead is counted under exactly one of the two tabs. */
  lemma TabCountsAddUp(users: seq<Doc>, contacted: map<Option<Value>, Value>)
    ensures TabCount(users, contacted, "contacted") + TabCount(users, contacted, "uncontacted") == |users|
  {
    Lists.FilterSplits(users, TabFilter(contacted, "contacted"), TabFilter(contacted, "uncontacted"));
  }
}
