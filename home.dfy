/**
 * The landing page (Home): the testimonial carousel's arrows, the newsletter form, and
 * the "top locations" block, which groups the page's own listings by location and
 * shows the four largest groups.
 */
module HomePage {
  import opened Wrappers
  import opened Text
  import opened Json
  import Lists
  import Sorting

  // ----- the testimonial carousel -----

  /** The page holds eight testimonials. */
  const TestimonialCount := 8

  /** `nextTestimonial`: `(prev + 1) % n`. */
  function NextTestimonial(i: int, n: nat): (r: int)
    requires n > 0 && i >= 0
    ensures 0 <= r < n
    ensures i < n - 1 ==> r == i + 1
    ensures i == n - 1 ==> r == 0
  {
    (i + 1) % n
  }

  /** `prevTestimonial`: `(prev - 1 + n) % n`. */
  function PrevTestimonial(i: int, n: nat): (r: int)
    requires n > 0 && i >= 0
    ensures 0 <= r < n
    ensures 0 < i < n ==> r == i - 1
    ensures i == 0 ==> r == n - 1
  {
    (i - 1 + n) % n
  }

  /** From any testimonial shown, "previous" undoes "next" and "next" undoes "previous". */
  lemma NextPrevUndo(i: int, n: nat)
    requires n > 0 && 0 <= i < n
    ensures PrevTestimonial(NextTestimonial(i, n), n) == i
    ensures NextTestimonial(PrevTestimonial(i, n), n) == i
  {
  }

  /** `n` presses of "next" from testimonial `i`. */
  function Advance(i: int, n: nat, presses: nat): int
    requires n > 0 && i >= 0
  {
    if presses == 0 then i else NextTestimonial(Advance(i, n, presses - 1), n)
  }

  /** After `k` presses the carousel shows testimonial `(i + k) mod n`, so a full round of
      `n` presses comes back to the start. */
  lemma {:induction false} AdvanceIsRotation(i: int, n: nat, presses: nat)
    requires n > 0 && 0 <= i < n
    ensures Advance(i, n, presses) == (i + presses) % n
  {
    if presses > 0 {
      AdvanceIsRotation(i, n, presses - 1);
      var before := (i + presses - 1) % n;
      assert (before + 1) % n == (i + presses) % n by {
        ModSucc(i + presses - 1, n);
      }
    }
  }

  /** On the page's eight testimonials, eight presses of "next" show the same one
      again, and fewer presses never do. */
  lemma {:induction false} CarouselCycles(i: int, presses: nat)
    requires 0 <= i < TestimonialCount && 0 < presses <= TestimonialCount
    ensures Advance(i, TestimonialCount, presses) == i <==> presses == TestimonialCount
  {
    AdvanceIsRotation(i, TestimonialCount, presses);
    if presses == TestimonialCount {
      ModUnique(i + presses, 1, i, TestimonialCount);
    } else if i + presses < TestimonialCount {
      ModUnique(i + presses, 0, i + presses, TestimonialCount);
    } else {
      ModUnique(i + presses, 1, i + presses - TestimonialCount, TestimonialCount);
    }
  }

  lemma ModSucc(a: nat, n: nat)
    requires n > 0
    ensures (a % n + 1) % n == (a + 1) % n
  {
    var q, m := a / n, a % n;
    assert a == q * n + m;
    if m + 1 < n {
      ModUnique(m + 1, 0, m + 1, n);
      ModUnique(a + 1, q, m + 1, n);
    } else {
      ModUnique(m + 1, 1, 0, n);
      MulSucc(q, n);
      ModUnique(a + 1, q + 1, 0, n);
    }
  }

  lemma MulSucc(q: int, n: int)
    ensures (q + 1) * n == q * n + n
  {
  }

  /** The remainder is the one `r` in `[0, n)` with `x == q * n + r`. */
  lemma ModUnique(x: int, q: int, r: int, n: nat)
    requires n > 0 && 0 <= r < n && x == q * n + r
    ensures x % n == r
  {
    var d := q - x / n;
    assert d * n == x % n - r;
  }

  // ----- the newsletter form -----

  /** `handleSubscribe`: the form is marked submitted once the email, trimmed, is not
      empty; an email of white space alone leaves it as it was. */
  function HandleSubscribe(email: string, submitted: bool): (r: bool)
    ensures r <==> submitted || exists i :: 0 <= i < |email| && !IsSpace(email[i])
  {
    TrimEmpty(email);
    if Trim(email) != "" then true else submitted
  }

  // ----- locationProjects and topLocations -----

  /** `property.location || "Other"`, as an object key. A location that is an array or a
      date is put under "Other". */
  function LocationKey(p: Doc): string {
    if Has(p, "location") then JsString(Get(p, "location")).GetOr("Other") else "Other"
  }

  function InLocation(key: string): Doc -> bool {
    p => LocationKey(p) == key
  }

  /** The listings of one location, in their order. */
  function Group(props: seq<Doc>, key: string): seq<Doc> {
    Lists.Filter(props, InLocation(key))
  }

  /** The locations of `props`, each once, in the order they first appear. */
  function Locations(props: seq<Doc>): (r: seq<string>)
    ensures forall i, j :: 0 <= i < j < |r| ==> r[i] != r[j]
  {
    if props == [] then []
    else
      var rest := Locations(props[..|props| - 1]);
      var key := LocationKey(props[|props| - 1]);
      if key in rest then rest else rest + [key]
  }

  /** Every location of a listing is listed, and nothing else is. */
  lemma {:induction false} LocationsMembers(props: seq<Doc>, k: string)
    ensures k in Locations(props) <==> exists i :: 0 <= i < |props| && LocationKey(props[i]) == k
  {
    if props != [] {
      var init := props[..|props| - 1];
      LocationsMembers(init, k);
      assert forall i :: 0 <= i < |init| ==> init[i] == props[i];
    }
  }

  /** A listing is in the group of its own location and in no other. */
  lemma GroupMembership(props: seq<Doc>, i: nat, key: string)
    requires i < |props|
    ensures props[i] in Group(props, key) <==> key == LocationKey(props[i])
  {
    if key == LocationKey(props[i]) {
      assert InLocation(key)(props[i]);
    }
  }

  /** A location that no listing has gets an empty group. */
  lemma {:induction false} GroupAbsent(props: seq<Doc>, key: string)
    requires key !in Locations(props)
    ensures Group(props, key) == []
  {
    LocationsMembers(props, key);
    Lists.FilterKeepsNone(props, InLocation(key));
  }

  /** Adding one listing at the end adds it to its own group only. */
  lemma {:induction false} GroupStep(props: seq<Doc>, i: nat, key: string)
    requires i < |props|
    ensures Group(props[..i + 1], key) ==
      Group(props[..i], key) + (if LocationKey(props[i]) == key then [props[i]] else [])
  {
    assert props[..i + 1] == props[..i] + [props[i]];
    Lists.FilterAppend(props[..i], [props[i]], InLocation(key));
  }

  lemma LocationsStep(props: seq<Doc>, i: nat)
    requires i < |props|
    ensures var before := Locations(props[..i]);
      Locations(props[..i + 1])
        == if LocationKey(props[i]) in before then before else before + [LocationKey(props[i])]
  {
    var next := props[..i + 1];
    assert next[..|next| - 1] == props[..i];
    assert next[|next| - 1] == props[i];
  }

  /** `groups` and `order` hold the listings of `props` by location. */
  ghost predicate Grouped(props: seq<Doc>, groups: map<string, seq<Doc>>, order: seq<string>) {
    && order == Locations(props)
    && (forall k :: k in groups <==> k in order)
    && (forall k :: k in groups ==> groups[k] == Group(props, k))
  }

  /** The accumulator after one listing: a new location gets an empty array first, then
      the listing is pushed onto its location's array. */
  function Push(groups: map<string, seq<Doc>>, order: seq<string>, p: Doc): (map<string, seq<Doc>>, seq<string>) {
    var key := LocationKey(p);
    var started := if key in groups then groups else groups[key := []];
    (started[key := started[key] + [p]], if key in groups then order else order + [key])
  }

  /** One step of the reduction keeps the accumulator grouping what it has seen. */
  lemma GroupedStep(props: seq<Doc>, i: nat, groups: map<string, seq<Doc>>, order: seq<string>)
    requires i < |props| && Grouped(props[..i], groups, order)
    ensures var (groups', order') := Push(groups, order, props[i]);
      Grouped(props[..i + 1], groups', order')
  {
    var key := LocationKey(props[i]);
    var (groups', order') := Push(groups, order, props[i]);
    LocationsStep(props, i);
    if key !in groups {
      GroupAbsent(props[..i], key);
    }
    forall k | k in groups'
      ensures groups'[k] == Group(props[..i + 1], k)
    {
      GroupStep(props, i, k);
    }
  }

  /** `locationProjects`: the listings grouped by location, built by pushing each listing
      onto its location's array; `order` is the order of `Object.entries`. */
  method LocationProjects(props: seq<Doc>) returns (groups: map<string, seq<Doc>>, order: seq<string>)
    ensures order == Locations(props)
    ensures forall k :: k in groups <==> k in order
    ensures forall k :: k in groups ==> groups[k] == Group(props, k)
  {
    groups := map[];
    order := [];
    var i := 0;
    assert props[..i] == [];
    while i < |props|
      invariant 0 <= i <= |props|
      invariant Grouped(props[..i], groups, order)
    {
      var key := LocationKey(props[i]);
      GroupedStep(props, i, groups, order);
      if key !in groups {
        groups := groups[key := []];
        order := order + [key];
      }
      groups := groups[key := groups[key] + [props[i]]];
      i := i + 1;
    }
    assert props[..|props|] == props;
  }

  /** One entry of `Object.entries(locationProjects)`. */
  type Entry = (string, seq<Doc>)

  function Entries(groups: map<string, seq<Doc>>, order: seq<string>): (r: seq<Entry>)
    requires forall k :: k in order ==> k in groups
    ensures |r| == |order|
    ensures forall i :: 0 <= i < |r| ==> r[i] == (order[i], groups[order[i]])
  {
    seq(|order|, i requires 0 <= i < |order| => (order[i], groups[order[i]]))
  }

  function GroupSize(): Entry -> int {
    (e: Entry) => |e.1|
  }

  const TopCount := 4

  /** `topLocations`: the entries sorted by group size, largest first, cut to four. */
  function TopLocations(entries: seq<Entry>): (r: seq<Entry>)
    ensures |r| == if |entries| < TopCount then |entries| else TopCount
    ensures Sorting.SortedDesc(r, GroupSize())
    ensures forall i :: 0 <= i < |r| ==> r[i] in entries
    ensures forall e :: e in entries && e !in r ==> forall i :: 0 <= i < |r| ==> |r[i].1| >= |e.1|
  {
    var sorted := Sorting.SortByKeyDesc(entries, GroupSize());
    var n := if |sorted| < TopCount then |sorted| else TopCount;
    TopPrefix(entries, sorted, n);
    sorted[..n]
  }

  /** The first `n` of the entries sorted by size are entries, sorted, and at least as
      large as every entry they leave out. */
  lemma TopPrefix(entries: seq<Entry>, sorted: seq<Entry>, n: nat)
    requires Sorting.SortedDesc(sorted, GroupSize()) && multiset(sorted) == multiset(entries)
    requires n <= |sorted|
    ensures Sorting.SortedDesc(sorted[..n], GroupSize())
    ensures forall i :: 0 <= i < n ==> sorted[..n][i] in entries
    ensures forall e :: e in entries && e !in sorted[..n] ==> forall i :: 0 <= i < n ==> |sorted[..n][i].1| >= |e.1|
  {
    var r := sorted[..n];
    Sorting.PrefixSortedDesc(sorted, GroupSize(), n);
    Sorting.PrefixDominates(sorted, GroupSize(), n);
    forall i | 0 <= i < n
      ensures r[i] in entries
    {
      assert r[i] == sorted[i] && sorted[i] in multiset(sorted);
    }
    forall e | e in entries && e !in r
      ensures forall i :: 0 <= i < n ==> |r[i].1| >= |e.1|
    {
      assert e in multiset(sorted);
      forall i | 0 <= i < n
        ensures |r[i].1| >= |e.1|
      {
        assert r[i] == sorted[i];
        assert GroupSize()(sorted[i]) >= GroupSize()(e);
      }
    }
  }

  /** The block as the page computes it: groups, entries, then the top four. */
  method TopLocationsOf(props: seq<Doc>) returns (top: seq<Entry>)
    ensures |top| <= TopCount
    ensures Sorting.SortedDesc(top, GroupSize())
    ensures forall i :: 0 <= i < |top| ==> top[i].0 in Locations(props) && top[i].1 == Group(props, top[i].0)
    ensures |Locations(props)| >= TopCount ==> |top| == TopCount
    ensures forall k :: k in Locations(props) && (forall i :: 0 <= i < |top| ==> top[i].0 != k) ==>
      forall i :: 0 <= i < |top| ==> |top[i].1| >= |Group(props, k)|
  {
    var groups, order := LocationProjects(props);
    var entries := Entries(groups, order);
    top := TopLocations(entries);
    TopAreGroups(props, groups, order, top);
    TopAreLargest(props, groups, order, top);
  }

  lemma TopAreGroups(props: seq<Doc>, groups: map<string, seq<Doc>>, order: seq<string>, top: seq<Entry>)
    requires Grouped(props, groups, order)
    requires top == TopLocations(Entries(groups, order))
    ensures forall i :: 0 <= i < |top| ==> top[i].0 in Locations(props) && top[i].1 == Group(props, top[i].0)
  {
    var entries := Entries(groups, order);
    forall i | 0 <= i < |top|
      ensures top[i].0 in Locations(props) && top[i].1 == Group(props, top[i].0)
    {
      var j :| 0 <= j < |entries| && entries[j] == top[i];
    }
  }

  lemma TopAreLargest(props: seq<Doc>, groups: map<string, seq<Doc>>, order: seq<string>, top: seq<Entry>)
    requires Grouped(props, groups, order)
    requires top == TopLocations(Entries(groups, order))
    ensures forall k :: k in Locations(props) && (forall i :: 0 <= i < |top| ==> top[i].0 != k) ==>
      forall i :: 0 <= i < |top| ==> |top[i].1| >= |Group(props, k)|
  {
    var entries := Entries(groups, order);
    forall k | k in Locations(props) && (forall i :: 0 <= i < |top| ==> top[i].0 != k)
      ensures forall i :: 0 <= i < |top| ==> |top[i].1| >= |Group(props, k)|
    {
      var j :| 0 <= j < |order| && order[j] == k;
      var e := entries[j];
      assert e == (k, Group(props, k)) && e in entries;
      assert e !in top;
      LeftOutNoLarger(entries, top, e);
    }
  }

  /** An entry left out of the top is no larger than any kept. */
  lemma LeftOutNoLarger(entries: seq<Entry>, top: seq<Entry>, e: Entry)
    requires top == TopLocations(entries) && e in entries && e !in top
    ensures forall i :: 0 <= i < |top| ==> |top[i].1| >= |e.1|
  {
  }
}
