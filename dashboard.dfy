/**
 * The admin dashboard (Dashboard): the listings it shows after the search box and
 * the type filter, cut into pages of five, the Prev/Next buttons, the greeting, and
 * the call it makes on mount.
 */
module Dashboard {
  import opened Wrappers
  import opened Text
  import opened Json
  import Lists
  import AuthContext
  import PropertyContext

  const ItemsPerPage := 5

  /** A listing's title as text; the server requires a title on every listing. */
  function TitleOf(p: Doc): string {
    match Get(p, "title")
    case Some(Str(s)) => s
    case _ => ""
  }

  /** The title contains the search text, ignoring case, and the type is the chosen
      one unless no type is chosen. */
  predicate Keeps(search: string, typeFilter: string, p: Doc) {
    Contains(ToLower(TitleOf(p)), ToLower(search))
    && (typeFilter == "" || FieldIs(p, "type", typeFilter))
  }

  function KeepFilter(search: string, typeFilter: string): Doc -> bool {
    p => Keeps(search, typeFilter, p)
  }

  /** `filtered`: the listings that pass, in their order. */
  function Filtered(properties: seq<Doc>, search: string, typeFilter: string): (r: seq<Doc>)
    ensures Lists.SubsequenceOf(r, properties)
    ensures forall i :: 0 <= i < |r| ==> Keeps(search, typeFilter, r[i])
    ensures forall i :: 0 <= i < |properties| ==>
      (Keeps(search, typeFilter, properties[i]) ==> properties[i] in r)
  {
    Lists.FilterIsSubsequence(properties, KeepFilter(search, typeFilter));
    Lists.Filter(properties, KeepFilter(search, typeFilter))
  }

  /** With an empty search and no type chosen, every listing is shown. */
  lemma {:induction false} NoFilterShowsAll(properties: seq<Doc>)
    ensures Filtered(properties, "", "") == properties
  {
    forall i | 0 <= i < |properties|
      ensures KeepFilter("", "")(properties[i])
    {
      ContainsEmpty(ToLower(TitleOf(properties[i])));
    }
    Lists.FilterKeepsAll(properties, KeepFilter("", ""));
  }

  /** `Math.ceil(n / 5)`: the fewest pages of five that hold `n` listings. */
  function TotalPages(n: nat): (r: nat)
    ensures r * ItemsPerPage >= n
    ensures r > 0 ==> (r - 1) * ItemsPerPage < n
  {
    (n + ItemsPerPage - 1) / ItemsPerPage
  }

  /** An index argument of `slice`: a negative one counts from the end; both are
      clamped to the length. */
  function SliceIndex(i: int, n: nat): (r: nat)
    ensures r <= n
  {
    if i < 0 then (if n + i < 0 then 0 else n + i) else if i > n then n else i
  }

  /** `s.slice(from, to)` */
  function Slice(s: seq<Doc>, from: int, to: int): (r: seq<Doc>)
    ensures |r| <= |s|
    ensures 0 <= from <= to ==> |r| <= to - from
  {
    var a := SliceIndex(from, |s|);
    var b := SliceIndex(to, |s|);
    if a < b then s[a..b] else []
  }

  /** `paginatedProperties` for page `page`. */
  function PageOf(filtered: seq<Doc>, page: int): (r: seq<Doc>)
    ensures page >= 1 ==> |r| <= ItemsPerPage
  {
    var start := (page - 1) * ItemsPerPage;
    Slice(filtered, start, start + ItemsPerPage)
  }

  /** A page past the last one is empty; the page number is not reset when the
      filters shrink the list, so such a page shows no listing. */
  lemma PastLastPageIsEmpty(filtered: seq<Doc>, page: int)
    requires page > TotalPages(|filtered|)
    ensures PageOf(filtered, page) == []
  {
  }

  /** A page inside the range holds the five listings from its start (fewer on the last). */
  lemma PageContents(filtered: seq<Doc>, page: nat)
    requires 1 <= page <= TotalPages(|filtered|)
    ensures var start := (page - 1) * ItemsPerPage;
      start < |filtered|
      && PageOf(filtered, page) == filtered[start..if start + ItemsPerPage <= |filtered| then start + ItemsPerPage else |filtered|]
  {
  }

  /** Pages 1 to `last` one after the other. */
  function PagesUpTo(filtered: seq<Doc>, last: nat): seq<Doc> {
    if last == 0 then [] else PagesUpTo(filtered, last - 1) + PageOf(filtered, last)
  }

  /** The first `last` pages are the first `5 * last` listings. */
  lemma {:induction false} PagesUpToPrefix(filtered: seq<Doc>, last: nat)
    ensures last * ItemsPerPage <= |filtered| ==> PagesUpTo(filtered, last) == filtered[..last * ItemsPerPage]
    ensures last * ItemsPerPage > |filtered| ==> PagesUpTo(filtered, last) == filtered
  {
    if last > 0 {
      PagesUpToPrefix(filtered, last - 1);
      var start := (last - 1) * ItemsPerPage;
      if start < |filtered| {
        var end := if start + ItemsPerPage <= |filtered| then start + ItemsPerPage else |filtered|;
        assert PageOf(filtered, last) == filtered[start..end];
        assert filtered[..start] + filtered[start..end] == filtered[..end];
        if end == |filtered| {
          assert filtered[..end] == filtered;
        }
      } else {
        assert PageOf(filtered, last) == [];
      }
    }
  }

  /** Pages 1 to `totalPages`, in order, give back the whole filtered list. */
  lemma AllPagesGiveTheList(filtered: seq<Doc>)
    ensures PagesUpTo(filtered, TotalPages(|filtered|)) == filtered
  {
    var total := TotalPages(|filtered|);
    PagesUpToPrefix(filtered, total);
    if total * ItemsPerPage <= |filtered| {
      assert total * ItemsPerPage == |filtered|;
      assert filtered[..|filtered|] == filtered;
    }
  }

  /** The Prev button: `Math.max(1, p - 1)`. */
  function Prev(page: int): (r: int)
    ensures r >= 1
    ensures page > 1 ==> r == page - 1
  {
    if page - 1 > 1 then page - 1 else 1
  }

  /** The Next button: `Math.min(totalPages, p + 1)`. */
  function Next(page: int, totalPages: nat): (r: int)
    ensures r <= totalPages
    ensures page < totalPages ==> r == page + 1
  {
    if page + 1 < totalPages then page + 1 else totalPages
  }

  /** Starting from page 1, the buttons keep the page between 1 and the last page. */
  lemma ButtonsStayInRange(page: int, totalPages: nat)
    requires 1 <= page <= totalPages
    ensures 1 <= Prev(page) <= totalPages
    ensures 1 <= Next(page, totalPages) <= totalPages
  {
  }

  /** The pagination bar is shown only when loading has finished and there is more
      than one page. */
  function ShowsPagination(loading: bool, totalPages: nat): (r: bool)
    ensures r ==> totalPages >= 2
    ensures r <==> !loading && totalPages > 1
  {
    !loading && totalPages > 1
  }

  /** The greeting: the name, else the part of the email before "@", else "Admin". */
  function UserName(user: Option<AuthContext.SessionUser>): (r: string)
    ensures r != ""
    ensures user.Some? && user.value.name != "" ==> r == user.value.name
    ensures user.None? ==> r == "Admin"
    ensures user.Some? && user.value.name == "" && EmailHead(user.value.email) != "" ==>
      r == EmailHead(user.value.email) && '@' !in r && StartsWith(user.value.email, r)
    ensures user.Some? && user.value.name == "" && EmailHead(user.value.email) == "" ==> r == "Admin"
  {
    if user.Some? && user.value.name != "" then user.value.name
    else if user.Some? && EmailHead(user.value.email) != "" then EmailHead(user.value.email)
    else "Admin"
  }

  /** `email.split("@")[0]`: the text before the first "@". */
  function EmailHead(email: string): (r: string)
    ensures '@' !in r && StartsWith(email, r)
  {
    match IndexOf(email, '@')
    case None => email
    case Some(k) => email[..k]
  }

  /** The first piece of the split is what `EmailHead` gives. */
  lemma EmailHeadIsFirstPiece(email: string)
    ensures Split(email, '@')[0] == EmailHead(email)
  {
  }

  datatype MountCall = NoCall | Calls(outcome: PropertyContext.CallOutcome)

  /** The mount effect: for an admin it calls the context's `fetchProperties`. */
  function MountEffect(user: Option<AuthContext.SessionUser>): (r: MountCall)
    ensures r.Calls? <==> user.Some? && user.value.role == "admin"
  {
    if user.Some? && user.value.role == "admin" then Calls(PropertyContext.CallMember("fetchProperties"))
    else NoCall
  }

  /** That member is not exported, so opening the dashboard as an admin throws. */
  lemma AdminMountThrows(u: AuthContext.SessionUser)
    requires u.role == "admin"
    ensures MountEffect(Some(u)) == Calls(PropertyContext.TypeError)
  {
    PropertyContext.PagesCallMissingMembers();
  }
}
