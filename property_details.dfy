/**
 * The page of one listing (PropertyDetails): which listing of the cached list the
 * route names, the images it shows (the cover, then the gallery without the cover),
 * the arrows that step through them with wrap-around, and up to three similar
 * listings from the same location.
 */
module PropertyDetailsPage {
  import opened Wrappers
  import opened Json
  import Lists

  /** `p._id || p.id` */
  function KeyOf(p: Doc): (r: Option<Value>)
    ensures Has(p, "_id") ==> r == Get(p, "_id")
    ensures !Has(p, "_id") ==> r == Get(p, "id")
  {
    if Has(p, "_id") then Get(p, "_id") else Get(p, "id")
  }

  /** `String(p._id || p.id) === String(id)` for the route parameter `id`. A key that
      is an array or a date is taken to match no route. */
  predicate NamedBy(routeId: string, p: Doc) {
    JsString(KeyOf(p)) == Some(routeId)
  }

  /** `properties.find(...)`: the first listing the route names. */
  function Find(properties: seq<Doc>, routeId: string): (r: Option<Doc>)
    ensures r.Some? ==> (exists i :: 0 <= i < |properties| && properties[i] == r.value
                           && NamedBy(routeId, properties[i])
                           && forall j :: 0 <= j < i ==> !NamedBy(routeId, properties[j]))
    ensures r.None? <==> forall i :: 0 <= i < |properties| ==> !NamedBy(routeId, properties[i])
  {
    if properties == [] then None
    else if NamedBy(routeId, properties[0]) then Some(properties[0])
    else
      var r := Find(properties[1..], routeId);
      assert forall i :: 1 <= i < |properties| ==> properties[i] == properties[1..][i - 1];
      r
  }

  /** What the lookup effect does: show the listing found (from its first image), send
      the visitor to the listing page once loading is over, or keep waiting. */
  datatype LookupStep = Show(property: Doc) | Redirect(path: string) | Wait

  function Lookup(properties: seq<Doc>, routeId: string, loading: bool): (r: LookupStep)
    ensures r.Show? <==> Find(properties, routeId).Some?
    ensures r.Show? ==> r.property in properties && NamedBy(routeId, r.property)
    ensures r.Redirect? <==> Find(properties, routeId).None? && !loading
    ensures r.Redirect? ==> r.path == "/properties"
  {
    match Find(properties, routeId)
    case Some(found) => Show(found)
    case None => if !loading then Redirect("/properties") else Wait
  }

  /** A listing whose own key is written as the route names it is always found. */
  lemma ListedIsFound(properties: seq<Doc>, i: nat, routeId: string)
    requires i < |properties| && JsString(KeyOf(properties[i])) == Some(routeId)
    ensures Lookup(properties, routeId, true).Show?
    ensures Lookup(properties, routeId, false).Show?
  {
  }

  /** `img => img !== property.image` */
  function NotCover(cover: Option<Value>): Value -> bool {
    img => Some(img) != cover
  }

  /** The gallery entries, when the gallery is a non-empty array. */
  function GalleryOf(p: Doc): seq<Value> {
    match Get(p, "gallery")
    case Some(Arr(items)) => items
    case _ => []
  }

  /** `allImages`: the cover when it is truthy, then the gallery entries that differ
      from the cover, in gallery order. */
  function AllImages(p: Doc): (r: seq<Value>)
    ensures Has(p, "image") ==> (|r| >= 1 && r[0] == p["image"]
                                 && forall i :: 1 <= i < |r| ==> r[i] != p["image"])
    ensures |r| <= (if Has(p, "image") then 1 else 0) + |GalleryOf(p)|
    ensures forall i :: (if Has(p, "image") then 1 else 0) <= i < |r| ==>
      r[i] in GalleryOf(p) && Some(r[i]) != Get(p, "image")
    ensures forall i :: 0 <= i < |GalleryOf(p)| && Some(GalleryOf(p)[i]) != Get(p, "image") ==>
      GalleryOf(p)[i] in r
  {
    var cover := if Has(p, "image") then [p["image"]] else [];
    var rest := Lists.Filter(GalleryOf(p), NotCover(Get(p, "image")));
    assert forall i :: |cover| <= i < |cover + rest| ==> (cover + rest)[i] == rest[i - |cover|];
    cover + rest
  }

  /** The cover shows up once only, however often the gallery repeats it. */
  lemma CoverShownOnce(p: Doc, i: nat)
    requires Has(p, "image") && i < |AllImages(p)|
    ensures AllImages(p)[i] == p["image"] <==> i == 0
  {
  }

  /** A gallery that does not repeat the cover is shown whole after it. */
  lemma GalleryWithoutCover(p: Doc)
    requires forall i :: 0 <= i < |GalleryOf(p)| ==> Some(GalleryOf(p)[i]) != Get(p, "image")
    ensures AllImages(p) == (if Has(p, "image") then [p["image"]] else []) + GalleryOf(p)
  {
    Lists.FilterKeepsAll(GalleryOf(p), NotCover(Get(p, "image")));
  }

  /** `allImages[activeImageIndex] || ""` */
  function ActiveImage(images: seq<Value>, index: int): (r: Value)
    ensures 0 <= index < |images| && Truthy(Some(images[index])) ==> r == images[index]
    ensures !(0 <= index < |images|) ==> r == Str("")
    ensures Truthy(Some(r)) || r == Str("")
  {
    if 0 <= index < |images| && Truthy(Some(images[index])) then images[index] else Str("")
  }

  /** `navigateImage(direction)` on `count` images: nothing with at most one image;
      otherwise a step before the first lands on the last and a step past the last
      lands on the first. */
  function NavigateImage(count: nat, index: int, direction: int): (r: int)
    ensures count <= 1 ==> r == index
    ensures count > 1 ==> 0 <= r < count
    ensures count > 1 && 0 <= index + direction < count ==> r == index + direction
  {
    if count <= 1 then index
    else
      var next := index + direction;
      var next := if next < 0 then count - 1 else next;
      if next >= count then 0 else next
  }

  /** With the arrows (a step of 1 or -1) from a shown image, the index moves round a
      circle of the images. */
  lemma ArrowsWrapAround(count: nat, index: int, direction: int)
    requires count > 1 && 0 <= index < count && (direction == 1 || direction == -1)
    ensures NavigateImage(count, index, direction) == (index + direction + count) % count
  {
  }

  /** The left arrow undoes the right arrow and the other way round. */
  lemma ArrowsUndoEachOther(count: nat, index: int)
    requires count > 1 && 0 <= index < count
    ensures NavigateImage(count, NavigateImage(count, index, 1), -1) == index
    ensures NavigateImage(count, NavigateImage(count, index, -1), 1) == index
  {
  }

  /** Once the index is in range the arrows keep it there, so the image shown is the
      one at the index (or "" when that entry is falsy). */
  lemma ArrowsKeepAnImage(images: seq<Value>, index: int, direction: int)
    requires |images| > 1
    ensures var next := NavigateImage(|images|, index, direction);
      0 <= next < |images|
      && ActiveImage(images, next) == (if Truthy(Some(images[next])) then images[next] else Str(""))
  {
  }

  /** A listing shown as similar: another key, and the same location (`===`, so two
      listings without a location count as the same location). */
  predicate Similar(current: Doc, p: Doc) {
    KeyOf(p) != KeyOf(current) && Get(p, "location") == Get(current, "location")
  }

  function SimilarTo(current: Doc): Doc -> bool {
    p => Similar(current, p)
  }

  const MaxSimilar := 3

  /** `similarProperties`: the first three similar listings, in list order. */
  function SimilarProperties(properties: seq<Doc>, current: Doc): (r: seq<Doc>)
    ensures |r| <= MaxSimilar
    ensures Lists.SubsequenceOf(r, properties)
    ensures forall i :: 0 <= i < |r| ==> Similar(current, r[i]) && r[i] != current
    ensures var all := Lists.Filter(properties, SimilarTo(current));
      r == all[..if |all| < MaxSimilar then |all| else MaxSimilar]
  {
    var all := Lists.Filter(properties, SimilarTo(current));
    var n := if |all| < MaxSimilar then |all| else MaxSimilar;
    Lists.FilterIsSubsequence(properties, SimilarTo(current));
    Lists.SubsequencePrefix(all, properties, n);
    all[..n]
  }

  /** When there are three or fewer similar listings, every one of them is shown. */
  lemma FewSimilarAllShown(properties: seq<Doc>, current: Doc, i: nat)
    requires |Lists.Filter(properties, SimilarTo(current))| <= MaxSimilar
    requires i < |properties| && Similar(current, properties[i])
    ensures properties[i] in SimilarProperties(properties, current)
  {
    var all := Lists.Filter(properties, SimilarTo(current));
    assert SimilarTo(current)(properties[i]);
    assert all[..|all|] == all;
  }
}
