/**
 * The admin form for a new listing (Addproperty): its starting values, the gallery
 * slots and their url/file switches, the area unit conversion, the body it posts and
 * the check for a signed-in user before posting. The type options it offers are set
 * against the types the listing schema accepts.
 */
module AddPropertyPage {
  import opened Wrappers
  import opened Json
  import AuthContext
  import PropertyModel

  datatype Form = Form(title: string, location: string, price: string, propertyType: string,
                       bedrooms: int, bathrooms: int, areaSqft: int, areaUnit: string,
                       image: string, gallery: seq<string>, desc: string)

  const GallerySlots := 5

  /** The form as the page opens it. */
  const InitialForm := Form("", "", "", "Apartment", 1, 1, 600, "sqft", "", ["", "", "", "", ""], "")

  /** Five empty gallery slots, the unit "sqft", the type "Apartment". */
  lemma InitialFormShape()
    ensures |InitialForm.gallery| == GallerySlots
    ensures forall i :: 0 <= i < GallerySlots ==> InitialForm.gallery[i] == ""
    ensures InitialForm.areaUnit == "sqft" && InitialForm.propertyType == "Apartment"
  {
  }

  /** The type options of the form's select. */
  const FormTypes: seq<string> := ["Apartment", "Plot", "Villa", "Penthouse", "Studio",
                                   "Independent House", "Farmhouse", "Duplex", "Builder Floor"]

  /** Of the nine options only "Apartment" and "Villa" are types the schema accepts. */
  lemma {:induction false} FormTypesAccepted(i: nat)
    requires i < |FormTypes|
    ensures FormTypes[i] in PropertyModel.Types <==> i == 0 || i == 2
  {
    var t := FormTypes[i];
    var types := PropertyModel.Types;
    if i != 0 && i != 2 {
      assert t !in types;
    } else {
      assert t == types[if i == 0 then 0 else 3];
    }
  }

  /** A listing posted with any other option of the form fails validation. */
  lemma RejectedFormType(body: Doc, now: int, i: nat)
    requires i < |FormTypes| && i != 0 && i != 2
    requires "type" in body && body["type"] == Str(FormTypes[i])
    ensures PropertyModel.NewProperty(body, now).None?
  {
    FormTypesAccepted(i);
    PropertyModel.TypeEnumRejects(body, now, FormTypes[i]);
  }

  /** `convertToSqFt`: square yards and gaj are nine square feet each; square feet and
      any other unit are left as they are. */
  function ConvertToSqFt(area: int, unit: string): (r: int)
    ensures unit == "sqyd" || unit == "gaj" ==> r == area * 9
    ensures unit != "sqyd" && unit != "gaj" ==> r == area
  {
    match unit
    case "sqft" => area
    case "sqyd" => area * 9
    case "gaj" => area * 9
    case _ => area
  }

  /** `handleGalleryChange`: a copy of the gallery with slot `i` set to `value`. */
  function GalleryChange(form: Form, i: nat, value: string): (r: Form)
    requires i < |form.gallery|
    ensures |r.gallery| == |form.gallery| && r.gallery[i] == value
    ensures forall j :: 0 <= j < |form.gallery| && j != i ==> r.gallery[j] == form.gallery[j]
    ensures r == form.(gallery := r.gallery)
  {
    form.(gallery := form.gallery[i := value])
  }

  datatype Mode = Url | File

  /** Whether the cover and each gallery slot take a link or an uploaded file. */
  datatype UploadModes = UploadModes(cover: Mode, gallery: seq<Mode>)

  const InitialModes := UploadModes(Url, [Url, Url, Url, Url, Url])

  function Flip(m: Mode): (r: Mode)
    ensures r != m
  {
    if m == Url then File else Url
  }

  /** Which switch was pressed; `Unknown` stands for any other call, which does nothing. */
  datatype Target = Cover | GallerySlot(index: nat) | Unknown

  /** `toggleUploadMode`: flips the chosen switch and empties the image it controls. */
  function ToggleUploadMode(modes: UploadModes, form: Form, target: Target): (r: (UploadModes, Form))
    requires target.GallerySlot? ==> target.index < |modes.gallery| && target.index < |form.gallery|
    ensures target.Cover? ==> r.0 == modes.(cover := Flip(modes.cover)) && r.1 == form.(image := "")
    ensures target.GallerySlot? ==>
      r.0 == modes.(gallery := modes.gallery[target.index := Flip(modes.gallery[target.index])])
      && r.1 == GalleryChange(form, target.index, "")
    ensures target.Unknown? ==> r == (modes, form)
  {
    match target
    case Cover => (modes.(cover := Flip(modes.cover)), form.(image := ""))
    case GallerySlot(i) =>
      (modes.(gallery := modes.gallery[i := Flip(modes.gallery[i])]), GalleryChange(form, i, ""))
    case Unknown => (modes, form)
  }

  /** Pressing the same switch twice restores its mode and leaves the image empty. */
  lemma ToggleTwice(modes: UploadModes, form: Form, target: Target)
    requires target.GallerySlot? ==> target.index < |modes.gallery| && target.index < |form.gallery|
    ensures var once := ToggleUploadMode(modes, form, target);
      var twice := ToggleUploadMode(once.0, once.1, target);
      twice.0 == modes && twice.1 == once.1
  {
    var once := ToggleUploadMode(modes, form, target);
    match target {
      case Cover =>
      case GallerySlot(i) =>
        assert once.0.gallery[i := Flip(once.0.gallery[i])] == modes.gallery;
        assert once.1.gallery[i := ""] == once.1.gallery;
      case Unknown =>
    }
  }

  /** `formToSend`: the form with the area converted to square feet and no unit. */
  function FormToSend(form: Form): (r: Doc)
    ensures "areaUnit" !in r
    ensures r.Keys == {"title", "location", "price", "type", "bedrooms", "bathrooms",
                       "areaSqft", "image", "gallery", "desc"}
    ensures r["areaSqft"] == Num(ConvertToSqFt(form.areaSqft, form.areaUnit))
    ensures r["title"] == Str(form.title) && r["location"] == Str(form.location)
    ensures r["price"] == Str(form.price) && r["type"] == Str(form.propertyType)
    ensures r["bedrooms"] == Num(form.bedrooms) && r["bathrooms"] == Num(form.bathrooms)
    ensures r["image"] == Str(form.image) && r["desc"] == Str(form.desc)
    ensures r["gallery"] == Arr(seq(|form.gallery|, i requires 0 <= i < |form.gallery| => Str(form.gallery[i])))
  {
    var spread := map["title" := Str(form.title), "location" := Str(form.location),
                      "price" := Str(form.price), "type" := Str(form.propertyType),
                      "bedrooms" := Num(form.bedrooms), "bathrooms" := Num(form.bathrooms),
                      "areaSqft" := Num(form.areaSqft), "areaUnit" := Str(form.areaUnit),
                      "image" := Str(form.image),
                      "gallery" := Arr(seq(|form.gallery|, i requires 0 <= i < |form.gallery| => Str(form.gallery[i]))),
                      "desc" := Str(form.desc)];
    var converted := spread["areaSqft" := Num(ConvertToSqFt(form.areaSqft, form.areaUnit))];
    converted - {"areaUnit"}
  }

  datatype SubmitStep = Alert(message: string) | Post(body: Doc, bearer: string)

  /** `submit`: without a signed-in user holding a token the page alerts and sends
      nothing; otherwise it posts the converted form with the token. */
  function Submit(user: Option<AuthContext.SessionUser>, form: Form): (r: SubmitStep)
    ensures r.Alert? <==> user.None? || user.value.token == ""
    ensures r.Alert? ==> r.message == "You must be logged in to add a property!"
    ensures r.Post? ==> r.body == FormToSend(form) && r.bearer == "Bearer " + user.value.token
  {
    if user.None? || user.value.token == "" then Alert("You must be logged in to add a property!")
    else Post(FormToSend(form), "Bearer " + user.value.token)
  }
}
