/**
 * The six-step return workflow of the `FileUpload` page: category and item
 * selection over a fixed catalog, a front and a back image upload, a
 * four-field reference form, an image review and the verdict screen.
 *
 * `FileUpload` holds the page's state; each `Uploader` holds one image's
 * local state and reports to its host page through the callbacks the page
 * passes it. Steps: 0 select item, 1 front image, 2 back image, 3 reference
 * data, 4 image review, 5 verdict.
 */
module ReturnWorkflow {
  import opened Api
  import opened Text

  /** An entry of the returnable-device catalog. */
  datatype Device = Device(value: string, displayLabel: string, category: string)

  /** `deviceOptions`, in the order the page lists them: one run of entries per category. */
  const Catalog: seq<Device> := ElectronicsRun + FurnitureRun + AppliancesRun + KitchenRun

  const ElectronicsRun: seq<Device> := [
    Device("Iphone", "Iphone", "electronics"),
    Device("Watch", "Watch", "electronics"),
    Device("Camera", "Camera", "electronics"),
    Device("Laptop", "Laptop", "electronics")
  ]
  const FurnitureRun: seq<Device> := [
    Device("Table", "Table", "furniture"),
    Device("Chair", "Chair", "furniture")
  ]
  const AppliancesRun: seq<Device> := [
    Device("Refrigerator", "Refrigerator", "appliances"),
    Device("Microwave", "Microwave", "appliances")
  ]
  const KitchenRun: seq<Device> := [
    Device("Oven", "Oven", "kitchen"),
    Device("Dishwasher", "Dishwasher", "kitchen")
  ]

  /** The `value` keys of `categoryOptions`. */
  const Categories: seq<string> := ["electronics", "furniture", "appliances", "kitchen"]

  /** `devices.filter(d => d.category === category)`. */
  function FilterByCategory(devices: seq<Device>, category: string): (r: seq<Device>)
    ensures forall d :: d in r <==> d in devices && d.category == category
    ensures |r| <= |devices|
  {
    if devices == [] then []
    else
      (if devices[0].category == category then [devices[0]] else []) + FilterByCategory(devices[1..], category)
  }

  /** Filtering distributes over concatenation, so the kept entries stay in catalog order. */
  lemma {:induction false} FilterKeepsOrder(a: seq<Device>, b: seq<Device>, category: string)
    ensures FilterByCategory(a + b, category) == FilterByCategory(a, category) + FilterByCategory(b, category)
  {
    if a == [] {
      assert a + b == b;
    } else {
      assert (a + b)[1..] == a[1..] + b;
      FilterKeepsOrder(a[1..], b, category);
    }
  }

  /** Filtering a filtered list again by the same category changes nothing. */
  lemma {:induction false} FilterIdempotent(devices: seq<Device>, category: string)
    ensures FilterByCategory(FilterByCategory(devices, category), category) == FilterByCategory(devices, category)
  {
    if devices != [] {
      var head := if devices[0].category == category then [devices[0]] else [];
      FilterIdempotent(devices[1..], category);
      FilterKeepsOrder(head, FilterByCategory(devices[1..], category), category);
      assert FilterByCategory(head, category) == head by {
        if head != [] { assert head[1..] == []; }
      }
    }
  }

  /** Filtering the catalog is filtering each run in turn. */
  lemma CatalogRuns(category: string)
    ensures FilterByCategory(Catalog, category)
         == FilterByCategory(ElectronicsRun, category) + FilterByCategory(FurnitureRun, category)
          + FilterByCategory(AppliancesRun, category) + FilterByCategory(KitchenRun, category)
  {
    FilterKeepsOrder(ElectronicsRun + FurnitureRun + AppliancesRun, KitchenRun, category);
    FilterKeepsOrder(ElectronicsRun + FurnitureRun, AppliancesRun, category);
    FilterKeepsOrder(ElectronicsRun, FurnitureRun, category);
  }

  /** A key that is not an offered category lists no device. */
  lemma UnknownCategoryListsNothing(category: string)
    requires category !in Categories
    ensures FilterByCategory(Catalog, category) == []
  {
    ListingOf(category);
  }

  /** Filtering the catalog keeps, of each run, all of it or nothing, according to its category. */
  lemma ListingOf(category: string)
    ensures FilterByCategory(Catalog, category)
         == (if category == "electronics" then ElectronicsRun else [])
          + (if category == "furniture" then FurnitureRun else [])
          + (if category == "appliances" then AppliancesRun else [])
          + (if category == "kitchen" then KitchenRun else [])
  {
    RunsAreUniform();
    CatalogRuns(category);
    FilterUniform(ElectronicsRun, "electronics", category);
    FilterUniform(FurnitureRun, "furniture", category);
    FilterUniform(AppliancesRun, "appliances", category);
    FilterUniform(KitchenRun, "kitchen", category);
  }

  /** Each run of the catalog carries a single category. */
  lemma RunsAreUniform()
    ensures forall d :: d in ElectronicsRun ==> d.category == "electronics"
    ensures forall d :: d in FurnitureRun ==> d.category == "furniture"
    ensures forall d :: d in AppliancesRun ==> d.category == "appliances"
    ensures forall d :: d in KitchenRun ==> d.category == "kitchen"
  {
  }

  /** Every catalog device belongs to one of the offered categories. */
  lemma CatalogCategoriesOffered()
    ensures forall d :: d in Catalog ==> d.category in Categories
  {
    RunsAreUniform();
  }

  /** Filtering a list whose entries all carry one category keeps all or nothing. */
  lemma FilterUniform(devices: seq<Device>, shared: string, category: string)
    requires forall d :: d in devices ==> d.category == shared
    ensures FilterByCategory(devices, category) == if shared == category then devices else []
  {
    if shared == category {
      FilterAllMatch(devices, category);
    }
  }

  /** A list whose entries all carry the category is its own filter. */
  lemma {:induction false} FilterAllMatch(devices: seq<Device>, category: string)
    requires forall d :: d in devices ==> d.category == category
    ensures FilterByCategory(devices, category) == devices
  {
    if devices != [] {
      FilterAllMatch(devices[1..], category);
    }
  }

  /** The four reference fields, named `input1` .. `input4` in the form. */
  datatype Field = Input1 | Input2 | Input3 | Input4 {
    /** The field's position in the form, 1 to 4. */
    function Number(): (n: int)
      ensures 1 <= n <= 4
    {
      match this
      case Input1 => 1
      case Input2 => 2
      case Input3 => 3
      case Input4 => 4
    }

    /** The message shown under the field when it is empty: "Input <n> is required." for the field's position n. */
    function RequiredMessage(): (m: string)
      ensures m == "Input " + [('0' as int + Number()) as char] + " is required."
    {
      match this
      case Input1 => "Input 1 is required."
      case Input2 => "Input 2 is required."
      case Input3 => "Input 3 is required."
      case Input4 => "Input 4 is required."
    }
  }

  /** The form as it starts and as a successful submit leaves it. */
  const EmptyForm: map<Field, string> := map[Input1 := "", Input2 := "", Input3 := "", Input4 := ""]

  /** Every field has a value. */
  predicate Complete(formData: map<Field, string>)
  {
    forall f: Field :: f in formData
  }

  lemma OneOfFour(f: Field)
    ensures f == Input1 || f == Input2 || f == Input3 || f == Input4
  {
  }

  /** A form that has the four fields by name is complete. */
  lemma {:induction false} HasAllFields(formData: map<Field, string>)
    requires Input1 in formData && Input2 in formData && Input3 in formData && Input4 in formData
    ensures Complete(formData)
  {
    forall f: Field ensures f in formData {
      match f
      case Input1 =>
      case Input2 =>
      case Input3 =>
      case Input4 =>
    }
  }

  /** One `if (!formData.f.trim())` test of `validate`: adds the field's message when its trimmed value is empty. */
  function CheckRequired(errors: map<Field, string>, formData: map<Field, string>, field: Field): (r: map<Field, string>)
    requires field in formData
    ensures forall k :: k in r <==> k in errors || (k == field && IsBlank(formData[field]))
    ensures forall k :: k in r && k != field ==> r[k] == errors[k]
    ensures IsBlank(formData[field]) ==> r[field] == field.RequiredMessage()
  {
    if Trim(formData[field]) == "" then errors[field := field.RequiredMessage()] else errors
  }

  /**
   * `validate`: a fresh error map with an entry for exactly the fields whose
   * trimmed value is empty; fields that pass are absent.
   */
  function Validate(formData: map<Field, string>): (errors: map<Field, string>)
    requires Complete(formData)
    ensures forall f :: f in errors <==> IsBlank(formData[f])
    ensures forall f :: f in errors ==> errors[f] == f.RequiredMessage()
  {
    var e1 := CheckRequired(map[], formData, Input1);
    var e2 := CheckRequired(e1, formData, Input2);
    var e3 := CheckRequired(e2, formData, Input3);
    var e4 := CheckRequired(e3, formData, Input4);
    assert forall f :: f in e4 <==> IsBlank(formData[f]) by {
      forall f ensures f in e4 <==> IsBlank(formData[f]) {
        OneOfFour(f);
      }
    }
    e4
  }

  /** The form `{"", "x", "  ", "y"}` is refused on exactly `input1` and `input3`. */
  lemma ValidateExample()
    ensures Complete(map[Input1 := "", Input2 := "x", Input3 := "  ", Input4 := "y"])
    ensures Validate(map[Input1 := "", Input2 := "x", Input3 := "  ", Input4 := "y"]).Keys == {Input1, Input3}
  {
    var form := map[Input1 := "", Input2 := "x", Input3 := "  ", Input4 := "y"];
    HasAllFields(form);
    assert IsBlank(form[Input3]);
    assert !IsWhitespace(form[Input2][0]) && !IsWhitespace(form[Input4][0]);
  }

  /** The `images` state: server-returned annotated images; `None` is `undefined`. */
  datatype Images = Images(front: Option<string>, back: Option<string>)

  /** The object an `Uploader` passes to its `setImages` prop; an absent key is `None`. */
  datatype ImagesUpdate = ImagesUpdate(front: Option<string>, back: Option<string>)

  /** The `FileUpload` page component's state and handlers. */
  class FileUpload {
    var activeStep: nat
    var result: Option<ResultAggregate>
    var filteredDevices: seq<Device>
    var selectedCategory: string
    var images: Images
    var formData: map<Field, string>
    var errors: map<Field, string>

    /** Every reference field has a value, so `validate` can read all four. */
    ghost predicate Valid()
      reads this
    {
      Complete(formData)
    }

    constructor ()
      ensures Valid()
      ensures activeStep == 0 && result == None
      ensures filteredDevices == [] && selectedCategory == ""
      ensures images == Images(Some(""), Some(""))
      ensures formData == EmptyForm && errors == map[]
    {
      HasAllFields(EmptyForm);
      activeStep := 0;
      result := None;
      filteredDevices := [];
      selectedCategory := "";
      images := Images(Some(""), Some(""));
      formData := EmptyForm;
      errors := map[];
    }

    /** `onCategoryChange`: records the category and lists its devices; the step does not move. */
    method OnCategoryChange(category: string)
      modifies this`selectedCategory, this`filteredDevices
      ensures selectedCategory == category
      ensures filteredDevices == FilterByCategory(Catalog, category)
    {
      selectedCategory := category;
      filteredDevices := FilterByCategory(Catalog, category);
    }

    /**
     * `setActiveStep(activeStep + 1)`: the item selection (`onSelectionChange`),
     * an uploader's `onComplete` and the image review's `onClickNext`.
     */
    method AdvanceStep()
      modifies this`activeStep
      ensures activeStep == old(activeStep) + 1
    {
      activeStep := activeStep + 1;
    }

    /** `handleNewReturn`: back to item selection with no result; everything else is kept. */
    method HandleNewReturn()
      modifies this`activeStep, this`result
      ensures activeStep == 0 && result == None
    {
      activeStep := 0;
      result := None;
    }

    /** `handleChange`: sets one field and clears that field's error, and no other key. */
    method HandleChange(name: Field, value: string)
      requires Valid()
      modifies this`formData, this`errors
      ensures Valid()
      ensures formData == old(formData)[name := value]
      ensures errors == old(errors)[name := ""]
    {
      formData := formData[name := value];
      errors := errors[name := ""];
    }

    /** `handleFocus`: clears the focused field's error, and no other key. */
    method HandleFocus(name: Field)
      modifies this`errors
      ensures errors == old(errors)[name := ""]
    {
      errors := errors[name := ""];
    }

    /**
     * `handleSubmit`: refused forms replace the error map wholesale and keep
     * the step and the data; an accepted form is cleared and the step moves on
     * by one.
     */
    method HandleSubmit()
      requires Valid()
      modifies this`formData, this`errors, this`activeStep
      ensures Valid()
      ensures activeStep == old(activeStep) + 1 <==>
        forall f: Field :: !IsBlank(old(formData)[f])
      ensures Validate(old(formData)) != map[] ==>
        errors == Validate(old(formData)) && formData == old(formData) && activeStep == old(activeStep)
      ensures Validate(old(formData)) == map[] ==>
        formData == EmptyForm && errors == map[] && activeStep == old(activeStep) + 1
    {
      var newErrors := Validate(formData);
      if |newErrors| > 0 {
        errors := newErrors;
      } else {
        HasAllFields(EmptyForm);
        formData := EmptyForm;
        errors := map[];
        activeStep := activeStep + 1;
      }
    }

    /** The step-1 uploader's `setImages`: `{...images, front: value.front}`. */
    method SetFrontImage(value: ImagesUpdate)
      modifies this`images
      ensures images == old(images).(front := value.front)
    {
      images := images.(front := value.front);
    }

    /** The step-2 uploader's `setImages`: `{...images, back: value.back}`. */
    method SetBackImage(value: ImagesUpdate)
      modifies this`images
      ensures images == old(images).(back := value.back)
    {
      images := images.(back := value.back);
    }

    /** `setResult`, passed to the step-2 uploader only. */
    method SetResult(r: ResultAggregate)
      modifies this`result
      ensures result == Some(r)
    {
      result := Some(r);
    }
  }

  /**
   * An `Uploader`: one image's local state (`file`, `preview`,
   * `isUploading`) and its props. The page mounts it twice: for the front
   * image at step 1 (no `setResult`, so the prop's no-op default applies)
   * and for the back image at step 2 (with `setResult`). `preview` is the
   * data URI read from the file; `None` is `null`.
   */
  class Uploader {
    const side: Side
    const reportsResult: bool
    const host: FileUpload
    var file: Option<File>
    var preview: Option<string>
    var isUploading: bool

    /** The step-1 uploader: `type="front"`, front `setImages`, default `setResult`. */
    constructor ForFront(page: FileUpload)
      ensures side == Front && !reportsResult && host == page
      ensures file == None && preview == Some("") && !isUploading
    {
      side := Front;
      reportsResult := false;
      host := page;
      file := None;
      preview := Some("");
      isUploading := false;
    }

    /** The step-2 uploader: `type="back"`, back `setImages`, the page's `setResult`. */
    constructor ForBack(page: FileUpload)
      ensures side == Back && reportsResult && host == page
      ensures file == None && preview == Some("") && !isUploading
    {
      side := Back;
      reportsResult := true;
      host := page;
      file := None;
      preview := Some("");
      isUploading := false;
    }

    /** `handleFileChange`: picking nothing changes nothing; picking a file selects it and shows its data URI. */
    method HandleFileChange(selected: Option<File>, dataUri: string)
      modifies this`file, this`preview
      ensures selected.None? ==> file == old(file) && preview == old(preview)
      ensures selected.Some? ==> file == selected && preview == Some(dataUri)
    {
      if selected.None? {
        return;
      }
      file := selected;
      preview := Some(dataUri);
    }

    /** The request `handleSubmit` would send now: none without a file, else the file tagged with this uploader's type. */
    function PendingRequest(): (req: Option<Request>)
      reads this
      ensures req.None? <==> file.None?
      ensures req.Some? ==> req.value.hasFile && req.value.comparisonType == Some(side.Tag())
    {
      if file.None? then None else Some(Request(true, Some(side.Tag())))
    }

    /**
     * `handleSubmit`, given the outcome of the POST. Without a file nothing is
     * sent and nothing changes. A thrown request clears the file and the
     * preview; a resolved non-200 status changes nothing but the progress
     * flag; a 200 reports the image to the page (and, for the back uploader
     * on a final body, the result) and advances the page's step by one.
     */
    method HandleSubmit(outcome: HttpOutcome) returns (sent: Option<Request>)
      modifies this`file, this`preview, this`isUploading, host`activeStep, host`result, host`images
      ensures sent == old(PendingRequest())
      ensures sent.None? ==>
        && file == old(file) && preview == old(preview) && isUploading == old(isUploading)
        && host.activeStep == old(host.activeStep) && host.result == old(host.result)
        && host.images == old(host.images)
      ensures sent.Some? ==> !isUploading
      ensures sent.Some? && outcome.Threw? ==>
        && file == None && preview == None
        && host.activeStep == old(host.activeStep) && host.result == old(host.result)
        && host.images == old(host.images)
      ensures sent.Some? && outcome.Status? && outcome.code != 200 ==>
        && file == old(file) && preview == old(preview)
        && host.activeStep == old(host.activeStep) && host.result == old(host.result)
        && host.images == old(host.images)
      ensures sent.Some? && outcome.Status? && outcome.code == 200 ==>
        var body := outcome.body;
        && file == old(file) && preview == old(preview)
        && host.activeStep == old(host.activeStep) + 1
        && host.result == (if reportsResult && IsFinal(body) then Some(Aggregate(body)) else old(host.result))
        && (side == Front ==>
              host.images == old(host.images).(front := if IsFinal(body) then None else body.highlightedImage))
        && (side == Back ==>
              host.images == old(host.images).(back := if IsFinal(body) then body.highlightedImage else None))
    {
      if file.None? {
        return None;
      }
      sent := Some(Request(true, Some(side.Tag())));
      isUploading := true;
      match outcome {
        case Threw =>
          file := None;
          preview := None;
        case Status(code, body) =>
          if code == 200 {
            var update;
            if IsFinal(body) {
              if reportsResult {
                host.SetResult(Aggregate(body));
              }
              update := ImagesUpdate(None, body.highlightedImage);
            } else {
              update := ImagesUpdate(body.highlightedImage, None);
            }
            if side == Front {
              host.SetFrontImage(update);
            } else {
              host.SetBackImage(update);
            }
            host.AdvanceStep();
          }
      }
      isUploading := false;
    }
  }
}
