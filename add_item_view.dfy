/**
 * The add-item screen: the form state, the handling of the object
 * detector's outcome (which may prefill the name and description), and
 * `addItem`, which saves the picked image under a generated name and
 * inserts a new unclaimed item built from the form.
 */
module AddItem {
  import opened Wrappers
  import opened Items
  import opened Store

  /** A picked image, as its pixel data. */
  type Photo = seq<bv8>

  const InitialCategory := "Electronics"

  /** The form's `@State` fields that the core reads or writes. */
  datatype FormState = FormState(
    itemName: string,
    itemDescription: string,
    category: string,
    locationFound: string,
    dateFound: Date,
    selectedImage: Option<Photo>,
    showSuccessAlert: bool,
    imageDescription: string)

  /** One label of a detected object; `confidence` is the whole percentage shown to the user. */
  datatype Label = Label(identifier: string, confidence: nat)

  /** One detected object, with its labels best first (possibly none). */
  datatype Observation = Observation(labels: seq<Label>)

  /** How the detection pipeline ended for a picked image. */
  datatype Detection =
    | NoCIImage                      // the image could not be turned into a `CIImage`
    | ModelLoadFailed(message: string)
    | RequestFailed(message: string)   // the request's completion handler received an error
    | NotObjectObservations          // the results were not object observations
    | PerformFailed(message: string)   // the request handler threw
    | Observations(results: seq<Observation>)

  function DigitChar(d: nat): (c: char)
    requires d < 10
    ensures '0' <= c <= '9' && c as int - '0' as int == d
  {
    ('0' as int + d) as char
  }

  /** The decimal text of `n`, as string interpolation writes an `Int`. */
  function DecimalText(n: nat): (r: string)
    ensures |r| >= 1
    ensures forall i :: 0 <= i < |r| ==> '0' <= r[i] <= '9'
    ensures n > 0 ==> r[0] != '0'
    ensures r[0] == '0' ==> r == "0"
  {
    if n < 10 then [DigitChar(n)] else DecimalText(n / 10) + [DigitChar(n % 10)]
  }

  /** The number a string of decimal digits denotes. */
  function DecimalValue(s: string): nat
    requires forall i :: 0 <= i < |s| ==> '0' <= s[i] <= '9'
    decreases |s|
  {
    if s == [] then 0 else DecimalValue(s[..|s| - 1]) * 10 + (s[|s| - 1] as int - '0' as int)
  }

  /** Reading the decimal text back gives the number: the percentage shown is the one detected. */
  lemma {:induction false} DecimalRoundTrip(n: nat)
    ensures DecimalValue(DecimalText(n)) == n
    decreases n
  {
    var r := DecimalText(n);
    if n >= 10 {
      DecimalRoundTrip(n / 10);
      assert r[..|r| - 1] == DecimalText(n / 10);
    }
  }

  /** The label `analyzeImage` reads off an observation: its first one, or "Unknown" at 0%. */
  function BestLabel(o: Observation): (l: Label)
    ensures o.labels != [] ==> l == o.labels[0]
    ensures o.labels == [] ==> l.identifier == "Unknown" && l.confidence == 0
  {
    if o.labels == [] then Label("Unknown", 0) else o.labels[0]
  }

  const TemplatePrefix := "An item, "
  const TemplateSuffix := ", was found in ____ at exactly ___"

  /** The placeholder description prefilled for a detected label; the label can be read back out of it. */
  function DescriptionTemplate(detected: string): (d: string)
    ensures |d| == |TemplatePrefix| + |detected| + |TemplateSuffix|
    ensures d[..|TemplatePrefix|] == TemplatePrefix
    ensures d[|TemplatePrefix|..|d| - |TemplateSuffix|] == detected
    ensures d[|d| - |TemplateSuffix|..] == TemplateSuffix
  {
    TemplatePrefix + detected + TemplateSuffix
  }

  /**
   * The text shown for the first detection, "<label> (<percent>%)": the
   * label and the percentage can both be read back out of it.
   */
  function DetectionText(l: Label): (t: string)
    ensures |t| == |l.identifier| + |DecimalText(l.confidence)| + 4
    ensures t[..|l.identifier|] == l.identifier
    ensures t[|l.identifier|..|l.identifier| + 2] == " ("
    ensures t[|t| - 2..] == "%)"
    ensures var digits := t[|l.identifier| + 2..|t| - 2];
            (forall i :: 0 <= i < |digits| ==> '0' <= digits[i] <= '9') &&
            DecimalValue(digits) == l.confidence
  {
    var t := l.identifier + " (" + DecimalText(l.confidence) + "%)";
    DecimalRoundTrip(l.confidence);
    assert t[|l.identifier| + 2..|t| - 2] == DecimalText(l.confidence);
    t
  }

  /**
   * The form after `analyzeImage` has handled `d`. Only the three text
   * fields it writes can change; `capitalize` stands for `String.capitalized`.
   */
  function Analyzed(f: FormState, d: Detection, capitalize: string -> string): (r: FormState)
    ensures r == f.(itemName := r.itemName, itemDescription := r.itemDescription,
                    imageDescription := r.imageDescription)
  {
    if f.selectedImage.None? then f.(imageDescription := "Could not load image")
    else
      match d
      case NoCIImage => f.(imageDescription := "Could not create CIImage")
      case ModelLoadFailed(m) => f.(imageDescription := "Error loading model: " + m)
      case RequestFailed(m) => f.(imageDescription := "Error: " + m)
      case NotObjectObservations => f.(imageDescription := "No results returned")
      case PerformFailed(m) => f.(imageDescription := "Detection failed: " + m)
      case Observations(results) =>
        if results == [] then f.(imageDescription := "No objects detected.")
        else
          var best := BestLabel(results[0]);
          f.(itemName := capitalize(best.identifier),
             itemDescription := DescriptionTemplate(best.identifier),
             imageDescription := "Detected: " + DetectionText(best))
  }

  /** The name and description change only when an image is picked and at least one object is detected. */
  lemma PrefillOnlyOnDetection(f: FormState, d: Detection, capitalize: string -> string)
    requires f.selectedImage.None? || !d.Observations? || d.results == []
    ensures Analyzed(f, d, capitalize) == f.(imageDescription := Analyzed(f, d, capitalize).imageDescription)
    ensures d.Observations? && d.results == [] && f.selectedImage.Some? ==>
              Analyzed(f, d, capitalize).imageDescription == "No objects detected."
  {
  }

  /**
   * With at least one detection, the first observation's first label (or
   * "Unknown" at 0%) gives the capitalized name, the templated description
   * and the analysis text.
   */
  lemma PrefillFromFirstObservation(f: FormState, o: Observation, rest: seq<Observation>,
                                    capitalize: string -> string)
    requires f.selectedImage.Some?
    ensures var best := if o.labels == [] then "Unknown" else o.labels[0].identifier;
            var r := Analyzed(f, Observations([o] + rest), capitalize);
            r.itemName == capitalize(best) && r.itemDescription == DescriptionTemplate(best) &&
            r.imageDescription == "Detected: " + DetectionText(BestLabel(o))
  {
    assert ([o] + rest)[0] == o;
  }

  /** Observations after the first are ignored. */
  lemma LaterObservationsIgnored(f: FormState, o: Observation, rest1: seq<Observation>,
                                 rest2: seq<Observation>, capitalize: string -> string)
    ensures Analyzed(f, Observations([o] + rest1), capitalize) ==
            Analyzed(f, Observations([o] + rest2), capitalize)
  {
    assert ([o] + rest1)[0] == ([o] + rest2)[0];
  }

  /** The file name for a generated identifier, "item-<uuid>.jpg"; the identifier can be read back out. */
  function ImageFileName(uuid: Uuid): (name: string)
    ensures |name| == |uuid| + 9
    ensures name[..5] == "item-" && name[|name| - 4..] == ".jpg"
    ensures name[5..|name| - 4] == uuid
  {
    "item-" + uuid + ".jpg"
  }

  /** Distinct identifiers give distinct file names. */
  lemma ImageFileNameInjective(a: Uuid, b: Uuid)
    ensures ImageFileName(a) == ImageFileName(b) ==> a == b
  {
  }

  class AddItemView {
    var itemName: string
    var itemDescription: string
    var category: string
    var locationFound: string
    var dateFound: Date
    var selectedImage: Option<Photo>
    var showSuccessAlert: bool
    var imageDescription: string
    const context: ModelContext
    const documents: Documents

    function Form(): FormState
      reads this
    {
      FormState(itemName, itemDescription, category, locationFound, dateFound,
                selectedImage, showSuccessAlert, imageDescription)
    }

    /** The screen as it opens at time `today`. */
    constructor (context: ModelContext, documents: Documents, today: Date)
      ensures this.context == context && this.documents == documents
      ensures Form() == FormState("", "", InitialCategory, "", today, None, false, "")
    {
      this.context := context;
      this.documents := documents;
      itemName := "";
      itemDescription := "";
      category := InitialCategory;
      locationFound := "";
      dateFound := today;
      selectedImage := None;
      showSuccessAlert := false;
      imageDescription := "";
    }

    /** `analyzeImage()`, with the detector's outcome `d` passed in and delivered at once. */
    method AnalyzeImage(d: Detection, capitalize: string -> string)
      modifies this
      ensures Form() == Analyzed(old(Form()), d, capitalize)
    {
      if selectedImage.None? {
        imageDescription := "Could not load image";
        return;
      }
      match d
      case NoCIImage =>
        imageDescription := "Could not create CIImage";
      case ModelLoadFailed(m) =>
        imageDescription := "Error loading model: " + m;
      case RequestFailed(m) =>
        imageDescription := "Error: " + m;
      case NotObjectObservations =>
        imageDescription := "No results returned";
      case PerformFailed(m) =>
        imageDescription := "Detection failed: " + m;
      case Observations(results) =>
        if results == [] {
          imageDescription := "No objects detected.";
        } else {
          var best := BestLabel(results[0]);
          itemName := capitalize(best.identifier);
          itemDescription := DescriptionTemplate(best.identifier);
          imageDescription := "Detected: " + DetectionText(best);
        }
    }

    /**
     * `saveImage(_:withName:)`: `jpeg` is the image's JPEG encoding, if it
     * could be made, and `writeOk` whether the write succeeded. A failed
     * encoding returns silently and a failed write is only logged; neither
     * changes the documents.
     */
    method SaveImage(name: string, jpeg: Option<seq<bv8>>, writeOk: bool)
      modifies documents
      ensures documents.files ==
                if jpeg.Some? && writeOk then old(documents.files)[name := jpeg.value]
                else old(documents.files)
    {
      if jpeg.None? {
        return;
      }
      if writeOk {
        documents.files := documents.files[name := jpeg.value];
      }
    }

    /**
     * `addItem()`: `imageUuid` and `itemId` are the two generated
     * identifiers; `jpeg` and `writeOk` describe the image save, which is
     * attempted only when an image is picked and whose failure does not
     * stop the insertion.
     */
    method AddItem(imageUuid: Uuid, itemId: Uuid, jpeg: Option<seq<bv8>>, writeOk: bool)
      returns (newItem: Item)
      modifies this, context, documents
      ensures fresh(newItem)
      ensures newItem.Value() ==
                ItemValue(itemId, old(dateFound), None, old(itemName), old(itemDescription), false,
                          ImageFileName(imageUuid), old(category), old(locationFound), None)
      ensures newItem.ClaimCoupled()
      ensures context.items == old(context.items) + [newItem]
      ensures documents.files ==
                if old(selectedImage).Some? && jpeg.Some? && writeOk
                then old(documents.files)[ImageFileName(imageUuid) := jpeg.value]
                else old(documents.files)
      ensures Form() == old(Form()).(showSuccessAlert := true)
      ensures old(context.AllCoupled()) ==> context.AllCoupled()
    {
      var imageName := ImageFileName(imageUuid);
      if selectedImage.Some? {
        SaveImage(imageName, jpeg, writeOk);
      }
      newItem := new Item(itemId, dateFound, itemName := itemName, itemDescription := itemDescription,
                          isClaimed := false, imageName := imageName, category := category,
                          locationFound := locationFound, claimer := None);
      context.Insert(newItem);
      showSuccessAlert := true;
    }
  }
}
