/**
 * The multi-step "list your property" form: its fields, the image list kept
 * in step with the preview list, the amenity checkboxes, the house-rules
 * textarea, the three-step navigation and the submission that inserts a
 * pending listing and resets the form.
 */
module ListProperty {
  import opened Wrappers
  import opened Seqs
  import opened Text

  type Id = string
  type Url = string

  /** A file chosen in the image picker. */
  datatype File = File(name: string)

  const FirstStep: int := 1
  const LastStep: int := 3

  /** The status every new listing is inserted with. */
  const PendingStatus: string := "pending"

  /** The amenities offered as checkboxes. */
  const AmenityOptions: seq<string> :=
    ["Wi-Fi", "AC", "Washing Machine", "TV", "Fridge", "Geyser", "Power Backup", "Parking", "Security", "CCTV"]

  /** The form's data; the numeric inputs are kept as the text typed. */
  datatype FormData = FormData(
    title: string, description: string, location: string, propertyType: string,
    price: string, beds: string, maxOccupants: string,
    amenities: seq<string>, rules: seq<string>, images: seq<File>)

  /** The form as first shown and as reset after a successful submission. */
  const EmptyForm: FormData := FormData("", "", "", "", "", "", "", [], [], [])

  /** The seven text inputs of the form. */
  datatype TextField = Title | Description | Location | PropertyType | Price | Beds | MaxOccupants

  /** The current value of one text input. */
  function Get(form: FormData, field: TextField): string {
    match field
    case Title => form.title
    case Description => form.description
    case Location => form.location
    case PropertyType => form.propertyType
    case Price => form.price
    case Beds => form.beds
    case MaxOccupants => form.maxOccupants
  }

  /** A text input's `onChange`: the form with that one input replaced, every other input kept. */
  function WithText(form: FormData, field: TextField, value: string): (r: FormData)
    ensures Get(r, field) == value
    ensures forall g :: g != field ==> Get(r, g) == Get(form, g)
  {
    match field
    case Title => form.(title := value)
    case Description => form.(description := value)
    case Location => form.(location := value)
    case PropertyType => form.(propertyType := value)
    case Price => form.(price := value)
    case Beds => form.(beds := value)
    case MaxOccupants => form.(maxOccupants := value)
  }

  /**
   * Editing a text input leaves the amenity, rule and image lists alone, and
   * typing the old value back restores the whole form.
   */
  lemma WithTextSets(form: FormData, field: TextField, value: string)
    ensures var f := WithText(form, field, value);
            && f.amenities == form.amenities && f.rules == form.rules && f.images == form.images
            && WithText(f, field, Get(form, field)) == form
  {
  }

  // ---------------------------------------------------------------- house rules

  /** A line is kept as a rule when it is not blank once trimmed. */
  function IsRule(line: string): (kept: bool)
    ensures kept <==> !Blank(line)
  {
    Trim(line) != ""
  }

  /** Rules as the form stores them: none blank, none spanning lines. */
  predicate WellFormedRules(rules: seq<string>) {
    forall i :: 0 <= i < |rules| ==> IsRule(rules[i]) && Newline !in rules[i]
  }

  /**
   * The textarea's value turned into rules: its lines, split on '\n', with the
   * blank ones dropped, in order.
   */
  function ParseRules(text: string): (rules: seq<string>)
    ensures WellFormedRules(rules)
    ensures forall r :: r in rules ==> r in Split(text)
    ensures forall line :: line in Split(text) && !Blank(line) ==> line in rules
  {
    var lines := Split(text);
    var rules := Filter(IsRule, lines);
    forall i | 0 <= i < |rules| ensures IsRule(rules[i]) && Newline !in rules[i] {
      assert rules[i] in rules;
    }
    forall line | line in lines && !Blank(line) ensures line in rules {
      assert IsRule(line);
    }
    rules
  }

  /** The textarea shows the rules joined by '\n'; reading that text back gives the same rules. */
  lemma {:induction false} RulesRoundTrip(rules: seq<string>)
    requires WellFormedRules(rules)
    ensures ParseRules(Join(rules)) == rules
  {
    if rules == [] {
      assert Split("") == [""];
      assert Filter(IsRule, [""]) == [];
    } else {
      SplitJoin(rules);
      FilterKeepsAll(IsRule, rules);
    }
  }

  /**
   * A newline typed at the end of the rules is dropped at once: the blank line it
   * opens is filtered out, so the textarea shows the old rules again and a new rule
   * cannot be started with Enter.
   */
  lemma {:induction false} TrailingNewlineDropped(rules: seq<string>)
    requires WellFormedRules(rules)
    ensures ParseRules(Join(rules) + [Newline]) == rules
    ensures Join(ParseRules(Join(rules) + [Newline])) == Join(rules)
  {
    if rules == [] {
      assert Join(rules) + [Newline] == [Newline] + "";
      assert Split([Newline] + "") == ["", ""];
      assert Filter(IsRule, ["", ""]) == [];
    } else {
      assert Split(Join(rules) + [Newline]) == rules + [""] by {
        SplitTrailingNewline(rules);
      }
      FilterConcat(IsRule, rules, [""]);
      FilterKeepsAll(IsRule, rules);
      FilterKeepsNone(IsRule, [""]);
    }
  }

  /** A newline after the join of non-empty newline-free lines splits off one more, empty, line. */
  lemma SplitTrailingNewline(lines: seq<string>)
    requires |lines| >= 1
    requires forall i :: 0 <= i < |lines| ==> Newline !in lines[i]
    ensures Split(Join(lines) + [Newline]) == lines + [""]
  {
    JoinAppend(lines, "");
    assert Join(lines) + [Newline] == Join(lines + [""]);
    JoinInjective(Split(Join(lines) + [Newline]), lines + [""]);
  }

  /** Reading back the shown text, with or without a newline typed at its end, keeps the rules. */
  lemma RereadKeepsRules(rules: seq<string>, text: string)
    requires WellFormedRules(rules)
    ensures text == Join(rules) ==> ParseRules(text) == rules
    ensures text == Join(rules) + [Newline] ==> ParseRules(text) == rules
  {
    if text == Join(rules) {
      RulesRoundTrip(rules);
    } else if text == Join(rules) + [Newline] {
      TrailingNewlineDropped(rules);
    }
  }

  /** A text with no blank line is exactly the join of the rules parsed from it. */
  lemma JoinParsedRules(text: string)
    requires forall i :: 0 <= i < |Split(text)| ==> !Blank(Split(text)[i])
    ensures Join(ParseRules(text)) == text
  {
    FilterKeepsAll(IsRule, Split(text));
  }

  /** Parsing is stable: re-rendering parsed rules and parsing them again changes nothing. */
  lemma ParseRulesStable(text: string)
    ensures ParseRules(Join(ParseRules(text))) == ParseRules(text)
  {
    RulesRoundTrip(ParseRules(text));
  }

  // ---------------------------------------------------------------- amenities

  /** Amenities other than `a`, as a filter predicate. */
  function IsNot(a: string): string -> bool {
    x => x != a
  }

  /** Checking an amenity that was unchecked and unchecking it again restores the list. */
  lemma {:induction false} UncheckUndoesCheck(amenities: seq<string>, a: string)
    requires a !in amenities
    ensures Filter(IsNot(a), amenities + [a]) == amenities
  {
    FilterConcat(IsNot(a), amenities, [a]);
    FilterKeepsAll(IsNot(a), amenities);
    FilterKeepsNone(IsNot(a), [a]);
  }

  /** Unchecking drops `a` wherever it occurs and keeps every other amenity, in order. */
  lemma UncheckKeepsOrder(before: seq<string>, after: seq<string>, a: string)
    ensures Filter(IsNot(a), before + after) == Filter(IsNot(a), before) + Filter(IsNot(a), after)
    ensures a !in Filter(IsNot(a), before + after)
  {
    FilterConcat(IsNot(a), before, after);
  }

  // ---------------------------------------------------------------- submission

  /** What the storage bucket answered for one uploaded image. */
  datatype Upload = Stored(path: string) | UploadFailed

  /** The row inserted into the `properties` table. */
  datatype Listing = Listing(
    ownerId: Id, title: string, description: string, location: string, propertyType: string,
    price: string, beds: string, maxOccupants: string,
    amenities: seq<string>, rules: seq<string>, images: seq<string>, status: string)

  /**
   * `Promise.all` over the uploads: the stored paths in file order when every
   * upload succeeded, nothing when any one failed.
   */
  function StoredPaths(uploads: seq<Upload>): (paths: Option<seq<string>>)
    ensures paths.Some? <==> forall i :: 0 <= i < |uploads| ==> uploads[i].Stored?
    ensures paths.Some? ==> |paths.value| == |uploads|
    ensures paths.Some? ==> forall i :: 0 <= i < |uploads| ==> paths.value[i] == uploads[i].path
  {
    if uploads == [] then Some([])
    else match uploads[0]
      case UploadFailed => None
      case Stored(path) =>
        match StoredPaths(uploads[1..])
        case None => None
        case Some(rest) => Some([path] + rest)
  }

  /**
   * The listing a submission inserts, or nothing when it throws: no signed-in
   * user, a failed image upload or a failed insert. The listing belongs to the
   * user, is pending, and carries one stored path per image, in order.
   */
  function SubmitResult(form: FormData, user: Option<Id>, uploads: seq<Upload>, insertFailed: bool): (r: Option<Listing>)
    requires |uploads| == |form.images|
    ensures r.Some? <==> user.Some? && !insertFailed && forall i :: 0 <= i < |uploads| ==> uploads[i].Stored?
    ensures r.Some? ==> r.value.status == PendingStatus && r.value.ownerId == user.value
    ensures r.Some? ==> |r.value.images| == |form.images|
                        && forall i :: 0 <= i < |uploads| ==> r.value.images[i] == uploads[i].path
    ensures r.Some? ==> r.value == Listing(user.value, form.title, form.description, form.location, form.propertyType,
                                          form.price, form.beds, form.maxOccupants,
                                          form.amenities, form.rules, r.value.images, PendingStatus)
  {
    if user.None? then None
    else match StoredPaths(uploads)
      case None => None
      case Some(imageUrls) =>
        if insertFailed then None
        else Some(Listing(user.value, form.title, form.description, form.location, form.propertyType,
                          form.price, form.beds, form.maxOccupants,
                          form.amenities, form.rules, imageUrls, PendingStatus))
  }

  /** The form component's state and the listings it has inserted into the store. */
  class ListPropertyForm {
    var step: int
    var formData: FormData
    var previewUrls: seq<Url>
    /** The listings inserted into the store by this form, oldest first. */
    var listings: seq<Listing>

    /**
     * The step is one of the three pages, each image has its preview, the
     * amenities come from the offered options and the rules are well formed.
     */
    predicate Valid()
      reads this
    {
      && FirstStep <= step <= LastStep
      && |formData.images| == |previewUrls|
      && (forall a :: a in formData.amenities ==> a in AmenityOptions)
      && WellFormedRules(formData.rules)
    }

    /** The textarea's value: the rules joined by '\n'. */
    function RulesText(): string
      reads this
    {
      Join(formData.rules)
    }

    constructor ()
      ensures Valid()
      ensures step == FirstStep && formData == EmptyForm && previewUrls == [] && listings == []
    {
      step := FirstStep;
      formData := EmptyForm;
      previewUrls := [];
      listings := [];
    }

    /** A text input's `onChange`: replace that one field. */
    method EditText(field: TextField, value: string)
      requires Valid()
      modifies this
      ensures Valid()
      ensures formData == WithText(old(formData), field, value)
      ensures step == old(step) && previewUrls == old(previewUrls) && listings == old(listings)
    {
      formData := WithText(formData, field, value);
    }

    /**
     * `handleImageUpload`: append the chosen files to the images and their
     * preview URLs (one per file, made by the browser) to the previews; an empty
     * selection changes nothing.
     */
    method HandleImageUpload(files: seq<File>, urls: seq<Url>)
      requires Valid()
      requires |urls| == |files|
      modifies this
      ensures Valid()
      ensures formData == old(formData).(images := old(formData.images) + files)
      ensures previewUrls == old(previewUrls) + urls
      ensures files == [] ==> formData == old(formData) && previewUrls == old(previewUrls)
      ensures step == old(step) && listings == old(listings)
    {
      if |files| > 0 {
        formData := formData.(images := formData.images + files);
        previewUrls := previewUrls + urls;
      }
    }

    /**
     * `removeImage`: drop position `index` from the images and from the previews,
     * keeping the rest in order; an index outside the lists removes nothing.
     */
    method RemoveImage(index: int)
      requires Valid()
      modifies this
      ensures Valid()
      ensures formData == old(formData).(images := DropIndex(old(formData.images), index))
      ensures previewUrls == DropIndex(old(previewUrls), index)
      ensures 0 <= index < |old(previewUrls)| ==> |previewUrls| == |old(previewUrls)| - 1
      ensures step == old(step) && listings == old(listings)
    {
      formData := formData.(images := DropIndex(formData.images, index));
      previewUrls := DropIndex(previewUrls, index);
    }

    /**
     * An amenity checkbox's `onChange`: checking appends the amenity, unchecking
     * removes every occurrence of it; afterwards the list holds it exactly when
     * the box is checked.
     */
    method ToggleAmenity(amenity: string, checked: bool)
      requires Valid()
      requires amenity in AmenityOptions
      modifies this
      ensures Valid()
      ensures checked ==> formData == old(formData).(amenities := old(formData.amenities) + [amenity])
      ensures !checked ==> formData == old(formData).(amenities := Filter(IsNot(amenity), old(formData.amenities)))
      ensures amenity in formData.amenities <==> checked
      ensures step == old(step) && previewUrls == old(previewUrls) && listings == old(listings)
    {
      if checked {
        formData := formData.(amenities := formData.amenities + [amenity]);
      } else {
        formData := formData.(amenities := Filter(IsNot(amenity), formData.amenities));
      }
    }

    /**
     * The rules textarea's `onChange`: store the non-blank lines of the new text.
     * Text equal to what the textarea shows, or that text with a newline typed at
     * its end, leaves the rules as they were.
     */
    method EditRules(text: string)
      requires Valid()
      modifies this
      ensures Valid()
      ensures formData == old(formData).(rules := ParseRules(text))
      ensures text == old(RulesText()) ==> formData == old(formData)
      ensures text == old(RulesText()) + [Newline] ==> formData == old(formData)
      ensures step == old(step) && previewUrls == old(previewUrls) && listings == old(listings)
    {
      var rules := ParseRules(text);
      assert WellFormedRules(rules) && (text == RulesText() || text == RulesText() + [Newline] ==> rules == formData.rules) by {
        RereadKeepsRules(formData.rules, text);
      }
      formData := formData.(rules := rules);
    }

    /** `nextStep`, offered only before the last page. */
    method NextStep()
      requires Valid()
      requires step < LastStep
      modifies this
      ensures Valid()
      ensures step == old(step) + 1
      ensures formData == old(formData) && previewUrls == old(previewUrls) && listings == old(listings)
    {
      step := step + 1;
    }

    /** `prevStep`, offered only after the first page. */
    method PrevStep()
      requires Valid()
      requires step > FirstStep
      modifies this
      ensures Valid()
      ensures step == old(step) - 1
      ensures formData == old(formData) && previewUrls == old(previewUrls) && listings == old(listings)
    {
      step := step - 1;
    }

    /**
     * `handleSubmit`: on success insert the listing and reset the form to its
     * first page with no data and no previews; on any failure keep everything.
     * The signed-in user, the storage answers and the insert's failure are
     * parameters.
     */
    method HandleSubmit(user: Option<Id>, uploads: seq<Upload>, insertFailed: bool)
      requires Valid()
      requires |uploads| == |formData.images|
      modifies this
      ensures Valid()
      ensures var r := SubmitResult(old(formData), user, uploads, insertFailed);
              if r.Some? then
                && listings == old(listings) + [r.value]
                && formData == EmptyForm && step == FirstStep && previewUrls == []
              else
                && listings == old(listings)
                && formData == old(formData) && step == old(step) && previewUrls == old(previewUrls)
    {
      var r := SubmitResult(formData, user, uploads, insertFailed);
      if r.Some? {
        listings := listings + [r.value];
        formData := EmptyForm;
        step := FirstStep;
        previewUrls := [];
      }
    }
  }
}
