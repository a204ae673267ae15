/**
 * The computations behind the session launch form of the science portal:
 * the session type catalog, the options of the four drop-downs, which form
 * groups are shown for a session type, and the reset to the default type.
 */
module LaunchForm {
  import opened Wrappers

  /** The complete list of launch form groups, in the order the form lists them. */
  const LaunchFormFields: seq<string> := ["name", "type", "image", "memory", "cores"]

  /** The same five groups as a set. */
  const FieldSet: set<string> := set f | f in LaunchFormFields

  /** One entry of `session_types` in the type catalog. */
  datatype SessionType = SessionType(name: string, formFields: seq<string>)

  /** The type catalog document: the default type and the known types, in file order. */
  datatype TypeMap = TypeMap(default: string, sessionTypes: seq<SessionType>)

  /** One container image of the image list; only its `id` is used. */
  datatype Image = Image(id: string)

  /** The server context resources. Core counts and RAM sizes are kept as their text. */
  datatype Context = Context(availableCores: seq<string>, defaultCores: string,
                             availableRAM: seq<string>, defaultRAM: string)

  /** An entry handed to populateSelect: the visible text and the option value. */
  datatype OptionData = OptionData(name: string, optionID: string)

  /** An `<option>` element of a drop-down. */
  datatype OptionEl = OptionEl(value: string, text: string, selected: bool, disabled: bool)

  // ------------ Drop-down construction ------------

  /** The placeholder option: empty value, selected and disabled. */
  function PlaceholderOption(text: string): OptionEl {
    OptionEl("", text, true, true)
  }

  /** The option built for one entry; selected exactly when its ID is the default ID. */
  function ChoiceFor(d: OptionData, defaultOptionID: string): OptionEl {
    OptionEl(d.optionID, d.name, d.optionID == defaultOptionID, false)
  }

  /**
   * The content of a drop-down after populateSelect: the placeholder (always,
   * since the variable `optionalDefault` it tests is never defined), then one
   * option per entry, in order.
   */
  function SelectOptions(placeholder: string, data: seq<OptionData>, defaultOptionID: string): seq<OptionEl> {
    [PlaceholderOption(placeholder)] + seq(|data|, i requires 0 <= i < |data| => ChoiceFor(data[i], defaultOptionID))
  }

  /** Appending one entry appends exactly its option (the step of populateSelect's loop). */
  lemma SelectOptionsSnoc(placeholder: string, data: seq<OptionData>, d: OptionData, defaultOptionID: string)
    ensures SelectOptions(placeholder, data + [d], defaultOptionID)
         == SelectOptions(placeholder, data, defaultOptionID) + [ChoiceFor(d, defaultOptionID)]
  {
  }

  /**
   * populateSelect emits the disabled placeholder first and then exactly one
   * option per entry in input order; an entry's option is selected iff its ID
   * equals the default ID.
   */
  lemma SelectOptionsShape(placeholder: string, data: seq<OptionData>, defaultOptionID: string)
    ensures var r := SelectOptions(placeholder, data, defaultOptionID);
      && |r| == |data| + 1
      && r[0] == OptionEl("", placeholder, true, true)
      && forall i :: 0 <= i < |data| ==>
           && r[i + 1].value == data[i].optionID
           && r[i + 1].text == data[i].name
           && !r[i + 1].disabled
           && (r[i + 1].selected <==> data[i].optionID == defaultOptionID)
  {
  }

  /** No two entries share an option ID. */
  predicate DistinctIDs(data: seq<OptionData>) {
    forall i, j :: 0 <= i < j < |data| ==> data[i].optionID != data[j].optionID
  }

  /** With distinct IDs at most one entry's option is selected. */
  lemma AtMostOneSelected(placeholder: string, data: seq<OptionData>, defaultOptionID: string)
    requires DistinctIDs(data)
    ensures var r := SelectOptions(placeholder, data, defaultOptionID);
      forall i, j :: 0 < i < j < |r| ==> !(r[i].selected && r[j].selected)
  {
  }

  // ------------ Catalog option lists ------------

  /** The type drop-down entries: one per catalog type, name and ID both the type name. */
  function TypeOptions(types: seq<SessionType>): seq<OptionData> {
    seq(|types|, i requires 0 <= i < |types| => OptionData(types[i].name, types[i].name))
  }

  /** The software stack entries: one per image, name and ID both the image id. */
  function ImageOptions(images: seq<Image>): seq<OptionData> {
    seq(|images|, i requires 0 <= i < |images| => OptionData(images[i].id, images[i].id))
  }

  /** The cores or RAM entries: one per available value, name and ID both the value. */
  function ValueOptions(values: seq<string>): seq<OptionData> {
    seq(|values|, i requires 0 <= i < |values| => OptionData(values[i], values[i]))
  }

  /** The type drop-down built when the catalog arrives. */
  function TypeSelect(m: TypeMap): seq<OptionEl> {
    SelectOptions("select type", TypeOptions(m.sessionTypes), m.default)
  }

  /** The software stack drop-down built from a non-empty image list. */
  function ImageSelect(images: seq<Image>): seq<OptionEl>
    requires |images| > 0
  {
    SelectOptions("select stack", ImageOptions(images), ImageOptions(images)[0].name)
  }

  /** The cores drop-down built from the context resources. */
  function CoresSelect(c: Context): seq<OptionEl> {
    SelectOptions("select # cores", ValueOptions(c.availableCores), c.defaultCores)
  }

  /** The RAM drop-down built from the context resources. */
  function MemorySelect(c: Context): seq<OptionEl> {
    SelectOptions("select RAM", ValueOptions(c.availableRAM), c.defaultRAM)
  }

  /**
   * The type drop-down mirrors `session_types` one-to-one and in order, and
   * marks the option of the catalog's default type.
   */
  lemma TypeSelectMirrorsCatalog(m: TypeMap)
    ensures var r := TypeSelect(m);
      && |r| == |m.sessionTypes| + 1
      && r[0] == PlaceholderOption("select type")
      && forall i :: 0 <= i < |m.sessionTypes| ==>
           r[i + 1] == OptionEl(m.sessionTypes[i].name, m.sessionTypes[i].name,
                                m.sessionTypes[i].name == m.default, false)
  {
  }

  /**
   * The cores and RAM drop-downs mirror `availableCores` and `availableRAM`
   * one-to-one and in order, marking `defaultCores` and `defaultRAM`.
   */
  lemma ContextSelectsMirrorResources(c: Context)
    ensures var cores := CoresSelect(c);
      && |cores| == |c.availableCores| + 1
      && cores[0] == PlaceholderOption("select # cores")
      && forall i :: 0 <= i < |c.availableCores| ==>
           cores[i + 1] == OptionEl(c.availableCores[i], c.availableCores[i],
                                    c.availableCores[i] == c.defaultCores, false)
    ensures var ram := MemorySelect(c);
      && |ram| == |c.availableRAM| + 1
      && ram[0] == PlaceholderOption("select RAM")
      && forall i :: 0 <= i < |c.availableRAM| ==>
           ram[i + 1] == OptionEl(c.availableRAM[i], c.availableRAM[i],
                                  c.availableRAM[i] == c.defaultRAM, false)
  {
  }

  /**
   * A non-empty image list gives one option per image id, in order, and the
   * first image is the selected default; a later image is selected only when
   * it repeats the first id, so with distinct ids the first is the only one.
   */
  lemma ImageSelectDefaultsToFirst(images: seq<Image>)
    requires |images| > 0
    ensures var r := ImageSelect(images);
      && |r| == |images| + 1
      && r[0] == PlaceholderOption("select stack")
      && r[1] == OptionEl(images[0].id, images[0].id, true, false)
      && forall i :: 0 <= i < |images| ==>
           r[i + 1] == OptionEl(images[i].id, images[i].id, images[i].id == images[0].id, false)
    ensures (forall i, j :: 0 <= i < j < |images| ==> images[i].id != images[j].id) ==>
      forall i :: 1 < i < |images| + 1 ==> !ImageSelect(images)[i].selected
  {
  }

  // ------------ Form group visibility ------------

  /** The index of the first catalog type with the requested name, if any. */
  function FirstMatch(types: seq<SessionType>, sessionType: string): (r: Option<nat>)
    ensures r.Some? ==> r.value < |types| && types[r.value].name == sessionType
    ensures r.Some? ==> forall j :: 0 <= j < r.value ==> types[j].name != sessionType
    ensures r.None? <==> forall j :: 0 <= j < |types| ==> types[j].name != sessionType
  {
    if |types| == 0 then None
    else if types[0].name == sessionType then Some(0)
    else match FirstMatch(types[1..], sessionType)
      case None => None
      case Some(k) => Some(k + 1)
  }

  /** The form groups of the first matching type, or none when no type matches. */
  function FormListFor(types: seq<SessionType>, sessionType: string): seq<string> {
    match FirstMatch(types, sessionType)
    case None => []
    case Some(i) => types[i].formFields
  }

  /** The launch form groups hidden for a session type. */
  function HiddenFields(m: TypeMap, sessionType: string): set<string> {
    set f | f in LaunchFormFields && f !in FormListFor(m.sessionTypes, sessionType)
  }

  /**
   * Each of the five launch groups is shown iff it is listed in `form_fields`
   * of the first catalog type whose name is the requested type.
   */
  lemma FieldVisibilityRule(m: TypeMap, sessionType: string, f: string)
    requires f in LaunchFormFields
    ensures f !in HiddenFields(m, sessionType) <==>
      exists i :: 0 <= i < |m.sessionTypes| && m.sessionTypes[i].name == sessionType
        && (forall j :: 0 <= j < i ==> m.sessionTypes[j].name != sessionType)
        && f in m.sessionTypes[i].formFields
  {
  }

  /** When no catalog type has the requested name, all five groups are hidden. */
  lemma NoMatchHidesAll(m: TypeMap, sessionType: string)
    requires forall j :: 0 <= j < |m.sessionTypes| ==> m.sessionTypes[j].name != sessionType
    ensures HiddenFields(m, sessionType) == FieldSet
  {
  }

  // ------------ Reset to the default type ------------

  /** The type drop-down after reset: an option is selected iff its value is the default type. */
  function ResetSelection(opts: seq<OptionEl>, defaultType: string): seq<OptionEl> {
    seq(|opts|, i requires 0 <= i < |opts| => opts[i].(selected := opts[i].value == defaultType))
  }

  /**
   * Reset on the drop-down built from the catalog keeps every type option as
   * populateSelect made it; only the placeholder loses its selection (unless
   * the default type is the empty string).
   */
  lemma ResetAfterTypeSelect(m: TypeMap)
    ensures ResetSelection(TypeSelect(m), m.default)
         == TypeSelect(m)[0 := OptionEl("", "select type", m.default == "", true)]
  {
  }

  /** Resetting twice is the same as resetting once. */
  lemma ResetIdempotent(opts: seq<OptionEl>, defaultType: string)
    ensures ResetSelection(ResetSelection(opts, defaultType), defaultType) == ResetSelection(opts, defaultType)
  {
  }
}
