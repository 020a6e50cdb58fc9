/**
 * The client store behind the requirements card: the text the user
 * types (saved in browser storage under `requirements`), the view
 * toggle between requirements and formula, and the validation and
 * result handling of a generation request.
 */
module Requirements {
  import opened Wrappers
  import opened JsText
  import opened ClientModel
  import NotionFields
  import NotionData

  const RequirementsKey: string := "requirements"
  const FormulaTitle: string := "Your Formula"
  const RequirementsTitle: string := "Describe your requirement"
  const NoDatabaseSelected: string := "Please select a Notion database or switch to manual input mode"
  const NoStructure: string := "Please define the database structure or select a Notion database"
  const NoRequirements: string := "Please describe your formula requirements"
  const GenerationFailed: string := "Failed to generate formula"
  const GenerationError: string := "An error occurred while generating the formula"

  /** A field as sent to the generator: name and type, plus option names or a number format. */
  datatype SimpleField = SimpleField(name: string, fieldType: string, options: Option<seq<string>>, format: Option<string>)

  /** The structure sent along: the manual text (parsed as JSON or as is) or the simplified fields. */
  datatype DatabaseStructure =
    | ManualJson(text: string)
    | ManualText(text: string)
    | Simplified(fields: seq<SimpleField>)

  /** The body POSTed to the generation route. */
  datatype FormulaRequest = FormulaRequest(userRequirements: string, databaseStructure: DatabaseStructure)

  /** The route's answer: HTTP `ok`, the body's `success`, `text` and `error`. */
  datatype FormulaReply = FormulaReply(ok: bool, success: bool, text: string, error: Option<string>)

  datatype RequirementsState = RequirementsState(
    userInput: string,
    generatedFormula: string,
    showFormula: bool,
    isGenerated: bool,
    isLoading: bool,
    error: Option<string>,
    lastRequirements: Option<string>)

  /** The names of the options, in order. */
  function OptionNames(options: seq<FieldOption>): (names: seq<string>)
    ensures |names| == |options|
    ensures forall i :: 0 <= i < |options| ==> names[i] == options[i].name
  {
    if |options| == 0 then [] else [options[0].name] + OptionNames(options[1..])
  }

  /**
   * One field simplified: name and type copied; option names only for a
   * select or multi-select field that has options; the format only for a
   * number field with a non-empty format.
   */
  function Simplify(field: FieldSpec): (f: SimpleField)
    ensures f.name == field.name && f.fieldType == field.kind
    ensures f.options.Some? <==>
      (field.kind == "select" && field.selectOptions.Some?) || (field.kind == "multi_select" && field.multiSelectOptions.Some?)
    ensures field.kind == "select" && field.selectOptions.Some? ==> f.options == Some(OptionNames(field.selectOptions.value))
    ensures field.kind == "multi_select" && field.multiSelectOptions.Some? ==>
      f.options == Some(OptionNames(field.multiSelectOptions.value))
    ensures f.format.Some? <==> field.kind == "number" && Truthy(field.numberFormat)
    ensures f.format.Some? ==> f.format == field.numberFormat
  {
    var options :=
      if field.kind == "select" && field.selectOptions.Some? then Some(OptionNames(field.selectOptions.value))
      else if field.kind == "multi_select" && field.multiSelectOptions.Some? then Some(OptionNames(field.multiSelectOptions.value))
      else None;
    var format := if field.kind == "number" && Truthy(field.numberFormat) then field.numberFormat else None;
    SimpleField(field.name, field.kind, options, format)
  }

  /** `transformDatabaseStructure`: one simplified field per entry, in order; the keys are dropped. */
  function TransformDatabaseStructure(fields: seq<(string, FieldSpec)>): (r: seq<SimpleField>)
    ensures |r| == |fields|
    ensures forall i :: 0 <= i < |fields| ==> r[i] == Simplify(fields[i].1)
  {
    if |fields| == 0 then [] else [Simplify(fields[0].1)] + TransformDatabaseStructure(fields[1..])
  }

  /** What a reload finds under `requirements`: the saved input and last requirements, else nothing. */
  function SavedRequirements(items: map<string, StoredValue>): (saved: (string, Option<string>))
    ensures !HasItem(items, RequirementsKey) ==> saved == ("", None)
    ensures HasItem(items, RequirementsKey) && items[RequirementsKey].RequirementsJson? ==>
      saved == (items[RequirementsKey].userInput, items[RequirementsKey].lastRequirements)
    ensures HasItem(items, RequirementsKey) && !items[RequirementsKey].RequirementsJson? ==> saved == ("", None)
  {
    if HasItem(items, RequirementsKey) && items[RequirementsKey].RequirementsJson? then
      (items[RequirementsKey].userInput, items[RequirementsKey].lastRequirements)
    else ("", None)
  }

  /** The state a store built at page load starts in: the saved text resumed, everything else cleared. */
  function InitialState(items: map<string, StoredValue>): (s: RequirementsState)
    ensures (s.userInput, s.lastRequirements) == SavedRequirements(items)
    ensures s.generatedFormula == "" && !s.showFormula && !s.isGenerated && !s.isLoading && s.error == None
    ensures !HasItem(items, RequirementsKey) ==> s.userInput == "" && s.lastRequirements == None
  {
    var saved := SavedRequirements(items);
    RequirementsState(saved.0, "", false, false, false, None, saved.1)
  }

  /** The title of the card names the view it shows. */
  function CardTitle(s: RequirementsState): (t: string)
    ensures t == FormulaTitle <==> s.showFormula
    ensures t == RequirementsTitle <==> !s.showFormula
  {
    if s.showFormula then FormulaTitle else RequirementsTitle
  }

  /**
   * `toggleView`: nothing happens before a formula exists; afterwards the
   * view flips, and going back to the requirements restores the last
   * requirements when there are any. Nothing else changes.
   */
  function Toggled(s: RequirementsState): (t: RequirementsState)
    ensures !s.isGenerated ==> t == s
    ensures s.isGenerated ==> t.showFormula == !s.showFormula
    ensures t.userInput ==
      (if s.isGenerated && s.showFormula && Truthy(s.lastRequirements) then s.lastRequirements.value else s.userInput)
    ensures t.(showFormula := s.showFormula, userInput := s.userInput) == s
  {
    if !s.isGenerated then s
    else
      var flipped := s.(showFormula := !s.showFormula);
      if !flipped.showFormula && Truthy(flipped.lastRequirements) then flipped.(userInput := flipped.lastRequirements.value)
      else flipped
  }

  /** Two toggles bring the view back. */
  lemma ToggleTwice(s: RequirementsState)
    ensures Toggled(Toggled(s)).showFormula == s.showFormula
    ensures Toggled(Toggled(s)).(userInput := s.userInput) == s
  {
  }

  /**
   * The guard before anything is saved: without manual input a database
   * must be selected; with it, the structure must be neither empty nor
   * the placeholder.
   */
  function StructureError(useManualInput: bool, manualStructure: string, selectedId: string): (e: Option<string>)
    ensures e == Some(NoDatabaseSelected) <==> !useManualInput && selectedId == ""
    ensures e == Some(NoStructure) <==>
      useManualInput && (manualStructure == "" || manualStructure == NotionFields.ManualPlaceholder)
    ensures e.None? || e == Some(NoDatabaseSelected) || e == Some(NoStructure)
  {
    if !useManualInput && selectedId == "" then Some(NoDatabaseSelected)
    else if useManualInput && (manualStructure == "" || manualStructure == NotionFields.ManualPlaceholder) then Some(NoStructure)
    else None
  }

  /** The structure sent: the manual text, or the selected database's fields simplified. */
  function StructureFor(useManualInput: bool, manualStructure: string, manualIsJson: bool, selection: Selection)
    : (d: DatabaseStructure)
    ensures useManualInput ==> d.ManualJson? || d.ManualText?
    ensures useManualInput ==> d.text == manualStructure
    ensures !useManualInput ==> d == Simplified(TransformDatabaseStructure(selection.fields))
  {
    if useManualInput then (if manualIsJson then ManualJson(manualStructure) else ManualText(manualStructure))
    else Simplified(TransformDatabaseStructure(selection.fields))
  }

  /** The error a reply leaves: none on an ok, successful reply, else the reply's error or a fallback. */
  function ReplyError(reply: Fetched<FormulaReply>): (e: Option<string>)
    ensures e.None? <==> reply.Received? && reply.body.ok && reply.body.success
    ensures reply.FetchFailed? ==> e == Some(GenerationError)
    ensures e.Some? && reply.Received? ==>
      e == Some(if Truthy(reply.body.error) then reply.body.error.value else GenerationFailed)
  {
    match reply
    case FetchFailed => Some(GenerationError)
    case Received(body) => if body.ok && body.success then None else Some(OrElse(body.error, GenerationFailed))
  }

  /**
   * `generateFormula`, as a function of the state, the Notion stores'
   * inputs and the reply: the new state and the request sent, if any.
   *   - a failed structure guard only sets its error and sends nothing;
   *   - past it, the input becomes the last requirements and loading is
   *     over at the end, whatever happens;
   *   - a blank input sets its error and sends nothing;
   *   - otherwise the input and structure are sent, and the reply decides
   *     between a shown formula and an error.
   */
  function Generation(s: RequirementsState, useManualInput: bool, manualStructure: string, manualIsJson: bool,
                      selection: Selection, reply: Fetched<FormulaReply>)
    : (out: (RequirementsState, Option<FormulaRequest>))
    ensures StructureError(useManualInput, manualStructure, selection.id).Some? ==>
      out == (s.(error := StructureError(useManualInput, manualStructure, selection.id)), None)
    ensures StructureError(useManualInput, manualStructure, selection.id).None? ==>
      out.0.lastRequirements == Some(s.userInput) && !out.0.isLoading && out.0.userInput == s.userInput
    ensures StructureError(useManualInput, manualStructure, selection.id).None? && Blank(s.userInput) ==>
      out == (s.(error := Some(NoRequirements), lastRequirements := Some(s.userInput), isLoading := false), None)
    ensures out.1.Some? <==> StructureError(useManualInput, manualStructure, selection.id).None? && !Blank(s.userInput)
    ensures out.1.Some? ==>
      out.1.value == FormulaRequest(s.userInput, StructureFor(useManualInput, manualStructure, manualIsJson, selection))
    ensures out.1.Some? ==> out.0.error == ReplyError(reply)
    ensures out.1.Some? && out.0.error.None? ==>
      out.0.generatedFormula == reply.body.text && out.0.isGenerated && out.0.showFormula
    ensures out.1.Some? && out.0.error.Some? ==>
      out.0 == s.(error := out.0.error, lastRequirements := Some(s.userInput), isLoading := false)
  {
    var guard := StructureError(useManualInput, manualStructure, selection.id);
    if guard.Some? then (s.(error := guard), None)
    else
      var saved := s.(error := None, lastRequirements := Some(s.userInput), isLoading := false);
      if Blank(s.userInput) then (saved.(error := Some(NoRequirements)), None)
      else
        var request := FormulaRequest(s.userInput, StructureFor(useManualInput, manualStructure, manualIsJson, selection));
        (Completion(saved, reply), Some(request))
  }

  /** How the reply to a sent request ends: the formula shown, or only the reply's error recorded. */
  function Completion(s: RequirementsState, reply: Fetched<FormulaReply>): (t: RequirementsState)
    ensures ReplyError(reply).None? ==> t == s.(generatedFormula := reply.body.text, isGenerated := true, showFormula := true)
    ensures ReplyError(reply).Some? ==> t == s.(error := ReplyError(reply))
  {
    match ReplyError(reply)
    case None => s.(generatedFormula := reply.body.text, isGenerated := true, showFormula := true)
    case Some(e) => s.(error := Some(e))
  }

  /** `!s.trim()`: the input trims to nothing exactly when it is blank. */
  method TrimsToNothing(s: string) returns (blank: bool)
    ensures blank <==> Blank(s)
  {
    TrimEmptyIffBlank(s);
    blank := Trim(s) == "";
  }

  /** Whether `generateFormula` saves the requirements: exactly when the structure guard passes. */
  function GenerationSaves(useManualInput: bool, manualStructure: string, selection: Selection): bool {
    StructureError(useManualInput, manualStructure, selection.id).None?
  }

  /** Saving the input and last requirements and reading them back gives them. */
  lemma SaveThenRead(items: map<string, StoredValue>, userInput: string, lastRequirements: Option<string>)
    ensures SavedRequirements(items[RequirementsKey := RequirementsJson(userInput, lastRequirements)])
         == (userInput, lastRequirements)
  {
    assert HasItem(items[RequirementsKey := RequirementsJson(userInput, lastRequirements)], RequirementsKey);
  }

  class RequirementsStore {
    var userInput: string
    var generatedFormula: string
    var showFormula: bool
    var isGenerated: bool
    var isLoading: bool
    var error: Option<string>
    var lastRequirements: Option<string>
    /** The browser storage the requirements are saved in. */
    const storage: Storage

    function State(): RequirementsState
      reads this
    {
      RequirementsState(userInput, generatedFormula, showFormula, isGenerated, isLoading, error, lastRequirements)
    }

    /** A store built at page load resumes the saved input and last requirements. */
    constructor(storage: Storage)
      ensures State() == InitialState(storage.items)
      ensures this.storage == storage
    {
      var input, last := "", None;
      if HasItem(storage.items, RequirementsKey) {
        match storage.items[RequirementsKey]
        case RequirementsJson(savedInput, savedLast) =>
          input, last := savedInput, savedLast;
        case _ =>
      }
      userInput := input;
      generatedFormula := "";
      showFormula := false;
      isGenerated := false;
      isLoading := false;
      error := None;
      lastRequirements := last;
      this.storage := storage;
    }

    /** The input changes and is saved together with the last requirements. */
    method UpdateUserInput(value: string)
      modifies this, storage
      ensures State() == old(State()).(userInput := value)
      ensures storage.items == old(storage.items)[RequirementsKey := RequirementsJson(value, lastRequirements)]
      ensures SavedRequirements(storage.items) == (value, lastRequirements)
    {
      userInput := value;
      storage.SetItem(RequirementsKey, RequirementsJson(userInput, lastRequirements));
      SaveThenRead(old(storage.items), value, lastRequirements);
    }

    method UpdateGeneratedFormula(value: string)
      modifies this
      ensures State() == old(State()).(generatedFormula := value)
    {
      generatedFormula := value;
    }

    method ToggleView()
      modifies this
      ensures State() == Toggled(old(State()))
    {
      if isGenerated {
        showFormula := !showFormula;
        if !showFormula && Truthy(lastRequirements) {
          userInput := lastRequirements.value;
        }
      }
    }

    /**
     * `generateFormula`, reading the manual-input settings from the
     * connection store and the selection from the data store;
     * `manualIsJson` says whether the manual text parses as JSON.
     */
    method GenerateFormula(notion: NotionFields.NotionStore, data: NotionData.NotionDataStore,
                           manualIsJson: bool, reply: Fetched<FormulaReply>)
      returns (request: Option<FormulaRequest>)
      modifies this, storage
      ensures (State(), request) ==
        Generation(old(State()), old(notion.useManualInput), old(notion.manualDatabaseStructure), manualIsJson,
                   old(data.selectedDatabase), reply)
      ensures storage.items ==
        if GenerationSaves(old(notion.useManualInput), old(notion.manualDatabaseStructure), old(data.selectedDatabase))
        then old(storage.items)[RequirementsKey := RequirementsJson(old(userInput), Some(old(userInput)))]
        else old(storage.items)
    {
      var manual, text, selection := notion.useManualInput, notion.manualDatabaseStructure, data.selectedDatabase;
      error := None;
      if !manual && selection.id == "" {
        error := Some(NoDatabaseSelected);
        return None;
      }
      if manual && (text == "" || text == NotionFields.ManualPlaceholder) {
        error := Some(NoStructure);
        return None;
      }
      lastRequirements := Some(userInput);
      storage.SetItem(RequirementsKey, RequirementsJson(userInput, lastRequirements));
      isLoading := true;
      var blank := TrimsToNothing(userInput);
      if blank {
        error := Some(NoRequirements);
        isLoading := false;
        return None;
      }
      var structure;
      if manual {
        structure := if manualIsJson then ManualJson(text) else ManualText(text);
      } else {
        structure := Simplified(TransformDatabaseStructure(selection.fields));
      }
      request := Send(structure, reply);
      isLoading := false;
    }

    /** The body of the `try` past validation: send the request, then record the formula or the error. */
    method Send(structure: DatabaseStructure, reply: Fetched<FormulaReply>) returns (request: Option<FormulaRequest>)
      modifies this
      ensures request == Some(FormulaRequest(old(userInput), structure))
      ensures State() == Completion(old(State()), reply)
    {
      request := Some(FormulaRequest(userInput, structure));
      match reply {
        case FetchFailed =>
          error := Some(GenerationError);
        case Received(body) =>
          if body.ok && body.success {
            generatedFormula := body.text;
            isGenerated := true;
            showFormula := true;
          } else {
            error := Some(OrElse(body.error, GenerationFailed));
          }
      }
    }
  }
}
