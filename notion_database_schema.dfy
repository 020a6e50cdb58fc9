/**
 * The database-schema handler (server/api/notion-database-schema.ts):
 * the user's token, then the database retrieved from Notion, its
 * properties annotated with display metadata per property type and its
 * title with a fallback. Icons and colour classes are opaque constants.
 */
module NotionDatabaseSchema {
  import opened Wrappers
  import opened JsText
  import opened NotionApi

  const DatabaseIdRequired: string := "Database ID is required"
  const SchemaFetchFailed: string := "Failed to fetch database schema"

  /** A select, multi-select or status option as Notion returns it. */
  datatype RawOption = RawOption(name: string, color: Option<string>)

  /**
   * A database property as Notion returns it: its id, its type and the
   * type-specific settings the handler reads.
   */
  datatype RawProperty = RawProperty(
    id: string,
    kind: string,
    numberFormat: Option<string>,
    selectOptions: Option<seq<RawOption>>,
    multiSelectOptions: Option<seq<RawOption>>,
    statusOptions: Option<seq<RawOption>>,
    formulaExpression: Option<string>,
    relationDatabaseId: Option<string>,
    rollupFunction: Option<string>)

  /** A retrieved database: id, title and properties in enumeration order. */
  datatype RawDatabase = RawDatabase(id: string, title: Option<seq<RichText>>, properties: seq<(string, RawProperty)>)

  /** An option with its colour class. */
  datatype ColoredOption = ColoredOption(name: string, color: string)

  /** The type-specific attribute a property carries, if any. */
  datatype Detail =
    | Plain
    | Format(format: Option<string>)
    | Options(options: seq<ColoredOption>)
    | Expression(expression: Option<string>)
    | RelatedDatabase(databaseId: Option<string>)
    | RollupFunction(rollup: Option<string>)

  /** A property as the handler returns it. */
  datatype PropertyView = PropertyView(
    name: string, kind: string, id: string,
    description: Option<string>, icon: string, bgColor: string, detail: Detail)

  /** The handler's JSON. */
  datatype SchemaResponse =
    | Schema(id: string, title: string, properties: seq<PropertyView>)
    | SchemaFailed(error: string)

  /** The colour classes of the known Notion colours. */
  const ColorClasses: map<string, string> := map[
    "default" := "bg-gray-100 text-gray-800",
    "gray" := "bg-gray-100 text-gray-800",
    "brown" := "bg-amber-100 text-amber-800",
    "orange" := "bg-orange-100 text-orange-800",
    "yellow" := "bg-yellow-100 text-yellow-800",
    "green" := "bg-green-100 text-green-800",
    "blue" := "bg-blue-100 text-blue-800",
    "purple" := "bg-purple-100 text-purple-800",
    "pink" := "bg-pink-100 text-pink-800",
    "red" := "bg-red-100 text-red-800"]

  /** `getColorClass`: the class of a known colour, the default class otherwise. */
  function ColorClass(color: Option<string>): (c: string)
    ensures Truthy(color) && color.value in ColorClasses ==> c == ColorClasses[color.value]
    ensures !(Truthy(color) && color.value in ColorClasses) ==> c == ColorClasses["default"]
    ensures c in ColorClasses.Values
  {
    var key := OrElse(color, "default");
    if key in ColorClasses then ColorClasses[key] else ColorClasses["default"]
  }

  /** Each option keeps its name and gets its colour class, in order. */
  function ColorOptions(options: seq<RawOption>): (r: seq<ColoredOption>)
    ensures |r| == |options|
    ensures forall i :: 0 <= i < |r| ==> r[i] == ColoredOption(options[i].name, ColorClass(options[i].color))
  {
    if options == [] then []
    else [ColoredOption(options[0].name, ColorClass(options[0].color))] + ColorOptions(options[1..])
  }

  /** `options?.map(...) || []`. */
  function OptionsOf(options: Option<seq<RawOption>>): seq<ColoredOption> {
    match options
    case None => []
    case Some(list) => ColorOptions(list)
  }

  /** The property types the handler knows. */
  const KnownKinds: set<string> := {
    "title", "rich_text", "number", "select", "multi_select", "date", "people", "files",
    "checkbox", "url", "email", "phone_number", "formula", "relation", "rollup",
    "created_time", "created_by", "last_edited_time", "last_edited_by", "status"}

  /** The `switch` on the property type. */
  function Annotate(name: string, p: RawProperty): (v: PropertyView)
    ensures v.name == name && v.kind == p.kind && v.id == p.id
    ensures p.kind !in KnownKinds ==> v.icon == "❓" && v.bgColor == "bg-gray-50" && v.description == None && v.detail == Plain
    ensures p.kind == "select" ==> v.detail == Options(OptionsOf(p.selectOptions))
    ensures p.kind == "multi_select" ==> v.detail == Options(OptionsOf(p.multiSelectOptions))
    ensures p.kind == "status" ==> v.detail == Options(OptionsOf(p.statusOptions))
    ensures p.kind == "number" ==>
      v.detail == Format(p.numberFormat)
      && v.description == Some(if Truthy(p.numberFormat) then "Number (" + p.numberFormat.value + ")" else "Numeric value")
    ensures p.kind == "formula" ==>
      v.detail == Expression(p.formulaExpression) && v.description == Some("Formula: " + OrElse(p.formulaExpression, ""))
    ensures v.detail.Options? <==> p.kind in {"select", "multi_select", "status"}
    ensures p.kind == "relation" ==> v.detail == RelatedDatabase(p.relationDatabaseId)
    ensures p.kind == "rollup" ==> v.detail == RollupFunction(p.rollupFunction)
  {
    var base := (d: Option<string>, icon: string, bg: string, detail: Detail) => PropertyView(name, p.kind, p.id, d, icon, bg, detail);
    match p.kind
    case "title" => base(Some("The primary field for your database"), "T", "bg-blue-50", Plain)
    case "rich_text" => base(Some("Text content with formatting"), "📝", "bg-gray-50", Plain)
    case "number" =>
      var description := if Truthy(p.numberFormat) then "Number (" + p.numberFormat.value + ")" else "Numeric value";
      base(Some(description), "#", "bg-emerald-50", Format(p.numberFormat))
    case "select" => base(Some("Select from a list of options"), "≡", "bg-purple-50", Options(OptionsOf(p.selectOptions)))
    case "multi_select" =>
      base(Some("Select multiple options from a list"), "≡≡", "bg-purple-50", Options(OptionsOf(p.multiSelectOptions)))
    case "date" => base(Some("Date value, optionally with time"), "📅", "bg-amber-50", Plain)
    case "people" => base(None, "👤", "bg-pink-50", Plain)
    case "files" => base(Some("Files and attachments"), "📎", "bg-gray-50", Plain)
    case "checkbox" => base(Some("True/false value"), "☑", "bg-green-50", Plain)
    case "url" => base(Some("Web URL"), "🔗", "bg-sky-50", Plain)
    case "email" => base(Some("Email address"), "✉️", "bg-sky-50", Plain)
    case "phone_number" => base(Some("Phone number"), "📞", "bg-sky-50", Plain)
    case "formula" =>
      base(Some("Formula: " + OrElse(p.formulaExpression, "")), "𝑓x", "bg-yellow-50", Expression(p.formulaExpression))
    case "relation" => base(Some("Relation to another database"), "🔄", "bg-indigo-50", RelatedDatabase(p.relationDatabaseId))
    case "rollup" => base(None, "∑", "bg-orange-50", RollupFunction(p.rollupFunction))
    case "created_time" => base(None, "🕒", "bg-amber-50", Plain)
    case "created_by" => base(None, "👤", "bg-pink-50", Plain)
    case "last_edited_time" => base(None, "🕒", "bg-amber-50", Plain)
    case "last_edited_by" => base(None, "👤", "bg-pink-50", Plain)
    case "status" => base(Some("Status of the item"), "🏷️", "bg-purple-50", Options(OptionsOf(p.statusOptions)))
    case _ => base(None, "❓", "bg-gray-50", Plain)
  }

  /** The fallback icon marks exactly the properties of an unknown type. */
  lemma FallbackIconIffUnknown(name: string, p: RawProperty)
    ensures Annotate(name, p).icon == "❓" <==> p.kind !in KnownKinds
  {
  }

  /** `Object.entries(database.properties).map(...)`: one view per property, in order. */
  function Properties(entries: seq<(string, RawProperty)>): (r: seq<PropertyView>)
    ensures |r| == |entries|
    ensures forall i :: 0 <= i < |r| ==>
      r[i] == Annotate(entries[i].0, entries[i].1)
      && r[i].name == entries[i].0 && r[i].kind == entries[i].1.kind && r[i].id == entries[i].1.id
  {
    if entries == [] then []
    else [Annotate(entries[0].0, entries[0].1)] + Properties(entries[1..])
  }

  /** The handler for `?databaseId=&userId=`, given how the token lookup and the retrieval end. */
  function DatabaseSchema(databaseId: Option<string>, lookup: TokenLookup, reply: NotionReply<RawDatabase>)
    : (h: Handled<SchemaResponse>)
    ensures !Truthy(databaseId) ==> h == Handled(SchemaFailed(DatabaseIdRequired), false, None)
    ensures h.lookedUp <==> Truthy(databaseId)
    ensures h.lookedUp && lookup == LookupFailed ==> h.response == SchemaFailed(TokenUnavailable) && h.call == None
    ensures h.call.Some? <==> h.lookedUp && lookup.Token?
    ensures h.call.Some? ==> h.call.value == Retrieve(lookup.accessToken, databaseId.value)
    ensures h.response.Schema? <==> h.call.Some? && reply.NotionOk?
    ensures h.response.Schema? ==>
      h.response == Schema(reply.value.id, TitleOf(reply.value.title), Properties(reply.value.properties))
    ensures h.lookedUp && h.response.SchemaFailed? && h.response.error != TokenUnavailable ==> h.response.error == SchemaFetchFailed
    // a client that cannot be created, or a Notion call that throws, is answered with the catch's message
    ensures h.lookedUp && lookup == ClientUnavailable ==> h.response == SchemaFailed(SchemaFetchFailed) && h.call == None
    ensures h.call.Some? && reply == NotionThrew ==> h.response == SchemaFailed(SchemaFetchFailed)
  {
    if !Truthy(databaseId) then Handled(SchemaFailed(DatabaseIdRequired), false, None)
    else
      match lookup
      case ClientUnavailable => Handled(SchemaFailed(SchemaFetchFailed), true, None)
      case LookupFailed => Handled(SchemaFailed(TokenUnavailable), true, None)
      case Token(token) =>
        var call := Some(Retrieve(token, databaseId.value));
        match reply
        case NotionThrew => Handled(SchemaFailed(SchemaFetchFailed), true, call)
        case NotionOk(db) => Handled(Schema(db.id, TitleOf(db.title), Properties(db.properties)), true, call)
  }
}
