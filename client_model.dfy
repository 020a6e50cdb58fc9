/**
 * What the three client stores share: the browser's `localStorage`
 * (a map from key to stored value, where a JSON value is kept as the
 * value it encodes), the selection record stored under
 * `selectedDatabase`, and how a `fetch` to an API route ends.
 */
module ClientModel {
  import opened Wrappers

  /** An option of a select or multi-select field. */
  datatype FieldOption = FieldOption(id: string, name: string)

  /**
   * A field of the selected database, with the type-specific settings the
   * requirements store reads (`select.options`, `multi_select.options`,
   * `number.format`).
   */
  datatype FieldSpec = FieldSpec(
    name: string,
    kind: string,
    selectOptions: Option<seq<FieldOption>>,
    multiSelectOptions: Option<seq<FieldOption>>,
    numberFormat: Option<string>)

  /**
   * The selected database: `{id, title, fields}`, fields in enumeration
   * order. The sequence may repeat a key, which the source's object
   * cannot; nothing here depends on the keys being distinct.
   */
  datatype Selection = Selection(id: string, title: string, fields: seq<(string, FieldSpec)>)

  const EmptySelection: Selection := Selection("", "", [])

  /**
   * A stored value: plain text (the `user_id` and `bot_id` markers), the
   * JSON of a selection or of saved requirements, or text that
   * `JSON.parse` rejects.
   */
  datatype StoredValue =
    | Text(text: string)
    | SelectionJson(selection: Selection)
    | RequirementsJson(userInput: string, lastRequirements: Option<string>)
    | Unparsable

  /** `localStorage.getItem(key)` is truthy: present and not the empty string (JSON text never is). */
  predicate HasItem(items: map<string, StoredValue>, key: string) {
    key in items && (items[key].Text? ==> items[key].text != "")
  }

  /** The browser's `localStorage`, shared by the stores and the authorization popup. */
  class Storage {
    var items: map<string, StoredValue>

    constructor(initial: map<string, StoredValue>)
      ensures items == initial
    {
      items := initial;
    }

    /** `localStorage.setItem(key, value)`. */
    method SetItem(key: string, value: StoredValue)
      modifies this
      ensures items == old(items)[key := value]
    {
      items := items[key := value];
    }

    /** `localStorage.removeItem(key)`. */
    method RemoveItem(key: string)
      modifies this
      ensures items == old(items) - {key}
    {
      items := items - {key};
    }
  }

  /** How a `fetch` of an API route ends: it (or reading its JSON) throws, or a JSON body arrives. */
  datatype Fetched<T> = FetchFailed | Received(body: T)

  /** The `{success, ...}` an action resolves to. */
  datatype ActionResult<T> = Succeeded(value: T) | NotSucceeded
}
