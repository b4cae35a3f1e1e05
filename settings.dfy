/**
 * The "geyser:settings" document and the scaffolding-setting merge applied to the session's
 * world cache.
 */
module Settings {
  import opened Wrappers

  /** The part of the JSON tree model the merge looks at. */
  datatype Json =
    | Bool(b: bool)
    | Int(i: int)
    | Text(s: string)
    | Null
    | Object(fields: map<string, Json>)
    | OtherNode   // arrays, floating-point numbers and the other node kinds

  /** `JsonNode.get(name)`: the named child of an object node; nothing for a missing name or a non-object. */
  function Get(node: Json, name: string): (r: Option<Json>)
    ensures r.Some? <==> node.Object? && name in node.fields
    ensures r.Some? ==> r.value == node.fields[name]
  {
    if node.Object? && name in node.fields then Some(node.fields[name]) else None
  }

  /** `JsonNode.asBoolean()`: the tree model's coercion to a boolean, false by default. */
  function AsBoolean(node: Json): (b: bool)
    ensures node.Bool? ==> b == node.b
    ensures b ==> node.Bool? || node.Int? || node.Text?
  {
    match node
    case Bool(v) => v
    case Int(i) => i != 0
    case Text(s) => s == "true"
    case _ => false
  }

  const SuccessKey := "success"
  const SettingsKey := "settings"
  const ScaffoldingKey := "disable-bedrock-scaffolding"

  /** A node the translator dereferences was missing: the `NullPointerException` it does not catch. */
  datatype SettingsError = MissingNode(name: string)

  /** The document says success and carries the scaffolding entry; the setter is then called. */
  ghost predicate CarriesScaffolding(doc: Json)
  {
    && Get(doc, SuccessKey).Some? && AsBoolean(Get(doc, SuccessKey).value)
    && Get(doc, SettingsKey).Some?
    && Get(Get(doc, SettingsKey).value, ScaffoldingKey).Some?
  }

  /** The scaffolding value the document carries, when CarriesScaffolding holds. */
  ghost function Incoming(doc: Json): bool
    requires CarriesScaffolding(doc)
  {
    AsBoolean(Get(Get(doc, SettingsKey).value, ScaffoldingKey).value)
  }

  /**
   * Applying one parsed settings document, given the local configuration's value. `Success(Some(v))`:
   * the world-cache flag is set to `v`; `Success(None)`: the flag is left alone; `Failure`: a node the
   * code dereferences was absent.
   */
  function MergeSettings(doc: Json, local: bool): (r: Result<Option<bool>, SettingsError>)
    ensures r == Failure(MissingNode(SuccessKey)) <==> Get(doc, SuccessKey).None?
    ensures r == Failure(MissingNode(SettingsKey)) <==>
              Get(doc, SuccessKey).Some? && AsBoolean(Get(doc, SuccessKey).value) && Get(doc, SettingsKey).None?
    ensures r.Success? && r.value.Some? <==> CarriesScaffolding(doc)
    ensures CarriesScaffolding(doc) ==> r.value.value == (Incoming(doc) || local)
    ensures r.Failure? ==> r.error.name == SuccessKey || r.error.name == SettingsKey
  {
    match Get(doc, SuccessKey)
    case None => Failure(MissingNode(SuccessKey))
    case Some(success) =>
      if !AsBoolean(success) then Success(None)
      else
        match Get(doc, SettingsKey)
        case None => Failure(MissingNode(SettingsKey))
        case Some(settings) =>
          match Get(settings, ScaffoldingKey)
          case None => Success(None)
          case Some(v) => Success(Some(AsBoolean(v) || local))
  }

  /** The flag after applying a document to a cache holding `cached`: the previous value is not consulted. */
  function Merged(doc: Json, local: bool, cached: bool): (flag: bool)
    requires MergeSettings(doc, local).Success?
    ensures CarriesScaffolding(doc) ==> flag == (Incoming(doc) || local)
    ensures !CarriesScaffolding(doc) ==> flag == cached
  {
    match MergeSettings(doc, local).value
    case Some(v) => v
    case None => cached
  }

  /** A locally configured `true` always survives a merge, whatever the document says. */
  lemma LocalTrueWins(doc: Json, cached: bool)
    requires MergeSettings(doc, true).Success?
    requires CarriesScaffolding(doc) || cached
    ensures Merged(doc, true, cached)
  {
  }

  /** With the local configuration false, the flag follows the document's value exactly. */
  lemma LocalFalseFollowsIncoming(doc: Json, cached: bool)
    requires MergeSettings(doc, false).Success? && CarriesScaffolding(doc)
    ensures Merged(doc, false, cached) == Incoming(doc)
  {
  }

  /** A document that does not report success changes nothing, whatever its nested contents. */
  lemma UnsuccessfulIsNoOp(doc: Json, local: bool, cached: bool)
    requires Get(doc, SuccessKey).Some? && !AsBoolean(Get(doc, SuccessKey).value)
    ensures MergeSettings(doc, local) == Success(None)
    ensures Merged(doc, local, cached) == cached
  {
  }

  /**
   * The merge is not a ratchet across documents: a later document carrying `false` clears a flag that
   * an earlier document set, when the local configuration is false.
   */
  lemma LaterDocumentClears(earlier: Json, later: Json, cached: bool)
    requires MergeSettings(earlier, false).Success? && CarriesScaffolding(earlier) && Incoming(earlier)
    requires MergeSettings(later, false).Success? && CarriesScaffolding(later) && !Incoming(later)
    ensures Merged(earlier, false, cached)
    ensures !Merged(later, false, Merged(earlier, false, cached))
  {
  }

  /** A document with the two nodes the merge reads and the scaffolding entry set to `value`. */
  function Document(success: bool, value: bool): (doc: Json)
    ensures CarriesScaffolding(doc) <==> success
    ensures success ==> Incoming(doc) == value
  {
    var settings := Object(map[ScaffoldingKey := Bool(value)]);
    Object(map[SuccessKey := Bool(success), SettingsKey := settings])
  }
}
