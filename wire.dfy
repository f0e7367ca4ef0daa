/** The interchange records as far as the codec builds and reads them. Parsing
    JSON text is outside the model: a caller hands over what `JSON.parse`
    produced, either a failure message or a value. A value is `null` or
    anything else; reading a property of anything that is not `null` yields the
    field or `undefined`, so a primitive or an array arrives as a record with
    every field absent. */
module Wire {
  import opened Common
  import opened Document

  /** The result of `JSON.parse`: the message of the `SyntaxError` it throws,
      or the parsed value. */
  datatype ParseOutcome<+T> = ParseFailed(message: string) | Parsed(value: T)

  /** A field that should hold an array: `undefined` or another falsy value,
      a non-empty string (truthy, with a positive `length`, and indexable), any
      other truthy value that is not an array, or a real array. */
  datatype ArrayField<+T> = Absent | NonEmptyText | NotArray | Items(items: seq<T>)

  /** The `TypeError` message V8 gives for reading property `prop` of `null`. */
  function NullReadMessage(prop: string): string {
    "Cannot read properties of null (reading '" + prop + "')"
  }

  datatype FieldDefinition = FieldDefinition(
    name: string,
    fieldType: string,
    required: bool,
    defaultValue: string,
    description: string)

  datatype Margins = Margins(top: real, right: real, bottom: real, left: real)

  datatype Metadata = Metadata(version: Option<string>, tags: Option<seq<string>>, category: Option<string>)

  datatype Settings = Settings(pageSize: Option<string>, orientation: Option<string>, margins: Option<Margins>)

  /** The `template` member of a PDFMaker record. */
  datatype Body = Body(
    id: Option<string>,
    name: Option<string>,
    description: Option<string>,
    metadata: Option<Metadata>,
    settings: Option<Settings>,
    elements: ArrayField<Element>,
    dynamicFields: Option<seq<FieldDefinition>>)

  datatype ManifestEntry = ManifestEntry(
    id: string,
    name: string,
    description: Option<string>,
    version: string,
    category: string)

  datatype Manifest = Manifest(
    schemaVersion: string,
    manifestType: string,
    exportedAt: string,
    count: nat,
    entries: seq<ManifestEntry>)

  /** A parsed JSON value. */
  datatype Value = Null | Object(rec: Record)

  /** Every top-level property the codec reads, whichever of the accepted
      shapes the input has: a PDFMaker template (`schemaVersion`, `type`,
      `template`), a bundle (`type`, `manifest`, `templates`) or a bare
      template (`id`, `name`, `elements`, ...). */
  datatype Record = Record(
    schemaVersion: Option<string>,
    recordType: Option<string>,
    exportedAt: Option<string>,
    template: Option<Body>,
    manifest: Option<Manifest>,
    templates: ArrayField<Value>,
    id: Option<string>,
    name: Option<string>,
    description: Option<string>,
    elements: ArrayField<Element>,
    pageSize: Option<string>,
    orientation: Option<string>,
    createdAt: Option<Timestamp>,
    updatedAt: Option<Timestamp>)

  /** A record with no property set. */
  const EmptyRecord := Record(None, None, None, None, None, Absent, None, None, None, Absent, None, None, None, None)

  /** `TemplateImportResult`: keys that the source leaves out of the returned
      object are `None`. */
  datatype ImportResult = ImportResult(
    success: bool,
    template: Option<Template>,
    errors: Option<seq<string>>,
    warnings: Option<seq<string>>)

  function Failure(errors: seq<string>): ImportResult {
    ImportResult(false, None, Some(errors), None)
  }
}
