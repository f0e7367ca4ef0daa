/** Importing templates from JSON text. The single-template importer accepts a
    PDFMaker record, the first template of a bundle or a bare template; the
    bundle importer imports every template of a bundle. The file reader and the
    clipboard are outside the model: their text, and what `JSON.parse` made of
    it, are parameters, and so are the fresh identifiers and the clock. */
module TemplateImporter {
  import opened Common
  import opened Document
  import opened Wire
  import opened TemplateService

  const FailedToRead := "Failed to read file"
  const BundleType := "pdfmaker-bundle"

  // ---------------------------------------------------------------------
  // importTemplateFromJSON
  // ---------------------------------------------------------------------

  /** A record that `importTemplateFromJSON` treats as a bundle. */
  predicate LooksLikeBundle(rec: Record) {
    rec.recordType == Some(BundleType) && !rec.templates.Absent?
  }

  /** A record that `importTemplateFromJSON` treats as a bare template. */
  predicate LooksLikeTemplate(rec: Record) {
    Truthy(rec.name) && !rec.elements.Absent?
  }

  /** What validation sees of a bare template, with the defaults filled in. */
  function BareShape(rec: Record, freshId: string): (c: TemplateShape)
    requires Truthy(rec.name)
    ensures c.id != "" || freshId == ""
    ensures c.name == rec.name.value && c.elements == rec.elements
  {
    TemplateShape(StrOr(rec.id, freshId), rec.name.value, rec.elements,
      StrOr(rec.pageSize, "A4"), StrOr(rec.orientation, "portrait"))
  }

  /** The template built from a bare record whose elements are an array. */
  function BareTemplate(rec: Record, freshId: string, now: Timestamp): (t: Template)
    requires Truthy(rec.name) && rec.elements.Items?
    ensures ShapeOf(t) == BareShape(rec, freshId)
    ensures t.description == Some(StrOr(rec.description, ""))
    ensures t.createdAt == rec.createdAt.GetOr(now) && t.updatedAt == rec.updatedAt.GetOr(now)
    ensures t.pages.None? && t.sourceApp.None? && t.layoutType.None?
  {
    Template(
      StrOr(rec.id, freshId), rec.name.value, Some(StrOr(rec.description, "")), rec.elements.items,
      None, None,
      StrOr(rec.pageSize, "A4"), StrOr(rec.orientation, "portrait"),
      rec.createdAt.GetOr(now), rec.updatedAt.GetOr(now), None, None, None)
  }

  /** `importTemplateFromJSON`: a PDFMaker record goes to `importFromPDFMaker`;
      otherwise the text is parsed once more and read as a bundle (its first
      template) or as a bare template, which is validated. A `SyntaxError` or a
      `TypeError` (reading a property of `null`) is reported as invalid JSON. */
  function ImportTemplateFromJSON(parsed: ParseOutcome<Value>, freshId: string, now: Timestamp): (r: ImportResult)
    ensures ParseTemplateJSON(parsed).Some? ==> r == ImportFromPDFMaker(ParseTemplateJSON(parsed).value, freshId, now)
    ensures parsed.ParseFailed? ==> r == Failure(["Invalid JSON: " + parsed.message])
    ensures parsed == Parsed(Null) ==> r == Failure(["Invalid JSON: " + NullReadMessage("type")])
  {
    match ParseTemplateJSON(parsed)
    case Some(rec) => ImportFromPDFMaker(rec, freshId, now)
    case None =>
      match parsed
      case ParseFailed(message) => Failure(["Invalid JSON: " + message])
      case Parsed(Null) => Failure(["Invalid JSON: " + NullReadMessage("type")])
      case Parsed(Object(rec)) =>
        if LooksLikeBundle(rec) then
          if rec.templates.Items? && |rec.templates.items| > 0 then
            match rec.templates.items[0]
            case Null => Failure(["Invalid JSON: " + NullReadMessage("schemaVersion")])
            case Object(first) => ImportFromPDFMaker(first, freshId, now)
          else if rec.templates.NonEmptyText? then
            // `templates[0]` is a one-character string, every property of which is `undefined`
            ImportFromPDFMaker(EmptyRecord, freshId, now)
          else Failure(["Bundle is empty"])
        else if LooksLikeTemplate(rec) then
          var errors := TemplateErrors(BareShape(rec, freshId));
          if errors != [] then Failure(errors)
          else
            ValidIffNoErrors(BareShape(rec, freshId));
            ImportResult(true, Some(BareTemplate(rec, freshId, now)), None, None)
        else Failure(["Unrecognized template format"])
  }

  /** Whatever the input, the result is either a template and no errors, or
      no template and at least one error. */
  lemma ImportResultShape(parsed: ParseOutcome<Value>, freshId: string, now: Timestamp)
    ensures var r := ImportTemplateFromJSON(parsed, freshId, now);
      (r.success ==> r.template.Some? && r.errors.None?) &&
      (!r.success ==> r.template.None? && r.errors.Some? && r.errors.value != [])
  {
    if parsed.Parsed? && parsed.value.Object? && ParseTemplateJSON(parsed).None? {
      var rec := parsed.value.rec;
      if !LooksLikeBundle(rec) && LooksLikeTemplate(rec) {
        BareImportValidated(rec, freshId, now);
      }
    }
  }

  /** A bare template is imported exactly when it passes validation, and what
      comes back passes validation again, with the defaults filled in and
      nothing else invented. */
  lemma BareImportValidated(rec: Record, freshId: string, now: Timestamp)
    requires rec.recordType != Some("pdfmaker-template") && !LooksLikeBundle(rec) && LooksLikeTemplate(rec)
    ensures var r := ImportTemplateFromJSON(Parsed(Object(rec)), freshId, now);
      (r.success <==> ShapeValid(BareShape(rec, freshId))) &&
      (!r.success ==> r.errors == Some(TemplateErrors(BareShape(rec, freshId)))) &&
      (r.success ==> r.template == Some(BareTemplate(rec, freshId, now)) && ShapeValid(ShapeOf(r.template.value)))
  {
    ValidIffNoErrors(BareShape(rec, freshId));
  }

  /** A bundle yields the import of its first template; an empty one, or a
      `templates` value that has no `length`, is refused as empty; a string
      there has a first character, which carries no template data. */
  lemma BundleFirstTemplate(rec: Record, freshId: string, now: Timestamp)
    requires rec.recordType == Some(BundleType)
    ensures var r := ImportTemplateFromJSON(Parsed(Object(rec)), freshId, now);
      (rec.templates.Items? && rec.templates.items != [] && rec.templates.items[0].Object? ==>
        r == ImportFromPDFMaker(rec.templates.items[0].rec, freshId, now)) &&
      (rec.templates == Items([]) || rec.templates.NotArray? ==> r == Failure(["Bundle is empty"])) &&
      (rec.templates.NonEmptyText? ==> r == Failure(["Missing template data"]))
  {
  }

  /** Feeding the importer the record the exporter produced is the same as
      handing that record to `importFromPDFMaker`. */
  lemma ImportExportedRecord(t: Template, options: ExportOptions, exportedAt: string, freshId: string, now: Timestamp)
    ensures ImportTemplateFromJSON(Parsed(Object(ExportForPDFMaker(t, options, exportedAt))), freshId, now)
      == ImportFromPDFMaker(ExportForPDFMaker(t, options, exportedAt), freshId, now)
  {
  }

  /** `importTemplateFromFile` once the reader has delivered `content`; an
      empty read is refused before parsing. */
  function ImportTemplateFromFile(content: string, parsed: ParseOutcome<Value>, freshId: string, now: Timestamp): (r: ImportResult)
    ensures content == "" ==> r == Failure([FailedToRead])
    ensures content != "" ==> r == ImportTemplateFromJSON(parsed, freshId, now)
  {
    if content == "" then Failure([FailedToRead]) else ImportTemplateFromJSON(parsed, freshId, now)
  }

  /** `importTemplateFromClipboard`: `None` when the clipboard cannot be read. */
  function ImportTemplateFromClipboard(text: Option<string>, parsed: ParseOutcome<Value>, freshId: string, now: Timestamp): (r: ImportResult)
    ensures text.None? ==> r == Failure(["Failed to read from clipboard"])
    ensures text.Some? ==> r == ImportTemplateFromJSON(parsed, freshId, now)
  {
    if text.None? then Failure(["Failed to read from clipboard"]) else ImportTemplateFromJSON(parsed, freshId, now)
  }

  // ---------------------------------------------------------------------
  // importTemplatesBundle
  // ---------------------------------------------------------------------

  datatype BundleResult = BundleResult(success: bool, templates: seq<Template>, errors: seq<string>)

  function BundleFailure(message: string): BundleResult {
    BundleResult(false, [], [message])
  }

  /** No entry among the first `n` is `null`. */
  predicate NoNull(entries: seq<Value>, n: nat)
    requires n <= |entries|
  {
    forall k :: 0 <= k < n ==> entries[k].Object?
  }

  /** `result.errors?.join(', ')` */
  function ErrorsText(r: ImportResult): string {
    if r.errors.Some? then Join(r.errors.value, ", ") else "undefined"
  }

  /** The outcome of importing entry `k`. */
  function EntryImport(entries: seq<Value>, k: nat, freshIds: nat -> string, nows: nat -> Timestamp): ImportResult
    requires k < |entries| && entries[k].Object?
  {
    ImportFromPDFMaker(entries[k].rec, freshIds(k), nows(k))
  }

  predicate Accepted(r: ImportResult) {
    r.success && r.template.Some?
  }

  /** The message for a refused entry `k`. */
  function EntryError(r: ImportResult, k: nat): string {
    "Template " + NatToString(k + 1) + ": " + ErrorsText(r)
  }

  /** The outcomes of importing each of the first `n` entries. */
  function EntryResults(entries: seq<Value>, n: nat, freshIds: nat -> string, nows: nat -> Timestamp): (rs: seq<ImportResult>)
    requires n <= |entries| && NoNull(entries, n)
    ensures |rs| == n && forall k :: 0 <= k < n ==> rs[k] == EntryImport(entries, k, freshIds, nows)
  {
    seq(n, k requires 0 <= k < n => EntryImport(entries, k, freshIds, nows))
  }

  /** The accepted templates among the outcomes `rs`, in order. */
  function Kept(rs: seq<ImportResult>): (ts: seq<Template>)
    ensures |ts| <= |rs|
  {
    if rs == [] then []
    else
      var r := rs[|rs| - 1];
      Kept(rs[..|rs| - 1]) + (if Accepted(r) then [r.template.value] else [])
  }

  /** The messages for the refused outcomes among `rs`, in order; outcome `k`
      is reported as entry `k + 1`. */
  function Refused(rs: seq<ImportResult>): (es: seq<string>)
    ensures |es| <= |rs|
  {
    if rs == [] then []
    else
      var r := rs[|rs| - 1];
      Refused(rs[..|rs| - 1]) + (if Accepted(r) then [] else [EntryError(r, |rs| - 1)])
  }

  /** The result for a bundle whose `templates` is the array `es`. */
  function EntriesImport(es: seq<Value>, freshIds: nat -> string, nows: nat -> Timestamp): BundleResult {
    if !NoNull(es, |es|) then BundleFailure("Parse error: " + NullReadMessage("schemaVersion"))
    else
      var rs := EntryResults(es, |es|, freshIds, nows);
      BundleResult(|Kept(rs)| > 0, Kept(rs), Refused(rs))
  }

  /** What `importTemplatesBundle` resolves with, once the reader has delivered
      `content`. Entry `k` gets the fresh id `freshIds(k)` and, since each
      `importFromPDFMaker` call reads the clock, the reading `nows(k)`. A
      `null` entry makes `importFromPDFMaker` throw, which abandons the whole
      bundle. */
  function BundleImport(content: string, parsed: ParseOutcome<Value>, freshIds: nat -> string, nows: nat -> Timestamp): BundleResult {
    if content == "" then BundleFailure(FailedToRead)
    else
      match parsed
      case ParseFailed(message) => BundleFailure("Parse error: " + message)
      case Parsed(Null) => BundleFailure("Parse error: " + NullReadMessage("type"))
      case Parsed(Object(rec)) =>
        if rec.recordType == Some(BundleType) && rec.templates.Items? then EntriesImport(rec.templates.items, freshIds, nows)
        else BundleFailure("Not a valid bundle file")
  }

  /** One more outcome adds to the templates when accepted and to the
      messages otherwise. */
  lemma ResultStep(rs: seq<ImportResult>, r: ImportResult)
    ensures Accepted(r) ==> Kept(rs + [r]) == Kept(rs) + [r.template.value] && Refused(rs + [r]) == Refused(rs)
    ensures !Accepted(r) ==> Kept(rs + [r]) == Kept(rs) && Refused(rs + [r]) == Refused(rs) + [EntryError(r, |rs|)]
  {
    var longer := rs + [r];
    assert longer != [] && longer[..|longer| - 1] == rs && longer[|longer| - 1] == r;
    assert Kept(longer) == Kept(rs) + (if Accepted(r) then [r.template.value] else []);
    assert Refused(longer) == Refused(rs) + (if Accepted(r) then [] else [EntryError(r, |rs|)]);
  }

  /** The outcomes of one more entry extend those before it. */
  lemma EntryResultsStep(entries: seq<Value>, n: nat, freshIds: nat -> string, nows: nat -> Timestamp)
    requires n < |entries| && NoNull(entries, n + 1)
    ensures EntryResults(entries, n + 1, freshIds, nows) == EntryResults(entries, n, freshIds, nows) + [EntryImport(entries, n, freshIds, nows)]
  {
  }

  /** A readable bundle record is imported entry by entry. */
  lemma BundleEntries(content: string, rec: Record, freshIds: nat -> string, nows: nat -> Timestamp)
    requires content != "" && rec.recordType == Some(BundleType) && rec.templates.Items?
    ensures BundleImport(content, Parsed(Object(rec)), freshIds, nows) == EntriesImport(rec.templates.items, freshIds, nows)
  {
  }

  /** Every outcome is accounted for exactly once: kept or refused. */
  lemma {:induction false} KeptRefusedCount(rs: seq<ImportResult>)
    ensures |Kept(rs)| + |Refused(rs)| == |rs|
    decreases |rs|
  {
    if rs != [] {
      KeptRefusedCount(rs[..|rs| - 1]);
    }
  }

  /** A property every accepted template has holds of every kept one. */
  lemma {:induction false} KeptSatisfy(rs: seq<ImportResult>, p: Template -> bool)
    requires forall k :: 0 <= k < |rs| && Accepted(rs[k]) ==> p(rs[k].template.value)
    ensures forall i :: 0 <= i < |Kept(rs)| ==> p(Kept(rs)[i])
    decreases |rs|
  {
    if rs != [] {
      var init := rs[..|rs| - 1];
      assert forall k :: 0 <= k < |init| ==> init[k] == rs[k];
      KeptSatisfy(init, p);
    }
  }

  /** Only templates with a non-empty name are kept from a bundle, and each
      carries the clock reading of the import of its own entry. */
  lemma KeptNamed(entries: seq<Value>, freshIds: nat -> string, nows: nat -> Timestamp)
    requires NoNull(entries, |entries|)
    ensures var ts := Kept(EntryResults(entries, |entries|, freshIds, nows));
      forall i :: 0 <= i < |ts| ==>
        ts[i].name != "" && exists k :: 0 <= k < |entries| && ts[i].createdAt == nows(k)
  {
    var rs := EntryResults(entries, |entries|, freshIds, nows);
    var named := (t: Template) => t.name != "" && exists k :: 0 <= k < |entries| && t.createdAt == nows(k);
    forall k | 0 <= k < |rs| && Accepted(rs[k]) ensures named(rs[k].template.value) {
      assert rs[k] == ImportFromPDFMaker(entries[k].rec, freshIds(k), nows(k));
    }
    KeptSatisfy(rs, named);
  }

  /** The bundle import succeeds exactly when some entry was kept; on success
      there are as many templates plus messages as entries. */
  lemma BundleOutcome(content: string, parsed: ParseOutcome<Value>, freshIds: nat -> string, nows: nat -> Timestamp)
    ensures var b := BundleImport(content, parsed, freshIds, nows);
      (b.success <==> b.templates != []) &&
      (b.success ==> forall i :: 0 <= i < |b.errors| ==> |b.errors[i]| >= 9 && b.errors[i][..9] == "Template ") &&
      (b.success ==>
        parsed.Parsed? && parsed.value.Object? && parsed.value.rec.templates.Items? &&
        |b.templates| + |b.errors| == |parsed.value.rec.templates.items|)
  {
    var b := BundleImport(content, parsed, freshIds, nows);
    if b.success {
      var es := parsed.value.rec.templates.items;
      var rs := EntryResults(es, |es|, freshIds, nows);
      KeptRefusedCount(rs);
      RefusedPrefix(rs);
    }
  }

  /** Every refusal message names its entry. */
  lemma {:induction false} RefusedPrefix(rs: seq<ImportResult>)
    ensures forall i :: 0 <= i < |Refused(rs)| ==> |Refused(rs)[i]| >= 9 && Refused(rs)[i][..9] == "Template "
    decreases |rs|
  {
    if rs != [] {
      RefusedPrefix(rs[..|rs| - 1]);
      EntryErrorPrefix(rs[|rs| - 1], |rs| - 1);
    }
  }

  lemma EntryErrorPrefix(r: ImportResult, k: nat)
    ensures |EntryError(r, k)| >= 9 && EntryError(r, k)[..9] == "Template "
  {
    var rest := NatToString(k + 1) + ": " + ErrorsText(r);
    assert EntryError(r, k) == "Template " + rest;
  }

  /** `importTemplatesBundle`: reading the text and dispatching on its shape. */
  method ImportTemplatesBundle(content: string, parsed: ParseOutcome<Value>, freshIds: nat -> string, nows: nat -> Timestamp)
    returns (success: bool, templates: seq<Template>, errors: seq<string>)
    ensures BundleResult(success, templates, errors) == BundleImport(content, parsed, freshIds, nows)
  {
    if content == "" {
      return false, [], [FailedToRead];
    }
    if parsed.ParseFailed? {
      return false, [], ["Parse error: " + parsed.message];
    }
    if parsed.value.Null? {
      return false, [], ["Parse error: " + NullReadMessage("type")];
    }
    var rec := parsed.value.rec;
    if !(rec.recordType == Some(BundleType) && rec.templates.Items?) {
      return false, [], ["Not a valid bundle file"];
    }
    success, templates, errors := ImportEntries(rec.templates.items, freshIds, nows);
  }

  /** The `forEach` over the entries of a bundle, pushing each accepted
      template or the message for a refused one; a `null` entry throws. */
  method ImportEntries(entries: seq<Value>, freshIds: nat -> string, nows: nat -> Timestamp)
    returns (success: bool, templates: seq<Template>, errors: seq<string>)
    ensures BundleResult(success, templates, errors) == EntriesImport(entries, freshIds, nows)
  {
    templates, errors := [], [];
    for index := 0 to |entries|
      invariant NoNull(entries, index)
      invariant templates == Kept(EntryResults(entries, index, freshIds, nows))
      invariant errors == Refused(EntryResults(entries, index, freshIds, nows))
    {
      if entries[index].Null? {
        return false, [], ["Parse error: " + NullReadMessage("schemaVersion")];
      }
      var result := EntryImport(entries, index, freshIds, nows);
      EntryResultsStep(entries, index, freshIds, nows);
      ResultStep(EntryResults(entries, index, freshIds, nows), result);
      if Accepted(result) {
        templates := templates + [result.template.value];
      } else {
        errors := errors + [EntryError(result, index)];
      }
    }
    success := |templates| > 0;
  }
}
