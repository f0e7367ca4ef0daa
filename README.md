# Document Weaver Pro: a verified model of the template editor core

This project models, in Dafny, the core of the Document Weaver Pro template
editor and proves properties of that model. The core covers the following.

- **The editor engine** (`useEditorState`). A template is a list of positioned
  elements spread over one or more pages. The engine edits it one operation at
  a time. Every structural edit first pushes a snapshot onto a bounded undo
  stack. Undo and redo move whole snapshots between the two stacks.
  `EditorState.Editor` is a class whose fields are the session, the two stacks,
  the saved templates and the drawing paths. Every method states the whole new
  state. The stack discipline lives in the pure module `UndoHistory`.
  `EditorOps` holds the pure rules the methods apply: element defaults, moves,
  page bookkeeping and find-and-replace.
- **The interchange codec** (`templateService`, `templateImporter`,
  `templateExporter`). It exports a template as a PDFMaker record and builds
  bundles with a manifest. It imports a PDFMaker record, the first entry of a
  bundle, a bare template or a whole bundle. It validates template shapes,
  extracts `{{field}}` placeholders as dynamic fields and sanitises file names.
- **The storage envelope** (`templateStorage`). The templates are kept as one
  versioned envelope under a single `localStorage` key. The envelope supports
  upsert, delete, clear and a merging import. `TemplateStorage.LocalStore` is
  a class holding the stored item.
- **The small rules inside the editor components**:
  - dragging and resizing an element on the canvas;
  - the eraser and stroke capture of the drawing layer;
  - gradient stops;
  - the layers list;
  - style presets;
  - keywords and permissions in the document properties dialog;
  - integration tokens;
  - the page geometry of the canvas and the preview;
  - roving keyboard focus;
  - the task board of the specification page.

## How the program's environment appears in the model

Some inputs come from outside the program. They are parameters of the
operation that uses them.

- **Fresh identifiers.** `uuidv4()` and `generateTemplateId()` become
  parameters: `freshId`, `id`, or `nat -> string` when one call draws
  several.
- **The clock.** `new Date()` becomes a `Timestamp`, and `Date.now()` becomes
  a `nat` of milliseconds.
- **Parsed JSON.** `JSON.parse` is not modelled. Its result is a
  `ParseOutcome`: either `ParseFailed(message)` or `Parsed(value)`. A value is
  `null` or a record of optional fields. Reading a field of `null` fails with
  the message V8 gives for that read. An array field is absent, present but
  not an array, or a sequence of items.
- **Storage.** What `localStorage.getItem` returns is an `Option` of the
  stored envelope.
- **Optional values.** JavaScript `undefined` is `None`. Where the source
  tests an optional string or flag for truthiness, the model does too:
  `Some("")` is falsy, and so are `None` and `Some(false)`. An optional
  object (a position, a gradient, a permissions map, a path in progress) is
  truthy exactly when present, so `Some?` tests it.

Integers are unbounded and coordinates are reals. Nothing in the core relies
on fixed-width arithmetic.

## Model

| member | source | states |
|---|---|---|
| UndoHistory.LastN | src/hooks/useEditorState.ts:109 | `slice(-n)` keeps the last `min(n, length)` items, as a suffix of the input |
| UndoHistory.Push | src/hooks/useEditorState.ts:106-112 | pushing a snapshot keeps the present, clears redo, caps undo at 20 and puts the present on top |
| UndoHistory.Undo | src/hooks/useEditorState.ts:114-125 | undo with an empty stack changes nothing; otherwise it pops the top snapshot into the present and moves the old present onto redo |
| UndoHistory.Redo | src/hooks/useEditorState.ts:127-138 | redo with an empty stack changes nothing; otherwise it pops redo into the present and pushes the old present onto undo |
| UndoHistory.BoundedInvariant | src/hooks/useEditorState.ts:106-138 | undo plus redo never exceeds 20 snapshots under push, edit, undo and redo; undo and redo preserve the total |
| UndoHistory.UndoRedoInverse | src/hooks/useEditorState.ts:114-138 | redo after undo, and undo after redo, restore the exact history when the stack used was not empty |
| UndoHistory.UndoAfterEdit | src/hooks/useEditorState.ts:106-125 | undoing a pushed edit restores the previous present and leaves the edit alone on the redo stack |
| UndoHistory.PushEdit | src/hooks/useEditorState.ts:106-112 | one edit after a push appends the old present to the capped undo stack and empties redo |
| UndoHistory.ApplyEditsPresent | src/hooks/useEditorState.ts:106-112 | after a series of pushed edits the present is the last edit and redo is empty |
| UndoHistory.ApplyEditsShape | src/hooks/useEditorState.ts:106-112 | after a series of pushed edits, undo is the last 20 of the old stack, the old present and all edits but the last |
| UndoHistory.LastNTail | src/hooks/useEditorState.ts:109 | capping twice with appends in between equals capping once at the end |
| UndoHistory.UndoTimesPops | src/hooks/useEditorState.ts:114-125 | k undos bring back the k-th snapshot from the top |
| UndoHistory.RedoTimesAfterUndoTimes | src/hooks/useEditorState.ts:114-138 | k redos after k undos restore the whole history, stacks included, when the undo stack held at least k snapshots |
| UndoHistory.MultiUndoRestores | src/hooks/useEditorState.ts:106-125 | after up to 20 pushed edits, the same number of undos brings back the state before the first edit |
| EditorOps.ClampZoom | src/hooks/useEditorState.ts:318-320 | the zoom is kept within 25 to 200; values inside are unchanged, values outside go to the nearer bound |
| EditorOps.DefaultTemplate | src/hooks/useEditorState.ts:49-79 | a new template has one page named "Page 1" with page index 0, no elements, and A4 portrait format |
| EditorOps.DefaultPresentation | src/hooks/useEditorState.ts:372-387 | a new presentation is the default template turned into a landscape Letter presentation |
| EditorOps.InitialSession | src/hooks/useEditorState.ts:82-98 | the initial zoom is within range and nothing is selected |
| EditorOps.EmptyTable | src/hooks/useEditorState.ts:156-162 | a new table is a well-shaped 3 by 3 grid of empty cells |
| EditorOps.NewElement | src/hooks/useEditorState.ts:140-178 | a new element gets its type's default size, content and position; it has table data only if it is a table, a form field only for `form-` types and an annotation only for `annotation-` types (a stamp gets a stamp type); it starts visible and unlocked |
| EditorOps.DuplicateOf | src/hooks/useEditorState.ts:220-243 | a duplicate is the element under a new id, shifted by (20, 20); an element without a position makes no copy |
| EditorOps.MoveToFront | src/hooks/useEditorState.ts:276-295 | bring-to-front fails only when the id is absent; otherwise the first element with the id, the one `find` returns, is moved last and the elements without the id keep their order |
| EditorOps.MoveToBack | src/hooks/useEditorState.ts:297-316 | send-to-back fails only when the id is absent; otherwise the first element with the id, the one `find` returns, is moved first and the elements without the id keep their order |
| EditorOps.MovesPermute | src/hooks/useEditorState.ts:276-316 | with a unique id, both moves permute the elements |
| EditorOps.MovesDropDuplicates | src/hooks/useEditorState.ts:281-290 | with repeated ids, bring-to-front keeps one element with that id and drops the rest |
| EditorOps.NextRotation | src/hooks/useEditorState.ts:514-534 | rotation steps through 0, 90, 180 and 270; an unknown angle restarts at 0 |
| EditorOps.FourRotations | src/hooks/useEditorState.ts:514-534 | four rotations bring a page back to its angle |
| EditorOps.PageIndexAfterDelete | src/hooks/useEditorState.ts:422 | the page index after a delete is the old index clamped to the last remaining page |
| EditorOps.DeletePageKeepsOne | src/hooks/useEditorState.ts:411-434 | deleting one of two or more distinct pages leaves at least one page and an index inside the page list |
| EditorOps.AtMostOneWithId | src/hooks/useEditorState.ts:420-421 | with distinct ids at most one page matches a given id |
| EditorOps.CopyPage | src/hooks/useEditorState.ts:445-450 | a copied page gets the new id and " (Copy)" after its name; every element gets a fresh id and is otherwise unchanged |
| EditorOps.PatchWhere | src/hooks/useEditorState.ts:193-205 | the update applies to exactly the elements with that id; the rest are untouched |
| EditorOps.PatchWhereIdempotent | src/hooks/useEditorState.ts:193-205 | applying the same update twice changes nothing more |
| EditorOps.RenamePages | src/hooks/useEditorState.ts:497-512 | renaming changes the name of exactly the pages with the id |
| EditorOps.RotatePages | src/hooks/useEditorState.ts:514-534 | rotating advances the angle of exactly the pages with the id |
| EditorOps.RotateFourTimes | src/hooks/useEditorState.ts:514-534 | four rotations of a page list change nothing but making the matching page's angle explicit |
| EditorOps.ReplaceInElement | src/hooks/useEditorState.ts:642-649 | an element whose content contains the text gets every occurrence replaced; any other element is unchanged |
| EditorOps.ReplaceInElements | src/hooks/useEditorState.ts:638-651 | find-and-replace maps the replacement over every element |
| EditorOps.HitCount | src/hooks/useEditorState.ts:645 | the count of elements touched is at most the number of elements |
| EditorOps.NoHitsNoChange | src/hooks/useEditorState.ts:632-661 | when no element contains the text, find-and-replace leaves the elements as they were |
| EditorState.WithElements | src/hooks/useEditorState.ts:182-186 | a current template gets the new elements and update time; without one there is still none |
| EditorState.ReplaceEach | src/hooks/useEditorState.ts:638-651 | the loop produces the replaced elements and the number of elements it touched |
| EditorState.Editor.constructor | src/hooks/useEditorState.ts:82-101 | the engine starts from the initial session with empty stacks, no saved templates and no drawing |
| EditorState.Editor.PushUndo | src/hooks/useEditorState.ts:106-112 | the current session goes onto the capped undo stack and redo is cleared; the session is unchanged |
| EditorState.Editor.Commit | src/hooks/useEditorState.ts:106-112 | pushes a snapshot, then replaces the current template |
| EditorState.Editor.Undo | src/hooks/useEditorState.ts:114-125 | the stacks and session follow `UndoHistory.Undo`; saved templates and drawings are kept |
| EditorState.Editor.Redo | src/hooks/useEditorState.ts:127-138 | the stacks and session follow `UndoHistory.Redo`; saved templates and drawings are kept |
| EditorState.Editor.AddElement | src/hooks/useEditorState.ts:140-191 | after a snapshot, the new element is appended and selected, and is returned; with a fresh id, `selectedElement` is then that element, and with no template it is none |
| EditorState.Editor.UpdateElement | src/hooks/useEditorState.ts:193-205 | after a snapshot, the update is applied to the elements with the id |
| EditorState.Editor.DeleteElement | src/hooks/useEditorState.ts:207-218 | after a snapshot, the elements with the id are removed and the selection is cleared if it was that id |
| EditorState.Editor.DuplicateElement | src/hooks/useEditorState.ts:220-243 | an unknown id changes nothing; otherwise a snapshot is pushed and, when the element has a position, its shifted copy is appended and selected |
| EditorState.Editor.SelectElement | src/hooks/useEditorState.ts:245-247 | only the selection changes |
| EditorState.Editor.ReorderElement | src/hooks/useEditorState.ts:250-273 | after a snapshot, "up" swaps the element with the next one and "down" with the previous one; at either end nothing else changes |
| EditorState.Editor.BringToFront | src/hooks/useEditorState.ts:276-295 | after a snapshot, the elements become `MoveToFront`'s result when the id is present |
| EditorState.Editor.SendToBack | src/hooks/useEditorState.ts:297-316 | after a snapshot, the elements become `MoveToBack`'s result when the id is present |
| EditorState.Editor.SetZoom | src/hooks/useEditorState.ts:318-320 | only the zoom changes, to the clamped value |
| EditorState.Editor.ToggleGrid | src/hooks/useEditorState.ts:322-324 | only the grid flag changes, to its negation |
| EditorState.Editor.ToggleSnapToGrid | src/hooks/useEditorState.ts:326-328 | only the snap flag changes, to its negation |
| EditorState.Editor.UpdateTemplateName | src/hooks/useEditorState.ts:330-339 | renames the current template without a snapshot |
| EditorState.Editor.SaveTemplate | src/hooks/useEditorState.ts:341-354 | the current template is upserted into the saved list by id; the session is unchanged |
| EditorState.Editor.LoadTemplate | src/hooks/useEditorState.ts:356-362 | the template becomes current and the selection is cleared |
| EditorState.Editor.CreateNewTemplate | src/hooks/useEditorState.ts:364-370 | a default template becomes current and the selection is cleared |
| EditorState.Editor.CreateNewPresentation | src/hooks/useEditorState.ts:372-387 | a default presentation becomes current and the selection is cleared |
| EditorState.Editor.AddPage | src/hooks/useEditorState.ts:390-409 | after a snapshot, a page named "Page n+1" is appended and becomes the current page, so `currentPage` is that new page |
| EditorState.Editor.DeletePage | src/hooks/useEditorState.ts:411-434 | deleting the last page is refused; otherwise the pages with the id are removed and the index is clamped |
| EditorState.Editor.DuplicatePage | src/hooks/useEditorState.ts:436-469 | after a snapshot, the copy is inserted right after the page and becomes current, so `currentPage` is the copy |
| EditorState.Editor.ReorderPage | src/hooks/useEditorState.ts:471-495 | after a snapshot, "up" swaps the page with the previous one and "down" with the next one, and the moved page becomes current |
| EditorState.Editor.RenamePage | src/hooks/useEditorState.ts:497-512 | renames the pages with the id without a snapshot |
| EditorState.Editor.RotatePage | src/hooks/useEditorState.ts:514-534 | after a snapshot, advances the rotation of the pages with the id |
| EditorState.Editor.SelectPage | src/hooks/useEditorState.ts:536-552 | a known page becomes current and the element selection is cleared, so `currentPage` is the first page with the id and `selectedElement` is none |
| EditorState.Editor.CurrentPage | src/hooks/useEditorState.ts:104 | the current page is the page at the stored index, or 0 when none is stored; there is one exactly when the template has pages and that index lies inside them |
| EditorState.Editor.ToggleDrawingMode | src/hooks/useEditorState.ts:555-561 | flips drawing mode and clears the selection |
| EditorState.Editor.SetDrawingTool | src/hooks/useEditorState.ts:563-565 | only the tool changes |
| EditorState.Editor.SetDrawingColor | src/hooks/useEditorState.ts:567-569 | only the colour changes |
| EditorState.Editor.SetDrawingWidth | src/hooks/useEditorState.ts:571-573 | only the width changes |
| EditorState.Editor.SetDrawingPaths | src/hooks/useEditorState.ts:101 | only the drawing paths change |
| EditorState.Editor.ClearDrawings | src/hooks/useEditorState.ts:575-577 | the drawing paths become empty |
| EditorState.Editor.UpdateDocumentProperties | src/hooks/useEditorState.ts:580-589 | the current template gets the new properties without a snapshot |
| EditorState.Editor.SetActivePanel | src/hooks/useEditorState.ts:592-594 | only the active panel changes |
| EditorState.Editor.SelectedElement | src/hooks/useEditorState.ts:596-598 | with no selection nothing is found; otherwise an element is found exactly when one carries the selected id, and it is the first such element |
| EditorState.Editor.CopyStyle | src/hooks/useEditorState.ts:600-609 | the style of the element with the id is remembered; an unknown id changes nothing |
| EditorState.Editor.PasteStyle | src/hooks/useEditorState.ts:611-618 | with a copied style, a snapshot is pushed and the style is set on the elements with the id; otherwise nothing changes |
| EditorState.Editor.ApplyStylePreset | src/hooks/useEditorState.ts:620-630 | with a selected element that exists, a snapshot is pushed and the preset is merged over its style; otherwise nothing changes |
| EditorState.Editor.FindAndReplace | src/hooks/useEditorState.ts:632-661 | an empty search or no template changes nothing; otherwise every occurrence is replaced without a snapshot; the method's result is the number the source's toast reports, the count of elements touched |
| Document.PatchLaws | src/hooks/useEditorState.ts:193-205 | an empty update is the identity and an update is idempotent; the style, the form field and the annotation are replaced when the update names them and kept otherwise, and the id is kept when the update does not name it |
| Document.TypeNameRoundTrip | src/types/editor.ts:2-17 | every element type's name parses back to that type |
| Document.TypeNameInjective | src/types/editor.ts:2-17 | distinct element types have distinct names |
| Document.DefaultSize | src/hooks/useEditorState.ts:18-47 | every default element size is positive in both dimensions |
| Document.FormPrefix | src/hooks/useEditorState.ts:167 | `startsWith('form-')` holds for exactly the five form types |
| Document.AnnotationPrefix | src/hooks/useEditorState.ts:172 | `startsWith('annotation-')` holds for exactly the four annotation types |
| Document.TypePrefixes | src/hooks/useEditorState.ts:167-177 | no element type gets both a form field and an annotation |
| TemplateService.FirstClose | src/lib/templateService.ts:49 | `[^}]+` stops at the first closing brace |
| TemplateService.MatchAt | src/lib/templateService.ts:49 | a match found at a position is a real `{{...}}` occurrence there |
| TemplateService.MatchAtComplete | src/lib/templateService.ts:49 | every occurrence at a position is found there |
| TemplateService.NextMatch | src/lib/templateService.ts:49-51 | the next match lies past the scan position and within the text |
| TemplateService.NextMatchSound | src/lib/templateService.ts:49-51 | the next match is a real occurrence |
| TemplateService.NextMatchLeftmost | src/lib/templateService.ts:49-51 | no occurrence begins before the match that was found |
| TemplateService.NoBraceNoPlaceholders | src/lib/templateService.ts:48-64 | content without `{` has no placeholders |
| TemplateService.PlaceholderRecognised | src/lib/templateService.ts:49-52 | `{{x}}` with a brace-free `x` yields exactly the trimmed `x` |
| TemplateService.WholeMatch | src/lib/templateService.ts:49 | `{{x}}` matches as a whole |
| TemplateService.FieldDef | src/lib/templateService.ts:37-43 | a field definition has the given name and description, type string, not required and an empty default |
| TemplateService.FirstIndexOfFirst | src/lib/templateService.ts:35 | the lookup finds the first field with the name, or -1 exactly when there is none |
| TemplateService.Described | src/lib/templateService.ts:55-61 | each extracted name becomes one field definition with the element's description |
| TemplateService.Candidates | src/lib/templateService.ts:32-65 | every candidate field has the fixed attributes |
| TemplateService.DedupUnique | src/lib/templateService.ts:30-36 | keeping first occurrences gives distinct names, none of them seen before |
| TemplateService.DedupNames | src/lib/templateService.ts:30-36 | the names kept are the candidates' names minus those already seen |
| TemplateService.DedupKeptFirst | src/lib/templateService.ts:35-36 | each kept field is the first candidate with its name |
| TemplateService.DedupKeptInOrder | src/lib/templateService.ts:32-65 | the kept fields appear in the order of the candidates |
| TemplateService.DynamicFieldsProperties | src/lib/templateService.ts:28-68 | the extracted fields have distinct names, cover every candidate name, have the fixed attributes, and are each candidate name's first occurrence, in order |
| TemplateService.OwnFieldFirst | src/lib/templateService.ts:34-43 | a dynamic-field element's own field comes first, described by the element's id |
| TemplateService.Offer | src/lib/templateService.ts:35-44 | offering one field keeps the list and the name set in step with the first-occurrence rule |
| TemplateService.ScanContent | src/lib/templateService.ts:49-63 | the `exec` loop finds exactly the placeholders of the content, in order |
| TemplateService.OfferAll | src/lib/templateService.ts:51-63 | offering every placeholder name keeps the list and the name set in step |
| TemplateService.ExtractDynamicFields | src/lib/templateService.ts:28-68 | the imperative extraction returns the de-duplicated candidate fields |
| TemplateService.CreateDefaultSettings | src/lib/templateService.ts:91-97 | the settings carry the template's page size and orientation with 20 mm margins |
| TemplateService.ExportForPDFMaker | src/lib/templateService.ts:102-138 | the record is typed `pdfmaker-template` with the schema version given or 1.0; it has the template's id, name, description and elements, default settings, metadata as chosen, and dynamic fields unless turned off |
| TemplateService.ImportFromPDFMaker | src/lib/templateService.ts:143-185 | a missing body fails; otherwise a missing version warns; success holds exactly when the name is truthy and the elements are an array; failures list each problem; success builds the template with the defaults filled in |
| TemplateService.ImportExportRoundTrip | src/lib/templateService.ts:102-185 | importing an export succeeds exactly when the name is non-empty and gives back the id, name, description, elements and page format, with blanks filled by their defaults |
| TemplateService.ExportImportExport | src/lib/templateService.ts:102-185 | for a complete template, export, import and export again give the same record apart from the export time |
| TemplateService.ElementErrors | src/lib/templateService.ts:204-217 | an element produces one error per missing id, type, position or size |
| TemplateService.ElementsErrorsCount | src/lib/templateService.ts:204-217 | the element errors count the missing attributes and vanish exactly when every element is complete |
| TemplateService.ErrorsCountViolations | src/lib/templateService.ts:190-231 | validation reports exactly one error per violated rule |
| TemplateService.ValidIffNoErrors | src/lib/templateService.ts:190-231 | there are no errors exactly when the shape satisfies every rule |
| TemplateService.CheckElement | src/lib/templateService.ts:205-216 | the per-element checks produce the element's errors |
| TemplateService.CheckElements | src/lib/templateService.ts:204-217 | the `forEach` produces the errors of all elements in order |
| TemplateService.CheckFormat | src/lib/templateService.ts:220-228 | the page size and orientation checks produce their errors |
| TemplateService.ValidateTemplate | src/lib/templateService.ts:190-231 | the imperative validation returns the specified errors and is valid exactly when the shape is |
| TemplateService.CreateTemplateManifest | src/lib/templateService.ts:236-252 | the manifest counts the templates and lists each one's id, name, description, version 1.0.0 and category |
| TemplateService.ParseTemplateJSON | src/lib/templateService.ts:267-277 | a record is returned exactly when parsing succeeded and gave an object typed `pdfmaker-template` |
| TemplateImporter.BareShape | src/lib/templateImporter.ts:56-65 | a bare template keeps its name and elements and gets an id |
| TemplateImporter.BareTemplate | src/lib/templateImporter.ts:56-65 | a bare template gets an empty description by default and the given or current times |
| TemplateImporter.ImportTemplateFromJSON | src/lib/templateImporter.ts:33-82 | a PDFMaker record is imported as such; a parse failure reports "Invalid JSON" with the message; `null` fails as reading `type` of null does |
| TemplateImporter.ImportResultShape | src/lib/templateImporter.ts:33-82 | every result is either a success with a template and no errors, or a failure with a non-empty error list and no template |
| TemplateImporter.BareImportValidated | src/lib/templateImporter.ts:54-73 | a bare template is accepted exactly when validation passes, and otherwise fails with validation's errors |
| TemplateImporter.BundleFirstTemplate | src/lib/templateImporter.ts:45-52 | a bundle imports its first entry; it fails as empty when it has no entries or its `templates` is not an array, and with "Missing template data" when `templates` is a non-empty string |
| TemplateImporter.ImportExportedRecord | src/lib/templateImporter.ts:35-39 | an exported record is imported through `importFromPDFMaker` |
| TemplateImporter.ImportTemplateFromFile | src/lib/templateImporter.ts:7-28 | an empty read fails with "Failed to read file"; otherwise the text is imported |
| TemplateImporter.ImportTemplateFromClipboard | src/lib/templateImporter.ts:142-149 | a failed clipboard read fails; otherwise the text is imported |
| TemplateImporter.EntryResults | src/lib/templateImporter.ts:109-110 | the bundle entries give one import result each, in order |
| TemplateImporter.ResultStep | src/lib/templateImporter.ts:111-115 | an accepted result adds its template and a refused one adds its error |
| TemplateImporter.BundleEntries | src/lib/templateImporter.ts:103-118 | a proper bundle is imported entry by entry |
| TemplateImporter.KeptRefusedCount | src/lib/templateImporter.ts:109-116 | every entry is either kept or refused |
| TemplateImporter.KeptSatisfy | src/lib/templateImporter.ts:111-112 | every kept template comes from an accepted result |
| TemplateImporter.KeptNamed | src/lib/templateImporter.ts:109-116 | every imported template has a non-empty name and the clock reading of the import of one of the entries, each entry's import reading the clock afresh |
| TemplateImporter.BundleOutcome | src/lib/templateImporter.ts:87-137 | a bundle import succeeds exactly when some template was kept; every error starts with "Template "; kept plus refused equals the number of entries |
| TemplateImporter.RefusedPrefix | src/lib/templateImporter.ts:114 | every bundle error starts with "Template " |
| TemplateImporter.EntryErrorPrefix | src/lib/templateImporter.ts:114 | one entry's error starts with "Template " |
| TemplateImporter.ImportTemplatesBundle | src/lib/templateImporter.ts:87-137 | the imperative bundle import returns the specified outcome |
| TemplateImporter.ImportEntries | src/lib/templateImporter.ts:106-118 | the `forEach` loop collects the specified templates and errors |
| TemplateExporter.DashRunsSlug | src/lib/templateExporter.ts:93 | replacing runs of unsafe characters yields lower-case letters, digits and single dashes |
| TemplateExporter.DashRunsKeepsSafe | src/lib/templateExporter.ts:93 | the safe characters survive, in order |
| TemplateExporter.SafeAppend | src/lib/templateExporter.ts:93 | the safe characters of a concatenation are those of its parts |
| TemplateExporter.Cut | src/lib/templateExporter.ts:95 | `substring(0, 50)` is a prefix of at most 50 characters and leaves shorter names alone |
| TemplateExporter.TrimDashesShape | src/lib/templateExporter.ts:94 | removing the edge dashes leaves a slug with a letter or digit at both ends |
| TemplateExporter.CutShape | src/lib/templateExporter.ts:95 | cutting keeps a slug that does not start with a dash |
| TemplateExporter.SanitizeShape | src/lib/templateExporter.ts:90-96 | a sanitised name is a slug of at most 50 characters with no leading dash; it can end in a dash only when the cut fell on one |
| TemplateExporter.SanitizeKeepsLetters | src/lib/templateExporter.ts:90-96 | a sanitised name keeps letters and digits of the lower-cased name in order |
| TemplateExporter.SanitizeFixpoint | src/lib/templateExporter.ts:90-96 | sanitising a sanitised name that does not end in a dash changes nothing |
| TemplateExporter.SlugLower | src/lib/templateExporter.ts:92 | lower-casing a slug changes nothing |
| TemplateExporter.SlugDashRuns | src/lib/templateExporter.ts:93 | dash-run replacement leaves a slug unchanged |
| TemplateExporter.TemplateFilename | src/lib/templateExporter.ts:12 | the given file name, or the sanitised name with `.json` |
| TemplateExporter.IntegrationFilename | src/lib/templateExporter.ts:55 | the integration file name is `pdfmaker-<name>.json` |
| TemplateExporter.BundleFilename | src/lib/templateExporter.ts:31 | the given bundle name, or one stamped with the time |
| TemplateExporter.IntegrationOptions | src/lib/templateExporter.ts:47-50 | the integration export fills both flags with true by default and keeps the default schema version |
| TemplateExporter.IntegrationDefaults | src/lib/templateExporter.ts:39-57 | integration export without options is the plain export |
| TemplateExporter.ExportAll | src/lib/templateExporter.ts:25 | each template is exported with default options, in order |
| TemplateExporter.Bundle | src/lib/templateExporter.ts:19-33 | the bundle is typed `pdfmaker-bundle` with schema 1.0, a manifest counting the templates, and every template exported |
| TemplateExporter.BundleSingleImport | src/lib/templateImporter.ts:45-52 | the single importer applied to a bundle imports its first template, or fails with "Bundle is empty" |
| TemplateExporter.BundleRoundTrip | src/lib/templateExporter.ts:19-33 | importing an exported bundle keeps exactly the templates with names, in order and by name, reports the rest, and succeeds exactly when some template has a name |
| TemplateExporter.NamedOnlyEmpty | src/lib/templateService.ts:158-160 | no template survives exactly when every name is empty |
| TemplateExporter.ExportedAccepted | src/lib/templateService.ts:102-185 | an exported template is accepted back exactly when its name is non-empty, keeping the name |
| TemplateExporter.KeptNamedLike | src/lib/templateImporter.ts:109-116 | when acceptance follows the names, the kept templates are the named ones by name |
| TemplateExporter.KeptExported | src/lib/templateImporter.ts:109-116 | the exported entries contain no `null`, and importing them keeps the named templates by name |
| TemplateStorage.LoadStorageData | src/lib/templateStorage.ts:134-152 | an unusable stored item gives a fresh envelope; otherwise the stored version, update time and templates |
| TemplateStorage.LoadWritten | src/lib/templateStorage.ts:134-152 | loading what was written gives back the envelope |
| TemplateStorage.LoadTemplates | src/lib/templateStorage.ts:32-35 | the stored templates, or none when nothing usable is stored |
| TemplateStorage.GetTemplate | src/lib/templateStorage.ts:57-60 | finds the first stored template with the id, or none exactly when none has it |
| TemplateStorage.GetStorageInfo | src/lib/templateStorage.ts:124-130 | the count is the number of stored templates and the update time is the stored one; with nothing usable, no templates and the current time |
| TemplateStorage.SaveThenGet | src/lib/templateStorage.ts:15-27 | after saving, looking the id up gives the template; an existing entry is replaced in place, otherwise the template is appended |
| TemplateStorage.AfterDelete | src/lib/templateStorage.ts:40-52 | a delete writes nothing exactly when no template has the id |
| TemplateStorage.DeleteFirstMatch | src/lib/templateStorage.ts:40-52 | a delete removes exactly the first template with the id |
| TemplateStorage.DeleteUniqueGone | src/lib/templateStorage.ts:40-60 | after deleting a unique id, the id is no longer found |
| TemplateStorage.ClearEmpties | src/lib/templateStorage.ts:65-72 | after clearing no templates are stored and the count is 0 |
| TemplateStorage.AcceptedCount | src/lib/templateStorage.ts:99-108 | no more templates are accepted than offered |
| TemplateStorage.UpsertIds | src/lib/templateStorage.ts:100-106 | an upsert adds the template's id to the stored ids |
| TemplateStorage.MergedIds | src/lib/templateStorage.ts:99-108 | the merged ids are the stored ones plus those of the accepted entries |
| TemplateStorage.MergedLength | src/lib/templateStorage.ts:99-108 | merging never loses templates and adds at most the accepted ones |
| TemplateStorage.ImportOutcome | src/lib/templateStorage.ts:85-119 | a failed import writes nothing and reports one error; a successful one reports no errors, counts at most the entries and stores the union of ids |
| TemplateStorage.LocalStore.constructor | src/lib/templateStorage.ts:3 | the store starts with the given item |
| TemplateStorage.LocalStore.SaveTemplate | src/lib/templateStorage.ts:15-27 | writes the envelope after the upsert, after which the template is found |
| TemplateStorage.LocalStore.DeleteTemplate | src/lib/templateStorage.ts:40-52 | reports whether a template was deleted and writes only then |
| TemplateStorage.LocalStore.ClearAllTemplates | src/lib/templateStorage.ts:65-72 | writes a fresh envelope with no templates |
| TemplateStorage.LocalStore.ImportFromJSON | src/lib/templateStorage.ts:85-119 | returns the import summary and writes only on success |
| TextReplace.Split | src/hooks/useEditorState.ts:646 | `split` always yields at least one part |
| TextReplace.SplitJoinIsReplaceAll | src/hooks/useEditorState.ts:646 | `split(find).join(replace)` replaces every non-overlapping occurrence from left to right |
| TextReplace.SplitJoinRoundTrip | src/hooks/useEditorState.ts:646 | joining the parts with the search text gives the original |
| TextReplace.ReplaceAbsent | src/hooks/useEditorState.ts:646 | text without an occurrence is unchanged |
| TextReplace.ReplaceBySelf | src/hooks/useEditorState.ts:646 | replacing the text by itself changes nothing |
| TextReplace.ReplaceShrinks | src/hooks/useEditorState.ts:646 | a shorter replacement of a present text shortens the content |
| TextReplace.ReplaceNoLonger | src/hooks/useEditorState.ts:646 | a replacement no longer than the search text never lengthens the content |
| ListOps.FindIndex | src/hooks/useEditorState.ts:256 | finds the first index with the key, or -1 exactly when there is none |
| ListOps.Find | src/hooks/useEditorState.ts:281 | finds the first item with the key, or none exactly when there is none |
| ListOps.FindAppended | src/hooks/useEditorState.ts:596-598 | an item appended after items that all lack its key is the one `find` returns |
| ListOps.Filter | src/hooks/useEditorState.ts:284 | keeps only items that pass, as a sub-multiset of the input |
| ListOps.FilterKeepsCopies | src/hooks/useEditorState.ts:284 | every copy of an item that passes is kept |
| ListOps.FilterAppend | src/hooks/useEditorState.ts:284 | filtering distributes over concatenation, so the kept items keep their order |
| ListOps.FilterMembership | src/hooks/useEditorState.ts:284 | an item is kept exactly when it was present and passes |
| ListOps.KeySplit | src/hooks/useEditorState.ts:281-284 | the items without the key and those with it make up the list |
| ListOps.SingleMatch | src/hooks/useEditorState.ts:281-284 | with one matching item, the matches are exactly that item |
| ListOps.Upsert | src/hooks/useEditorState.ts:344-352 | replaces the first item with the key in place, or appends; the item is then found |
| ListOps.SwapAt | src/hooks/useEditorState.ts:262 | the swap exchanges the two positions and keeps the rest |
| ListOps.SwapAtPermutes | src/hooks/useEditorState.ts:262 | a swap is a permutation |
| ListOps.InsertAfter | src/hooks/useEditorState.ts:452-456 | the item is inserted right after the position and the rest keep their order |
| ListOps.RemoveAt | src/components/editor/GradientPicker.tsx:61 | removing an index shifts the later items down by one |
| ListOps.ToggleMember | src/components/editor/StylePresetsPanel.tsx:86-92 | toggling removes a present item and appends an absent one |
| ListOps.ToggleTwice | src/components/editor/StylePresetsPanel.tsx:86-92 | toggling twice restores membership |
| Common.StrOr | src/lib/templateService.ts:172 | `s \|\| d` is `s` when truthy and otherwise `d` |
| Common.TrimIsInnerSlice | src/lib/templateService.ts:52 | `trim()` removes exactly the leading and trailing whitespace |
| Common.BlankIffAllWhitespace | src/lib/templateService.ts:197 | a string trims to empty exactly when it is all whitespace |
| Common.NatToString | src/pages/Specification.tsx:215 | `toString()` of a number is decimal digits without a leading zero |
| Common.NatToStringRoundTrip | src/pages/Specification.tsx:215 | the decimal text reads back as the number |
| Common.LowerAscii | src/lib/templateExporter.ts:92 | lower-casing maps each character |
| CanvasElement.ResizeRuleUnique | src/components/editor/CanvasElement.tsx:71-95 | the resize rule has exactly one outcome |
| CanvasElement.ResizeStopsAtMinimum | src/components/editor/CanvasElement.tsx:81-84 | a west resize past the minimum pins the width at 50, with the east edge unchanged |
| CanvasElement.ElementInteraction.constructor | src/components/editor/CanvasElement.tsx:20-26 | the interaction starts idle with zeroed start records |
| CanvasElement.ElementInteraction.MouseDown | src/components/editor/CanvasElement.tsx:30-42 | a press on an unlocked element that is not being edited selects it and starts a drag from the pointer and position |
| CanvasElement.ElementInteraction.ResizeMouseDown | src/components/editor/CanvasElement.tsx:44-57 | a press on a handle of an unlocked element starts a resize from the pointer, size and position |
| CanvasElement.ElementInteraction.MouseMove | src/components/editor/CanvasElement.tsx:60-96 | a drag moves the element by the pointer delta divided by the scale; a resize with a truthy handle follows the resize rule |
| CanvasElement.ElementInteraction.MouseUp | src/components/editor/CanvasElement.tsx:98-102 | releasing ends any drag and resize |
| CanvasElement.ElementInteraction.DoubleClick | src/components/editor/CanvasElement.tsx:115-119 | only text-like elements enter editing |
| CanvasElement.ElementInteraction.Blur | src/components/editor/CanvasElement.tsx:121-123 | leaving the editor ends editing |
| CanvasElement.LockedStaysPut | src/components/editor/CanvasElement.tsx:30-57 | a locked element can be neither moved nor resized |
| DrawingCanvas.Erase | src/components/editor/DrawingCanvas.tsx:117-124 | the eraser keeps exactly the paths it does not touch |
| DrawingCanvas.EraseAppend | src/components/editor/DrawingCanvas.tsx:118-124 | erasing keeps the surviving paths in order |
| DrawingCanvas.EraseChanges | src/components/editor/DrawingCanvas.tsx:125-127 | a change is reported exactly when some path is touched |
| DrawingCanvas.StartPath | src/components/editor/DrawingCanvas.tsx:131-139 | a stroke starts at the point; a highlighter is translucent and a pen is opaque |
| DrawingCanvas.CursorStyle | src/components/editor/DrawingCanvas.tsx:174-186 | the cursor is default when inactive, cell for the eraser and a crosshair otherwise |
| DrawingCanvas.StrokeCapture.constructor | src/components/editor/DrawingCanvas.tsx:30-31 | capture starts idle |
| DrawingCanvas.StrokeCapture.MouseDown | src/components/editor/DrawingCanvas.tsx:110-140 | inactive does nothing; the eraser removes touched paths and reports only a change; another tool starts a stroke |
| DrawingCanvas.StrokeCapture.MouseMove | src/components/editor/DrawingCanvas.tsx:142-153 | moving while drawing appends the point |
| DrawingCanvas.StrokeCapture.MouseUp | src/components/editor/DrawingCanvas.tsx:155-164 | releasing commits a stroke of two or more points and ends the stroke |
| DrawingCanvas.StrokeCapture.MouseLeave | src/components/editor/DrawingCanvas.tsx:166-172 | leaving commits a stroke of two or more points and always ends drawing |
| DrawingCanvas.OneStroke | src/components/editor/DrawingCanvas.tsx:110-164 | press, move and release commit one two-point stroke; without the move nothing is committed |
| GradientPicker.ModeChange | src/components/editor/GradientPicker.tsx:24-37 | switching to gradient gives a 90 degree linear gradient from the default colour to black; switching off removes it |
| GradientPicker.UpdateGradient | src/components/editor/GradientPicker.tsx:39-42 | the given fields override the gradient's; without a gradient nothing happens |
| GradientPicker.UpdateStop | src/components/editor/GradientPicker.tsx:44-51 | exactly the stop at the index is patched |
| GradientPicker.InsertByOffset | src/components/editor/GradientPicker.tsx:56 | insertion adds the stop to the multiset |
| GradientPicker.InsertSorted | src/components/editor/GradientPicker.tsx:56 | insertion into sorted stops keeps them sorted |
| GradientPicker.InsertPlacement | src/components/editor/GradientPicker.tsx:56 | the inserted stop goes right after the last stop whose offset is not greater, with only greater offsets behind it, the others keeping their order |
| GradientPicker.SortByOffset | src/components/editor/GradientPicker.tsx:56 | the sort is a sorted permutation |
| GradientPicker.AddStop | src/components/editor/GradientPicker.tsx:53-57 | adding inserts the grey stop at 50% and leaves the stops sorted |
| GradientPicker.SortSorted | src/components/editor/GradientPicker.tsx:56 | sorting sorted stops changes nothing |
| GradientPicker.AddStopPlacement | src/components/editor/GradientPicker.tsx:53-57 | on sorted stops, the new stop at 50 lands after every stop at 50 or less and before the greater ones, the rest in their order |
| GradientPicker.WithoutIndex | src/components/editor/GradientPicker.tsx:61 | the filter drops the index when in range and otherwise keeps all |
| GradientPicker.RemoveStop | src/components/editor/GradientPicker.tsx:59-63 | removal is refused at two stops or fewer; otherwise exactly the indexed stop is removed |
| GradientPicker.StopsStayAtLeastTwo | src/components/editor/GradientPicker.tsx:24-63 | no gradient operation takes a gradient below two stops |
| KeyboardNavigation.JsRem | src/hooks/useKeyboardNavigation.ts:44 | JavaScript `%` takes the sign of the dividend |
| KeyboardNavigation.FocusTarget | src/hooks/useKeyboardNavigation.ts:39-50 | with items, focus wraps modulo the count or is clamped to the ends; with none, nothing |
| KeyboardNavigation.WrapIsModulo | src/hooks/useKeyboardNavigation.ts:44 | the double remainder is the mathematical modulo |
| KeyboardNavigation.FocusInRange | src/hooks/useKeyboardNavigation.ts:39-50 | an index in range is focused as it is |
| KeyboardNavigation.WrapEnds | src/hooks/useKeyboardNavigation.ts:44 | with wrapping, past the end goes to the first and before the start to the last |
| KeyboardNavigation.Requested | src/hooks/useKeyboardNavigation.ts:63-95 | exactly Home, End and the arrows along the orientation request a move |
| KeyboardNavigation.HandleKeyDown | src/hooks/useKeyboardNavigation.ts:52-109 | the handler's outcome is the specified one |
| KeyboardNavigation.NoItemsNoEffect | src/hooks/useKeyboardNavigation.ts:55-58 | with no items or no focused item nothing happens |
| KeyboardNavigation.HomeEnd | src/hooks/useKeyboardNavigation.ts:88-95 | Home focuses the first item and End the last |
| KeyboardNavigation.ArrowAcross | src/hooks/useKeyboardNavigation.ts:63-87 | an arrow across the orientation does nothing |
| KeyboardNavigation.ArrowNext | src/hooks/useKeyboardNavigation.ts:70-87 | the forward arrow focuses the next item, wrapping or stopping at the end |
| KeyboardNavigation.ArrowPrevious | src/hooks/useKeyboardNavigation.ts:64-81 | the backward arrow focuses the previous item, wrapping or stopping at the start |
| KeyboardNavigation.Activation | src/hooks/useKeyboardNavigation.ts:96-102 | Enter and Space activate only when there is a handler, without moving focus |
| KeyboardNavigation.PreventOnlyWhenHandled | src/hooks/useKeyboardNavigation.ts:52-109 | the default is prevented exactly for handled keys, and focus always lands on an item |
| LayersPanel.ElementIcon | src/components/editor/LayersPanel.tsx:30-57 | a known type's icon, or the bullet |
| LayersPanel.Capitalize | src/components/editor/LayersPanel.tsx:68 | upper-cases the first letter and keeps the rest |
| LayersPanel.TypeLabel | src/components/editor/LayersPanel.tsx:62-88 | shapes are labelled by their capitalised shape type; other known types by their label; unknown types by the type |
| LayersPanel.ElementLabel | src/components/editor/LayersPanel.tsx:59-91 | the layer name, or the type label with a quoted preview of up to 20 characters and an ellipsis when longer |
| LayersPanel.RowsNeverBlank | src/components/editor/LayersPanel.tsx:30-91 | no row has an empty icon, and a typed element never has an empty label |
| LayersPanel.PreviewBounded | src/components/editor/LayersPanel.tsx:89-90 | the preview label has the type prefix, a bounded length and the ellipsis exactly when the content is longer than 20 |
| LayersPanel.DisplayOrder | src/components/editor/LayersPanel.tsx:103 | rows are the elements reversed, the top layer first |
| LayersPanel.DisplayOrderInvolution | src/components/editor/LayersPanel.tsx:103 | reversing twice restores the order, and reversal is a permutation |
| LayersPanel.ButtonsMatchEngine | src/components/editor/LayersPanel.tsx:201-217 | a row's up or down button is disabled exactly when the engine's reorder would leave the list |
| LayersPanel.VisibilityToggle | src/components/editor/LayersPanel.tsx:156 | the eye button makes a hidden element visible and hides any other |
| LayersPanel.LockToggle | src/components/editor/LayersPanel.tsx:179 | the lock button locks an unlocked element and unlocks a locked one |
| LayersPanel.TogglesFlip | src/components/editor/LayersPanel.tsx:156-179 | each button flips what the row shows, and pressing twice settles back |
| StylePresetsPanel.InitialPanel | src/components/editor/StylePresetsPanel.tsx:59-64 | the panel starts with the built-in presets, no custom ones, and the heading and text sections open |
| StylePresetsPanel.SavePreset | src/components/editor/StylePresetsPanel.tsx:66-80 | without a style or with a blank name nothing happens; otherwise the trimmed preset is added, reported, and the dialog closes |
| StylePresetsPanel.DeleteCustomPreset | src/components/editor/StylePresetsPanel.tsx:82-84 | removes exactly the custom presets with the id |
| StylePresetsPanel.ToggleCategory | src/components/editor/StylePresetsPanel.tsx:86-92 | flips whether the section is open |
| StylePresetsPanel.ToggleCategoryTwice | src/components/editor/StylePresetsPanel.tsx:86-92 | toggling twice restores which sections are open |
| StylePresetsPanel.CategoryVisible | src/components/editor/StylePresetsPanel.tsx:126-127 | a section is drawn exactly when it has a preset, and Custom always |
| StylePresetsPanel.CategoryMembers | src/components/editor/StylePresetsPanel.tsx:126 | the filter is non-empty exactly when some preset is in the category |
| StylePresetsPanel.VisibleSections | src/components/editor/StylePresetsPanel.tsx:125-127 | the drawn sections are the visible categories, always including Custom |
| StylePresetsPanel.SavedCategoryVisible | src/components/editor/StylePresetsPanel.tsx:66-80 | saving a preset makes its section visible |
| DocumentPropertiesDialog.AddKeyword | src/components/editor/DocumentPropertiesDialog.tsx:57-65 | a blank input is ignored; otherwise the trimmed keyword is appended and the input cleared |
| DocumentPropertiesDialog.AddedKeywordTrimmed | src/components/editor/DocumentPropertiesDialog.tsx:58-61 | an added keyword is non-empty without edge whitespace |
| DocumentPropertiesDialog.RemoveKeyword | src/components/editor/DocumentPropertiesDialog.tsx:67-72 | removes the keyword at the index when in range; no list stays no list |
| DocumentPropertiesDialog.UpdatePermission | src/components/editor/DocumentPropertiesDialog.tsx:74-82 | sets the one permission and keeps the others |
| DocumentPropertiesDialog.PrintingShown | src/components/editor/DocumentPropertiesDialog.tsx:228 | printing shows the chosen level, or high-res by default |
| DocumentPropertiesDialog.AllowedShown | src/components/editor/DocumentPropertiesDialog.tsx:250 | a checkbox is unchecked exactly when its permission is false |
| DocumentPropertiesDialog.ControlsShowUpdates | src/components/editor/DocumentPropertiesDialog.tsx:74-82 | every control shows the last choice for its key and is unaffected by other keys |
| DocumentPropertiesDialog.DefaultsShown | src/components/editor/DocumentPropertiesDialog.tsx:228-283 | with no permissions everything shows allowed at high resolution |
| TokensPanel.RemoveDashes | src/components/editor/TokensPanel.tsx:56 | removing dashes keeps every other character |
| TokensPanel.CreateToken | src/components/editor/TokensPanel.tsx:47-65 | a blank name shows the error and changes nothing; otherwise the token is appended and the inputs reset |
| TokensPanel.TokenShape | src/components/editor/TokensPanel.tsx:53-57 | a token's secret is `int_` then a dash-free rest, with the chosen permissions |
| TokensPanel.DeleteToken | src/components/editor/TokensPanel.tsx:67-70 | removes exactly the tokens with the id |
| TokensPanel.TogglePermission | src/components/editor/TokensPanel.tsx:79-85 | flips the one permission and keeps the others |
| TokensPanel.PermissionTwice | src/components/editor/TokensPanel.tsx:79-85 | toggling twice restores the permissions selected |
| EditorCanvas.PageSizes | src/components/editor/EditorCanvas.tsx:15-19 | A4, Letter and Legal in points; no other size is known |
| EditorCanvas.PageDimensions | src/components/editor/EditorCanvas.tsx:39-42 | landscape swaps width and height |
| EditorCanvas.OrientationShapes | src/components/editor/EditorCanvas.tsx:39-42 | portrait pages are taller than wide and landscape ones wider than tall, with the same sides |
| EditorCanvas.PaperSize | src/components/editor/EditorCanvas.tsx:43-60 | the paper is the page scaled by the zoom percentage |
| EditorCanvas.PaperProportions | src/components/editor/EditorCanvas.tsx:57-60 | scaling keeps the proportions and 100% is the page |
| EditorCanvas.CanvasView | src/components/editor/EditorCanvas.tsx:31-80 | no template shows the placeholder; an unknown size fails; otherwise every element is drawn, marked selected exactly when its id is selected, so after a background click, which selects `null`, none is marked |
| EditorCanvas.OneSelected | src/components/editor/EditorCanvas.tsx:75 | elements with distinct ids are never both selected |
| PreviewPanel.PreviewPage | src/components/editor/PreviewPanel.tsx:13-31 | the preview's page equals the canvas's page |
| PreviewPanel.ZoomOut | src/components/editor/PreviewPanel.tsx:164 | zooming out gives z - 10 when that is at least 25, and 25 otherwise |
| PreviewPanel.ZoomIn | src/components/editor/PreviewPanel.tsx:173 | zooming in gives z + 10 when that is at most 200, and 200 otherwise |
| PreviewPanel.ZoomStaysInRange | src/components/editor/PreviewPanel.tsx:164-173 | any sequence of presses keeps an in-range zoom in range |
| PreviewPanel.InitialZoomInRange | src/components/editor/PreviewPanel.tsx:24 | from 80%, the zoom always stays between 25% and 200% |
| PreviewPanel.VisibleElements | src/components/editor/PreviewPanel.tsx:35 | exactly the elements not hidden are drawn |
| PreviewPanel.DynamicFieldText | src/components/editor/PreviewPanel.tsx:66 | a dynamic field shows its field name, or its content |
| PreviewPanel.CellText | src/components/editor/PreviewPanel.tsx:97 | a cell shows its content, or nothing outside the grid |
| PreviewPanel.TableGrid | src/components/editor/PreviewPanel.tsx:85-97 | the grid has the given or default 3 by 3 shape, filled from the cells; it fails exactly for a negative row count, or a negative column count with at least one row |
| PreviewPanel.DefaultTable | src/components/editor/PreviewPanel.tsx:85 | without table data an empty 3 by 3 grid is drawn |
| SpecificationTasks.StatusIndex | src/pages/Specification.tsx:232-233 | every status is found in the order |
| SpecificationTasks.NextStatus | src/pages/Specification.tsx:232-234 | the next status is the following one in the cycle and never the same |
| SpecificationTasks.StatusCycle | src/pages/Specification.tsx:232-234 | four steps return to the start and no fewer |
| SpecificationTasks.ToggleTaskStatus | src/pages/Specification.tsx:229-239 | advances exactly the tasks with the id |
| SpecificationTasks.ToggleFourTimes | src/pages/Specification.tsx:229-239 | four toggles restore the board |
| SpecificationTasks.AddTask | src/pages/Specification.tsx:211-227 | a blank title is ignored; otherwise a to-do task of medium priority is appended and the title cleared |
| SpecificationTasks.AddedTask | src/pages/Specification.tsx:214-222 | the new task's id reads back as the clock value |
| SpecificationTasks.DeleteTask | src/pages/Specification.tsx:241-244 | removes exactly the tasks with the id |
| SpecificationTasks.FilteredTasks | src/pages/Specification.tsx:257-259 | without a section all tasks; otherwise exactly those of the section |
| SpecificationTasks.Stats | src/pages/Specification.tsx:261-266 | the total is the number of tasks and bounds the three counts |
| SpecificationTasks.StatusCountsAdd | src/pages/Specification.tsx:261-266 | the four status counts add up to the total |

## Left out

- `JSON.parse` and `JSON.stringify` are foreign. Parsing results are inputs,
  and written envelopes are values. `serializeTemplate`'s indentation, the
  text `exportAllAsJSON` produces and `getTemplateExportString` are not
  modelled.
- `uuidv4`, `generateTemplateId`, `new Date()` and `Date.now()` are
  parameters. The model does not capture that ids come out distinct.
- File, clipboard, DOM and `localStorage` access are not modelled. This
  covers `downloadBlob`, the download wrappers apart from the names they
  choose, `copyTemplateToClipboard`, `triggerFileImport`, the `FileReader`
  error path and `navigator.clipboard` in the tokens panel. The readers'
  texts and the stored item are parameters.
- `getTemplateExportData` is `ExportForPDFMaker` with no options and has no
  member of its own.
- `createDefaultMetadata` is not called anywhere in the core and is not
  modelled.
- Toasts, React batching and re-rendering are not modelled. So are the
  `useEffect` listener wiring, the canvas redraw and the rendering of element
  kinds other than text, dynamic fields and tables.
- Common.LowerAscii: `toLowerCase` is modelled for ASCII only. Other letters
  become `-` in file names either way, except for the few whose lower case is
  ASCII.
- TemplateImporter.ImportTemplateFromJSON: a bundle's `templates` value is
  one of four kinds: falsy, a non-empty string, another non-array value, or
  an array. A non-empty string imports its first character, which fails with
  "Missing template data". Any other non-array value counts as an empty
  bundle, because `undefined > 0` is false. The exception is an object with
  numeric `length` and `0` keys, which JavaScript would index like an array
  and the model treats as an empty bundle.
- TemplateImporter.BareShape: an entry of an `elements` array is always an
  element record. A `null` entry cannot be represented. The source would
  throw on `element.id` in `validateTemplate` and report "Invalid JSON:
  Cannot read properties of null (reading 'id')".
- LayersPanel.ElementLabel: the 20-character preview counts Unicode scalar
  values, because strings are sequences of `char`. JavaScript's
  `slice(0, 20)` and `length > 20` count UTF-16 code units. For content with
  characters outside the Basic Multilingual Plane, such as emoji, the source
  cuts sooner, can split a surrogate pair, and shows the ellipsis for shorter
  content.
- GradientPicker.UpdateStop requires the index to be in range. The source
  would add a stop past the end for an index out of range, but the picker
  only passes indices of stops it draws.
- DocumentPropertiesDialog.PrintingShown reads the printing key as a level,
  following its declared type. A boolean stored there is shown as the
  default.
- PreviewPanel.TableGrid models the throw of `Array` on a negative count as
  `None`. `Array(cols)` runs only once a row is drawn.
- LayersPanel.Capitalize upper-cases ASCII letters only and keeps the length.
  JavaScript's `toUpperCase` maps other letters too, and some to several
  characters: `'ß'` becomes `"SS"`. The panel applies it to shape type names,
  and the editor's own shape types are ASCII words.
- Document.Element carries only the fields the core reads or writes. These
  fields of `DocumentElement` pass through untouched and are not modelled:
  - `imageUrl`, `objectFit`, `imageFilters`, `flipHorizontal`, `flipVertical`;
  - `listType`, `listItems`, `iconName`, `barcodeType`, `barcodeValue`;
  - `watermarkOpacity`, `watermarkPattern`, `rotation`, `zIndex`, `groupId`.

  Likewise `TableCell` has no `colSpan` or `rowSpan`. `TableData` has no
  `headerRow`, `alternatingRowColors`, `alternatingColor`, `columnWidths` or
  `rowHeights`.
- EditorOps.Session leaves out the state's `selectedElementIds` and
  `clipboard`. The engine sets both to empty lists at the start and never
  changes them.
- Pointer coordinates are reals. Division by the zoom scale is exact, with
  no floating-point rounding.
- EditorState.Editor.DuplicateElement: the exception is not modelled. For a
  known element without a position the source pushes the snapshot and then
  throws a `TypeError` on `element.position.x`. The model pushes the snapshot
  and returns normally, adding no copy.
- EditorState.Editor.CreateNewPresentation does not model
  `slideProperties`, because the template value has no such field.
- `hydrateDates` and the `Date` objects are not modelled: timestamps are
  opaque values.
- The import reuses the incoming template id, as the code does. A new id is
  drawn only when the incoming one is empty.
- The Supabase functions, the PPTX export service, the pages other than the
  specification task board, the announcer hook and the UI-only components
  (toolbars, dialogs, sidebars, palettes) are not part of this model.
