/** The document model the editor engine actually uses: elements with their
    type-specific payloads, pages, document properties and the template
    aggregate. Numbers in document space are reals (JavaScript numbers used
    as coordinates); clock readings are opaque `Timestamp`s. */
module Document {
  import opened Common

  /** A `Date` reading (milliseconds); where it comes from is left to the caller. */
  type Timestamp = nat

  datatype Position = Position(x: real, y: real)
  datatype Size = Size(width: real, height: real)

  datatype GradientStop = GradientStop(offset: real, color: string)
  /** `type` is 'linear' or 'radial'. */
  datatype Gradient = Gradient(kind: string, angle: Option<real>, stops: seq<GradientStop>)

  /** One value of the open-ended style bag. */
  datatype StyleValue =
    | Num(n: real)
    | Text(s: string)
    | Flag(b: bool)
    | GradientValue(g: Gradient)

  /** `ElementStyle`: every attribute optional, so a map from attribute name to
      value. Object spread `{...a, ...b}` is the map union `a + b`, in which
      `b` wins on a shared key. */
  type Style = map<string, StyleValue>

  datatype TableCell = TableCell(content: string, style: Style)
  datatype TableData = TableData(rows: int, cols: int, cells: seq<seq<TableCell>>)

  /** `cells.length === rows` and every row has `cols` cells. */
  predicate TableWellShaped(t: TableData) {
    t.rows >= 0 && t.cols >= 0 && |t.cells| == t.rows &&
    forall r :: 0 <= r < |t.cells| ==> |t.cells[r]| == t.cols
  }

  datatype FormField = FormField(fieldType: string, placeholder: string, required: bool)
  datatype Annotation = Annotation(author: string, createdAt: Timestamp, status: string, stampType: Option<string>)

  /** A placed element as it is stored and as it arrives from JSON. An empty
      `id` or `elementType` stands for a missing (falsy) one; `position` and
      `size` may be absent in imported data, which is what validation and the
      canvas guard against. */
  datatype Element = Element(
    id: string,
    elementType: string,
    position: Option<Position>,
    size: Option<Size>,
    style: Style,
    content: Option<string>,
    dynamicField: Option<string>,
    tableData: Option<TableData>,
    shapeType: Option<string>,
    shapeFilled: Option<bool>,
    visible: Option<bool>,
    locked: Option<bool>,
    layerName: Option<string>,
    formField: Option<FormField>,
    annotation: Option<Annotation>)

  /** `Partial<DocumentElement>`: a field that is `Some` is a key present in the
      update object; for an optional element field the inner option says
      whether the key carries a value or `undefined`. */
  datatype ElementPatch = ElementPatch(
    id: Option<string>,
    elementType: Option<string>,
    position: Option<Option<Position>>,
    size: Option<Option<Size>>,
    style: Option<Style>,
    content: Option<Option<string>>,
    dynamicField: Option<Option<string>>,
    tableData: Option<Option<TableData>>,
    shapeType: Option<Option<string>>,
    shapeFilled: Option<Option<bool>>,
    visible: Option<Option<bool>>,
    locked: Option<Option<bool>>,
    layerName: Option<Option<string>>,
    formField: Option<Option<FormField>>,
    annotation: Option<Option<Annotation>>)

  const EmptyPatch := ElementPatch(None, None, None, None, None, None, None, None, None, None, None, None, None, None, None)

  function Override<T>(old_: T, update: Option<T>): T {
    if update.Some? then update.value else old_
  }

  /** `{ ...el, ...updates }` */
  function ApplyPatch(e: Element, p: ElementPatch): Element {
    e.(id := Override(e.id, p.id),
       elementType := Override(e.elementType, p.elementType),
       position := Override(e.position, p.position),
       size := Override(e.size, p.size),
       style := Override(e.style, p.style),
       content := Override(e.content, p.content),
       dynamicField := Override(e.dynamicField, p.dynamicField),
       tableData := Override(e.tableData, p.tableData),
       shapeType := Override(e.shapeType, p.shapeType),
       shapeFilled := Override(e.shapeFilled, p.shapeFilled),
       visible := Override(e.visible, p.visible),
       locked := Override(e.locked, p.locked),
       layerName := Override(e.layerName, p.layerName),
       formField := Override(e.formField, p.formField),
       annotation := Override(e.annotation, p.annotation))
  }

  /** A shallow merge: applying the empty update is the identity, the same
      update applied twice is applied once, and the id, the style, the form
      field and the annotation are kept or replaced as the update says. */
  lemma PatchLaws(e: Element, p: ElementPatch)
    ensures ApplyPatch(e, EmptyPatch) == e
    ensures ApplyPatch(ApplyPatch(e, p), p) == ApplyPatch(e, p)
    ensures p.style.None? ==> ApplyPatch(e, p).style == e.style
    ensures p.id.None? ==> ApplyPatch(e, p).id == e.id
    ensures p.style.Some? ==> ApplyPatch(e, p).style == p.style.value
    ensures p.formField.None? ==> ApplyPatch(e, p).formField == e.formField
    ensures p.formField.Some? ==> ApplyPatch(e, p).formField == p.formField.value
    ensures p.annotation.None? ==> ApplyPatch(e, p).annotation == e.annotation
    ensures p.annotation.Some? ==> ApplyPatch(e, p).annotation == p.annotation.value
  {
  }

  datatype Page = Page(
    id: string,
    name: string,
    elements: seq<Element>,
    backgroundColor: Option<string>,
    rotation: Option<int>)

  datatype PermissionKey = Printing | Copying | Editing | Annotating | FormFilling
  datatype PermissionValue = Level(level: string) | Allowed(allowed: bool)

  datatype DocumentProperties = DocumentProperties(
    title: Option<string>,
    author: Option<string>,
    subject: Option<string>,
    keywords: Option<seq<string>>,
    creator: Option<string>,
    producer: Option<string>,
    creationDate: Option<Timestamp>,
    password: Option<string>,
    permissions: Option<map<PermissionKey, PermissionValue>>)

  /** The template as the engine holds it: legacy single-page `elements` next
      to the multi-page `pages` / `currentPageIndex`. `pageSize` and
      `orientation` are kept as the strings that arrive from JSON. */
  datatype Template = Template(
    id: string,
    name: string,
    description: Option<string>,
    elements: seq<Element>,
    pages: Option<seq<Page>>,
    currentPageIndex: Option<int>,
    pageSize: string,
    orientation: string,
    createdAt: Timestamp,
    updatedAt: Timestamp,
    layoutType: Option<string>,
    documentProperties: Option<DocumentProperties>,
    sourceApp: Option<string>)

  /** The identifier keys the engine looks entities up by. */
  function ElementId(e: Element): string { e.id }
  function PageId(p: Page): string { p.id }
  function TemplateId(t: Template): string { t.id }

  datatype DrawingTool = Pen | Highlighter | Eraser | Line | Arrow

  datatype DrawingPath = DrawingPath(
    id: string,
    tool: DrawingTool,
    points: seq<Position>,
    color: string,
    width: real,
    opacity: real)

  /** The element types the engine creates (its size table is keyed by these). */
  datatype ElementType =
    | TextType | ImageType | TableType | ShapeType | DividerType | HeaderType | FooterType
    | SignatureType | DynamicFieldType | BarcodeType | IconType | ListType | PageNumberType
    | WatermarkType | DateType
    | FormText | FormCheckbox | FormRadio | FormDropdown | FormSignature
    | AnnotationComment | AnnotationNote | AnnotationStamp | AnnotationHighlight
    | DrawingType

  /** The type tag as it is written into an element. */
  function TypeName(t: ElementType): string {
    match t
    case TextType => "text"
    case ImageType => "image"
    case TableType => "table"
    case ShapeType => "shape"
    case DividerType => "divider"
    case HeaderType => "header"
    case FooterType => "footer"
    case SignatureType => "signature"
    case DynamicFieldType => "dynamic-field"
    case BarcodeType => "barcode"
    case IconType => "icon"
    case ListType => "list"
    case PageNumberType => "page-number"
    case WatermarkType => "watermark"
    case DateType => "date"
    case FormText => "form-text"
    case FormCheckbox => "form-checkbox"
    case FormRadio => "form-radio"
    case FormDropdown => "form-dropdown"
    case FormSignature => "form-signature"
    case AnnotationComment => "annotation-comment"
    case AnnotationNote => "annotation-note"
    case AnnotationStamp => "annotation-stamp"
    case AnnotationHighlight => "annotation-highlight"
    case DrawingType => "drawing"
  }

  /** Reading a type tag back: the partner of TypeName. */
  function ParseType(s: string): Option<ElementType> {
    if s == [] then None
    else match s[0]
      case 'a' =>
        if s == "annotation-comment" then Some(AnnotationComment)
        else if s == "annotation-note" then Some(AnnotationNote)
        else if s == "annotation-stamp" then Some(AnnotationStamp)
        else if s == "annotation-highlight" then Some(AnnotationHighlight)
        else None
      case 'b' => if s == "barcode" then Some(BarcodeType) else None
      case 'd' =>
        if s == "divider" then Some(DividerType)
        else if s == "dynamic-field" then Some(DynamicFieldType)
        else if s == "date" then Some(DateType)
        else if s == "drawing" then Some(DrawingType)
        else None
      case 'f' =>
        if s == "footer" then Some(FooterType)
        else if s == "form-text" then Some(FormText)
        else if s == "form-checkbox" then Some(FormCheckbox)
        else if s == "form-radio" then Some(FormRadio)
        else if s == "form-dropdown" then Some(FormDropdown)
        else if s == "form-signature" then Some(FormSignature)
        else None
      case 'h' => if s == "header" then Some(HeaderType) else None
      case 'i' =>
        if s == "image" then Some(ImageType)
        else if s == "icon" then Some(IconType)
        else None
      case 'l' => if s == "list" then Some(ListType) else None
      case 'p' => if s == "page-number" then Some(PageNumberType) else None
      case 's' =>
        if s == "shape" then Some(ShapeType)
        else if s == "signature" then Some(SignatureType)
        else None
      case 't' =>
        if s == "text" then Some(TextType)
        else if s == "table" then Some(TableType)
        else None
      case 'w' => if s == "watermark" then Some(WatermarkType) else None
      case _ => None
  }

  /** Every type tag reads back as its type, so no two types share a tag. */
  lemma TypeNameRoundTrip(t: ElementType)
    ensures ParseType(TypeName(t)) == Some(t)
  {
    match t
    case TextType =>
    case ImageType =>
    case TableType =>
    case ShapeType =>
    case DividerType =>
    case HeaderType =>
    case FooterType =>
    case SignatureType =>
    case DynamicFieldType =>
    case BarcodeType =>
    case IconType =>
    case ListType =>
    case PageNumberType =>
    case WatermarkType =>
    case DateType =>
    case FormText =>
    case FormCheckbox =>
    case FormRadio =>
    case FormDropdown =>
    case FormSignature =>
    case AnnotationComment =>
    case AnnotationNote =>
    case AnnotationStamp =>
    case AnnotationHighlight =>
    case DrawingType =>
  }

  lemma TypeNameInjective(t: ElementType, u: ElementType)
    ensures TypeName(t) == TypeName(u) ==> t == u
  {
    TypeNameRoundTrip(t);
    TypeNameRoundTrip(u);
  }

  /** `defaultElementSizes` */
  function DefaultSize(t: ElementType): (s: Size)
    ensures s.width > 0.0 && s.height > 0.0
  {
    match t
    case TextType => Size(200.0, 40.0)
    case ImageType => Size(200.0, 150.0)
    case TableType => Size(400.0, 150.0)
    case ShapeType => Size(100.0, 100.0)
    case DividerType => Size(500.0, 2.0)
    case HeaderType => Size(500.0, 60.0)
    case FooterType => Size(500.0, 40.0)
    case SignatureType => Size(200.0, 80.0)
    case DynamicFieldType => Size(150.0, 30.0)
    case BarcodeType => Size(150.0, 80.0)
    case IconType => Size(48.0, 48.0)
    case ListType => Size(250.0, 100.0)
    case PageNumberType => Size(100.0, 30.0)
    case WatermarkType => Size(300.0, 100.0)
    case DateType => Size(150.0, 30.0)
    case FormText => Size(200.0, 36.0)
    case FormCheckbox => Size(24.0, 24.0)
    case FormRadio => Size(24.0, 24.0)
    case FormDropdown => Size(200.0, 36.0)
    case FormSignature => Size(250.0, 80.0)
    case AnnotationComment => Size(200.0, 100.0)
    case AnnotationNote => Size(40.0, 40.0)
    case AnnotationStamp => Size(150.0, 50.0)
    case AnnotationHighlight => Size(200.0, 24.0)
    case DrawingType => Size(300.0, 200.0)
  }

  /** `getDefaultContent` */
  function DefaultContent(t: ElementType): string {
    match t
    case TextType => "Enter text here..."
    case HeaderType => "Header Title"
    case FooterType => "Footer text"
    case DynamicFieldType => "{{field_name}}"
    case FormText => ""
    case FormCheckbox => "Checkbox option"
    case FormRadio => "Radio option"
    case FormDropdown => "Select an option"
    case AnnotationComment => "Add your comment here..."
    case AnnotationNote => ""
    case AnnotationStamp => "APPROVED"
    case AnnotationHighlight => ""
    case _ => ""
  }

  predicate IsFormType(t: ElementType) {
    StartsWith(TypeName(t), "form-")
  }

  predicate IsAnnotationType(t: ElementType) {
    StartsWith(TypeName(t), "annotation-")
  }

  /** The `form-` prefix picks out exactly the five form types. */
  lemma FormPrefix(t: ElementType)
    ensures IsFormType(t) <==> t in {FormText, FormCheckbox, FormRadio, FormDropdown, FormSignature}
  {
    match t
    case FormText | FormCheckbox | FormRadio | FormDropdown | FormSignature =>
      assert TypeName(t)[..5] == "form-";
    case FooterType => assert TypeName(t)[..5] == "foote";
    case _ => assert TypeName(t)[0] != 'f';
  }

  /** The `annotation-` prefix picks out exactly the four annotation types. */
  lemma AnnotationPrefix(t: ElementType)
    ensures IsAnnotationType(t) <==> t in {AnnotationComment, AnnotationNote, AnnotationStamp, AnnotationHighlight}
  {
    match t
    case AnnotationComment | AnnotationNote | AnnotationStamp | AnnotationHighlight =>
      assert TypeName(t)[..11] == "annotation-";
    case _ => assert TypeName(t)[0] != 'a';
  }

  /** No type is both a form type and an annotation type. */
  lemma TypePrefixes(t: ElementType)
    ensures !(IsFormType(t) && IsAnnotationType(t))
  {
    FormPrefix(t);
    AnnotationPrefix(t);
  }

}
