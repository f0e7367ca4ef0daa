/** The document properties dialog: the keyword list and the permission
    controls, edited on a local copy of the properties. */
module DocumentPropertiesDialog {
  import opened Common
  import opened Document
  import opened ListOps

  const DefaultPrinting := "high-res"

  /** The dialog's local state. */
  datatype Dialog = Dialog(props: DocumentProperties, keywordInput: string)

  /** `addKeyword()`: a blank input is ignored. */
  function AddKeyword(d: Dialog): (r: Dialog)
    ensures IsBlank(d.keywordInput) ==> r == d
    ensures !IsBlank(d.keywordInput) ==>
      r.keywordInput == "" && r.props == d.props.(keywords := r.props.keywords) &&
      r.props.keywords == Some(d.props.keywords.GetOr([]) + [Trim(d.keywordInput)])
  {
    if IsBlank(d.keywordInput) then d
    else Dialog(d.props.(keywords := Some(d.props.keywords.GetOr([]) + [Trim(d.keywordInput)])), "")
  }

  /** An added keyword never starts or ends with whitespace and is never empty. */
  lemma AddedKeywordTrimmed(d: Dialog)
    requires !IsBlank(d.keywordInput)
    ensures var ks := AddKeyword(d).props.keywords.value;
      var k := ks[|ks| - 1];
      k != "" && !IsJsWhitespace(k[0]) && !IsJsWhitespace(k[|k| - 1])
  {
    TrimStartFacts(d.keywordInput);
    TrimEndFacts(TrimStart(d.keywordInput));
  }

  /** `removeKeyword(index)`: `keywords?.filter((_, i) => i !== index)`. */
  function RemoveKeyword(d: Dialog, index: int): (r: Dialog)
    ensures r.keywordInput == d.keywordInput && r.props == d.props.(keywords := r.props.keywords)
    ensures d.props.keywords.None? ==> r.props.keywords.None?
    ensures d.props.keywords.Some? && 0 <= index < |d.props.keywords.value| ==>
      r.props.keywords == Some(RemoveAt(d.props.keywords.value, index))
    ensures d.props.keywords.Some? && !(0 <= index < |d.props.keywords.value|) ==> r.props.keywords == d.props.keywords
  {
    match d.props.keywords
    case None => d
    case Some(ks) =>
      var rest := if 0 <= index < |ks| then RemoveAt(ks, index) else ks;
      d.(props := d.props.(keywords := Some(rest)))
  }

  /** `updatePermission(key, value)`: `{ ...prev.permissions, [key]: value }`. */
  function UpdatePermission(p: DocumentProperties, key: PermissionKey, value: PermissionValue): (r: DocumentProperties)
    ensures r.permissions.Some? && key in r.permissions.value && r.permissions.value[key] == value
    ensures forall k :: k != key ==>
      (p.permissions.Some? && k in p.permissions.value <==> k in r.permissions.value) &&
      (p.permissions.Some? && k in p.permissions.value ==> r.permissions.value[k] == p.permissions.value[k])
    ensures r == p.(permissions := r.permissions)
  {
    p.(permissions := Some(p.permissions.GetOr(map[])[key := value]))
  }

  /** The printing select shows `permissions?.printing || 'high-res'`; the
      printing key holds a level by its declared type. */
  function PrintingShown(p: DocumentProperties): (level: string)
    ensures level != ""
    ensures (p.permissions.None? || Printing !in p.permissions.value) ==> level == DefaultPrinting
  {
    if p.permissions.Some? && Printing in p.permissions.value && p.permissions.value[Printing].Level?
       && p.permissions.value[Printing].level != ""
    then p.permissions.value[Printing].level
    else DefaultPrinting
  }

  /** A permission checkbox shows `permissions?.<key> !== false`. */
  function AllowedShown(p: DocumentProperties, key: PermissionKey): (checked: bool)
    ensures !checked <==> p.permissions.Some? && key in p.permissions.value && p.permissions.value[key] == Allowed(false)
  {
    !(p.permissions.Some? && key in p.permissions.value && p.permissions.value[key] == Allowed(false))
  }

  /** Every control shows what was last chosen for it, and only its own key
      changes what the others show. */
  lemma ControlsShowUpdates(p: DocumentProperties, key: PermissionKey, other: PermissionKey, b: bool, level: string)
    requires other != key
    ensures AllowedShown(UpdatePermission(p, key, Allowed(b)), key) == b
    ensures level != "" ==> PrintingShown(UpdatePermission(p, Printing, Level(level))) == level
    ensures AllowedShown(UpdatePermission(p, key, Allowed(b)), other) == AllowedShown(p, other)
    ensures other == Printing ==> PrintingShown(UpdatePermission(p, key, Allowed(b))) == PrintingShown(p)
  {
  }

  /** With no permissions recorded, everything shows as allowed at high
      resolution. */
  lemma DefaultsShown(p: DocumentProperties, key: PermissionKey)
    requires p.permissions.None?
    ensures AllowedShown(p, key) && PrintingShown(p) == DefaultPrinting
  {
  }
}
