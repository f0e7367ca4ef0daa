/** The persistence envelope: every saved template lives in one
    `{version, lastUpdated, templates}` record under a single browser storage
    key. The key's slot is the one piece of mutable state; what `JSON.parse`
    makes of the text in it is modelled directly, and the clock reading
    (`new Date().toISOString()`) is a parameter. */
module TemplateStorage {
  import opened Common
  import opened Document
  import opened Wire
  import opened ListOps

  const StorageVersion := "1.0"

  /** `StorageData` */
  datatype Envelope = Envelope(version: string, lastUpdated: string, templates: seq<Template>)

  /** What is found under the storage key once parsed: nothing usable (no
      entry, empty text, text that does not parse, `null`), or a record whose
      `version` (empty when missing) and `templates` (when present) are read. */
  datatype Stored = Unreadable | Saved(version: string, lastUpdated: string, templates: Option<seq<Template>>)

  /** What `JSON.stringify(data)` leaves under the key. */
  function Write(e: Envelope): Stored {
    Saved(e.version, e.lastUpdated, Some(e.templates))
  }

  function FreshEnvelope(now: string): Envelope {
    Envelope(StorageVersion, now, [])
  }

  /** The stored record is taken as it is when its `version` and `templates`
      are both truthy. */
  predicate Usable(item: Option<Stored>) {
    item.Some? && item.value.Saved? && item.value.version != "" && item.value.templates.Some?
  }

  /** `loadStorageData()`: the stored envelope, or a fresh one. */
  function LoadStorageData(item: Option<Stored>, now: string): (e: Envelope)
    ensures e.version != ""
    ensures !Usable(item) ==> e == FreshEnvelope(now)
    ensures Usable(item) ==> e.version == item.value.version && e.templates == item.value.templates.value
    ensures Usable(item) ==> e.lastUpdated == item.value.lastUpdated
  {
    if Usable(item) then Envelope(item.value.version, item.value.lastUpdated, item.value.templates.value)
    else FreshEnvelope(now)
  }

  /** What is written is what is read back, whatever the clock says. */
  lemma LoadWritten(e: Envelope, now: string)
    requires e.version != ""
    ensures LoadStorageData(Some(Write(e)), now) == e
  {
  }

  /** `loadTemplates()`: the stored templates (date revival is the identity
      on timestamps). */
  function LoadTemplates(item: Option<Stored>): (ts: seq<Template>)
    ensures !Usable(item) ==> ts == []
    ensures Usable(item) ==> ts == item.value.templates.value
  {
    LoadStorageData(item, "").templates
  }

  /** `getTemplate(id)`: the first stored template with that id. */
  function GetTemplate(item: Option<Stored>, id: string): (r: Option<Template>)
    ensures r.None? <==> forall i :: 0 <= i < |LoadTemplates(item)| ==> LoadTemplates(item)[i].id != id
    ensures r.Some? ==> r.value.id == id && r.value in LoadTemplates(item)
    ensures r.Some? ==> var ts := LoadTemplates(item);
      exists i :: 0 <= i < |ts| && ts[i] == r.value && forall j :: 0 <= j < i ==> ts[j].id != id
  {
    Find(LoadTemplates(item), TemplateId, id)
  }

  datatype StorageInfo = StorageInfo(count: nat, lastUpdated: string)

  /** `getStorageInfo()` */
  function GetStorageInfo(item: Option<Stored>, now: string): (info: StorageInfo)
    ensures info.count == |LoadTemplates(item)|
    ensures !Usable(item) ==> info == StorageInfo(0, now)
    ensures Usable(item) ==> info.lastUpdated == item.value.lastUpdated
  {
    var data := LoadStorageData(item, now);
    StorageInfo(|data.templates|, data.lastUpdated)
  }

  // ---------------------------------------------------------------------
  // What each writing operation leaves in storage
  // ---------------------------------------------------------------------

  /** The envelope `saveTemplate(t)` writes. */
  function AfterSave(item: Option<Stored>, t: Template, now: string): Envelope {
    var data := LoadStorageData(item, now);
    Envelope(data.version, now, Upsert(data.templates, TemplateId, t))
  }

  /** After saving, `getTemplate(t.id)` finds `t`; a template with the same id
      is replaced where it stood, otherwise `t` is appended. */
  lemma SaveThenGet(item: Option<Stored>, t: Template, now: string)
    ensures GetTemplate(Some(Write(AfterSave(item, t, now))), t.id) == Some(t)
    ensures var before, after := LoadTemplates(item), LoadTemplates(Some(Write(AfterSave(item, t, now))));
      var k := FindIndex(before, TemplateId, t.id);
      (k >= 0 ==>
        |after| == |before| && after[k] == t &&
        forall i :: 0 <= i < |before| && i != k ==> after[i] == before[i]) &&
      (k == -1 ==> after == before + [t])
  {
    LoadWritten(AfterSave(item, t, now), now);
  }

  /** The envelope `deleteTemplate(id)` writes, when it writes one. */
  function AfterDelete(item: Option<Stored>, id: string, now: string): (e: Option<Envelope>)
    ensures e.None? <==> forall i :: 0 <= i < |LoadTemplates(item)| ==> LoadTemplates(item)[i].id != id
  {
    var data := LoadStorageData(item, now);
    var index := FindIndex(data.templates, TemplateId, id);
    assert data.templates == LoadTemplates(item);
    if index >= 0 then Some(Envelope(data.version, now, RemoveAt(data.templates, index))) else None
  }

  /** Deleting removes the first template with the id, and only it: the
      others stay, in order. */
  lemma DeleteFirstMatch(item: Option<Stored>, id: string, now: string)
    requires AfterDelete(item, id, now).Some?
    ensures var before, after := LoadTemplates(item), LoadTemplates(Some(Write(AfterDelete(item, id, now).value)));
      var k := FindIndex(before, TemplateId, id);
      0 <= k < |before| && before[k].id == id && |after| == |before| - 1 &&
      after == before[..k] + before[k + 1..] &&
      forall i :: 0 <= i < k ==> before[i].id != id
  {
    var before := LoadTemplates(item);
    var k := FindIndex(before, TemplateId, id);
    var after := LoadTemplates(Some(Write(AfterDelete(item, id, now).value)));
    LoadWritten(AfterDelete(item, id, now).value, now);
    assert after == RemoveAt(before, k);
    assert after == before[..k] + before[k + 1..];
  }

  /** With identifiers unique, a deleted template is gone afterwards. */
  lemma DeleteUniqueGone(item: Option<Stored>, id: string, now: string)
    requires CountKey(LoadTemplates(item), TemplateId, id) == 1
    ensures AfterDelete(item, id, now).Some?
    ensures GetTemplate(Some(Write(AfterDelete(item, id, now).value)), id).None?
  {
    var before := LoadTemplates(item);
    SingleMatch(before, TemplateId, id);
    OnlyMatch(before, TemplateId, id);
    var k := FindIndex(before, TemplateId, id);
    LoadWritten(AfterDelete(item, id, now).value, now);
    var after := LoadTemplates(Some(Write(AfterDelete(item, id, now).value)));
    assert after == RemoveAt(before, k);
    forall i | 0 <= i < |after| ensures after[i].id != id {
      if i < k {
        assert after[i] == before[i];
      } else {
        assert after[i] == before[i + 1];
      }
    }
  }

  /** When one entry carries the key, every other entry lacks it. */
  lemma {:induction false} OnlyMatch<T>(s: seq<T>, key: T -> string, id: string)
    requires CountKey(s, key, id) == 1
    ensures FindIndex(s, key, id) >= 0
    ensures forall i :: 0 <= i < |s| && i != FindIndex(s, key, id) ==> key(s[i]) != id
    decreases |s|
  {
    SingleMatch(s, key, id);
    if key(s[0]) == id {
      forall i | 1 <= i < |s| ensures key(s[i]) != id {
        FilterMembership(s[1..], HasKey(key, id), s[i]);
        assert s[1..][i - 1] == s[i];
      }
    } else {
      OnlyMatch(s[1..], key, id);
      forall i | 1 <= i < |s| && i != FindIndex(s, key, id) ensures key(s[i]) != id {
        assert s[1..][i - 1] == s[i];
      }
    }
  }

  /** `clearAllTemplates()` writes a fresh, empty envelope. */
  lemma ClearEmpties(now: string, later: string)
    ensures LoadTemplates(Some(Write(FreshEnvelope(now)))) == []
    ensures GetStorageInfo(Some(Write(FreshEnvelope(now))), later) == StorageInfo(0, now)
  {
  }

  // ---------------------------------------------------------------------
  // importFromJSON
  // ---------------------------------------------------------------------

  /** An element of the incoming `templates` array, taken as a template
      (a missing `id` or `name` reads as empty). */
  datatype Entry = NullEntry | Given(template: Template)

  /** The parsed import text: `null`, or a value whose `templates` is read. */
  datatype Incoming = NullJson | JsonObject(templates: ArrayField<Entry>)

  datatype ImportSummary = ImportSummary(success: bool, count: nat, errors: seq<string>)

  const TemplatesNotFound := "Invalid format: templates array not found"

  predicate NoNullEntry(entries: seq<Entry>, n: nat)
    requires n <= |entries|
  {
    forall k :: 0 <= k < n ==> entries[k].Given?
  }

  /** An entry is merged when its `id` and `name` are truthy. */
  predicate Acceptable(t: Template) {
    t.id != "" && t.name != ""
  }

  /** The stored templates after the first `n` entries were merged in. */
  function Merged(ts: seq<Template>, entries: seq<Entry>, n: nat): seq<Template>
    requires n <= |entries| && NoNullEntry(entries, n)
  {
    if n == 0 then ts
    else
      var m := Merged(ts, entries, n - 1);
      var t := entries[n - 1].template;
      if Acceptable(t) then Upsert(m, TemplateId, t) else m
  }

  /** How many of the first `n` entries were merged. */
  function AcceptedCount(entries: seq<Entry>, n: nat): (c: nat)
    requires n <= |entries| && NoNullEntry(entries, n)
    ensures c <= n
  {
    if n == 0 then 0
    else AcceptedCount(entries, n - 1) + (if Acceptable(entries[n - 1].template) then 1 else 0)
  }

  /** The identifiers of the merged entries among the first `n`. */
  function AcceptedIds(entries: seq<Entry>, n: nat): set<string>
    requires n <= |entries| && NoNullEntry(entries, n)
  {
    if n == 0 then {}
    else AcceptedIds(entries, n - 1) + (if Acceptable(entries[n - 1].template) then {entries[n - 1].template.id} else {})
  }

  function Ids(ts: seq<Template>): set<string> {
    set i | 0 <= i < |ts| :: ts[i].id
  }

  /** An upsert adds the new identifier and loses none. */
  lemma UpsertIds(ts: seq<Template>, t: Template)
    ensures Ids(Upsert(ts, TemplateId, t)) == Ids(ts) + {t.id}
  {
    var r := Upsert(ts, TemplateId, t);
    var k := FindIndex(ts, TemplateId, t.id);
    if k >= 0 {
      forall x | x in Ids(ts) ensures x in Ids(r) {
        var i :| 0 <= i < |ts| && ts[i].id == x;
        if i == k {
          assert r[k].id == x;
        } else {
          assert r[i] == ts[i];
        }
      }
      forall x | x in Ids(r) ensures x in Ids(ts) + {t.id} {
        var i :| 0 <= i < |r| && r[i].id == x;
        if i != k {
          assert r[i] == ts[i];
        }
      }
    } else {
      assert r == ts + [t];
      forall x | x in Ids(ts) ensures x in Ids(r) {
        var i :| 0 <= i < |ts| && ts[i].id == x;
        assert r[i] == ts[i];
      }
      assert r[|ts|].id == t.id;
    }
  }

  /** Merging keeps every identifier already stored and adds exactly those of
      the accepted entries. */
  lemma {:induction false} MergedIds(ts: seq<Template>, entries: seq<Entry>, n: nat)
    requires n <= |entries| && NoNullEntry(entries, n)
    ensures Ids(Merged(ts, entries, n)) == Ids(ts) + AcceptedIds(entries, n)
    decreases n
  {
    if n > 0 {
      MergedIds(ts, entries, n - 1);
      var t := entries[n - 1].template;
      if Acceptable(t) {
        UpsertIds(Merged(ts, entries, n - 1), t);
      }
    }
  }

  /** Merging never stores more templates than were there plus the accepted
      ones. */
  lemma {:induction false} MergedLength(ts: seq<Template>, entries: seq<Entry>, n: nat)
    requires n <= |entries| && NoNullEntry(entries, n)
    ensures |ts| <= |Merged(ts, entries, n)| <= |ts| + AcceptedCount(entries, n)
    decreases n
  {
    if n > 0 {
      MergedLength(ts, entries, n - 1);
    }
  }

  /** What `importFromJSON` returns, and the envelope it writes (`None` when
      it writes nothing). A `null` entry makes reading its `id` throw, which
      abandons the import before anything is written. */
  function Imported(item: Option<Stored>, parsed: ParseOutcome<Incoming>, now: string): (ImportSummary, Option<Envelope>) {
    match parsed
    case ParseFailed(message) => (ImportSummary(false, 0, ["Parse error: " + message]), None)
    case Parsed(NullJson) => (ImportSummary(false, 0, ["Parse error: " + NullReadMessage("templates")]), None)
    case Parsed(JsonObject(templates)) =>
      if !templates.Items? then (ImportSummary(false, 0, [TemplatesNotFound]), None)
      else
        var es := templates.items;
        if !NoNullEntry(es, |es|) then (ImportSummary(false, 0, ["Parse error: " + NullReadMessage("id")]), None)
        else
          var data := LoadStorageData(item, now);
          (ImportSummary(true, AcceptedCount(es, |es|), []),
           Some(Envelope(data.version, now, Merged(data.templates, es, |es|))))
  }

  /** The import either fails with one message, no count and no write, or
      succeeds with no message, a count of at most the entries, and a write
      that keeps every stored identifier and adds the accepted ones. */
  lemma ImportOutcome(item: Option<Stored>, parsed: ParseOutcome<Incoming>, now: string)
    ensures var (summary, written) := Imported(item, parsed, now);
      (!summary.success <==> written.None?) &&
      (!summary.success ==> summary.count == 0 && |summary.errors| == 1) &&
      (summary.success ==>
        summary.errors == [] && parsed.Parsed? && parsed.value.JsonObject? && parsed.value.templates.Items? &&
        summary.count <= |parsed.value.templates.items| &&
        Ids(LoadTemplates(Some(Write(written.value)))) ==
          Ids(LoadTemplates(item)) + AcceptedIds(parsed.value.templates.items, |parsed.value.templates.items|))
  {
    var (summary, written) := Imported(item, parsed, now);
    if summary.success {
      var es := parsed.value.templates.items;
      var data := LoadStorageData(item, now);
      MergedIds(data.templates, es, |es|);
      LoadWritten(written.value, now);
    }
  }

  /** The storage slot. */
  class LocalStore {
    var item: Option<Stored>

    constructor (initial: Option<Stored>)
      ensures item == initial
    {
      item := initial;
    }

    /** `saveTemplate(template)` */
    method SaveTemplate(t: Template, now: string)
      modifies this
      ensures item == Some(Write(AfterSave(old(item), t, now)))
      ensures GetTemplate(item, t.id) == Some(t)
    {
      var data := LoadStorageData(item, now);
      var index := FindIndex(data.templates, TemplateId, t.id);
      if index >= 0 {
        data := data.(templates := data.templates[index := t]);
      } else {
        data := data.(templates := data.templates + [t]);
      }
      data := data.(lastUpdated := now);
      SaveThenGet(item, t, now);
      item := Some(Write(data));
    }

    /** `deleteTemplate(id)`: true, and the envelope rewritten, when a
        template had the id; false and nothing written otherwise. */
    method DeleteTemplate(id: string, now: string) returns (deleted: bool)
      modifies this
      ensures deleted == AfterDelete(old(item), id, now).Some?
      ensures deleted ==> item == Some(Write(AfterDelete(old(item), id, now).value))
      ensures !deleted ==> item == old(item)
    {
      var data := LoadStorageData(item, now);
      var index := FindIndex(data.templates, TemplateId, id);
      if index >= 0 {
        data := data.(templates := RemoveAt(data.templates, index), lastUpdated := now);
        item := Some(Write(data));
        return true;
      }
      return false;
    }

    /** `clearAllTemplates()` */
    method ClearAllTemplates(now: string)
      modifies this
      ensures item == Some(Write(FreshEnvelope(now)))
      ensures LoadTemplates(item) == []
    {
      item := Some(Write(Envelope(StorageVersion, now, [])));
    }

    /** `importFromJSON(jsonString)`, with what `JSON.parse` made of the text:
        the `forEach` upserting every entry with an id and a name. */
    method ImportFromJSON(parsed: ParseOutcome<Incoming>, now: string) returns (summary: ImportSummary)
      modifies this
      ensures summary == Imported(old(item), parsed, now).0
      ensures var written := Imported(old(item), parsed, now).1;
        item == if written.Some? then Some(Write(written.value)) else old(item)
    {
      if parsed.ParseFailed? {
        return ImportSummary(false, 0, ["Parse error: " + parsed.message]);
      }
      if parsed.value.NullJson? {
        return ImportSummary(false, 0, ["Parse error: " + NullReadMessage("templates")]);
      }
      if !parsed.value.templates.Items? {
        return ImportSummary(false, 0, [TemplatesNotFound]);
      }
      var entries := parsed.value.templates.items;
      var data := LoadStorageData(item, now);
      var merged := data.templates;
      var importCount := 0;
      for index := 0 to |entries|
        invariant NoNullEntry(entries, index)
        invariant merged == Merged(data.templates, entries, index)
        invariant importCount == AcceptedCount(entries, index)
      {
        if entries[index].NullEntry? {
          return ImportSummary(false, 0, ["Parse error: " + NullReadMessage("id")]);
        }
        var t := entries[index].template;
        if t.id != "" && t.name != "" {
          var existing := FindIndex(merged, TemplateId, t.id);
          if existing >= 0 {
            merged := merged[existing := t];
          } else {
            merged := merged + [t];
          }
          importCount := importCount + 1;
        }
      }
      data := data.(templates := merged, lastUpdated := now);
      item := Some(Write(data));
      return ImportSummary(true, importCount, []);
    }
  }
}
