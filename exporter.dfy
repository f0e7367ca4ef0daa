/** The exporter's pure parts: file names derived from a template's name, the
    option defaults of the integration export and the bundle record of
    several templates. Writing the file (the `Blob`, the object URL and the
    temporary link) and the clipboard are outside the model. */
module TemplateExporter {
  import opened Common
  import opened Document
  import opened Wire
  import opened TemplateService
  import opened TemplateImporter

  // ---------------------------------------------------------------------
  // sanitizeFilename
  // ---------------------------------------------------------------------

  /** The characters `[a-z0-9]` that survive sanitising. */
  predicate SafeChar(c: char) {
    'a' <= c <= 'z' || '0' <= c <= '9'
  }

  /** What a sanitised name may hold: safe characters and single dashes. */
  predicate Slug(s: string) {
    (forall i :: 0 <= i < |s| ==> SafeChar(s[i]) || s[i] == '-') &&
    (forall i :: 0 <= i < |s| - 1 ==> !(s[i] == '-' && s[i + 1] == '-'))
  }

  /** `.replace(/[^a-z0-9]+/g, '-')`: every maximal run of other characters
      becomes one dash. `inRun` says the previous character was replaced. */
  function DashRuns(s: string, inRun: bool): (r: string)
    ensures |r| <= |s|
    decreases |s|
  {
    if s == [] then []
    else if SafeChar(s[0]) then [s[0]] + DashRuns(s[1..], false)
    else if inRun then DashRuns(s[1..], true)
    else ['-'] + DashRuns(s[1..], true)
  }

  /** The dashes `DashRuns` produces are single, and a run already under way
      adds none in front. */
  lemma {:induction false} DashRunsSlug(s: string, inRun: bool)
    ensures Slug(DashRuns(s, inRun))
    ensures inRun && DashRuns(s, inRun) != [] ==> DashRuns(s, inRun)[0] != '-'
    ensures !inRun && s != [] && SafeChar(s[0]) ==> DashRuns(s, inRun)[0] == s[0]
    decreases |s|
  {
    if s != [] {
      DashRunsSlug(s[1..], SafeChar(s[0]) == false);
      var rest := DashRuns(s[1..], !SafeChar(s[0]));
      if SafeChar(s[0]) || !inRun {
        var r := DashRuns(s, inRun);
        assert r == [if SafeChar(s[0]) then s[0] else '-'] + rest;
        assert forall i :: 1 <= i < |r| ==> r[i] == rest[i - 1];
      }
    }
  }

  /** Taking the dashes out of `DashRuns` leaves exactly the safe characters,
      in their order. */
  lemma {:induction false} DashRunsKeepsSafe(s: string, inRun: bool)
    ensures Safe(DashRuns(s, inRun)) == Safe(s)
    decreases |s|
  {
    if s != [] {
      DashRunsKeepsSafe(s[1..], !SafeChar(s[0]));
      var rest := DashRuns(s[1..], !SafeChar(s[0]));
      if SafeChar(s[0]) {
        assert DashRuns(s, inRun) == [s[0]] + rest;
        SafeAppend([s[0]], rest);
      } else if !inRun {
        assert DashRuns(s, inRun) == ['-'] + rest;
        SafeAppend(['-'], rest);
      }
      assert s == [s[0]] + s[1..];
      SafeAppend([s[0]], s[1..]);
    }
  }

  /** The safe characters of `s`, in order. */
  function Safe(s: string): (r: string)
    ensures |r| <= |s|
    decreases |s|
  {
    if s == [] then [] else (if SafeChar(s[0]) then [s[0]] else []) + Safe(s[1..])
  }

  lemma {:induction false} SafeAppend(a: string, b: string)
    ensures Safe(a + b) == Safe(a) + Safe(b)
    decreases |a|
  {
    if a != [] {
      assert (a + b)[0] == a[0];
      assert (a + b)[1..] == a[1..] + b;
      SafeAppend(a[1..], b);
    } else {
      assert a + b == b;
    }
  }

  /** `.replace(/(^-|-$)/g, '')`: one leading and one trailing dash go. */
  function TrimDashes(s: string): (r: string)
    ensures |r| <= |s|
  {
    var t := if s != [] && s[0] == '-' then s[1..] else s;
    if t != [] && t[|t| - 1] == '-' then t[..|t| - 1] else t
  }

  const MaxFilenameLength := 50

  /** `.substring(0, 50)` */
  function Cut(s: string): (r: string)
    ensures |r| <= |s| && |r| <= MaxFilenameLength && r == s[..|r|]
    ensures |s| <= MaxFilenameLength ==> r == s
  {
    if |s| <= MaxFilenameLength then s else s[..MaxFilenameLength]
  }

  /** `sanitizeFilename(name)`, with the lower-casing restricted to ASCII. */
  function SanitizeFilename(name: string): string {
    Cut(TrimDashes(DashRuns(LowerAscii(name), false)))
  }

  /** A slug keeps its shape when its ends are trimmed or it is cut short. */
  lemma SlugParts(s: string, i: nat, j: nat)
    requires Slug(s) && i <= j <= |s|
    ensures Slug(s[i..j])
  {
  }

  /** Trimming a slug leaves a slug with no dash at either end and the same
      safe characters. */
  lemma TrimDashesShape(d: string)
    requires Slug(d)
    ensures var u := TrimDashes(d);
      Slug(u) && (u == [] || (u[0] != '-' && u[|u| - 1] != '-')) && Safe(u) == Safe(d)
  {
    var t := if d != [] && d[0] == '-' then d[1..] else d;
    if d != [] && d[0] == '-' {
      assert d == ['-'] + t;
      SafeAppend(['-'], t);
      SlugParts(d, 1, |d|);
      assert t == [] || t[0] == d[1];
    }
    assert Slug(t) && (t == [] || t[0] != '-') && Safe(t) == Safe(d);
    if t != [] && t[|t| - 1] == '-' {
      var u := t[..|t| - 1];
      assert t == u + ['-'];
      SafeAppend(u, ['-']);
      SlugParts(t, 0, |t| - 1);
      assert u == [] || (u[0] == t[0] && u[|u| - 1] == t[|t| - 2]);
    }
  }

  /** Cutting keeps a prefix: a slug without a leading dash stays one, and its
      safe characters are a prefix of the original's. */
  lemma CutShape(u: string)
    requires Slug(u) && (u == [] || u[0] != '-')
    ensures var r := Cut(u);
      Slug(r) && (r == [] || r[0] != '-') && Safe(r) <= Safe(u)
  {
    var r := Cut(u);
    SlugParts(u, 0, |r|);
    assert u == r + u[|r|..];
    SafeAppend(r, u[|r|..]);
  }

  /** The sanitised name holds only `a-z`, `0-9` and single dashes, has at
      most 50 characters, never starts with a dash, and ends with one only
      when the 50-character cut lands on it. */
  lemma SanitizeShape(name: string)
    ensures var r := SanitizeFilename(name);
      Slug(r) && |r| <= MaxFilenameLength && (r == [] || r[0] != '-') &&
      (r != [] && r[|r| - 1] == '-' ==> |TrimDashes(DashRuns(LowerAscii(name), false))| > MaxFilenameLength)
  {
    var d := DashRuns(LowerAscii(name), false);
    DashRunsSlug(LowerAscii(name), false);
    TrimDashesShape(d);
    CutShape(TrimDashes(d));
  }

  /** The letters and digits of the lower-cased name survive in order, up to
      the cut: the sanitised name without its dashes is a prefix of them. */
  lemma SanitizeKeepsLetters(name: string)
    ensures Safe(SanitizeFilename(name)) <= Safe(LowerAscii(name))
  {
    var d := DashRuns(LowerAscii(name), false);
    DashRunsSlug(LowerAscii(name), false);
    DashRunsKeepsSafe(LowerAscii(name), false);
    TrimDashesShape(d);
    CutShape(TrimDashes(d));
  }

  /** What a sanitised name that does not end in a dash already is: after a
      second pass it comes back unchanged. */
  lemma SanitizeFixpoint(name: string)
    ensures var r := SanitizeFilename(name);
      r == [] || r[|r| - 1] != '-' ==> SanitizeFilename(r) == r
  {
    var r := SanitizeFilename(name);
    SanitizeShape(name);
    if r == [] || r[|r| - 1] != '-' {
      SlugLower(r);
      SlugDashRuns(r, false);
    }
  }

  /** Lower-casing leaves a slug alone. */
  lemma SlugLower(s: string)
    requires Slug(s)
    ensures LowerAscii(s) == s
  {
    LowerAsciiStable(s);
  }

  lemma {:induction false} LowerAsciiStable(s: string)
    requires forall i :: 0 <= i < |s| ==> SafeChar(s[i]) || s[i] == '-'
    ensures LowerAscii(s) == s
    decreases |s|
  {
    if s != [] {
      LowerAsciiStable(s[1..]);
      assert s == [s[0]] + s[1..];
    }
  }

  /** On a slug that does not open with a dash after a replaced character,
      `DashRuns` changes nothing. */
  lemma {:induction false} SlugDashRuns(s: string, inRun: bool)
    requires Slug(s)
    requires inRun ==> s == [] || s[0] != '-'
    ensures DashRuns(s, inRun) == s
    decreases |s|
  {
    if s != [] {
      SlugParts(s, 1, |s|);
      SlugDashRuns(s[1..], !SafeChar(s[0]));
      assert s == [s[0]] + s[1..];
    }
  }

  // ---------------------------------------------------------------------
  // File names and option defaults
  // ---------------------------------------------------------------------

  /** `downloadTemplateAsJSON`: the given file name, or `<sanitized>.json`. */
  function TemplateFilename(t: Template, filename: Option<string>): (r: string)
    ensures Truthy(filename) ==> r == filename.value
    ensures !Truthy(filename) ==> r == SanitizeFilename(t.name) + ".json"
  {
    StrOr(filename, SanitizeFilename(t.name) + ".json")
  }

  /** `downloadForPDFMakerIntegration`: always `pdfmaker-<sanitized>.json`. */
  function IntegrationFilename(t: Template): (r: string)
    ensures StartsWith(r, "pdfmaker-") && |r| >= 14 && r[|r| - 5..] == ".json"
  {
    var r := "pdfmaker-" + SanitizeFilename(t.name) + ".json";
    assert r[..9] == "pdfmaker-";
    assert r[|r| - 5..] == ".json";
    r
  }

  /** `downloadTemplatesBundle`: the given name, or one stamped with
      `Date.now()`. */
  function BundleFilename(bundleName: Option<string>, nowMillis: nat): (r: string)
    ensures Truthy(bundleName) ==> r == bundleName.value
    ensures !Truthy(bundleName) ==> r == "templates-bundle-" + NatToString(nowMillis) + ".json"
  {
    StrOr(bundleName, "templates-bundle-" + NatToString(nowMillis) + ".json")
  }

  /** The options the integration export passes on: metadata and dynamic
      fields default to included (`?? true`), the schema version is left to
      the exporter. */
  function IntegrationOptions(includeMetadata: Option<bool>, includeDynamicFields: Option<bool>): (o: ExportOptions)
    ensures o.includeMetadata == Some(includeMetadata.GetOr(true))
    ensures o.includeDynamicFields == Some(includeDynamicFields.GetOr(true))
    ensures o.schemaVersion.None?
  {
    ExportOptions(Some(includeMetadata.GetOr(true)), Some(includeDynamicFields.GetOr(true)), None)
  }

  /** Leaving both options out exports the same record as passing no options. */
  lemma IntegrationDefaults(t: Template, exportedAt: string)
    ensures ExportForPDFMaker(t, IntegrationOptions(None, None), exportedAt) == ExportForPDFMaker(t, NoOptions, exportedAt)
  {
  }

  // ---------------------------------------------------------------------
  // The bundle
  // ---------------------------------------------------------------------

  /** `templates.map(t => exportForPDFMaker(t))` */
  function ExportAll(ts: seq<Template>, exportedAt: string): (vs: seq<Value>)
    ensures |vs| == |ts|
    ensures forall i :: 0 <= i < |ts| ==> vs[i] == Object(ExportForPDFMaker(ts[i], NoOptions, exportedAt))
  {
    seq(|ts|, i requires 0 <= i < |ts| => Object(ExportForPDFMaker(ts[i], NoOptions, exportedAt)))
  }

  /** The record `downloadTemplatesBundle` serialises; one clock reading
      stands for the several the source takes. */
  function Bundle(ts: seq<Template>, exportedAt: string): (r: Record)
    ensures r.schemaVersion == Some(SchemaVersion) && r.recordType == Some(BundleType)
    ensures r.manifest.Some? && r.manifest.value.count == |ts|
    ensures r.templates == Items(ExportAll(ts, exportedAt))
  {
    EmptyRecord.(
      schemaVersion := Some(SchemaVersion),
      recordType := Some(BundleType),
      exportedAt := Some(exportedAt),
      manifest := Some(CreateTemplateManifest(ts, exportedAt)),
      templates := Items(ExportAll(ts, exportedAt)))
  }

  /** The single-template importer reads a bundle as its first template; an
      empty bundle is refused. */
  lemma BundleSingleImport(ts: seq<Template>, exportedAt: string, freshId: string, now: Timestamp)
    ensures var r := ImportTemplateFromJSON(Parsed(Object(Bundle(ts, exportedAt))), freshId, now);
      (ts == [] ==> r == Failure(["Bundle is empty"])) &&
      (ts != [] ==> r == ImportFromPDFMaker(ExportForPDFMaker(ts[0], NoOptions, exportedAt), freshId, now))
  {
    BundleFirstTemplate(Bundle(ts, exportedAt), freshId, now);
  }

  /** Round trip through the bundle importer: every template with a name comes
      back, in order, and each one without a name yields one message, so the
      import succeeds exactly when some template has a name. */
  lemma BundleRoundTrip(ts: seq<Template>, exportedAt: string, content: string, freshIds: nat -> string, nows: nat -> Timestamp)
    requires content != ""
    ensures var b := BundleImport(content, Parsed(Object(Bundle(ts, exportedAt))), freshIds, nows);
      |b.templates| + |b.errors| == |ts| &&
      |b.templates| == |NamedOnly(ts)| &&
      (forall i :: 0 <= i < |b.templates| ==> b.templates[i].name == NamedOnly(ts)[i].name) &&
      (b.success <==> exists i :: 0 <= i < |ts| && ts[i].name != "")
  {
    var es := ExportAll(ts, exportedAt);
    KeptExported(ts, es, exportedAt, freshIds, nows);
    KeptRefusedCount(EntryResults(es, |es|, freshIds, nows));
    NamedOnlyEmpty(ts);
    BundleEntries(content, Bundle(ts, exportedAt), freshIds, nows);
  }

  /** The templates with a non-empty name, in order. */
  function NamedOnly(ts: seq<Template>): (r: seq<Template>)
    ensures |r| <= |ts|
  {
    if ts == [] then []
    else NamedOnly(ts[..|ts| - 1]) + (if ts[|ts| - 1].name != "" then [ts[|ts| - 1]] else [])
  }

  lemma {:induction false} NamedOnlyEmpty(ts: seq<Template>)
    ensures NamedOnly(ts) == [] <==> forall i :: 0 <= i < |ts| ==> ts[i].name == ""
    decreases |ts|
  {
    if ts != [] {
      var init := ts[..|ts| - 1];
      NamedOnlyEmpty(init);
      assert forall i :: 0 <= i < |init| ==> init[i] == ts[i];
    }
  }

  /** An exported template comes back through `importFromPDFMaker` exactly
      when it has a name, and under that name. */
  lemma ExportedAccepted(t: Template, exportedAt: string, freshId: string, now: Timestamp)
    ensures var r := ImportFromPDFMaker(ExportForPDFMaker(t, NoOptions, exportedAt), freshId, now);
      Accepted(r) == (t.name != "") && (Accepted(r) ==> r.template.value.name == t.name)
  {
    ImportExportRoundTrip(t, NoOptions, exportedAt, freshId, now);
  }

  /** Outcome `k` is accepted exactly when template `k` has a name, and
      then under that name. */
  predicate NamedLike(rs: seq<ImportResult>, ts: seq<Template>)
    requires |rs| == |ts|
  {
    forall k :: 0 <= k < |rs| ==>
      (Accepted(rs[k]) <==> ts[k].name != "") && (Accepted(rs[k]) ==> rs[k].template.value.name == ts[k].name)
  }

  /** One more outcome adds the same name to both sides, or nothing. */
  lemma NamesStep(prev: seq<Template>, named: seq<Template>, cur: seq<Template>, named': seq<Template>,
                  kept: bool, x: Template, y: Template)
    requires |prev| == |named| && forall i :: 0 <= i < |prev| ==> prev[i].name == named[i].name
    requires cur == prev + (if kept then [x] else []) && named' == named + (if kept then [y] else [])
    requires x.name == y.name
    ensures |cur| == |named'| && forall i :: 0 <= i < |cur| ==> cur[i].name == named'[i].name
  {
  }

  /** Then the kept templates are the named ones, name for name. */
  lemma {:induction false} KeptNamedLike(rs: seq<ImportResult>, ts: seq<Template>)
    requires |rs| == |ts| && NamedLike(rs, ts)
    ensures |Kept(rs)| == |NamedOnly(ts)|
    ensures forall i :: 0 <= i < |Kept(rs)| ==> Kept(rs)[i].name == NamedOnly(ts)[i].name
    decreases |rs|
  {
    if rs != [] {
      var rs', ts' := rs[..|rs| - 1], ts[..|ts| - 1];
      assert forall k :: 0 <= k < |rs'| ==> rs'[k] == rs[k] && ts'[k] == ts[k];
      KeptNamedLike(rs', ts');
      var r, t := rs[|rs| - 1], ts[|ts| - 1];
      assert Kept(rs) == Kept(rs') + (if Accepted(r) then [r.template.value] else []);
      assert NamedOnly(ts) == NamedOnly(ts') + (if t.name != "" then [t] else []);
      NamesStep(Kept(rs'), NamedOnly(ts'), Kept(rs), NamedOnly(ts), Accepted(r), if Accepted(r) then r.template.value else t, t);
    }
  }

  /** The templates kept from the records the exporter produced are the
      named ones among the templates, name for name. */
  lemma KeptExported(ts: seq<Template>, es: seq<Value>, exportedAt: string, freshIds: nat -> string, nows: nat -> Timestamp)
    requires |ts| == |es|
    requires forall k :: 0 <= k < |es| ==> es[k] == Object(ExportForPDFMaker(ts[k], NoOptions, exportedAt))
    ensures NoNull(es, |es|)
    ensures var kept := Kept(EntryResults(es, |es|, freshIds, nows));
      |kept| == |NamedOnly(ts)| && forall i :: 0 <= i < |kept| ==> kept[i].name == NamedOnly(ts)[i].name
  {
    var rs := EntryResults(es, |es|, freshIds, nows);
    forall k | 0 <= k < |rs|
      ensures (Accepted(rs[k]) <==> ts[k].name != "") && (Accepted(rs[k]) ==> rs[k].template.value.name == ts[k].name)
    {
      ExportedAccepted(ts[k], exportedAt, freshIds(k), nows(k));
    }
    KeptNamedLike(rs, ts);
  }
}
