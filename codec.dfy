/** The PDFMaker interchange service: dynamic-field extraction, export of a
    template to a PDFMaker record, import back with collected errors and
    warnings, structural validation, the manifest, and recognition of a parsed
    PDFMaker record. */
module TemplateService {
  import opened Common
  import opened Document
  import opened ListOps
  import opened Wire

  const SchemaVersion := "1.0"
  const MetadataVersion := "1.0.0"
  const DefaultMargins := Margins(20.0, 20.0, 20.0, 20.0)

  // ---------------------------------------------------------------------
  // The `/\{\{([^}]+)\}\}/g` scan
  // ---------------------------------------------------------------------

  /** The first `}` at or after `k`, or the end of the text. */
  function FirstClose(s: string, k: nat): (r: nat)
    requires k <= |s|
    ensures k <= r <= |s|
    ensures r < |s| ==> s[r] == '}'
    ensures forall q :: k <= q < r ==> s[q] != '}'
    decreases |s| - k
  {
    if k == |s| || s[k] == '}' then k else FirstClose(s, k + 1)
  }

  /** A match occupies `s[start..close + 2]`: `{{`, the captured text
      `s[start + 2..close]`, then `}}`. */
  datatype Match = Match(start: nat, close: nat)

  predicate IsMatch(s: string, m: Match) {
    m.start + 2 < m.close && m.close + 2 <= |s| &&
    s[m.start] == '{' && s[m.start + 1] == '{' &&
    s[m.close] == '}' && s[m.close + 1] == '}' &&
    forall q :: m.start + 2 <= q < m.close ==> s[q] != '}'
  }

  /** Whether the pattern matches at `i`. */
  function MatchAt(s: string, i: nat): (r: Option<Match>)
    ensures r.Some? ==> r.value.start == i && IsMatch(s, r.value)
  {
    if i + 3 < |s| && s[i] == '{' && s[i + 1] == '{' then
      var c := FirstClose(s, i + 2);
      if i + 2 < c && c + 1 < |s| && s[c + 1] == '}' then Some(Match(i, c)) else None
    else None
  }

  /** `[^}]+` is greedy and stops at the first `}`; giving characters back
      cannot help, since the next character would then not be `}`. So when
      `MatchAt` finds nothing, no match starts at `i`. */
  lemma MatchAtComplete(s: string, i: nat, c: nat)
    requires IsMatch(s, Match(i, c))
    ensures MatchAt(s, i) == Some(Match(i, c))
  {
    FirstCloseAfterPlain(s, i + 2, c);
  }

  /** `pattern.exec(s)` with `lastIndex == from`: the leftmost match at or
      after `from`. */
  function NextMatch(s: string, from: nat): (m: Option<Match>)
    ensures m.Some? ==> from <= m.value.start && m.value.start + 2 < m.value.close && m.value.close + 2 <= |s|
    decreases |s| - from
  {
    if from + 3 >= |s| then None
    else if MatchAt(s, from).Some? then MatchAt(s, from)
    else NextMatch(s, from + 1)
  }

  /** What `exec` reports is a match. */
  lemma {:induction false} NextMatchSound(s: string, from: nat)
    ensures NextMatch(s, from).Some? ==> IsMatch(s, NextMatch(s, from).value)
    decreases |s| - from
  {
    if from + 3 < |s| && MatchAt(s, from).None? {
      NextMatchSound(s, from + 1);
    }
  }

  /** No match starts between `from` and the one `exec` reports, and `exec`
      reports one whenever some match starts at or after `from`. */
  lemma {:induction false} NextMatchLeftmost(s: string, from: nat, i: nat, c: nat)
    requires from <= i && IsMatch(s, Match(i, c))
    ensures NextMatch(s, from).Some? && NextMatch(s, from).value.start <= i
    decreases |s| - from
  {
    if from < i && MatchAt(s, from).None? {
      NextMatchLeftmost(s, from + 1, i, c);
    } else if from == i {
      MatchAtComplete(s, i, c);
    }
  }

  /** `match[1].trim()` */
  function Capture(s: string, m: Match): string
    requires m.start + 2 <= m.close <= |s|
  {
    Trim(s[m.start + 2..m.close])
  }

  /** The trimmed captures of every match from `from` on, in text order. */
  function Placeholders(s: string, from: nat): (names: seq<string>)
    decreases |s| - from
  {
    match NextMatch(s, from)
    case None => []
    case Some(m) => [Capture(s, m)] + Placeholders(s, m.close + 2)
  }

  lemma FirstCloseAfterPlain(s: string, k: nat, j: nat)
    requires k <= j < |s| && s[j] == '}'
    requires forall q :: k <= q < j ==> s[q] != '}'
    ensures FirstClose(s, k) == j
    decreases j - k
  {
    if k < j {
      FirstCloseAfterPlain(s, k + 1, j);
    }
  }

  /** Text without `{` has no placeholders. */
  lemma {:induction false} NoBraceNoPlaceholders(s: string, from: nat)
    requires forall i :: 0 <= i < |s| ==> s[i] != '{'
    ensures Placeholders(s, from) == []
  {
    NextMatchSound(s, from);
  }

  /** A single `{{x}}` with a non-empty, `}`-free `x` yields exactly the
      trimmed `x`. */
  lemma PlaceholderRecognised(x: string)
    requires x != [] && forall q :: 0 <= q < |x| ==> x[q] != '}'
    ensures Placeholders("{{" + x + "}}", 0) == [Trim(x)]
  {
    var s := "{{" + x + "}}";
    var c := |x| + 2;
    WholeMatch(x);
    assert NextMatch(s, c + 2).None?;
    assert Placeholders(s, c + 2) == [];
    assert s[2..c] == x;
    assert Capture(s, Match(0, c)) == Trim(x);
  }

  /** The one match of `{{x}}` spans the whole text. */
  lemma WholeMatch(x: string)
    requires x != [] && forall q :: 0 <= q < |x| ==> x[q] != '}'
    ensures NextMatch("{{" + x + "}}", 0) == Some(Match(0, |x| + 2))
  {
    var s := "{{" + x + "}}";
    var c := |x| + 2;
    assert |s| == c + 2;
    assert s[0] == '{' && s[1] == '{' && s[c] == '}' && s[c + 1] == '}';
    forall q | 2 <= q < c
      ensures s[q] != '}'
    {
      assert s[q] == x[q - 2];
    }
    FirstCloseAfterPlain(s, 2, c);
    assert MatchAt(s, 0) == Some(Match(0, c));
  }

  // ---------------------------------------------------------------------
  // extractDynamicFields
  // ---------------------------------------------------------------------

  /** The definition every extracted name gets. */
  function FieldDef(name: string, description: string): (f: FieldDefinition)
    ensures f.name == name && f.description == description
    ensures FixedAttributes(f)
  {
    FieldDefinition(name, "string", false, "", description)
  }

  predicate FixedAttributes(f: FieldDefinition) {
    f.fieldType == "string" && !f.required && f.defaultValue == ""
  }

  /** Where the first definition named `n` sits in `fs`, or -1. */
  function FirstIndexOf(fs: seq<FieldDefinition>, n: string): (r: int)
    ensures -1 <= r < |fs|
    decreases |fs|
  {
    if fs == [] then -1
    else if fs[0].name == n then 0
    else
      var k := FirstIndexOf(fs[1..], n);
      if k == -1 then -1 else k + 1
  }

  /** FirstIndexOf finds exactly the first definition with the name. */
  lemma {:induction false} FirstIndexOfFirst(fs: seq<FieldDefinition>, n: string)
    ensures FirstIndexOf(fs, n) == -1 <==> forall i :: 0 <= i < |fs| ==> fs[i].name != n
    ensures FirstIndexOf(fs, n) >= 0 ==>
      fs[FirstIndexOf(fs, n)].name == n && forall i :: 0 <= i < FirstIndexOf(fs, n) ==> fs[i].name != n
    decreases |fs|
  {
    if fs != [] {
      FirstIndexOfFirst(fs[1..], n);
      if fs[0].name != n {
        assert forall i :: 1 <= i < |fs| ==> fs[i] == fs[1..][i - 1];
      }
    }
  }

  function NamesOf(fs: seq<FieldDefinition>): set<string> {
    set k | 0 <= k < |fs| :: fs[k].name
  }

  /** The name a `dynamic-field` element names itself, untrimmed. */
  function FieldCandidate(e: Element): seq<FieldDefinition> {
    if e.elementType == "dynamic-field" && Truthy(e.dynamicField) then
      [FieldDef(e.dynamicField.value, "Dynamic field from element: " + e.id)]
    else []
  }

  /** The names an element's content mentions as `{{name}}`. */
  function ContentCandidates(e: Element): seq<FieldDefinition> {
    if Truthy(e.content) then
      Described(Placeholders(e.content.value, 0), "Extracted from content in element: " + e.id)
    else []
  }

  function Described(names: seq<string>, description: string): (r: seq<FieldDefinition>)
    ensures |r| == |names|
    ensures forall k :: 0 <= k < |r| ==> r[k] == FieldDef(names[k], description)
  {
    seq(|names|, k requires 0 <= k < |names| => FieldDef(names[k], description))
  }

  /** One element's proposals: its own field first, then its content's. */
  function ElementCandidates(e: Element): seq<FieldDefinition> {
    FieldCandidate(e) + ContentCandidates(e)
  }

  /** Every proposal of a list of elements, element by element. */
  function Candidates(es: seq<Element>): (r: seq<FieldDefinition>)
    ensures forall k :: 0 <= k < |r| ==> FixedAttributes(r[k])
  {
    if es == [] then [] else Candidates(es[..|es| - 1]) + ElementCandidates(es[|es| - 1])
  }

  lemma NamesOfCons(fs: seq<FieldDefinition>)
    requires fs != []
    ensures NamesOf(fs) == {fs[0].name} + NamesOf(fs[1..])
  {
    forall n | n in NamesOf(fs) ensures n in {fs[0].name} + NamesOf(fs[1..]) {
      var k :| 0 <= k < |fs| && fs[k].name == n;
      if k > 0 { assert fs[1..][k - 1] == fs[k]; }
    }
    forall n | n in NamesOf(fs[1..]) ensures n in NamesOf(fs) {
      var k :| 0 <= k < |fs[1..]| && fs[1..][k].name == n;
      assert fs[k + 1] == fs[1..][k];
    }
  }

  /** Keep each proposal whose name is new (not in `seen` and not proposed
      earlier), as the `Set` of field names does. */
  function DedupFrom(fs: seq<FieldDefinition>, seen: set<string>): (r: seq<FieldDefinition>)
    ensures |r| <= |fs|
    decreases |fs|
  {
    if fs == [] then []
    else if fs[0].name in seen then DedupFrom(fs[1..], seen)
    else [fs[0]] + DedupFrom(fs[1..], seen + {fs[0].name})
  }

  /** Every field of `r` is one of `fs` with a name outside `seen`. */
  predicate KeptUnseen(fs: seq<FieldDefinition>, r: seq<FieldDefinition>, seen: set<string>) {
    forall k :: 0 <= k < |r| ==> r[k] in fs && r[k].name !in seen
  }

  predicate UniqueNames(r: seq<FieldDefinition>) {
    forall i, j :: 0 <= i < j < |r| ==> r[i].name != r[j].name
  }

  /** Every kept field is a proposal whose name was not seen, and no name is
      kept twice. */
  lemma {:induction false} DedupUnique(fs: seq<FieldDefinition>, seen: set<string>)
    ensures KeptUnseen(fs, DedupFrom(fs, seen), seen) && UniqueNames(DedupFrom(fs, seen))
    decreases |fs|
  {
    if fs != [] {
      var r := DedupFrom(fs, seen);
      var s' := if fs[0].name in seen then seen else seen + {fs[0].name};
      var rest := DedupFrom(fs[1..], s');
      DedupUnique(fs[1..], s');
      forall k | 0 <= k < |rest| ensures rest[k] in fs {
        assert rest[k] in fs[1..];
      }
      if fs[0].name !in seen {
        assert r == [fs[0]] + rest;
        forall i, j | 0 <= i < j < |r| ensures r[i].name != r[j].name {
          assert r[j] == rest[j - 1];
          if i > 0 { assert r[i] == rest[i - 1]; }
        }
        forall k | 0 <= k < |r| ensures r[k] in fs && r[k].name !in seen {
          if k > 0 { assert r[k] == rest[k - 1]; }
        }
      }
    }
  }

  /** The fields `extractDynamicFields` returns. */
  function DynamicFields(es: seq<Element>): seq<FieldDefinition> {
    DedupFrom(Candidates(es), {})
  }

  /** Considering one more proposal adds it exactly when its name is new. */
  lemma {:induction false} DedupStep(fs: seq<FieldDefinition>, seen: set<string>, f: FieldDefinition)
    ensures DedupFrom(fs + [f], seen) ==
      DedupFrom(fs, seen) + (if f.name in seen + NamesOf(fs) then [] else [f])
    decreases |fs|
  {
    if fs == [] {
      assert [f][1..] == [];
    } else {
      assert (fs + [f])[1..] == fs[1..] + [f];
      NamesOfCons(fs);
      if fs[0].name in seen {
        DedupStep(fs[1..], seen, f);
      } else {
        DedupStep(fs[1..], seen + {fs[0].name}, f);
      }
    }
  }

  /** The kept names are exactly the proposed names that were not seen. */
  lemma {:induction false} DedupNames(fs: seq<FieldDefinition>, seen: set<string>)
    ensures NamesOf(DedupFrom(fs, seen)) == NamesOf(fs) - seen
    decreases |fs|
  {
    if fs != [] {
      var r := DedupFrom(fs, seen);
      NamesOfCons(fs);
      if fs[0].name in seen {
        DedupNames(fs[1..], seen);
      } else {
        var rest := DedupFrom(fs[1..], seen + {fs[0].name});
        DedupNames(fs[1..], seen + {fs[0].name});
        assert r == [fs[0]] + rest;
        NamesOfCons(r);
        assert r[1..] == rest;
      }
    }
  }

  /** Each of `r` is the first entry of `fs` with its name. */
  predicate KeptFirst(fs: seq<FieldDefinition>, r: seq<FieldDefinition>) {
    forall k :: 0 <= k < |r| ==>
      FirstIndexOf(fs, r[k].name) >= 0 && r[k] == fs[FirstIndexOf(fs, r[k].name)]
  }

  /** The entries of `r` follow the order of their first occurrences in `fs`. */
  predicate KeptInOrder(fs: seq<FieldDefinition>, r: seq<FieldDefinition>) {
    forall i, j :: 0 <= i < j < |r| ==>
      FirstIndexOf(fs, r[i].name) < FirstIndexOf(fs, r[j].name)
  }

  /** Past a first entry with another name, positions shift by one. */
  lemma FirstIndexPast(fs: seq<FieldDefinition>, n: string)
    requires fs != [] && fs[0].name != n && FirstIndexOf(fs[1..], n) >= 0
    ensures FirstIndexOf(fs, n) == FirstIndexOf(fs[1..], n) + 1
    ensures fs[FirstIndexOf(fs, n)] == fs[1..][FirstIndexOf(fs[1..], n)]
  {
  }

  /** The names seen once the first proposal has been considered. */
  function SeenAfter(fs: seq<FieldDefinition>, seen: set<string>): set<string>
    requires fs != []
  {
    if fs[0].name in seen then seen else seen + {fs[0].name}
  }

  /** The fields kept from the proposals after the first. */
  function KeptRest(fs: seq<FieldDefinition>, seen: set<string>): seq<FieldDefinition>
    requires fs != []
  {
    DedupFrom(fs[1..], SeenAfter(fs, seen))
  }

  /** Every field kept after the first proposal is found one place further on
      in the whole list, and never at its head. */
  predicate Shifted(fs: seq<FieldDefinition>, rest: seq<FieldDefinition>)
    requires fs != []
  {
    forall k :: 0 <= k < |rest| ==>
      FirstIndexOf(fs[1..], rest[k].name) >= 0 &&
      FirstIndexOf(fs, rest[k].name) == FirstIndexOf(fs[1..], rest[k].name) + 1 &&
      rest[k] == fs[FirstIndexOf(fs, rest[k].name)]
  }

  lemma {:induction false} DedupShift(fs: seq<FieldDefinition>, seen: set<string>)
    requires fs != [] && KeptFirst(fs[1..], KeptRest(fs, seen))
    ensures Shifted(fs, KeptRest(fs, seen))
  {
    var rest := KeptRest(fs, seen);
    DedupUnique(fs[1..], SeenAfter(fs, seen));
    forall k | 0 <= k < |rest|
      ensures FirstIndexOf(fs[1..], rest[k].name) >= 0
      ensures FirstIndexOf(fs, rest[k].name) == FirstIndexOf(fs[1..], rest[k].name) + 1
      ensures rest[k] == fs[FirstIndexOf(fs, rest[k].name)]
    {
      assert rest[k].name !in SeenAfter(fs, seen);
      FirstIndexPast(fs, rest[k].name);
    }
  }

  /** Unfolding the deduplication once. */
  lemma DedupCons(fs: seq<FieldDefinition>, seen: set<string>)
    requires fs != []
    ensures DedupFrom(fs, seen) == (if fs[0].name in seen then [] else [fs[0]]) + KeptRest(fs, seen)
  {
  }

  /** Each kept field is the first proposal with its name. */
  lemma {:induction false} DedupKeptFirst(fs: seq<FieldDefinition>, seen: set<string>)
    ensures KeptFirst(fs, DedupFrom(fs, seen))
    decreases |fs|
  {
    if fs != [] {
      var r := DedupFrom(fs, seen);
      var rest := KeptRest(fs, seen);
      DedupKeptFirst(fs[1..], SeenAfter(fs, seen));
      DedupShift(fs, seen);
      DedupCons(fs, seen);
      var d := |r| - |rest|;
      forall k | 0 <= k < |r|
        ensures FirstIndexOf(fs, r[k].name) >= 0 && r[k] == fs[FirstIndexOf(fs, r[k].name)]
      {
        if k >= d {
          assert r[k] == rest[k - d];
        }
      }
    }
  }

  /** The kept fields appear in the order of their first proposals. */
  lemma {:induction false} DedupKeptInOrder(fs: seq<FieldDefinition>, seen: set<string>)
    ensures KeptInOrder(fs, DedupFrom(fs, seen))
    decreases |fs|
  {
    if fs != [] {
      DedupKeptInOrder(fs[1..], SeenAfter(fs, seen));
      DedupKeptFirst(fs[1..], SeenAfter(fs, seen));
      DedupShift(fs, seen);
      InOrderCons(fs, seen);
    }
  }

  /** The induction step of DedupKeptInOrder. */
  lemma InOrderCons(fs: seq<FieldDefinition>, seen: set<string>)
    requires fs != []
    requires KeptInOrder(fs[1..], KeptRest(fs, seen)) && Shifted(fs, KeptRest(fs, seen))
    ensures KeptInOrder(fs, DedupFrom(fs, seen))
  {
    DedupCons(fs, seen);
    if fs[0].name in seen {
      assert DedupFrom(fs, seen) == KeptRest(fs, seen);
      InOrderShifted(fs, KeptRest(fs, seen));
    } else {
      InOrderPrepend(fs, KeptRest(fs, seen));
    }
  }

  lemma InOrderShifted(fs: seq<FieldDefinition>, rest: seq<FieldDefinition>)
    requires fs != [] && KeptInOrder(fs[1..], rest) && Shifted(fs, rest)
    ensures KeptInOrder(fs, rest)
  {
    forall i, j | 0 <= i < j < |rest|
      ensures FirstIndexOf(fs, rest[i].name) < FirstIndexOf(fs, rest[j].name)
    {
      assert FirstIndexOf(fs[1..], rest[i].name) < FirstIndexOf(fs[1..], rest[j].name);
    }
  }

  lemma InOrderPrepend(fs: seq<FieldDefinition>, rest: seq<FieldDefinition>)
    requires fs != [] && KeptInOrder(fs[1..], rest) && Shifted(fs, rest)
    ensures KeptInOrder(fs, [fs[0]] + rest)
  {
    var r := [fs[0]] + rest;
    InOrderShifted(fs, rest);
    assert FirstIndexOf(fs, fs[0].name) == 0;
    forall i, j | 0 <= i < j < |r|
      ensures FirstIndexOf(fs, r[i].name) < FirstIndexOf(fs, r[j].name)
    {
      assert r[j] == rest[j - 1];
      assert FirstIndexOf(fs, rest[j - 1].name) >= 1;
      if i > 0 {
        assert r[i] == rest[i - 1];
        assert FirstIndexOf(fs, rest[i - 1].name) < FirstIndexOf(fs, rest[j - 1].name);
      } else {
        assert r[i] == fs[0];
      }
    }
  }

  /** What `extractDynamicFields` promises: names are unique, come in
      first-proposal order, cover every proposed name, and every definition is
      a non-required string field with an empty default. */
  lemma DynamicFieldsProperties(es: seq<Element>)
    ensures var r, c := DynamicFields(es), Candidates(es);
      UniqueNames(r) &&
      NamesOf(r) == NamesOf(c) &&
      (forall k :: 0 <= k < |r| ==> FixedAttributes(r[k])) &&
      KeptFirst(c, r) && KeptInOrder(c, r)
  {
    DedupNames(Candidates(es), {});
    DedupUnique(Candidates(es), {});
    DedupKeptFirst(Candidates(es), {});
    DedupKeptInOrder(Candidates(es), {});
  }

  /** A `dynamic-field` element's own field comes before the names in its
      content, so it is the first definition extracted from it alone. */
  lemma OwnFieldFirst(e: Element)
    requires e.elementType == "dynamic-field" && Truthy(e.dynamicField)
    ensures DynamicFields([e]) != [] && DynamicFields([e])[0].name == e.dynamicField.value
    ensures DynamicFields([e])[0].description == "Dynamic field from element: " + e.id
  {
    assert [e][..0] == [];
    assert Candidates([e]) == ElementCandidates(e);
  }

  /** The extraction state after considering the proposals `proposed`: the
      fields kept so far and the set of their names. */
  predicate Tracks(fields: seq<FieldDefinition>, fieldNames: set<string>, proposed: seq<FieldDefinition>) {
    fields == DedupFrom(proposed, {}) && fieldNames == NamesOf(proposed)
  }

  /** The `if (!fieldNames.has(name)) { add; push }` step both sources share. */
  method Offer(fields: seq<FieldDefinition>, fieldNames: set<string>, ghost proposed: seq<FieldDefinition>, f: FieldDefinition)
    returns (fields': seq<FieldDefinition>, fieldNames': set<string>)
    requires Tracks(fields, fieldNames, proposed)
    ensures Tracks(fields', fieldNames', proposed + [f])
  {
    DedupStep(proposed, {}, f);
    NamesAppend(proposed, f);
    if f.name !in fieldNames {
      fields' := fields + [f];
    } else {
      fields' := fields;
    }
    fieldNames' := fieldNames + {f.name};
  }

  /** One `exec` step of the scan. */
  lemma PlaceholdersStep(s: string, from: nat)
    requires NextMatch(s, from).Some?
    ensures var m := NextMatch(s, from).value;
      Placeholders(s, from) == [Capture(s, m)] + Placeholders(s, m.close + 2)
  {
  }

  /** One turn of the scan: the captured name moves from what is still ahead
      to what has been collected. */
  lemma ScanStep(s: string, from: nat, names: seq<string>, names': seq<string>, next: nat)
    requires NextMatch(s, from).Some?
    requires names' == names + [Capture(s, NextMatch(s, from).value)]
    requires next == NextMatch(s, from).value.close + 2
    ensures names + Placeholders(s, from) == names' + Placeholders(s, next)
  {
    PlaceholdersStep(s, from);
    var c, rest := Capture(s, NextMatch(s, from).value), Placeholders(s, next);
    AppendAssoc(names, [c], rest);
  }

  lemma AppendAssoc<T>(a: seq<T>, b: seq<T>, c: seq<T>)
    ensures a + (b + c) == (a + b) + c
  {
  }

  lemma DescribedAppend(names: seq<string>, x: string, description: string)
    ensures Described(names + [x], description) == Described(names, description) + [FieldDef(x, description)]
  {
  }

  /** The `while ((match = pattern.exec(content)) !== null)` loop: the trimmed
      capture of every match, in order. */
  method ScanContent(content: string) returns (names: seq<string>)
    ensures names == Placeholders(content, 0)
  {
    names := [];
    var lastIndex := 0;
    var m := NextMatch(content, lastIndex);
    while m.Some?
      invariant lastIndex <= |content|
      invariant m == NextMatch(content, lastIndex)
      invariant Placeholders(content, 0) == names + Placeholders(content, lastIndex)
      decreases |content| - lastIndex
    {
      var names', next := names + [Capture(content, m.value)], m.value.close + 2;
      ScanStep(content, lastIndex, names, names', next);
      names, lastIndex := names', next;
      m := NextMatch(content, lastIndex);
    }
  }

  /** Offer each captured name in turn. The scan does not depend on the set of
      names, so offering after each `exec` or after the whole scan is the
      same. */
  method OfferAll(names: seq<string>, description: string,
                  fields: seq<FieldDefinition>, fieldNames: set<string>, ghost proposed: seq<FieldDefinition>)
    returns (fields': seq<FieldDefinition>, fieldNames': set<string>)
    requires Tracks(fields, fieldNames, proposed)
    ensures Tracks(fields', fieldNames', proposed + Described(names, description))
  {
    fields', fieldNames' := fields, fieldNames;
    assert proposed + Described(names[..0], description) == proposed;
    for i := 0 to |names|
      invariant Tracks(fields', fieldNames', proposed + Described(names[..i], description))
    {
      var f := FieldDef(names[i], description);
      DescribedAppend(names[..i], names[i], description);
      assert names[..i + 1] == names[..i] + [names[i]];
      ghost var before := proposed + Described(names[..i], description);
      fields', fieldNames' := Offer(fields', fieldNames', before, f);
      assert before + [f] == proposed + Described(names[..i + 1], description);
    }
    assert names[..|names|] == names;
  }

  /** The proposals of one more element. */
  lemma CandidatesStep(es: seq<Element>, i: nat)
    requires i < |es|
    ensures Candidates(es[..i + 1]) == Candidates(es[..i]) + FieldCandidate(es[i]) + ContentCandidates(es[i])
  {
    assert es[..i + 1][..i] == es[..i];
  }

  /** `extractDynamicFields`: a pass over the elements with a set of the
      names seen so far. */
  method ExtractDynamicFields(elements: seq<Element>) returns (fields: seq<FieldDefinition>)
    ensures fields == DynamicFields(elements)
  {
    fields := [];
    var fieldNames: set<string> := {};
    ghost var proposed: seq<FieldDefinition> := [];
    for i := 0 to |elements|
      invariant proposed == Candidates(elements[..i])
      invariant Tracks(fields, fieldNames, proposed)
    {
      var element := elements[i];
      CandidatesStep(elements, i);
      if element.elementType == "dynamic-field" && Truthy(element.dynamicField) {
        var f := FieldDef(element.dynamicField.value, "Dynamic field from element: " + element.id);
        fields, fieldNames := Offer(fields, fieldNames, proposed, f);
        proposed := proposed + [f];
      } else {
        assert proposed == proposed + FieldCandidate(element);
      }
      if Truthy(element.content) {
        var description := "Extracted from content in element: " + element.id;
        var names := ScanContent(element.content.value);
        fields, fieldNames := OfferAll(names, description, fields, fieldNames, proposed);
        proposed := proposed + Described(names, description);
      } else {
        assert proposed == proposed + ContentCandidates(element);
      }
    }
    assert elements[..|elements|] == elements;
  }

  lemma NamesAppend(fs: seq<FieldDefinition>, f: FieldDefinition)
    ensures NamesOf(fs + [f]) == NamesOf(fs) + {f.name}
  {
    var g := fs + [f];
    forall n | n in NamesOf(g) ensures n in NamesOf(fs) + {f.name} {
      var k :| 0 <= k < |g| && g[k].name == n;
      if k < |fs| { assert g[k] == fs[k]; }
    }
    forall n | n in NamesOf(fs) ensures n in NamesOf(g) {
      var k :| 0 <= k < |fs| && fs[k].name == n;
      assert g[k] == fs[k];
    }
    assert g[|fs|] == f;
  }

  // ---------------------------------------------------------------------
  // Export
  // ---------------------------------------------------------------------

  /** `TemplateExportOptions`; an absent option takes its default. */
  datatype ExportOptions = ExportOptions(
    includeMetadata: Option<bool>,
    includeDynamicFields: Option<bool>,
    schemaVersion: Option<string>)

  const NoOptions := ExportOptions(None, None, None)

  /** `createDefaultSettings`: the template's page format with 20 mm margins. */
  function CreateDefaultSettings(t: Template): (s: Settings)
    ensures s.pageSize == Some(t.pageSize) && s.orientation == Some(t.orientation)
    ensures s.margins.Some? && var m := s.margins.value;
      m.top == m.right == m.bottom == m.left == 20.0
  {
    Settings(Some(t.pageSize), Some(t.orientation), Some(DefaultMargins))
  }

  function ExportMetadata(t: Template, includeMetadata: bool): Metadata {
    if includeMetadata then Metadata(Some(MetadataVersion), Some([]), Some(StrOr(t.sourceApp, "Custom")))
    else Metadata(Some(MetadataVersion), None, None)
  }

  /** `exportForPDFMaker`; `exportedAt` is the clock reading. */
  function ExportForPDFMaker(t: Template, options: ExportOptions, exportedAt: string): (r: Record)
    ensures r.recordType == Some("pdfmaker-template")
    ensures r.schemaVersion == Some(options.schemaVersion.GetOr(SchemaVersion))
    ensures options.schemaVersion.None? ==> r.schemaVersion == Some("1.0")
    ensures r.template.Some? && var b := r.template.value;
      b.id == Some(t.id) && b.name == Some(t.name) && b.description == t.description &&
      b.elements == Items(t.elements) && b.settings == Some(CreateDefaultSettings(t)) &&
      b.metadata.Some? && b.metadata.value.version == Some("1.0.0") &&
      (options.includeMetadata.GetOr(true) ==>
        b.metadata.value.category == Some(StrOr(t.sourceApp, "Custom")) && b.metadata.value.tags == Some([])) &&
      (!options.includeMetadata.GetOr(true) ==> b.metadata.value == Metadata(Some("1.0.0"), None, None)) &&
      b.dynamicFields == Some(if options.includeDynamicFields.GetOr(true) then DynamicFields(t.elements) else [])
  {
    var body := Body(
      Some(t.id), Some(t.name), t.description,
      Some(ExportMetadata(t, options.includeMetadata.GetOr(true))),
      Some(CreateDefaultSettings(t)),
      Items(t.elements),
      Some(if options.includeDynamicFields.GetOr(true) then DynamicFields(t.elements) else []));
    EmptyRecord.(
      schemaVersion := Some(options.schemaVersion.GetOr(SchemaVersion)),
      recordType := Some("pdfmaker-template"),
      exportedAt := Some(exportedAt),
      template := Some(body))
  }

  // ---------------------------------------------------------------------
  // Import
  // ---------------------------------------------------------------------

  const MissingVersionWarning := "Missing schema version, assuming compatibility"
  const NameRequired := "Template name is required"
  const ElementsNotArray := "Template elements must be an array"

  function SettingsPageSize(b: Body): Option<string> {
    if b.settings.Some? then b.settings.value.pageSize else None
  }

  function SettingsOrientation(b: Body): Option<string> {
    if b.settings.Some? then b.settings.value.orientation else None
  }

  function MetadataCategory(b: Body): Option<string> {
    if b.metadata.Some? then b.metadata.value.category else None
  }

  /** `importFromPDFMaker`; `freshId` is what `generateTemplateId` would
      return and `now` the clock reading. */
  function ImportFromPDFMaker(data: Record, freshId: string, now: Timestamp): (r: ImportResult)
    ensures data.template.None? ==> r == Failure(["Missing template data"])
    ensures data.template.Some? ==>
      r.warnings == Some(if Truthy(data.schemaVersion) then [] else [MissingVersionWarning])
    ensures r.success <==> data.template.Some? && Truthy(data.template.value.name) && data.template.value.elements.Items?
    ensures !r.success ==> r.template.None? && r.errors.Some? && r.errors.value != []
    ensures !r.success && data.template.Some? ==>
      r.errors == Some((if Truthy(data.template.value.name) then [] else [NameRequired]) +
                       (if data.template.value.elements.Items? then [] else [ElementsNotArray]))
    ensures r.success ==>
      r.errors.None? && r.template.Some? &&
      var b, t := data.template.value, r.template.value;
      t.id == StrOr(b.id, freshId) && t.name == b.name.value && t.description == b.description &&
      t.elements == b.elements.items &&
      t.pageSize == StrOr(SettingsPageSize(b), "A4") && t.orientation == StrOr(SettingsOrientation(b), "portrait") &&
      t.sourceApp == Some(StrOr(MetadataCategory(b), "Imported")) && t.layoutType == Some("document") &&
      t.createdAt == now && t.updatedAt == now && t.pages.None?
  {
    var warnings := if Truthy(data.schemaVersion) then [] else [MissingVersionWarning];
    if data.template.None? then Failure(["Missing template data"])
    else
      var b := data.template.value;
      var errors := (if Truthy(b.name) then [] else [NameRequired]) +
                    (if b.elements.Items? then [] else [ElementsNotArray]);
      if errors != [] then ImportResult(false, None, Some(errors), Some(warnings))
      else
        var t := Template(
          StrOr(b.id, freshId), b.name.value, b.description, b.elements.items,
          None, None,
          StrOr(SettingsPageSize(b), "A4"), StrOr(SettingsOrientation(b), "portrait"),
          now, now, Some("document"), None,
          Some(StrOr(MetadataCategory(b), "Imported")));
        ImportResult(true, Some(t), None, Some(warnings))
  }

  /** Importing an exported template succeeds exactly when it has a name, and
      then gives back its id (when it had one), name, description, elements
      and page format; only a blank explicit schema version warns. */
  lemma ImportExportRoundTrip(t: Template, options: ExportOptions, exportedAt: string, freshId: string, now: Timestamp)
    ensures var r := ImportFromPDFMaker(ExportForPDFMaker(t, options, exportedAt), freshId, now);
      (r.success <==> t.name != "") &&
      (r.warnings == Some([]) <==> options.schemaVersion != Some("")) &&
      (r.success ==>
        var u := r.template.value;
        u.id == (if t.id != "" then t.id else freshId) && u.name == t.name &&
        u.description == t.description && u.elements == t.elements &&
        u.pageSize == (if t.pageSize != "" then t.pageSize else "A4") &&
        u.orientation == (if t.orientation != "" then t.orientation else "portrait") &&
        u.sourceApp == Some(if options.includeMetadata.GetOr(true) then StrOr(t.sourceApp, "Custom") else "Imported"))
  {
  }

  /** Exporting the imported template once more yields the same record, apart
      from the clock reading, when every field that takes a default was
      already set. */
  lemma ExportImportExport(t: Template, exportedAt: string, again: string, freshId: string, now: Timestamp)
    requires t.name != "" && t.id != "" && t.pageSize != "" && t.orientation != ""
    ensures var r := ImportFromPDFMaker(ExportForPDFMaker(t, NoOptions, exportedAt), freshId, now);
      r.success &&
      ExportForPDFMaker(r.template.value, NoOptions, again) == ExportForPDFMaker(t, NoOptions, exportedAt).(exportedAt := Some(again))
  {
  }

  // ---------------------------------------------------------------------
  // validateTemplate
  // ---------------------------------------------------------------------

  /** What validation looks at. For a template coming from JSON, `elements`
      may not be an array. */
  datatype TemplateShape = TemplateShape(
    id: string,
    name: string,
    elements: ArrayField<Element>,
    pageSize: string,
    orientation: string)

  function ShapeOf(t: Template): TemplateShape {
    TemplateShape(t.id, t.name, Items(t.elements), t.pageSize, t.orientation)
  }

  const ValidPageSizes: seq<string> := ["A4", "Letter", "Legal"]
  const ValidOrientations: seq<string> := ["portrait", "landscape"]

  function IndexLabel(k: nat): string {
    "Element at index " + NatToString(k)
  }

  /** The messages for element `k`, in the order the checks run. */
  function ElementErrors(e: Element, k: nat): (r: seq<string>)
    ensures |r| == MissingCount(e)
  {
    (if e.id == "" then [IndexLabel(k) + " is missing an ID"] else []) +
    (if e.elementType == "" then [IndexLabel(k) + " is missing a type"] else []) +
    (if e.position.None? then [IndexLabel(k) + " is missing position"] else []) +
    (if e.size.None? then [IndexLabel(k) + " is missing size"] else [])
  }

  /** How many of an element's four required properties are missing. */
  function MissingCount(e: Element): nat {
    (if e.id == "" then 1 else 0) + (if e.elementType == "" then 1 else 0) +
    (if e.position.None? then 1 else 0) + (if e.size.None? then 1 else 0)
  }

  predicate ElementComplete(e: Element) {
    e.id != "" && e.elementType != "" && e.position.Some? && e.size.Some?
  }

  /** The messages for the first `n` elements. */
  function ElementsErrors(es: seq<Element>, n: nat): seq<string>
    requires n <= |es|
  {
    if n == 0 then [] else ElementsErrors(es, n - 1) + ElementErrors(es[n - 1], n - 1)
  }

  function MissingTotal(es: seq<Element>, n: nat): nat
    requires n <= |es|
  {
    if n == 0 then 0 else MissingTotal(es, n - 1) + MissingCount(es[n - 1])
  }

  function HeaderErrors(c: TemplateShape): seq<string> {
    (if c.id == "" then ["Template ID is required"] else []) +
    (if IsBlank(c.name) then [NameRequired] else [])
  }

  function FormatErrors(c: TemplateShape): seq<string> {
    (if c.pageSize in ValidPageSizes then [] else ["Invalid page size: " + c.pageSize]) +
    (if c.orientation in ValidOrientations then [] else ["Invalid orientation: " + c.orientation])
  }

  /** Every message `validateTemplate` collects, in order. */
  function TemplateErrors(c: TemplateShape): seq<string> {
    HeaderErrors(c) +
    (if c.elements.Items? then ElementsErrors(c.elements.items, |c.elements.items|) else [ElementsNotArray]) +
    FormatErrors(c)
  }

  /** Every requirement validation checks. */
  predicate ShapeValid(c: TemplateShape) {
    c.id != "" && !IsBlank(c.name) && c.elements.Items? &&
    (forall k :: 0 <= k < |c.elements.items| ==> ElementComplete(c.elements.items[k])) &&
    c.pageSize in ValidPageSizes && c.orientation in ValidOrientations
  }

  lemma {:induction false} ElementsErrorsCount(es: seq<Element>, n: nat)
    requires n <= |es|
    ensures |ElementsErrors(es, n)| == MissingTotal(es, n)
    ensures MissingTotal(es, n) == 0 <==> forall k :: 0 <= k < n ==> ElementComplete(es[k])
    decreases n
  {
    if n > 0 {
      ElementsErrorsCount(es, n - 1);
    }
  }

  /** Validation reports one message per violation, not just the first: the
      number of messages is the number of violated requirements, counting
      each missing property of each element. */
  lemma ErrorsCountViolations(c: TemplateShape)
    ensures |TemplateErrors(c)| ==
      (if c.id == "" then 1 else 0) + (if IsBlank(c.name) then 1 else 0) +
      (if c.elements.Items? then MissingTotal(c.elements.items, |c.elements.items|) else 1) +
      (if c.pageSize in ValidPageSizes then 0 else 1) + (if c.orientation in ValidOrientations then 0 else 1)
  {
    if c.elements.Items? {
      ElementsErrorsCount(c.elements.items, |c.elements.items|);
    }
  }

  /** A template is valid exactly when no message is collected, which is
      exactly when every requirement holds. */
  lemma ValidIffNoErrors(c: TemplateShape)
    ensures TemplateErrors(c) == [] <==> ShapeValid(c)
  {
    ErrorsCountViolations(c);
    if c.elements.Items? {
      ElementsErrorsCount(c.elements.items, |c.elements.items|);
    }
  }

  /** The four checks on one element. */
  method CheckElement(element: Element, index: nat) returns (errors: seq<string>)
    ensures errors == ElementErrors(element, index)
  {
    var prefix := IndexLabel(index);
    errors := [];
    if element.id == "" {
      errors := errors + [prefix + " is missing an ID"];
    }
    if element.elementType == "" {
      errors := errors + [prefix + " is missing a type"];
    }
    if element.position.None? {
      errors := errors + [prefix + " is missing position"];
    }
    if element.size.None? {
      errors := errors + [prefix + " is missing size"];
    }
  }

  /** The element loop: a `forEach` over the elements with their index. */
  method CheckElements(es: seq<Element>) returns (errors: seq<string>)
    ensures errors == ElementsErrors(es, |es|)
  {
    errors := [];
    for index := 0 to |es|
      invariant errors == ElementsErrors(es, index)
    {
      var more := CheckElement(es[index], index);
      errors := errors + more;
    }
  }

  /** The page size and orientation checks. */
  method CheckFormat(c: TemplateShape) returns (errors: seq<string>)
    ensures errors == FormatErrors(c)
  {
    errors := [];
    if c.pageSize !in ValidPageSizes {
      errors := errors + ["Invalid page size: " + c.pageSize];
    }
    if c.orientation !in ValidOrientations {
      errors := errors + ["Invalid orientation: " + c.orientation];
    }
  }

  /** `validateTemplate`: the checks run in turn and push onto one list. */
  method ValidateTemplate(c: TemplateShape) returns (valid: bool, errors: seq<string>)
    ensures errors == TemplateErrors(c)
    ensures valid <==> errors == []
    ensures valid <==> ShapeValid(c)
  {
    var header: seq<string> := [];
    if c.id == "" {
      header := header + ["Template ID is required"];
    }
    if IsBlank(c.name) {
      header := header + [NameRequired];
    }
    assert header == HeaderErrors(c);
    var body: seq<string>;
    if !c.elements.Items? {
      body := [ElementsNotArray];
    } else {
      body := CheckElements(c.elements.items);
    }
    var format := CheckFormat(c);
    errors := header + body + format;
    valid := |errors| == 0;
    ValidIffNoErrors(c);
  }

  // ---------------------------------------------------------------------
  // Manifest and recognition
  // ---------------------------------------------------------------------

  function ManifestEntryOf(t: Template): ManifestEntry {
    ManifestEntry(t.id, t.name, t.description, MetadataVersion, StrOr(t.sourceApp, "Custom"))
  }

  /** `createTemplateManifest`: one entry per template, in input order. */
  function CreateTemplateManifest(ts: seq<Template>, exportedAt: string): (m: Manifest)
    ensures m.schemaVersion == "1.0" && m.manifestType == "pdfmaker-manifest" && m.exportedAt == exportedAt
    ensures m.count == |ts| == |m.entries|
    ensures forall i :: 0 <= i < |ts| ==>
      m.entries[i].id == ts[i].id && m.entries[i].name == ts[i].name &&
      m.entries[i].description == ts[i].description && m.entries[i].version == "1.0.0" &&
      m.entries[i].category == (if Truthy(ts[i].sourceApp) then ts[i].sourceApp.value else "Custom")
  {
    Manifest(SchemaVersion, "pdfmaker-manifest", exportedAt, |ts|,
      seq(|ts|, i requires 0 <= i < |ts| => ManifestEntryOf(ts[i])))
  }

  /** `parseTemplateJSON`: the parsed record when it declares itself a
      PDFMaker template; `null` for a parse failure, for JSON `null` (the
      `TypeError` is caught too) and for anything else. */
  function ParseTemplateJSON(parsed: ParseOutcome<Value>): (r: Option<Record>)
    ensures r.Some? <==>
      parsed.Parsed? && parsed.value.Object? && parsed.value.rec.recordType == Some("pdfmaker-template")
    ensures r.Some? ==> r.value == parsed.value.rec
  {
    match parsed
    case ParseFailed(_) => None
    case Parsed(Null) => None
    case Parsed(Object(rec)) => if rec.recordType == Some("pdfmaker-template") then Some(rec) else None
  }
}
