/**
 The stability gate of tools/check_contract_stability.py.  One run compares a tree with the tree
 it succeeds; the promise is about every release that follows.
 */
module ContractHistory {
  import opened Wrappers
  import opened Json
  import Text

  // ---------------------------------------------------------------- contract paths

  /** The components of a relative path as the path library normalises them. */
  function Components(parts: seq<string>): (r: seq<string>)
    ensures forall i :: 0 <= i < |r| ==> r[i] in parts && r[i] != "" && r[i] != "."
  {
    if parts == [] then []
    else (if parts[0] == "" || parts[0] == "." then [] else [parts[0]]) + Components(parts[1..])
  }

  function SafePath(value: Option<string>): (r: Option<string>) {
    if value.None? || value.value == "" || '\\' in value.value || value.value[0] == '/' then None
    else
      var parts := Components(Text.Split(value.value, '/'));
      if parts == [] || ".." in parts then None else Some(Text.Join(parts, '/'))
  }

  lemma {:induction false} ComponentsFixed(parts: seq<string>)
    requires forall i :: 0 <= i < |parts| ==> parts[i] != "" && parts[i] != "."
    ensures Components(parts) == parts
  {
    if parts != [] { ComponentsFixed(parts[1..]); }
  }

  lemma {:induction false} SplitParts(s: string, sep: char, i: nat)
    requires i < |Text.Split(s, sep)|
    ensures sep !in Text.Split(s, sep)[i]
    ensures forall c <- Text.Split(s, sep)[i] :: c in s
  {
    if s != [] {
      var rest := Text.Split(s[1..], sep);
      if s[0] == sep {
        if i > 0 { SplitParts(s[1..], sep, i - 1); }
      } else if i == 0 {
        SplitParts(s[1..], sep, 0);
      } else {
        SplitParts(s[1..], sep, i);
      }
    }
  }

  lemma {:induction false} JoinLetters(parts: seq<string>, sep: char, c: char)
    requires parts != [] && c in Text.Join(parts, sep)
    ensures c == sep || exists i :: 0 <= i < |parts| && c in parts[i]
  {
    if |parts| > 1 && c != sep && c !in parts[0] {
      JoinLetters(parts[1..], sep, c);
      var i :| 0 <= i < |parts[1..]| && c in parts[1..][i];
      assert c in parts[i + 1];
    }
  }

  /** Normalising a path twice changes nothing. */
  lemma SafePathIdempotent(value: Option<string>)
    requires SafePath(value).Some?
    ensures SafePath(SafePath(value)) == SafePath(value)
  {
    var split := Text.Split(value.value, '/');
    var parts := Components(split);
    var joined := Text.Join(parts, '/');
    forall i | 0 <= i < |parts| ensures '/' !in parts[i] && '\\' !in parts[i] {
      var k :| 0 <= k < |split| && split[k] == parts[i];
      SplitParts(value.value, '/', k);
    }
    Text.SplitJoin(parts, '/');
    ComponentsFixed(parts);
    assert joined[0] == parts[0][0];
    if '\\' in joined {
      JoinLetters(parts, '/', '\\');
      assert false;
    }
  }

  // ---------------------------------------------------------------- D-Bus interfaces

  datatype Element = Element(tag: string, attributes: map<string, string>, children: seq<Element>)

  function Attribute(e: Element, name: string): Option<string> {
    if name in e.attributes then Some(e.attributes[name]) else None
  }

  function AttributeOr(e: Element, name: string): string {
    if name in e.attributes then e.attributes[name] else ""
  }

  function FindAll(children: seq<Element>, tag: string): (r: seq<Element>) {
    if children == [] then []
    else (if children[0].tag == tag then [children[0]] else []) + FindAll(children[1..], tag)
  }

  type Annotations = map<string, string>

  predicate Annotated(e: Element) { "name" in e.attributes && "value" in e.attributes }

  function NameOf(e: Element): string requires Annotated(e) { e.attributes["name"] }

  function ValueOf(e: Element): string requires Annotated(e) { e.attributes["value"] }

  /** The annotations of a list of annotation elements, when each is complete and no name repeats. */
  function AnnotationsOf(elements: seq<Element>): (r: Option<Annotations>)
    decreases |elements|
  {
    if elements == [] then Some(map[])
    else
      var n := |elements| - 1;
      var earlier, last := AnnotationsOf(elements[..n]), elements[n];
      if earlier.None? || !Annotated(last) || NameOf(last) in earlier.value then None
      else Some(earlier.value[NameOf(last) := ValueOf(last)])
  }

  ghost predicate DistinctlyAnnotated(elements: seq<Element>) {
    && (forall i :: 0 <= i < |elements| ==> Annotated(elements[i]))
    && (forall i, j :: 0 <= i < j < |elements| ==> NameOf(elements[i]) != NameOf(elements[j]))
  }

  /** Reading succeeds exactly on complete, distinctly named annotations, and records each of them. */
  lemma {:induction false} AnnotationsMeaning(elements: seq<Element>)
    ensures AnnotationsOf(elements).Some? <==> DistinctlyAnnotated(elements)
    ensures AnnotationsOf(elements).Some? ==>
              var m := AnnotationsOf(elements).value;
              && (forall i :: 0 <= i < |elements| ==>
                    NameOf(elements[i]) in m && m[NameOf(elements[i])] == ValueOf(elements[i]))
              && (forall k :: k in m ==> exists i :: 0 <= i < |elements| && NameOf(elements[i]) == k)
    decreases |elements|
  {
    hide Annotated, NameOf, ValueOf;
    if elements != [] {
      var n := |elements| - 1;
      AnnotationsMeaning(elements[..n]);
    }
  }

  method ReadAnnotations(element: Element) returns (r: Option<Annotations>)
    ensures r == AnnotationsOf(FindAll(element.children, "annotation"))
  {
    hide Annotated, NameOf, ValueOf, AnnotationsOf;
    var elements := FindAll(element.children, "annotation");
    assert AnnotationsOf(elements[..0]) == Some(map[]) by { NoAnnotations(elements[..0]); }
    var values: Annotations := map[];
    for i := 0 to |elements|
      invariant AnnotationsOf(elements[..i]) == Some(values)
    {
      var annotation := elements[i];
      AnnotationsStep(elements, i);
      if !Annotated(annotation) || NameOf(annotation) in values {
        RejectedPrefix(elements, i + 1);
        return None;
      }
      values := values[NameOf(annotation) := ValueOf(annotation)];
    }
    assert elements[..|elements|] == elements;
    r := Some(values);
  }

  lemma NoAnnotations(elements: seq<Element>)
    requires elements == []
    ensures AnnotationsOf(elements) == Some(map[])
  {
  }

  lemma AnnotationsStep(elements: seq<Element>, i: nat)
    requires i < |elements|
    ensures AnnotationsOf(elements[..i + 1]) ==
            var earlier := AnnotationsOf(elements[..i]);
            if earlier.None? || !Annotated(elements[i]) || NameOf(elements[i]) in earlier.value then None
            else Some(earlier.value[NameOf(elements[i]) := ValueOf(elements[i])])
  {
    assert elements[..i + 1][..i] == elements[..i];
  }

  lemma {:induction false} RejectedPrefix(elements: seq<Element>, n: nat)
    requires n <= |elements| && AnnotationsOf(elements[..n]).None?
    ensures AnnotationsOf(elements).None?
    decreases |elements| - n
  {
    if n == |elements| {
      assert elements[..n] == elements;
    } else {
      assert elements[..n + 1][..n] == elements[..n];
      RejectedPrefix(elements, n + 1);
    }
  }

  datatype Shape =
    | Callable(args: seq<(string, string, string)>, annotations: Annotations)
    | Property(kind: string, access: string, annotations: Annotations)

  function ShapeOf(e: Element, tag: string): (r: Option<Shape>) {
    match AnnotationsOf(FindAll(e.children, "annotation"))
    case None => None
    case Some(annotations) =>
      if tag == "property" then Some(Property(AttributeOr(e, "type"), AttributeOr(e, "access"), annotations))
      else
        var args := FindAll(e.children, "arg");
        Some(Callable(seq(|args|, i requires 0 <= i < |args| =>
                            (AttributeOr(args[i], "name"), AttributeOr(args[i], "type"),
                             AttributeOr(args[i], "direction"))),
                      annotations))
  }

  function MembersOf(elements: seq<Element>, tag: string): (r: Option<map<string, Shape>>)
    decreases |elements|
  {
    if elements == [] then Some(map[])
    else
      var n := |elements| - 1;
      var earlier, last := MembersOf(elements[..n], tag), elements[n];
      var name := AttributeOr(last, "name");
      if earlier.None? || name == "" || name in earlier.value || ShapeOf(last, tag).None? then None
      else Some(earlier.value[name := ShapeOf(last, tag).value])
  }

  ghost predicate DistinctMembers(elements: seq<Element>, tag: string) {
    && (forall i :: 0 <= i < |elements| ==> AttributeOr(elements[i], "name") != "" && ShapeOf(elements[i], tag).Some?)
    && (forall i, j :: 0 <= i < j < |elements| ==> AttributeOr(elements[i], "name") != AttributeOr(elements[j], "name"))
  }

  /**
   Reading succeeds exactly on distinctly named members with readable annotations, and records each
   with its shape.
   */
  lemma {:induction false} MembersMeaning(elements: seq<Element>, tag: string)
    ensures MembersOf(elements, tag).Some? <==> DistinctMembers(elements, tag)
    ensures MembersOf(elements, tag).Some? ==>
              var m := MembersOf(elements, tag).value;
              && (forall i :: 0 <= i < |elements| ==>
                    && AttributeOr(elements[i], "name") in m
                    && Some(m[AttributeOr(elements[i], "name")]) == ShapeOf(elements[i], tag))
              && (forall k :: k in m ==> exists i :: 0 <= i < |elements| && AttributeOr(elements[i], "name") == k)
    decreases |elements|
  {
    hide AttributeOr, ShapeOf;
    if elements != [] {
      var n := |elements| - 1;
      MembersMeaning(elements[..n], tag);
    }
  }

  method ReadMembers(interface: Element, tag: string) returns (r: Option<map<string, Shape>>)
    ensures r == MembersOf(FindAll(interface.children, tag), tag)
  {
    var elements := FindAll(interface.children, tag);
    var members: map<string, Shape> := map[];
    for i := 0 to |elements|
      invariant MembersOf(elements[..i], tag) == Some(members)
    {
      var name := AttributeOr(elements[i], "name");
      var shape := ShapeOf(elements[i], tag);
      assert elements[..i + 1][..i] == elements[..i];
      if name == "" || name in members || shape.None? {
        RejectedMembers(elements, tag, i + 1);
        return None;
      }
      members := members[name := shape.value];
    }
    assert elements[..|elements|] == elements;
    r := Some(members);
  }

  lemma {:induction false} RejectedMembers(elements: seq<Element>, tag: string, n: nat)
    requires n <= |elements| && MembersOf(elements[..n], tag).None?
    ensures MembersOf(elements, tag).None?
    decreases |elements| - n
  {
    if n == |elements| {
      assert elements[..n] == elements;
    } else {
      assert elements[..n + 1][..n] == elements[..n];
      RejectedMembers(elements, tag, n + 1);
    }
  }

  predicate Extends<V(==)>(old_: Option<map<string, V>>, new_: Option<map<string, V>>) {
    && old_.Some? && new_.Some?
    && forall k :: k in old_.value ==> k in new_.value && new_.value[k] == old_.value[k]
  }

  function Interface(document: Option<Element>): (r: Option<Element>) {
    if document.None? then None
    else
      var found := FindAll(document.value.children, "interface");
      if found == [] then None else Some(found[0])
  }

  /** Every annotation and member of the old interface is in the new one, with the same shape. */
  predicate DbusCompatible(before: Option<Element>, after: Option<Element>) {
    var old_, new_ := Interface(before), Interface(after);
    && old_.Some? && new_.Some?
    && Attribute(old_.value, "name") == Attribute(new_.value, "name")
    && Extends(AnnotationsOf(FindAll(old_.value.children, "annotation")),
               AnnotationsOf(FindAll(new_.value.children, "annotation")))
    && MembersExtend(old_.value, new_.value, "method")
    && MembersExtend(old_.value, new_.value, "signal")
    && MembersExtend(old_.value, new_.value, "property")
  }

  predicate MembersExtend(old_: Element, new_: Element, tag: string) {
    Extends(MembersOf(FindAll(old_.children, tag), tag), MembersOf(FindAll(new_.children, tag), tag))
  }

  // ---------------------------------------------------------------- compatibility of artifacts

  /** The document loaders of the host language: `None` when a text does not parse. */
  datatype Loaders = Loaders(xml: string -> Option<Element>, json: string -> Option<Json>)

  predicate Compatible(kind: string, before: string, after: string, load: Loaders) {
    if kind == "dbus-interface" then DbusCompatible(load.xml(before), load.xml(after))
    else if kind == "json-schema" then
      load.json(before).Some? && load.json(after).Some? && HostEqual(load.json(before).value, load.json(after).value)
    else before == after
  }

  lemma {:induction false} HostEqualTransitive(a: Json, b: Json, c: Json)
    requires HostEqual(a, b) && HostEqual(b, c)
    ensures HostEqual(a, c)
    decreases a, 1
  {
    if a.Arr? {
      forall i | 0 <= i < |a.items| ensures HostEqual(a.items[i], c.items[i]) {
        HostEqualTransitive(a.items[i], b.items[i], c.items[i]);
      }
    } else if a.Obj? {
      HostEqualTransitiveFields(a, b.fields, c.fields);
    }
  }

  lemma {:induction false} HostEqualTransitiveFields(a: Json, g: seq<(string, Json)>, h: seq<(string, Json)>)
    requires a.Obj? && HostEqual(a, Obj(g)) && HostEqual(Obj(g), Obj(h))
    ensures HostEqual(a, Obj(h))
    decreases a, 0
  {
    hide Lookup;
    var f := a.fields;
    forall i | 0 <= i < |f| ensures Lookup(h, f[i].0).Some? && HostEqual(f[i].1, Lookup(h, f[i].0).value) {
      var y := Lookup(g, f[i].0).value;
      var j :| 0 <= j < |g| && g[j] == (f[i].0, y);
      assert HostEqual(g[j].1, Lookup(h, g[j].0).value);
      HostEqualTransitive(f[i].1, y, Lookup(h, f[i].0).value);
    }
    forall i | 0 <= i < |h| ensures Lookup(f, h[i].0).Some? {
      var j :| 0 <= j < |g| && g[j].0 == h[i].0;
      assert Lookup(f, g[j].0).Some?;
    }
  }

  lemma DbusTransitive(a: Option<Element>, b: Option<Element>, c: Option<Element>)
    requires DbusCompatible(a, b) && DbusCompatible(b, c)
    ensures DbusCompatible(a, c)
  {
    hide AnnotationsOf, MembersOf, FindAll;
  }

  /** Compatibility composes along a chain of releases, for every kind of contract. */
  lemma CompatibleTransitive(kind: string, a: string, b: string, c: string, load: Loaders)
    requires Compatible(kind, a, b, load) && Compatible(kind, b, c, load)
    ensures Compatible(kind, a, c, load)
  {
    hide DbusCompatible, HostEqual;
    if kind == "dbus-interface" {
      DbusTransitive(load.xml(a), load.xml(b), load.xml(c));
    } else if kind == "json-schema" {
      HostEqualTransitive(load.json(a).value, load.json(b).value, load.json(c).value);
    }
  }

  // ---------------------------------------------------------------- registries and trees

  /** A field of a registry entry; `None` where it is missing. */
  type Field = Option<Json>

  /** A registry entry; an id, stability or compatibility that is no string is `None`. */
  datatype Entry =
    | Table(id: Option<string>, kind: Field, path: Field, version: Field,
            stability: Option<string>, since: Field, compatibility: Option<string>)
    | NotATable

  function TextOf(field: Field): (r: Option<string>) {
    if field.Some? && field.value.Str? then Some(field.value.s) else None
  }

  /** The field is there and the host language takes it for true. */
  predicate Stated(field: Field) { field.Some? && Truthy(field.value) }

  predicate SameField(a: Field, b: Field) {
    if a.Some? && b.Some? then HostEqual(a.value, b.value) else a == b
  }

  lemma SameFieldTransitive(a: Field, b: Field, c: Field)
    requires SameField(a, b) && SameField(b, c)
    ensures SameField(a, c)
  {
    hide HostEqual;
    if a.Some? { HostEqualTransitive(a.value, b.value, c.value); }
  }

  lemma SameFieldText(a: Field, b: Field)
    requires SameField(a, b)
    ensures TextOf(a) == TextOf(b)
  {
  }

  /** `contract` entries, or `None` where the registry has something else than a list there. */
  datatype Registry = Missing | Unreadable | Parsed(entries: Option<seq<Entry>>)

  datatype Tree = Tree(registry: Registry, files: map<string, string>)

  const STABLE := Some("stable")
  const KINDS := {"dbus-interface", "json-schema", "cli", "rust-sdk", "python-sdk"}
  const ALLOWED := {"experimental", "preview", "stable"}

  function Entries(r: Registry): (entries: seq<Entry>) {
    if r.Parsed? && r.entries.Some? then r.entries.value else []
  }

  /** Entries by id; of two entries with one id the later stands. */
  function EntryMap(entries: seq<Entry>): (m: map<string, Entry>)
    ensures forall k :: k in m ==> m[k] in entries && m[k].Table? && m[k].id == Some(k)
    ensures forall e <- entries :: e.Table? && e.id.Some? ==> e.id.value in m
    decreases |entries|
  {
    if entries == [] then map[]
    else
      var n := |entries| - 1;
      var earlier, last := EntryMap(entries[..n]), entries[n];
      assert entries == entries[..n] + [last];
      if last.Table? && last.id.Some? then earlier[last.id.value := last] else earlier
  }

  /** The ids of a registry in the order in which they first occur. */
  function Ids(entries: seq<Entry>): (ids: seq<string>)
    ensures forall k :: k in ids <==> k in EntryMap(entries)
    decreases |entries|
  {
    if entries == [] then []
    else
      var n := |entries| - 1;
      var earlier, last := Ids(entries[..n]), entries[n];
      if last.Table? && last.id.Some? && last.id.value !in earlier then earlier + [last.id.value] else earlier
  }

  function Contracts(t: Tree): (m: map<string, Entry>)
    ensures forall k :: k in m ==> m[k].Table?
  {
    EntryMap(Entries(t.registry))
  }

  function Read(t: Tree, path: string): (r: Option<string>) {
    match SafePath(Some(path))
    case Some(p) => if p in t.files then Some(t.files[p]) else None
    case None => None
  }

  predicate HasStable(t: Tree) {
    exists k :: k in Contracts(t) && Contracts(t)[k].stability == STABLE
  }

  // ---------------------------------------------------------------- one comparison

  datatype Failure =
    | NoBaselineRegistry
    | UnreadableBaseline
    | Downgraded(id: string)
    | Removed(id: string)
    | IdentityChanged(id: string, field: string)
    | BaselineArtifactMissing(id: string)
    | Incompatible(id: string)

  predicate SameIdentity(a: Entry, b: Entry)
    requires a.Table? && b.Table?
  {
    SameField(a.kind, b.kind) && SameField(a.path, b.path) && SameField(a.version, b.version)
  }

  lemma IdentityTransitive(a: Entry, b: Entry, c: Entry)
    requires a.Table? && b.Table? && c.Table? && SameIdentity(a, b) && SameIdentity(b, c)
    ensures SameIdentity(a, c) && KindOf(b) == KindOf(c) && TextOf(b.path) == TextOf(c.path)
  {
    hide SameField, TextOf;
    SameFieldTransitive(a.kind, b.kind, c.kind);
    SameFieldTransitive(a.path, b.path, c.path);
    SameFieldTransitive(a.version, b.version, c.version);
    SameFieldText(b.kind, c.kind);
    SameFieldText(b.path, c.path);
  }

  /** What one stable contract of the old tree needs from the new tree. */
  predicate Kept(id: string, before: Tree, after: Tree, load: Loaders)
    requires id in Contracts(before)
  {
    && id in Contracts(after)
    && var old_, new_ := Contracts(before)[id], Contracts(after)[id];
    && new_.stability == STABLE
    && SameIdentity(old_, new_)
    && (SafePath(TextOf(new_.path)).Some? ==>
          var path := SafePath(TextOf(new_.path)).value;
          && Read(before, path).Some?
          && (path in after.files ==> Compatible(KindOf(new_), Read(before, path).value, after.files[path], load)))
  }

  function KindOf(e: Entry): string
    requires e.Table?
  {
    if TextOf(e.kind).Some? then TextOf(e.kind).value else ""
  }

  /** The comparison the gate makes: nothing stable is lost between the two trees. */
  ghost predicate Preserves(before: Tree, after: Tree, load: Loaders) {
    match before.registry
    case Missing => !HasStable(after)
    case Unreadable => false
    case Parsed(_) =>
      forall id ::
        id in Contracts(before) && Contracts(before)[id].stability == STABLE ==> Kept(id, before, after, load)
  }

  method HistoricalFailures(before: Tree, after: Tree, load: Loaders) returns (failures: seq<Failure>)
    ensures failures == [] <==> Preserves(before, after, load)
  {
    hide Kept, EntryMap, Ids, HasStable;
    failures := [];
    if before.registry.Missing? {
      if HasStable(after) { failures := [NoBaselineRegistry]; }
      return;
    }
    if before.registry.Unreadable? {
      return [UnreadableBaseline];
    }
    var ids := Ids(Entries(before.registry));
    for i := 0 to |ids|
      invariant failures == [] <==>
                forall k :: 0 <= k < i && Contracts(before)[ids[k]].stability == STABLE ==>
                  Kept(ids[k], before, after, load)
    {
      if Contracts(before)[ids[i]].stability == STABLE {
        var found := EntryFailures(ids[i], before, after, load);
        failures := failures + found;
      }
    }
    forall id | id in Contracts(before) ensures exists k :: 0 <= k < |ids| && ids[k] == id {
      assert id in ids;
    }
  }

  /** The failures that one stable contract of the old tree causes. */
  method EntryFailures(id: string, before: Tree, after: Tree, load: Loaders) returns (failures: seq<Failure>)
    requires id in Contracts(before) && Contracts(before)[id].stability == STABLE
    ensures failures == [] <==> Kept(id, before, after, load)
    ensures Removed(id) in failures <==> id !in Contracts(after)
    ensures Downgraded(id) in failures <==> id in Contracts(after) && Contracts(after)[id].stability != STABLE
  {
    var old_ := Contracts(before)[id];
    if id !in Contracts(after) {
      return [Removed(id)];
    }
    var new_ := Contracts(after)[id];
    if new_.stability != STABLE {
      return [Downgraded(id)];
    }
    failures := [];
    if !SameField(old_.kind, new_.kind) { failures := failures + [IdentityChanged(id, "kind")]; }
    if !SameField(old_.path, new_.path) { failures := failures + [IdentityChanged(id, "path")]; }
    if !SameField(old_.version, new_.version) { failures := failures + [IdentityChanged(id, "version")]; }
    if !SameIdentity(old_, new_) {
      return;
    }
    var path := SafePath(TextOf(new_.path));
    if path.None? {
      return;
    }
    if Read(before, path.value).None? {
      return [BaselineArtifactMissing(id)];
    }
    if path.value !in after.files {
      return;
    }
    if !Compatible(KindOf(new_), Read(before, path.value).value, after.files[path.value], load) {
      failures := [Incompatible(id)];
    }
  }

  // ---------------------------------------------------------------- the tree itself

  datatype Rule = IsTable | ValidId | UniqueId | ValidPath | UniquePath | PathExists | KnownKind
                | KnownStability | HasVersion | HasSince | DeclaresCompatibility

  datatype Problem = Problem(index: nat, rule: Rule)

  predicate Nonempty(field: Option<string>) { field.Some? && field.value != "" }

  /** The rules that concern one entry by itself. */
  predicate EntrySound(e: Entry, t: Tree) {
    && e.Table?
    && Nonempty(e.id)
    && SafePath(TextOf(e.path)).Some?
    && SafePath(TextOf(e.path)).value in t.files
    && TextOf(e.kind).Some? && TextOf(e.kind).value in KINDS
    && e.stability.Some? && e.stability.value in ALLOWED
    && Nonempty(TextOf(e.version))
    && (e.stability.value in {"preview", "stable"} ==> Stated(e.since))
    && (e.stability == STABLE ==> e.compatibility == Some("major-version-overlap"))
  }

  ghost predicate EntriesSound(entries: seq<Entry>, t: Tree) {
    && (forall i :: 0 <= i < |entries| ==> EntrySound(entries[i], t))
    && (forall i, j :: 0 <= i < j < |entries| ==>
          entries[i].id != entries[j].id && SafePath(TextOf(entries[i].path)) != SafePath(TextOf(entries[j].path)))
  }

  /** Problems of one entry, given the ids and paths registered before it. */
  method EntryProblems(e: Entry, index: nat, t: Tree, ids: set<string>, paths: set<string>)
    returns (problems: seq<Problem>)
    ensures problems == [] <==> EntrySound(e, t) && e.id.value !in ids && SafePath(TextOf(e.path)).value !in paths
  {
    if !e.Table? { return [Problem(index, IsTable)]; }
    if !Nonempty(e.id) { return [Problem(index, ValidId)]; }
    problems := [];
    if e.id.value in ids { problems := problems + [Problem(index, UniqueId)]; }
    var path := SafePath(TextOf(e.path));
    if path.None? { return problems + [Problem(index, ValidPath)]; }
    if path.value in paths { problems := problems + [Problem(index, UniquePath)]; }
    if path.value !in t.files { problems := problems + [Problem(index, PathExists)]; }
    if TextOf(e.kind).None? || TextOf(e.kind).value !in KINDS { problems := problems + [Problem(index, KnownKind)]; }
    if e.stability.None? || e.stability.value !in ALLOWED { problems := problems + [Problem(index, KnownStability)]; }
    if !Nonempty(TextOf(e.version)) { problems := problems + [Problem(index, HasVersion)]; }
    if e.stability == Some("preview") && !Stated(e.since) { problems := problems + [Problem(index, HasSince)]; }
    if e.stability == STABLE {
      if !Stated(e.since) { problems := problems + [Problem(index, HasSince)]; }
      if e.compatibility != Some("major-version-overlap") {
        problems := problems + [Problem(index, DeclaresCompatibility)];
      }
    }
  }

  method RegistryProblems(entries: seq<Entry>, t: Tree) returns (problems: seq<Problem>)
    ensures problems == [] <==> EntriesSound(entries, t)
  {
    hide EntrySound, SafePath;
    var ids: set<string>, paths: set<string> := {}, {};
    problems := [];
    for i := 0 to |entries|
      invariant problems == [] <==> EntriesSound(entries[..i], t)
      invariant problems == [] ==> forall k :: 0 <= k < i ==> EntrySound(entries[k], t)
      invariant problems == [] ==> ids == set k | 0 <= k < i :: IdOf(entries[k])
      invariant problems == [] ==> paths == set k | 0 <= k < i :: PathOf(entries[k])
    {
      var e := entries[i];
      var found := EntryProblems(e, i, t, ids, paths);
      problems := problems + found;
      SoundStep(entries, i, t);
      if e.Table? && Nonempty(e.id) {
        ids := ids + {e.id.value};
        if SafePath(TextOf(e.path)).Some? { paths := paths + {SafePath(TextOf(e.path)).value}; }
      }
    }
    assert entries[..|entries|] == entries;
  }

  function IdOf(e: Entry): string { if e.Table? && e.id.Some? then e.id.value else "" }

  function PathOf(e: Entry): string {
    if e.Table? && SafePath(TextOf(e.path)).Some? then SafePath(TextOf(e.path)).value else ""
  }

  /** One more entry is sound with the earlier ones when it is sound and repeats no id and no path. */
  lemma SoundStep(entries: seq<Entry>, i: nat, t: Tree)
    requires i < |entries|
    ensures EntriesSound(entries[..i + 1], t) <==>
            && EntriesSound(entries[..i], t)
            && EntrySound(entries[i], t)
            && IdOf(entries[i]) !in (set k | 0 <= k < i :: IdOf(entries[k]))
            && PathOf(entries[i]) !in (set k | 0 <= k < i :: PathOf(entries[k]))
    ensures EntrySound(entries[i], t) ==>
              entries[i].Table? && Nonempty(entries[i].id) && SafePath(TextOf(entries[i].path)).Some?
  {
    hide SafePath;
    var earlier, all := entries[..i], entries[..i + 1];
    assert forall k :: 0 <= k < i ==> all[k] == earlier[k] == entries[k];
    assert all[i] == entries[i];
  }

  /** What a release gate run accepts: a sound registry that preserves its predecessor. */
  ghost predicate Accepts(before: Tree, after: Tree, load: Loaders) {
    && after.registry.Parsed? && after.registry.entries.Some?
    && EntriesSound(after.registry.entries.value, after)
    && Preserves(before, after, load)
  }

  method ValidateTree(before: Tree, after: Tree, load: Loaders) returns (accepted: bool)
    ensures accepted <==> Accepts(before, after, load)
  {
    if !after.registry.Parsed? || after.registry.entries.None? {
      return false;
    }
    var problems := RegistryProblems(after.registry.entries.value, after);
    var failures := HistoricalFailures(before, after, load);
    accepted := problems == [] && failures == [];
  }

  // ---------------------------------------------------------------- the whole history

  /** Every release passed the gate against its predecessor. */
  ghost predicate Released(history: seq<Tree>, load: Loaders) {
    forall i {:trigger history[i]} :: 0 < i < |history| ==> Accepts(history[i - 1], history[i], load)
  }

  /** A stable contract and the artifact it stands for. */
  ghost predicate StableAt(t: Tree, id: string) {
    id in Contracts(t) && Contracts(t)[id].stability == STABLE
  }

  /** Contract `id` of `before` lives on in `after`, unchanged in identity and compatible in content. */
  ghost predicate LivesOn(id: string, before: Tree, after: Tree, load: Loaders)
    requires StableAt(before, id)
  {
    && StableAt(after, id)
    && SameIdentity(Contracts(before)[id], Contracts(after)[id])
    && var new_ := Contracts(after)[id];
    && SafePath(TextOf(new_.path)).Some?
    && var path := SafePath(TextOf(new_.path)).value;
    && Read(before, path).Some? && Read(after, path).Some?
    && Compatible(KindOf(new_), Read(before, path).value, Read(after, path).value, load)
  }

  lemma OneRelease(id: string, before: Tree, after: Tree, load: Loaders)
    requires Accepts(before, after, load) && StableAt(before, id)
    ensures LivesOn(id, before, after, load)
  {
    hide SafePath, EntryMap, Compatible;
    assert before.registry.Parsed? by {
      if !before.registry.Parsed? { NoContracts(before); }
    }
    assert Kept(id, before, after, load);
    var new_ := Contracts(after)[id];
    var entries := after.registry.entries.value;
    var k :| 0 <= k < |entries| && entries[k] == new_;
    assert EntrySound(entries[k], after);
    SafePathIdempotent(TextOf(new_.path));
  }

  lemma NoContracts(t: Tree)
    requires !t.registry.Parsed?
    ensures Contracts(t) == map[]
  {
  }

  lemma LivesOnTransitive(id: string, a: Tree, b: Tree, c: Tree, load: Loaders)
    requires StableAt(a, id) && LivesOn(id, a, b, load) && LivesOn(id, b, c, load)
    ensures LivesOn(id, a, c, load)
  {
    hide SafePath, EntryMap, Compatible, SameField, TextOf;
    IdentityTransitive(Contracts(a)[id], Contracts(b)[id], Contracts(c)[id]);
    var path := SafePath(TextOf(Contracts(b)[id].path)).value;
    CompatibleTransitive(KindOf(Contracts(b)[id]), Read(a, path).value, Read(b, path).value, Read(c, path).value, load);
  }

  /**
   A contract once stable stays registered and stable in every later release, with the same kind,
   path and version, and every later artifact is compatible with every earlier one.
   */
  lemma {:induction false} StableForever(history: seq<Tree>, load: Loaders, i: nat, j: nat, id: string)
    requires Released(history, load) && i < j < |history| && StableAt(history[i], id)
    ensures LivesOn(id, history[i], history[j], load)
    decreases j
  {
    hide Accepts, LivesOn, StableAt;
    if i + 1 == j {
      OneRelease(id, history[i], history[j], load);
    } else {
      StableForever(history, load, i, j - 1, id);
      LivesOnIsStable(id, history[i], history[j - 1], load);
      OneRelease(id, history[j - 1], history[j], load);
      LivesOnTransitive(id, history[i], history[j - 1], history[j], load);
    }
  }

  lemma LivesOnIsStable(id: string, before: Tree, after: Tree, load: Loaders)
    requires StableAt(before, id) && LivesOn(id, before, after, load)
    ensures StableAt(after, id)
  {
  }
}
