/** Layered rig files (`engine/src/flyball/runtime/overlay.py`, and its Go twin
    `daemon/internal/rigfile/overlay.go`): the merge, `--set`, and `extends`. */
module Overlay {
  import opened Options

  datatype Value =
    | Null
    | Text(text: string)
    | Other(id: int)
    | List(items: seq<Value>)
    | Mapping(entries: map<string, Value>)

  type Key = string

  const EMPTY := Mapping(map[])

  // The merge.

  function Merge(base: Value, overlay: Value): (merged: Value)
    requires base.Mapping? && overlay.Mapping?
    ensures merged.Mapping?
    decreases overlay
  {
    var b, o := base.entries, overlay.entries;
    Mapping(map k | k in b.Keys + o.Keys && !(k in o && o[k].Null?) ::
      if k !in o then b[k]
      else if o[k].Mapping? && k in b && b[k].Mapping? then Merge(b[k], o[k])
      else o[k])
  }

  function Lookup(v: Value, path: seq<Key>): Option<Value>
    decreases |path|
  {
    if path == [] then Some(v)
    else if v.Mapping? && path[0] in v.entries then Lookup(v.entries[path[0]], path[1..])
    else None
  }

  /** Every step but the last lands on a mapping. */
  predicate Reaches(v: Value, path: seq<Key>)
    decreases |path|
  {
    v.Mapping? && (|path| > 1 ==> path[0] in v.entries && Reaches(v.entries[path[0]], path[1..]))
  }

  lemma {:induction false} MergeAt(base: Value, overlay: Value, path: seq<Key>)
    requires base.Mapping? && overlay.Mapping? && path != []
    ensures var k := path[0];
      Lookup(Merge(base, overlay), path)
      == if k !in overlay.entries then Lookup(base, path)
         else if overlay.entries[k].Null? then None
         else if overlay.entries[k].Mapping? && k in base.entries && base.entries[k].Mapping?
         then Lookup(Merge(base.entries[k], overlay.entries[k]), path[1..])
         else Lookup(overlay, path)
  {
  }

  /** A leaf of the overlay, neither null nor a mapping, always reads back. */
  lemma {:induction false} LeafReadsBack(base: Value, overlay: Value, path: seq<Key>)
    requires base.Mapping? && overlay.Mapping?
    requires Lookup(overlay, path).Some? && !Lookup(overlay, path).value.Null? && !Lookup(overlay, path).value.Mapping?
    ensures Lookup(Merge(base, overlay), path) == Lookup(overlay, path)
    decreases |path|
  {
    assert path != [];
    MergeAt(base, overlay, path);
    var k := path[0];
    if overlay.entries[k].Mapping? && k in base.entries && base.entries[k].Mapping? {
      LeafReadsBack(base.entries[k], overlay.entries[k], path[1..]);
    }
  }

  /** The overlay's mappings are followed, and then a key is not there. */
  predicate Leaves(overlay: Value, path: seq<Key>)
    decreases |path|
  {
    && path != [] && overlay.Mapping?
    && (path[0] !in overlay.entries || Leaves(overlay.entries[path[0]], path[1..]))
  }

  /** Any path that leaves the overlay at a missing key reads as in the base. */
  lemma {:induction false} MissingReadsAsBase(base: Value, overlay: Value, path: seq<Key>)
    requires base.Mapping? && Leaves(overlay, path)
    ensures Lookup(Merge(base, overlay), path) == Lookup(base, path)
    decreases |path|
  {
    MergeAt(base, overlay, path);
    var k := path[0];
    if k in overlay.entries {
      if k in base.entries && base.entries[k].Mapping? {
        MissingReadsAsBase(base.entries[k], overlay.entries[k], path[1..]);
      } else {
        LeavesFindsNothing(overlay, path);
      }
    }
  }

  lemma {:induction false} LeavesFindsNothing(overlay: Value, path: seq<Key>)
    requires Leaves(overlay, path)
    ensures Lookup(overlay, path) == None
    decreases |path|
  {
    if path[0] in overlay.entries { LeavesFindsNothing(overlay.entries[path[0]], path[1..]); }
  }

  /** A null deletes, exactly where the base has mappings all the way to it; elsewhere the overlay's
      mapping is taken as it is, and the null with it. */
  lemma {:induction false} NullDeletes(base: Value, overlay: Value, path: seq<Key>)
    requires base.Mapping? && overlay.Mapping? && path != [] && Lookup(overlay, path) == Some(Null)
    ensures Lookup(Merge(base, overlay), path) == if Reaches(base, path) then None else Some(Null)
    decreases |path|
  {
    MergeAt(base, overlay, path);
    var k := path[0];
    if |path| > 1 && k in base.entries && base.entries[k].Mapping? {
      NullDeletes(base.entries[k], overlay.entries[k], path[1..]);
    }
  }

  /** A mapping merges into a mapping and replaces anything else. */
  lemma {:induction false} MappingsMerge(base: Value, overlay: Value, path: seq<Key>)
    requires base.Mapping? && Lookup(overlay, path).Some? && Lookup(overlay, path).value.Mapping?
    requires overlay.Mapping?
    ensures Lookup(Merge(base, overlay), path)
         == if Lookup(base, path).Some? && Lookup(base, path).value.Mapping?
            then Some(Merge(Lookup(base, path).value, Lookup(overlay, path).value))
            else Lookup(overlay, path)
    decreases |path|
  {
    if path != [] {
      MergeAt(base, overlay, path);
      var k := path[0];
      if overlay.entries[k].Mapping? && k in base.entries && base.entries[k].Mapping? {
        MappingsMerge(base.entries[k], overlay.entries[k], path[1..]);
      }
    }
  }

  // As the loop has it: over the overlay's keys, in any order.

  function At(entries: map<string, Value>, k: Key): Option<Value> {
    if k in entries then Some(entries[k]) else None
  }

  lemma {:induction false} MergedAt(base: Value, overlay: Value, k: Key)
    requires base.Mapping? && overlay.Mapping?
    ensures var b, o := base.entries, overlay.entries;
      At(Merge(base, overlay).entries, k)
      == if k !in o then At(b, k)
         else if o[k].Null? then None
         else if o[k].Mapping? && k in b && b[k].Mapping? then Some(Merge(b[k], o[k]))
         else Some(o[k])
  {
  }

  lemma {:induction false} SameEntries(a: map<string, Value>, b: map<string, Value>)
    requires forall k :: At(a, k) == At(b, k)
    ensures a == b
  {
    assert forall k :: k in a <==> At(a, k).Some?;
    assert forall k :: k in b <==> At(b, k).Some?;
    assert a.Keys == b.Keys;
    forall k | k in a ensures a[k] == b[k] { assert At(a, k) == At(b, k); }
  }

  lemma {:induction false} Elsewhere(entries: map<string, Value>, key: Key, value: Value, k: Key)
    ensures At(entries[key := value], k) == if k == key then Some(value) else At(entries, k)
    ensures At(entries - {key}, k) == if k == key then None else At(entries, k)
  {
  }

  /** Whatever order the keys come in: Python's as written, Go's at random. */
  method MergeLoop(base: Value, overlay: Value) returns (result: Value)
    requires base.Mapping? && overlay.Mapping?
    ensures result == Merge(base, overlay)
    decreases overlay
  {
    hide Merge, At;
    var b, o := base.entries, overlay.entries;
    var entries := b;
    var todo := o.Keys;
    ghost var merged := Merge(base, overlay).entries;
    forall k | k !in todo ensures At(entries, k) == At(merged, k) { MergedAt(base, overlay, k); }
    while todo != {}
      invariant todo <= o.Keys
      invariant forall k :: At(entries, k) == if k in todo then At(b, k) else At(merged, k)
      decreases |todo|
    {
      var key :| key in todo;
      var value := o[key];
      ghost var before, was := entries, todo;
      todo := todo - {key};
      MergedAt(base, overlay, key);
      Present(entries, key);
      Present(b, key);
      if value.Null? {
        entries := entries - {key};
      } else if value.Mapping? && key in entries && entries[key].Mapping? {
        var nested := MergeLoop(entries[key], value);
        entries := entries[key := nested];
      } else {
        entries := entries[key := value];
      }
      forall k ensures At(entries, k) == if k in todo then At(b, k) else At(merged, k) {
        Elsewhere(before, key, if key in entries then entries[key] else Null, k);
      }
    }
    SameEntries(entries, merged);
    return Mapping(entries);
  }

  lemma {:induction false} Present(entries: map<string, Value>, k: Key)
    ensures At(entries, k) == if k in entries then Some(entries[k]) else None
  {
  }

  // `--set`.

  function ApplySet(document: Value, path: seq<Key>, value: Value): (result: Value)
    requires document.Mapping? && path != []
    ensures result.Mapping?
    decreases |path|
  {
    var d := document.entries;
    var head, rest := path[0], path[1..];
    if rest == [] then Mapping(if value.Null? then d - {head} else d[head := value])
    else
      var isMap := head in d && d[head].Mapping?;
      if value.Null? && !isMap then document
      else Mapping(d[head := ApplySet(if isMap then d[head] else EMPTY, rest, value)])
  }

  /** The overlay of one path. */
  function OnePath(path: seq<Key>, value: Value): (overlay: Value)
    requires path != []
    ensures overlay.Mapping?
    decreases |path|
  {
    Mapping(map[path[0] := if |path| == 1 then value else OnePath(path[1..], value)])
  }

  lemma {:induction false} SetOnNothing(path: seq<Key>, value: Value)
    requires path != [] && !value.Null?
    ensures ApplySet(EMPTY, path, value) == OnePath(path, value)
    decreases |path|
  {
    if |path| > 1 { SetOnNothing(path[1..], value); }
  }

  /** Setting a value that is neither null nor a mapping is merging the overlay of its one path. */
  lemma {:induction false} SetIsMerge(document: Value, path: seq<Key>, value: Value)
    requires document.Mapping? && path != [] && !value.Null? && !value.Mapping?
    ensures ApplySet(document, path, value) == Merge(document, OnePath(path, value))
    decreases |path|
  {
    hide Merge;
    var d, head := document.entries, path[0];
    var placed := if |path| == 1 then value else OnePath(path[1..], value);
    MergesOne(document, head, placed);
    if |path| > 1 {
      if head in d && d[head].Mapping? { SetIsMerge(d[head], path[1..], value); } else { SetOnNothing(path[1..], value); }
    }
  }

  /** Merging one entry touches one entry. */
  lemma {:induction false} MergesOne(document: Value, key: Key, value: Value)
    requires document.Mapping?
    ensures var d := document.entries;
      Merge(document, Mapping(map[key := value])) == Mapping(
        if value.Null? then d - {key}
        else if value.Mapping? && key in d && d[key].Mapping? then d[key := Merge(d[key], value)]
        else d[key := value])
  {
    var d, overlay := document.entries, Mapping(map[key := value]);
    var expected := if value.Null? then d - {key}
      else if value.Mapping? && key in d && d[key].Mapping? then d[key := Merge(d[key], value)] else d[key := value];
    assert Merge(document, overlay).entries == expected;
  }

  /** Deleting differs from merging a null exactly where the document does not reach: nothing is set,
      where the merge would take the overlay's mapping with the null in it. */
  lemma {:induction false} DeleteIsMerge(document: Value, path: seq<Key>)
    requires document.Mapping? && path != []
    ensures ApplySet(document, path, Null) == Merge(document, OnePath(path, Null)) <==> Reaches(document, path)
    ensures !Reaches(document, path) ==> Lookup(ApplySet(document, path, Null), path) == None
    decreases |path|
  {
    var d, head := document.entries, path[0];
    var merged, applied := Merge(document, OnePath(path, Null)), ApplySet(document, path, Null);
    if |path| == 1 {
      assert merged.entries == applied.entries;
    } else if head in d && d[head].Mapping? {
      DeleteIsMerge(d[head], path[1..]);
      assert merged.entries.Keys == applied.entries.Keys == d.Keys;
      assert merged.entries[head] == Merge(d[head], OnePath(path[1..], Null));
      assert applied.entries[head] == ApplySet(d[head], path[1..], Null);
      if Reaches(document, path) { assert merged.entries == applied.entries; }
    } else {
      assert head in merged.entries && merged.entries[head].Mapping?;
    }
  }

  /** A mapping set replaces; merged, it would keep what the document had there beside it. */
  lemma {:induction false} SetReplaces(document: Value, path: seq<Key>, value: Value)
    requires document.Mapping? && path != [] && !value.Null?
    ensures Lookup(ApplySet(document, path, value), path) == Some(value)
    decreases |path|
  {
    var d, head := document.entries, path[0];
    if |path| > 1 {
      SetReplaces(if head in d && d[head].Mapping? then d[head] else EMPTY, path[1..], value);
    }
  }

  /** Neither is on the way to the other. */
  predicate Diverge(path: seq<Key>, other: seq<Key>)
    decreases |path|
  {
    path != [] && other != [] && (path[0] != other[0] || Diverge(path[1..], other[1..]))
  }

  /** What is set at one path is not seen at another. */
  lemma {:induction false} SetNothingElse(document: Value, path: seq<Key>, value: Value, other: seq<Key>)
    requires document.Mapping? && Diverge(path, other)
    ensures Lookup(ApplySet(document, path, value), other) == Lookup(document, other)
    decreases |path|
  {
    var d, head := document.entries, path[0];
    if head == other[0] && |path| > 1 {
      SetNothingElse(if head in d && d[head].Mapping? then d[head] else EMPTY, path[1..], value, other[1..]);
    }
  }

  // `extends`.

  /** The files there are, how a path resolves, and where a name in a file leads. */
  datatype Disk = Disk(files: map<string, Value>, resolve: string -> string, beside: (string, string) -> string)

  datatype Failure = Cycle | Missing | NotAMapping | BadExtends

  datatype Loaded = Layer(document: Value, files: seq<string>) | Failed(why: Failure)

  function AppendUnique(list: seq<string>, items: seq<string>): seq<string>
    decreases |items|
  {
    if items == [] then list else AppendUnique(if items[0] in list then list else list + [items[0]], items[1..])
  }

  /** The names in `extends`, if it is a list of them. */
  function Names(items: seq<Value>): Option<seq<string>> {
    if items == [] then Some([])
    else if !items[0].Text? then None
    else
      var rest := Names(items[1..]);
      if rest.None? then None else Some([items[0].text] + rest.value)
  }

  const EXTENDS := "extends"

  function Extends(document: Value): Option<seq<string>>
    requires document.Mapping?
  {
    if EXTENDS !in document.entries then Some([])
    else if document.entries[EXTENDS].List? then Names(document.entries[EXTENDS].items)
    else None
  }

  function Own(document: Value): Value
    requires document.Mapping?
  {
    Mapping(document.entries - {EXTENDS})
  }

  function Pending(disk: Disk, stack: seq<string>): set<string> {
    set f | f in disk.files && f !in stack
  }

  function LoadLayer(disk: Disk, path: string, stack: seq<string>): (loaded: Loaded)
    ensures loaded.Layer? ==> loaded.document.Mapping?
    decreases Pending(disk, stack), 1, 0
  {
    var resolved := disk.resolve(path);
    if resolved in stack then Failed(Cycle)
    else if resolved !in disk.files then Failed(Missing)
    else if !disk.files[resolved].Mapping? then Failed(NotAMapping)
    else
      var document := disk.files[resolved];
      var bases := Extends(document);
      if bases.None? then Failed(BadExtends)
      else
        assert resolved in Pending(disk, stack) && resolved !in Pending(disk, stack + [resolved]);
        assert Pending(disk, stack + [resolved]) < Pending(disk, stack);
        var under := LoadAll(disk, path, bases.value, stack + [resolved], EMPTY, []);
        if under.Failed? then under else Layer(Merge(under.document, Own(document)), under.files + [path])
  }

  /** The bases in the order they are named, each merged over those before it. */
  function LoadAll(disk: Disk, path: string, names: seq<string>, stack: seq<string>, base: Value,
      files: seq<string>): (loaded: Loaded)
    requires base.Mapping?
    ensures loaded.Layer? ==> loaded.document.Mapping?
    decreases Pending(disk, stack), 2, |names|
  {
    if names == [] then Layer(base, files)
    else
      var first := LoadLayer(disk, disk.beside(path, names[0]), stack);
      if first.Failed? then first
      else LoadAll(disk, path, names[1..], stack, Merge(base, first.document), AppendUnique(files, first.files))
  }

  // What loading keeps.

  ghost predicate Distinct(s: seq<string>) {
    forall i, j :: 0 <= i < j < |s| ==> s[i] != s[j]
  }

  /** None of them resolves to a file being loaded. */
  ghost predicate Clear(disk: Disk, files: seq<string>, stack: seq<string>) {
    forall i :: 0 <= i < |files| ==> disk.resolve(files[i]) !in stack
  }

  lemma {:induction false} AppendKeeps(disk: Disk, list: seq<string>, items: seq<string>, stack: seq<string>)
    requires Distinct(list) && Clear(disk, list, stack) && Clear(disk, items, stack)
    ensures var all := AppendUnique(list, items);
      && Distinct(all) && Clear(disk, all, stack) && list <= all
      && (forall f :: f in all <==> f in list || f in items)
    decreases |items|
  {
    if items != [] {
      var next := if items[0] in list then list else list + [items[0]];
      AppendKeeps(disk, next, items[1..], stack);
    }
  }

  lemma {:induction false} AppendNew(list: seq<string>, item: string)
    ensures AppendUnique(list, [item]) == if item in list then list else list + [item]
  {
  }

  /** Loading never names a file twice, nor one that is being loaded above it: so where Python appends a
      file's own path and Go appends it only if new, they agree. */
  lemma {:induction false} LayerFilesDistinct(disk: Disk, path: string, stack: seq<string>)
    ensures var l := LoadLayer(disk, path, stack);
      l.Layer? ==>
        && Distinct(l.files) && Clear(disk, l.files, stack)
        && l.files != [] && l.files[|l.files| - 1] == path
        && AppendUnique(l.files[..|l.files| - 1], [path]) == l.files
    decreases Pending(disk, stack), 1, 0
  {
    var l := LoadLayer(disk, path, stack);
    if l.Layer? {
      var resolved := disk.resolve(path);
      var document := disk.files[resolved];
      assert resolved in Pending(disk, stack) && resolved !in Pending(disk, stack + [resolved]);
      assert Pending(disk, stack + [resolved]) < Pending(disk, stack);
      BasesFilesDistinct(disk, path, Extends(document).value, stack + [resolved], EMPTY, []);
      var bases := LoadAll(disk, path, Extends(document).value, stack + [resolved], EMPTY, []);
      assert path !in bases.files;
      assert l.files[..|l.files| - 1] == bases.files;
      AppendNew(bases.files, path);
      forall i | 0 <= i < |l.files| ensures disk.resolve(l.files[i]) !in stack {
        if i < |bases.files| { assert disk.resolve(bases.files[i]) !in stack + [resolved]; }
      }
    }
  }

  lemma {:induction false} BasesFilesDistinct(disk: Disk, path: string, names: seq<string>, stack: seq<string>,
      base: Value, files: seq<string>)
    requires base.Mapping? && Distinct(files) && Clear(disk, files, stack)
    ensures var l := LoadAll(disk, path, names, stack, base, files);
      l.Layer? ==> Distinct(l.files) && Clear(disk, l.files, stack)
    decreases Pending(disk, stack), 2, |names|
  {
    hide Distinct, Clear, AppendUnique;
    if names != [] {
      var first := LoadLayer(disk, disk.beside(path, names[0]), stack);
      if first.Layer? {
        LayerFilesDistinct(disk, disk.beside(path, names[0]), stack);
        AppendKeeps(disk, files, first.files, stack);
        BasesFilesDistinct(disk, path, names[1..], stack, Merge(base, first.document), AppendUnique(files, first.files));
      }
    }
  }

  /** `extends` is stripped throughout, and a file's own keys win over its bases'. */
  lemma {:induction false} OwnKeysWin(disk: Disk, path: string, stack: seq<string>, keys: seq<Key>)
    requires LoadLayer(disk, path, stack).Layer?
    ensures EXTENDS !in LoadLayer(disk, path, stack).document.entries
    ensures var own := Own(disk.files[disk.resolve(path)]);
      keys != [] && Lookup(own, keys).Some? && !Lookup(own, keys).value.Null? && !Lookup(own, keys).value.Mapping? ==>
        Lookup(LoadLayer(disk, path, stack).document, keys) == Lookup(own, keys)
    decreases Pending(disk, stack), 1, 0
  {
    var resolved := disk.resolve(path);
    var document := disk.files[resolved];
    var own := Own(document);
    assert resolved in Pending(disk, stack) && resolved !in Pending(disk, stack + [resolved]);
    assert Pending(disk, stack + [resolved]) < Pending(disk, stack);
    BasesStripped(disk, path, Extends(document).value, stack + [resolved], EMPTY, []);
    var bases := LoadAll(disk, path, Extends(document).value, stack + [resolved], EMPTY, []);
    if keys != [] && Lookup(own, keys).Some? && !Lookup(own, keys).value.Null? && !Lookup(own, keys).value.Mapping? {
      LeafReadsBack(bases.document, own, keys);
    }
  }

  lemma {:induction false} BasesStripped(disk: Disk, path: string, names: seq<string>, stack: seq<string>,
      base: Value, files: seq<string>)
    requires base.Mapping? && EXTENDS !in base.entries
    ensures var l := LoadAll(disk, path, names, stack, base, files);
      l.Layer? ==> EXTENDS !in l.document.entries
    decreases Pending(disk, stack), 2, |names|
  {
    if names != [] {
      var first := LoadLayer(disk, disk.beside(path, names[0]), stack);
      if first.Layer? {
        OwnKeysWin(disk, disk.beside(path, names[0]), stack, []);
        BasesStripped(disk, path, names[1..], stack, Merge(base, first.document), AppendUnique(files, first.files));
      }
    }
  }

  // Which layer a path reads from.

  /** A file without `extends` has no base; with it, it must be a list of names, kept in their order. */
  lemma {:induction false} ExtendsIs(document: Value)
    requires document.Mapping?
    ensures "extends" !in document.entries ==> Extends(document) == Some([])
    ensures "extends" in document.entries ==>
      var value := document.entries["extends"];
      && (Extends(document).Some? <==> value.List? && forall i :: 0 <= i < |value.items| ==> value.items[i].Text?)
      && (Extends(document).Some? ==>
            && |Extends(document).value| == |value.items|
            && forall i :: 0 <= i < |value.items| ==> value.items[i] == Text(Extends(document).value[i]))
  {
    if "extends" in document.entries && document.entries["extends"].List? { NamesAre(document.entries["extends"].items); }
  }

  lemma {:induction false} NamesAre(items: seq<Value>)
    ensures Names(items).Some? <==> forall i :: 0 <= i < |items| ==> items[i].Text?
    ensures Names(items).Some? ==>
      |Names(items).value| == |items| && forall i :: 0 <= i < |items| ==> items[i] == Text(Names(items).value[i])
  {
    if items != [] {
      NamesAre(items[1..]);
      assert forall i :: 1 <= i < |items| ==> items[i] == items[1..][i - 1];
      if Names(items).None? && items[0].Text? {
        var i :| 0 <= i < |items[1..]| && !items[1..][i].Text?;
        assert !items[i + 1].Text?;
      }
    }
  }

  ghost predicate IsLeaf(v: Value, keys: seq<Key>) {
    Lookup(v, keys).Some? && !Lookup(v, keys).value.Null? && !Lookup(v, keys).value.Mapping?
  }

  /** What a file's own keys leave open is read from its bases. */
  lemma {:induction false} BasesShowThrough(disk: Disk, path: string, stack: seq<string>, keys: seq<Key>)
    requires LoadLayer(disk, path, stack).Layer? && Leaves(Own(disk.files[disk.resolve(path)]), keys)
    ensures var document := disk.files[disk.resolve(path)];
      var bases := LoadAll(disk, path, Extends(document).value, stack + [disk.resolve(path)], EMPTY, []);
      bases.Layer? && Lookup(LoadLayer(disk, path, stack).document, keys) == Lookup(bases.document, keys)
  {
    hide Merge;
    var document := disk.files[disk.resolve(path)];
    var bases := LoadAll(disk, path, Extends(document).value, stack + [disk.resolve(path)], EMPTY, []);
    MissingReadsAsBase(bases.document, Own(document), keys);
  }

  /** And among bases the last that has a leaf there: it reads back over those before it, where those after
      it leave the path open. */
  lemma {:induction false} LaterBaseWins(disk: Disk, path: string, names: seq<string>, stack: seq<string>, base: Value,
      files: seq<string>, k: nat, keys: seq<Key>)
    requires base.Mapping? && k < |names| && LoadAll(disk, path, names, stack, base, files).Layer?
    requires forall j :: k < j < |names| ==>
      var l := LoadLayer(disk, disk.beside(path, names[j]), stack); l.Layer? ==> Leaves(l.document, keys)
    ensures var l := LoadLayer(disk, disk.beside(path, names[k]), stack);
      l.Layer? && (IsLeaf(l.document, keys) ==>
        Lookup(LoadAll(disk, path, names, stack, base, files).document, keys) == Lookup(l.document, keys))
    decreases |names|
  {
    hide Merge, Lookup, Leaves, IsLeaf, LoadLayer, AppendUnique;
    var first := LoadLayer(disk, disk.beside(path, names[0]), stack);
    var next := Merge(base, first.document);
    assert forall j :: 1 <= j < |names| ==> names[1..][j - 1] == names[j];
    if k > 0 {
      LaterBaseWins(disk, path, names[1..], stack, next, AppendUnique(files, first.files), k - 1, keys);
    } else {
      LeafOver(base, first.document, keys);
      BasesLeave(disk, path, names[1..], stack, next, AppendUnique(files, first.files), keys);
    }
  }

  lemma {:induction false} LeafOver(base: Value, overlay: Value, keys: seq<Key>)
    requires base.Mapping? && overlay.Mapping?
    ensures IsLeaf(overlay, keys) ==> Lookup(Merge(base, overlay), keys) == Lookup(overlay, keys)
  {
    if IsLeaf(overlay, keys) { LeafReadsBack(base, overlay, keys); }
  }

  lemma {:induction false} BasesLeave(disk: Disk, path: string, names: seq<string>, stack: seq<string>, base: Value,
      files: seq<string>, keys: seq<Key>)
    requires base.Mapping? && LoadAll(disk, path, names, stack, base, files).Layer?
    requires forall j :: 0 <= j < |names| ==>
      var l := LoadLayer(disk, disk.beside(path, names[j]), stack); l.Layer? ==> Leaves(l.document, keys)
    ensures Lookup(LoadAll(disk, path, names, stack, base, files).document, keys) == Lookup(base, keys)
    decreases |names|
  {
    hide Merge, Lookup, Leaves, LoadLayer, AppendUnique;
    if names != [] {
      var first := LoadLayer(disk, disk.beside(path, names[0]), stack);
      MissingReadsAsBase(base, first.document, keys);
      assert forall j :: 1 <= j < |names| ==> names[1..][j - 1] == names[j];
      BasesLeave(disk, path, names[1..], stack, Merge(base, first.document), AppendUnique(files, first.files), keys);
    }
  }

  // The cycle check: exactly the cycles.

  /** The file at `a` is there, is a mapping, and extends the one at `b`. */
  ghost predicate Extended(disk: Disk, a: string, b: string) {
    && disk.resolve(a) in disk.files && disk.files[disk.resolve(a)].Mapping?
    && Extends(disk.files[disk.resolve(a)]).Some?
    && exists name :: name in Extends(disk.files[disk.resolve(a)]).value && disk.beside(a, name) == b
  }

  ghost predicate IsChain(disk: Disk, chain: seq<string>) {
    chain != [] && forall i :: 0 <= i < |chain| - 1 ==> Extended(disk, chain[i], chain[i + 1])
  }

  /** The chain ends in a file that is already being loaded: above it, or in the chain itself. */
  ghost predicate Returns(disk: Disk, chain: seq<string>, stack: seq<string>)
    requires chain != []
  {
    var last := disk.resolve(chain[|chain| - 1]);
    last in stack || exists i :: 0 <= i < |chain| - 1 && disk.resolve(chain[i]) == last
  }

  /** A cycle is reported only where there is one: files extending one another from the one loaded back to
      one being loaded. A file extended twice over is none. */
  lemma {:induction false} CycleIsReal(disk: Disk, path: string, stack: seq<string>) returns (chain: seq<string>)
    requires LoadLayer(disk, path, stack) == Failed(Cycle)
    ensures IsChain(disk, chain) && chain[0] == path && Returns(disk, chain, stack)
    decreases Pending(disk, stack), 1, 0
  {
    var resolved := disk.resolve(path);
    chain := [path];
    if resolved !in stack {
      var names := Extends(disk.files[resolved]).value;
      assert resolved in Pending(disk, stack) && resolved !in Pending(disk, stack + [resolved]);
      assert Pending(disk, stack + [resolved]) < Pending(disk, stack);
      var rest := CycleAmong(disk, path, names, stack + [resolved], EMPTY, []);
      chain := [path] + rest;
      assert Extended(disk, path, rest[0]);
      ChainOn(disk, path, rest, stack);
    }
  }

  lemma {:induction false} ChainOn(disk: Disk, path: string, rest: seq<string>, stack: seq<string>)
    requires IsChain(disk, rest) && Extended(disk, path, rest[0])
    requires Returns(disk, rest, stack + [disk.resolve(path)])
    ensures IsChain(disk, [path] + rest) && Returns(disk, [path] + rest, stack)
  {
    var chain := [path] + rest;
    var last := disk.resolve(rest[|rest| - 1]);
    forall i | 0 <= i < |chain| - 1 ensures Extended(disk, chain[i], chain[i + 1]) {
      if i > 0 { assert Extended(disk, rest[i - 1], rest[i]); }
    }
    if i :| 0 <= i < |rest| - 1 && disk.resolve(rest[i]) == last {
      assert disk.resolve(chain[i + 1]) == last;
    } else if last == disk.resolve(path) {
      assert disk.resolve(chain[0]) == last;
    }
  }

  lemma {:induction false} CycleAmong(disk: Disk, path: string, names: seq<string>, stack: seq<string>, base: Value,
      files: seq<string>)
    returns (chain: seq<string>)
    requires base.Mapping? && LoadAll(disk, path, names, stack, base, files) == Failed(Cycle)
    ensures IsChain(disk, chain) && Returns(disk, chain, stack)
    ensures exists name :: name in names && disk.beside(path, name) == chain[0]
    decreases Pending(disk, stack), 2, |names|
  {
    var first := LoadLayer(disk, disk.beside(path, names[0]), stack);
    if first.Failed? {
      chain := CycleIsReal(disk, disk.beside(path, names[0]), stack);
      assert names[0] in names;
    } else {
      chain := CycleAmong(disk, path, names[1..], stack, Merge(base, first.document), AppendUnique(files, first.files));
    }
  }

  /** And none is missed: once a file has loaded, every file reached from it through `extends` is there, a
      mapping, and not among those it was reached through. */
  lemma {:induction false} LayerIsWhole(disk: Disk, path: string, stack: seq<string>, chain: seq<string>)
    requires LoadLayer(disk, path, stack).Layer? && IsChain(disk, chain) && chain[0] == path
    ensures forall i :: 0 <= i < |chain| ==>
      disk.resolve(chain[i]) in disk.files && disk.files[disk.resolve(chain[i])].Mapping? && disk.resolve(chain[i]) !in stack
    ensures forall i, j :: 0 <= i < j < |chain| ==> disk.resolve(chain[i]) != disk.resolve(chain[j])
    decreases |chain|
  {
    var resolved := disk.resolve(path);
    if |chain| > 1 {
      var rest := chain[1..];
      assert Extended(disk, chain[0], chain[1]);
      var names := Extends(disk.files[resolved]).value;
      var name :| name in names && disk.beside(path, name) == rest[0];
      AllLoaded(disk, path, names, stack + [resolved], EMPTY, [], name);
      forall i | 0 <= i < |rest| - 1 ensures Extended(disk, rest[i], rest[i + 1]) {
        assert Extended(disk, chain[i + 1], chain[i + 2]);
      }
      LayerIsWhole(disk, rest[0], stack + [resolved], rest);
      forall i | 1 <= i < |chain|
        ensures disk.resolve(chain[i]) in disk.files && disk.files[disk.resolve(chain[i])].Mapping?
        ensures disk.resolve(chain[i]) !in stack && disk.resolve(chain[i]) != resolved
      {
        assert chain[i] == rest[i - 1];
        assert disk.resolve(rest[i - 1]) !in stack + [resolved];
      }
      forall i, j | 0 <= i < j < |chain| ensures disk.resolve(chain[i]) != disk.resolve(chain[j]) {
        if i > 0 { assert chain[i] == rest[i - 1] && chain[j] == rest[j - 1]; }
      }
    }
  }

  lemma {:induction false} AllLoaded(disk: Disk, path: string, names: seq<string>, stack: seq<string>, base: Value,
      files: seq<string>, name: string)
    requires base.Mapping? && LoadAll(disk, path, names, stack, base, files).Layer? && name in names
    ensures LoadLayer(disk, disk.beside(path, name), stack).Layer?
    decreases |names|
  {
    var first := LoadLayer(disk, disk.beside(path, names[0]), stack);
    if name != names[0] {
      AllLoaded(disk, path, names[1..], stack, Merge(base, first.document), AppendUnique(files, first.files), name);
    }
  }

  // The files that contributed: exactly those reached.

  lemma {:induction false} AppendHolds(list: seq<string>, items: seq<string>, f: string)
    ensures f in AppendUnique(list, items) <==> f in list || f in items
    decreases |items|
  {
    if items != [] { AppendHolds(if items[0] in list then list else list + [items[0]], items[1..], f); }
  }

  lemma {:induction false} BasesListed(disk: Disk, path: string, names: seq<string>, stack: seq<string>, base: Value,
      files: seq<string>, f: string)
    requires base.Mapping? && LoadAll(disk, path, names, stack, base, files).Layer?
    ensures f in LoadAll(disk, path, names, stack, base, files).files <==> f in files || ListedBy(disk, path, names, stack, f)
    decreases |names|
  {
    if names != [] {
      hide Merge, LoadLayer;
      var first := LoadLayer(disk, disk.beside(path, names[0]), stack);
      AppendHolds(files, first.files, f);
      BasesListed(disk, path, names[1..], stack, Merge(base, first.document), AppendUnique(files, first.files), f);
    }
  }

  ghost predicate ListedBy(disk: Disk, path: string, names: seq<string>, stack: seq<string>, f: string) {
    exists name :: name in names
      && LoadLayer(disk, disk.beside(path, name), stack).Layer? && f in LoadLayer(disk, disk.beside(path, name), stack).files
  }

  /** Every file reached from the one loaded through `extends` is listed as having contributed. */
  lemma {:induction false} ReachedIsListed(disk: Disk, path: string, stack: seq<string>, chain: seq<string>)
    requires LoadLayer(disk, path, stack).Layer? && IsChain(disk, chain) && chain[0] == path
    ensures chain[|chain| - 1] in LoadLayer(disk, path, stack).files
    decreases |chain|
  {
    if |chain| > 1 {
      var rest := chain[1..];
      assert Extended(disk, chain[0], chain[1]);
      var resolved := disk.resolve(path);
      var names := Extends(disk.files[resolved]).value;
      var name :| name in names && disk.beside(path, name) == rest[0];
      AllLoaded(disk, path, names, stack + [resolved], EMPTY, [], name);
      forall i | 0 <= i < |rest| - 1 ensures Extended(disk, rest[i], rest[i + 1]) {
        assert Extended(disk, chain[i + 1], chain[i + 2]);
      }
      ReachedIsListed(disk, rest[0], stack + [resolved], rest);
      BasesListed(disk, path, names, stack + [resolved], EMPTY, [], chain[|chain| - 1]);
    }
  }

  /** And none else. */
  lemma {:induction false} ListedIsReached(disk: Disk, path: string, stack: seq<string>, f: string)
      returns (chain: seq<string>)
    requires LoadLayer(disk, path, stack).Layer? && f in LoadLayer(disk, path, stack).files
    ensures IsChain(disk, chain) && chain[0] == path && chain[|chain| - 1] == f
    decreases Pending(disk, stack)
  {
    chain := [path];
    if f != path {
      var resolved := disk.resolve(path);
      assert resolved in Pending(disk, stack) && resolved !in Pending(disk, stack + [resolved]);
      assert Pending(disk, stack + [resolved]) < Pending(disk, stack);
      var names := Extends(disk.files[resolved]).value;
      BasesListed(disk, path, names, stack + [resolved], EMPTY, [], f);
      var name :| name in names && LoadLayer(disk, disk.beside(path, name), stack + [resolved]).Layer?
                  && f in LoadLayer(disk, disk.beside(path, name), stack + [resolved]).files;
      var rest := ListedIsReached(disk, disk.beside(path, name), stack + [resolved], f);
      chain := [path] + rest;
      assert Extended(disk, path, rest[0]);
      forall i | 0 <= i < |chain| - 1 ensures Extended(disk, chain[i], chain[i + 1]) {
        if i > 0 { assert Extended(disk, rest[i - 1], rest[i]); }
      }
    }
  }

  // The whole: files in order, then every `--set`.

  datatype Setting = Setting(path: seq<Key>, value: Value)

  function ApplyAll(document: Value, sets: seq<Setting>): (result: Value)
    requires document.Mapping? && forall i :: 0 <= i < |sets| ==> sets[i].path != []
    ensures result.Mapping?
    decreases |sets|
  {
    if sets == [] then document else ApplyAll(ApplySet(document, sets[0].path, sets[0].value), sets[1..])
  }

  function ResolveFiles(disk: Disk, paths: seq<string>, document: Value, files: seq<string>): (loaded: Loaded)
    requires document.Mapping?
    ensures loaded.Layer? ==> loaded.document.Mapping?
    decreases |paths|
  {
    if paths == [] then Layer(document, files)
    else
      var layer := LoadLayer(disk, paths[0], []);
      if layer.Failed? then layer
      else ResolveFiles(disk, paths[1..], Merge(document, layer.document), AppendUnique(files, layer.files))
  }

  /** A later file overlays an earlier one: the last that has a leaf at a path is what the path reads, where
      those after it leave it open. */
  lemma {:induction false} LaterFileWins(disk: Disk, paths: seq<string>, document: Value, files: seq<string>, k: nat,
      keys: seq<Key>)
    requires document.Mapping? && k < |paths| && ResolveFiles(disk, paths, document, files).Layer?
    requires forall j :: k < j < |paths| ==>
      var l := LoadLayer(disk, paths[j], []); l.Layer? ==> Leaves(l.document, keys)
    ensures var l := LoadLayer(disk, paths[k], []);
      l.Layer? && (IsLeaf(l.document, keys) ==>
        Lookup(ResolveFiles(disk, paths, document, files).document, keys) == Lookup(l.document, keys))
    decreases |paths|
  {
    hide Merge, Lookup, Leaves, IsLeaf, LoadLayer, AppendUnique;
    var first := LoadLayer(disk, paths[0], []);
    var next := Merge(document, first.document);
    assert forall j :: 1 <= j < |paths| ==> paths[1..][j - 1] == paths[j];
    if k > 0 {
      LaterFileWins(disk, paths[1..], next, AppendUnique(files, first.files), k - 1, keys);
    } else {
      LeafOver(document, first.document, keys);
      FilesLeave(disk, paths[1..], next, AppendUnique(files, first.files), keys);
    }
  }

  lemma {:induction false} FilesLeave(disk: Disk, paths: seq<string>, document: Value, files: seq<string>, keys: seq<Key>)
    requires document.Mapping? && ResolveFiles(disk, paths, document, files).Layer?
    requires forall j :: 0 <= j < |paths| ==>
      var l := LoadLayer(disk, paths[j], []); l.Layer? ==> Leaves(l.document, keys)
    ensures Lookup(ResolveFiles(disk, paths, document, files).document, keys) == Lookup(document, keys)
    decreases |paths|
  {
    hide Merge, Lookup, Leaves, LoadLayer, AppendUnique;
    if paths != [] {
      var first := LoadLayer(disk, paths[0], []);
      MissingReadsAsBase(document, first.document, keys);
      assert forall j :: 1 <= j < |paths| ==> paths[1..][j - 1] == paths[j];
      FilesLeave(disk, paths[1..], Merge(document, first.document), AppendUnique(files, first.files), keys);
    }
  }

  method ResolveLayers(disk: Disk, paths: seq<string>, sets: seq<Setting>) returns (result: Loaded)
    requires forall i :: 0 <= i < |sets| ==> sets[i].path != []
    ensures var files := ResolveFiles(disk, paths, EMPTY, []);
      result == if files.Failed? then files else Layer(ApplyAll(files.document, sets), files.files)
  {
    var document := EMPTY;
    var contributed: seq<string> := [];
    var i := 0;
    assert paths[0..] == paths;
    while i < |paths|
      invariant i <= |paths| && document.Mapping?
      invariant ResolveFiles(disk, paths[i..], document, contributed) == ResolveFiles(disk, paths, EMPTY, [])
    {
      assert paths[i..][0] == paths[i] && paths[i..][1..] == paths[i + 1..];
      var layer := LoadLayer(disk, paths[i], []);
      if layer.Failed? { return layer; }
      document := Merge(document, layer.document);
      contributed := AppendUnique(contributed, layer.files);
      i := i + 1;
    }
    i := 0;
    ghost var merged := document;
    assert sets[0..] == sets;
    while i < |sets|
      invariant i <= |sets| && document.Mapping?
      invariant ApplyAll(document, sets[i..]) == ApplyAll(merged, sets)
    {
      assert sets[i..][0] == sets[i] && sets[i..][1..] == sets[i + 1..];
      document := ApplySet(document, sets[i].path, sets[i].value);
      i := i + 1;
    }
    return Layer(document, contributed);
  }

  /** The last value set at a path is what it reads. */
  lemma {:induction false} LastSettingWins(document: Value, sets: seq<Setting>, last: Setting)
    requires document.Mapping? && last.path != [] && !last.value.Null? && forall i :: 0 <= i < |sets| ==> sets[i].path != []
    ensures Lookup(ApplyAll(document, sets + [last]), last.path) == Some(last.value)
    decreases |sets|
  {
    if sets == [] {
      assert [] + [last] == [last] && [last][1..] == [];
      SetReplaces(document, last.path, last.value);
    } else {
      assert (sets + [last])[1..] == sets[1..] + [last];
      LastSettingWins(ApplySet(document, sets[0].path, sets[0].value), sets[1..], last);
    }
  }

  /** Every file that contributed is listed once. */
  lemma {:induction false} FilesListedOnce(disk: Disk, paths: seq<string>, document: Value, files: seq<string>)
    requires document.Mapping? && Distinct(files)
    ensures var l := ResolveFiles(disk, paths, document, files);
      l.Layer? ==> Distinct(l.files)
    decreases |paths|
  {
    hide Distinct, AppendUnique, LoadLayer;
    if paths != [] {
      var layer := LoadLayer(disk, paths[0], []);
      if layer.Layer? {
        LayerFilesDistinct(disk, paths[0], []);
        AppendKeeps(disk, files, layer.files, []);
        FilesListedOnce(disk, paths[1..], Merge(document, layer.document), AppendUnique(files, layer.files));
      }
    }
  }
}
