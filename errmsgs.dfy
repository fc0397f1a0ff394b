/**
  The custom error-message table of requests/request.go (getCustomErrMsgs
  and findCustomErrMsgs): a walk over the payload's struct type that records,
  for every field carrying an `errMsg` tag, the tag under the field's
  validator namespace "<Type>.<Field>", "<Type>.<Field>.<Field>", and so on,
  descending only into fields whose type is a pointer to a struct.
*/
module ErrMsgTable {
  import opened GoBase
  import opened GoStrings

  /** A reflect.Type, as far as the walk looks at it. */
  datatype GoType =
    | Struct(name: string, fields: seq<StructField>)
    | Pointer(elem: GoType)
    | Other(name: string)   // any other kind: a basic type, a slice, a map, ...

  /** A struct field: its name, the value of its `errMsg` tag ("" when the tag is absent), its type. */
  datatype StructField = StructField(name: string, errMsg: string, typ: GoType)

  predicate IsPtrToStruct(t: GoType) {
    t.Pointer? && t.elem.Struct?
  }

  /** The struct findCustomErrMsgs scans: the element of a pointer, else the type itself. */
  function StructOf(t: GoType): GoType {
    if t.Pointer? then t.elem else t
  }

  /** The writes findCustomErrMsgs makes while scanning fields i.. of struct
      `s`, whose fields' namespaces start with `prefix`; a later write to the
      same key wins, as in the Go map. */
  function TableFrom(s: GoType, i: nat, prefix: string): map<string, string>
    requires s.Struct? && i <= |s.fields|
    decreases s, |s.fields| - i
  {
    if i == |s.fields| then map[]
    else
      var f := s.fields[i];
      var nested := if IsPtrToStruct(f.typ) then TableFrom(f.typ.elem, 0, prefix + f.name + ".") else map[];
      OwnEntry(f, prefix) + nested + TableFrom(s, i + 1, prefix)
  }

  /** The table getCustomErrMsgs returns for a payload of type `t`: empty
      unless `t` is a pointer to a struct. */
  function CustomErrMsgs(t: GoType): map<string, string> {
    if IsPtrToStruct(t) then TableFrom(t.elem, 0, t.elem.name + ".") else map[]
  }

  /** The Go map findCustomErrMsgs fills in place. */
  class ErrMsgs {
    var entries: map<string, string>

    constructor ()
      ensures entries == map[]
    {
      entries := map[];
    }
  }

  /** The entry field `f` contributes itself, under `prefix`. */
  function OwnEntry(f: StructField, prefix: string): map<string, string> {
    if f.errMsg != "" then map[prefix + f.name := f.errMsg] else map[]
  }

  lemma MapUnionAssoc<K, V>(a: map<K, V>, b: map<K, V>, c: map<K, V>)
    ensures (a + b) + c == a + (b + c)
  {
  }

  /** One turn of findCustomErrMsgs's loop keeps the loop invariant. */
  lemma LoopStep(s: GoType, i: nat, prefix: string, before: map<string, string>,
                 after: map<string, string>, start: map<string, string>)
    requires s.Struct? && i < |s.fields|
    requires before + TableFrom(s, i, prefix) == start + TableFrom(s, 0, prefix)
    requires after == before + OwnEntry(s.fields[i], prefix) + NestedEntries(s.fields[i], prefix)
    ensures after + TableFrom(s, i + 1, prefix) == start + TableFrom(s, 0, prefix)
  {
    var own := OwnEntry(s.fields[i], prefix);
    var nested := NestedEntries(s.fields[i], prefix);
    var rest := TableFrom(s, i + 1, prefix);
    assert TableFrom(s, i, prefix) == own + nested + rest;
    MapUnionAssoc(before, own, nested);
    MapUnionAssoc(before, own + nested, rest);
    MapUnionAssoc(own, nested, rest);
  }

  /** The entries recorded for the struct field `f` points to, when it points to one. */
  function NestedEntries(f: StructField, prefix: string): map<string, string> {
    if IsPtrToStruct(f.typ) then TableFrom(f.typ.elem, 0, prefix + f.name + ".") else map[]
  }

  lemma NestedOfPointer(f: StructField, prefix: string, withOwn: map<string, string>, after: map<string, string>)
    requires IsPtrToStruct(f.typ)
    requires after == withOwn + TableFrom(StructOf(f.typ), 0, prefix + f.name + ".")
    ensures after == withOwn + NestedEntries(f, prefix)
  {
  }

  lemma NestedOfOther(f: StructField, prefix: string, withOwn: map<string, string>)
    requires !IsPtrToStruct(f.typ)
    ensures withOwn == withOwn + NestedEntries(f, prefix)
  {
  }

  lemma MapUpdateIsUnion(m: map<string, string>, k: string, v: string)
    ensures m[k := v] == m + map[k := v]
  {
  }

  /** findCustomErrMsgs(tType, tName, tPath, errMsgs) */
  method FindCustomErrMsgs(tType: GoType, tName: string, tPath: string, errMsgs: ErrMsgs)
    requires tType.Struct? || IsPtrToStruct(tType)
    modifies errMsgs
    ensures errMsgs.entries == old(errMsgs.entries) + TableFrom(StructOf(tType), 0, tPath + tName + ".")
    decreases tType, 0
  {
    ghost var start := errMsgs.entries;
    var sType := StructOf(tType);
    var path := tPath + tName + ".";
    var i := 0;
    while i < |sType.fields|
      invariant 0 <= i <= |sType.fields|
      invariant errMsgs.entries + TableFrom(sType, i, path) == start + TableFrom(sType, 0, path)
    {
      assert sType.fields[i] in sType.fields;
      ghost var before := errMsgs.entries;
      RecordField(sType.fields[i], path, errMsgs);
      LoopStep(sType, i, path, before, errMsgs.entries, start);
      i := i + 1;
    }
  }

  /** The body of findCustomErrMsgs's loop for field `f`: record its own tag,
      then descend when it points to a struct. */
  method RecordField(f: StructField, path: string, errMsgs: ErrMsgs)
    modifies errMsgs
    ensures errMsgs.entries == old(errMsgs.entries) + OwnEntry(f, path) + NestedEntries(f, path)
    decreases f.typ, 1
  {
    if f.errMsg != "" {
      var ns := path + f.name;
      MapUpdateIsUnion(errMsgs.entries, ns, f.errMsg);
      errMsgs.entries := errMsgs.entries[ns := f.errMsg];
    }
    ghost var withOwn := errMsgs.entries;
    if f.typ.Pointer? && f.typ.elem.Struct? {
      FindCustomErrMsgs(f.typ, f.name, path, errMsgs);
      NestedOfPointer(f, path, withOwn, errMsgs.entries);
    } else {
      NestedOfOther(f, path, withOwn);
    }
  }

  /** getCustomErrMsgs(req) for a payload of type `req`. */
  method GetCustomErrMsgs(req: GoType) returns (m: map<string, string>)
    ensures m == CustomErrMsgs(req)
  {
    if !req.Pointer? || !req.elem.Struct? {
      return map[];
    }
    var errMsgs := new ErrMsgs();
    FindCustomErrMsgs(req.elem, req.elem.name, "", errMsgs);
    assert "" + req.elem.name + "." == req.elem.name + ".";
    m := errMsgs.entries;
  }

  // ---------------------------------------------------------------------
  // What the table holds
  // ---------------------------------------------------------------------

  /** Only non-empty tags are recorded. */
  lemma {:induction false} TableValuesNonEmpty(s: GoType, i: nat, prefix: string)
    requires s.Struct? && i <= |s.fields|
    ensures forall k :: k in TableFrom(s, i, prefix) ==> TableFrom(s, i, prefix)[k] != ""
    decreases s, |s.fields| - i
  {
    if i < |s.fields| {
      var f := s.fields[i];
      if IsPtrToStruct(f.typ) {
        assert f in s.fields;
        TableValuesNonEmpty(f.typ.elem, 0, prefix + f.name + ".");
      }
      TableValuesNonEmpty(s, i + 1, prefix);
    }
  }

  /** Every message in the table returned by getCustomErrMsgs is non-empty. */
  lemma CustomErrMsgsNonEmpty(t: GoType)
    ensures forall k :: k in CustomErrMsgs(t) ==> CustomErrMsgs(t)[k] != ""
  {
    if IsPtrToStruct(t) {
      TableValuesNonEmpty(t.elem, 0, t.elem.name + ".");
    }
  }

  /** Anything but a pointer to a struct yields the empty table, a struct
      value included. */
  lemma CustomErrMsgsNeedsPointerToStruct(t: GoType)
    requires !IsPtrToStruct(t)
    ensures CustomErrMsgs(t) == map[]
  {
  }

  /** The text of a key before its first '.'. */
  function FirstSegment(s: string): (r: string)
    ensures '.' !in r
  {
    if s == [] || s[0] == '.' then [] else [s[0]] + FirstSegment(s[1..])
  }

  lemma {:induction false} FirstSegmentOf(n: string, rest: string)
    requires '.' !in n
    requires rest == [] || rest[0] == '.'
    ensures FirstSegment(n + rest) == n
    decreases |n|
  {
    if n == [] {
      assert n + rest == rest;
    } else {
      assert (n + rest)[1..] == n[1..] + rest;
      FirstSegmentOf(n[1..], rest);
    }
  }

  /** The field segment of key `k` under `prefix`. */
  function SegmentAfter(k: string, prefix: string): string
    requires HasPrefix(k, prefix)
  {
    FirstSegment(k[|prefix|..])
  }

  /** A key built from `prefix`, a dot-free field name and a tail that is
      empty or starts with '.', has that field name as its segment. */
  lemma SegmentOfKey(prefix: string, name: string, rest: string)
    requires '.' !in name
    requires rest == [] || rest[0] == '.'
    ensures HasPrefix(prefix + name + rest, prefix)
    ensures SegmentAfter(prefix + name + rest, prefix) == name
  {
    var k := prefix + name + rest;
    assert k[..|prefix|] == prefix;
    assert k[|prefix|..] == name + rest;
    FirstSegmentOf(name, rest);
  }

  /** The names of fields i.. of struct `s`. */
  function FieldNames(s: GoType, i: nat): set<string>
    requires s.Struct? && i <= |s.fields|
  {
    set j | i <= j < |s.fields| :: s.fields[j].name
  }

  /** Field names are dot-free, distinct within their struct, and the same holds
      in every struct reached through pointer fields, as Go guarantees for
      named fields (blank `_` fields, which Go lets repeat, are excluded). */
  predicate WellFormed(s: GoType)
    decreases s
  {
    && s.Struct?
    && (forall j :: 0 <= j < |s.fields| ==> '.' !in s.fields[j].name)
    && (forall j, l :: 0 <= j < l < |s.fields| ==> s.fields[j].name != s.fields[l].name)
    && (forall j :: 0 <= j < |s.fields| && IsPtrToStruct(s.fields[j].typ) ==>
          s.fields[j] in s.fields && WellFormed(s.fields[j].typ.elem))
  }

  /** A key under "<prefix><name>." has segment `name` under `prefix`. */
  lemma SegmentOfNestedKey(prefix: string, name: string, k: string)
    requires '.' !in name
    requires HasPrefix(k, prefix + name + ".")
    ensures HasPrefix(k, prefix) && SegmentAfter(k, prefix) == name
  {
    var q := prefix + name + ".";
    var r := k[|q|..];
    assert k == q + r;
    assert k == prefix + name + ("." + r);
    SegmentOfKey(prefix, name, "." + r);
  }

  /** The keys field i of `s` contributes itself or through its pointed-to
      struct all have that field's name as their segment under `prefix`. */
  lemma FieldKeysSegment(s: GoType, i: nat, prefix: string)
    requires WellFormed(s) && i < |s.fields|
    ensures forall k :: k in OwnEntry(s.fields[i], prefix) ==>
      HasPrefix(k, prefix) && SegmentAfter(k, prefix) == s.fields[i].name
    ensures IsPtrToStruct(s.fields[i].typ) ==>
      forall k :: k in TableFrom(s.fields[i].typ.elem, 0, prefix + s.fields[i].name + ".") ==>
        HasPrefix(k, prefix) && SegmentAfter(k, prefix) == s.fields[i].name
    decreases s, 0
  {
    var f := s.fields[i];
    if f.errMsg != "" {
      assert prefix + f.name == prefix + f.name + "";
      SegmentOfKey(prefix, f.name, "");
    }
    if IsPtrToStruct(f.typ) {
      var q := prefix + f.name + ".";
      assert f in s.fields;
      TableKeysUnder(f.typ.elem, 0, q);
      forall k | k in TableFrom(f.typ.elem, 0, q)
        ensures HasPrefix(k, prefix) && SegmentAfter(k, prefix) == f.name
      {
        SegmentOfNestedKey(prefix, f.name, k);
      }
    }
  }

  /** Every key recorded while scanning fields i.. lies under `prefix`, and
      its segment there is the name of one of those fields. */
  lemma {:induction false} TableKeysUnder(s: GoType, i: nat, prefix: string)
    requires WellFormed(s) && i <= |s.fields|
    ensures forall k :: k in TableFrom(s, i, prefix) ==>
      HasPrefix(k, prefix) && SegmentAfter(k, prefix) in FieldNames(s, i)
    decreases s, 1, |s.fields| - i
  {
    if i < |s.fields| {
      FieldKeysSegment(s, i, prefix);
      TableKeysUnder(s, i + 1, prefix);
      assert FieldNames(s, i + 1) <= FieldNames(s, i);
      assert s.fields[i].name in FieldNames(s, i);
    }
  }

  /** The index of the first field named `name`. */
  function FieldNamed(fields: seq<StructField>, name: string): (r: Option<nat>)
    ensures r.Some? ==> r.value < |fields| && fields[r.value].name == name
    ensures r.Some? ==> forall j :: 0 <= j < r.value ==> fields[j].name != name
    ensures r.None? ==> forall j :: 0 <= j < |fields| ==> fields[j].name != name
  {
    if fields == [] then None
    else if fields[0].name == name then Some(0)
    else match FieldNamed(fields[1..], name)
      case None => None
      case Some(j) => Some(j + 1)
  }

  /** The `errMsg` tag of the field reached from struct `s` by following the
      field names in `path`, through pointer-to-struct fields only; None when
      there is no such field or its tag is empty. It resolves the validator
      namespace "<s.name>.<path>" field by field, without the walk. */
  function TagAt(s: GoType, path: seq<string>): Option<string>
    requires s.Struct?
    decreases s
  {
    if path == [] then None
    else
      match FieldNamed(s.fields, path[0])
      case None => None
      case Some(j) =>
        var f := s.fields[j];
        assert f in s.fields;
        if |path| == 1 then (if f.errMsg != "" then Some(f.errMsg) else None)
        else if IsPtrToStruct(f.typ) then TagAt(f.typ.elem, path[1..])
        else None
  }

  lemma JoinCons(name: string, path: seq<string>)
    requires |path| >= 1
    ensures Join([name] + path, ".") == name + "." + Join(path, ".")
  {
    assert ([name] + path)[1..] == path;
  }

  /** The key of `path` under `prefix` has segment path[0]. */
  lemma PathKeySegment(prefix: string, path: seq<string>)
    requires |path| >= 1 && '.' !in path[0]
    ensures HasPrefix(prefix + Join(path, "."), prefix)
    ensures SegmentAfter(prefix + Join(path, "."), prefix) == path[0]
  {
    if |path| == 1 {
      assert prefix + Join(path, ".") == prefix + path[0] + "";
      SegmentOfKey(prefix, path[0], "");
    } else {
      PathKeyNested(prefix, path);
      SegmentOfNestedKey(prefix, path[0], prefix + Join(path, "."));
    }
  }

  lemma PrefixOfConcat(a: string, b: string)
    ensures HasPrefix(a + b, a)
  {
    assert (a + b)[..|a|] == a;
  }

  /** A path of two or more names descends into the struct of its first field. */
  lemma PathKeyNested(prefix: string, path: seq<string>)
    requires |path| >= 2
    ensures prefix + Join(path, ".") == (prefix + path[0] + ".") + Join(path[1..], ".")
    ensures HasPrefix(prefix + Join(path, "."), prefix + path[0] + ".")
  {
    var q := prefix + path[0] + ".";
    var tail := Join(path[1..], ".");
    assert Join(path, ".") == path[0] + "." + tail;
    var k := prefix + (path[0] + "." + tail);
    assert k == q + tail;
    PrefixOfConcat(q, tail);
  }

  /** Forward direction: a field reachable by `path` with a non-empty tag is
      recorded under its namespace with that tag. */
  lemma {:induction false} TagRecorded(s: GoType, i: nat, prefix: string, path: seq<string>, j: nat, m: string)
    requires WellFormed(s) && i <= j < |s.fields|
    requires |path| >= 1 && s.fields[j].name == path[0]
    requires TagAt(s, path) == Some(m)
    ensures prefix + Join(path, ".") in TableFrom(s, i, prefix)
    ensures TableFrom(s, i, prefix)[prefix + Join(path, ".")] == m
    decreases s, |s.fields| - i
  {
    var k := prefix + Join(path, ".");
    var f := s.fields[i];
    var own := OwnEntry(f, prefix);
    var q := prefix + f.name + ".";
    var nested := if IsPtrToStruct(f.typ) then TableFrom(f.typ.elem, 0, q) else map[];
    var rest := TableFrom(s, i + 1, prefix);
    assert TableFrom(s, i, prefix) == own + nested + rest;
    assert FieldNamed(s.fields, path[0]) == Some(j);
    PathKeySegment(prefix, path);
    FieldKeysSegment(s, i, prefix);
    if j == i {
      // no later field has this name, so the later writes miss k
      TableKeysUnder(s, i + 1, prefix);
      assert path[0] !in FieldNames(s, i + 1);
      assert k !in rest;
      if |path| == 1 {
        assert k == prefix + f.name;
        if IsPtrToStruct(f.typ) {
          TableKeysUnder(f.typ.elem, 0, q);
          assert |k| < |q|;
        }
        assert k !in nested;
      } else {
        assert IsPtrToStruct(f.typ);
        assert f in s.fields;
        var child := f.typ.elem;
        var sub := path[1..];
        assert TagAt(s, path) == TagAt(child, sub);
        PathKeyNested(prefix, path);
        match FieldNamed(child.fields, sub[0])
        case Some(j') =>
          TagRecorded(child, 0, q, sub, j', m);
        case None =>
          assert false;
      }
    } else {
      // field i has another name, so neither its own key nor its nested keys are k
      assert k !in own;
      assert k !in nested;
      TagRecorded(s, i + 1, prefix, path, j, m);
    }
  }

  /** Backward direction: every recorded key is the namespace of a field
      reachable through pointer-to-struct fields, and holds that field's tag. */
  lemma {:induction false} RecordedIsTag(s: GoType, i: nat, prefix: string, k: string)
    returns (path: seq<string>)
    requires WellFormed(s) && i <= |s.fields|
    requires k in TableFrom(s, i, prefix)
    ensures |path| >= 1 && k == prefix + Join(path, ".")
    ensures TagAt(s, path) == Some(TableFrom(s, i, prefix)[k])
    decreases s, |s.fields| - i
  {
    var f := s.fields[i];
    var own := OwnEntry(f, prefix);
    var q := prefix + f.name + ".";
    var nested := if IsPtrToStruct(f.typ) then TableFrom(f.typ.elem, 0, q) else map[];
    var rest := TableFrom(s, i + 1, prefix);
    assert TableFrom(s, i, prefix) == own + nested + rest;
    // field i is the first field with its name
    assert FieldNamed(s.fields, f.name) == Some(i);
    if k in rest {
      path := RecordedIsTag(s, i + 1, prefix, k);
    } else if k in nested {
      assert f in s.fields;
      var sub := RecordedIsTag(f.typ.elem, 0, q, k);
      path := [f.name] + sub;
      assert path[0] == f.name && path[1..] == sub;
      PathKeyNested(prefix, path);
      assert TagAt(s, path) == TagAt(f.typ.elem, sub);
    } else {
      path := [f.name];
      assert Join(path, ".") == f.name;
    }
  }

  /** getCustomErrMsgs records exactly the tagged fields reachable through
      pointer-to-struct fields, each under "<Type>.<field>.<field>...":
      a field at `path` with tag m is found under that key with message m. */
  lemma CustomErrMsgsHasTag(s: GoType, path: seq<string>, m: string)
    requires WellFormed(s)
    requires TagAt(s, path) == Some(m)
    ensures Join([s.name] + path, ".") in CustomErrMsgs(Pointer(s))
    ensures CustomErrMsgs(Pointer(s))[Join([s.name] + path, ".")] == m
  {
    match FieldNamed(s.fields, path[0])
    case Some(j) =>
      TagRecorded(s, 0, s.name + ".", path, j, m);
      JoinCons(s.name, path);
    case None =>
      assert false;
  }

  /** ... and every key of the table is the namespace of such a field, holding its tag. */
  lemma CustomErrMsgsOnlyTags(s: GoType, k: string)
    requires WellFormed(s)
    requires k in CustomErrMsgs(Pointer(s))
    ensures exists path :: k == Join([s.name] + path, ".") && TagAt(s, path) == Some(CustomErrMsgs(Pointer(s))[k])
  {
    var path := RecordedIsTag(s, 0, s.name + ".", k);
    JoinCons(s.name, path);
  }
}
