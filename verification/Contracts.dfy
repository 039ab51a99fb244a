/** The compiled contracts of the profiles of a snapshot, and which schema a message is checked against. */
module Contracts {
  import opened Basics
  import opened Profiles
  import Policy
  import JsonPointer

  /** A validation error: a finding of its own, or the causes behind it. */
  datatype SchemaError = SchemaError(causes: seq<SchemaError>)

  /** A compiled JSON Schema: None when a document satisfies it. */
  datatype Schema = Schema(validate: JsonPointer.Doc -> Option<SchemaError>)

  /** A compiled OpenAPI document; what its library says of a call is a parameter of the check. */
  datatype OpenApi = OpenApi(operations: nat)

  /** The libraries that compile documents. */
  datatype Compilers = Compilers(schema: (string, Bytes) -> Option<Schema>, openapi: Bytes -> Option<OpenApi>)

  datatype Contract = Contract(
    kind: string, source: string, model: Option<OpenApi>, main: Option<Schema>, byName: map<string, Schema>,
    bindings: seq<Binding>, frames: seq<FrameBinding>)

  /** Every document of the profile compiles. */
  ghost predicate AllCompile(cc: Compilers, docs: map<string, Bytes>) {
    forall name :: name in docs ==> cc.schema(name, docs[name]).Some?
  }

  /** What build gives, and whether it succeeds. */
  ghost function Built(cc: Compilers, p: Profile): Option<Contract> {
    var bare := Contract(p.kind, p.source, None, None, map[], p.bindings, p.frame.bindings);
    if p.kind == KIND_OPENAPI then
      if p.source !in p.documents then None
      else match cc.openapi(p.documents[p.source])
        case None => None
        case Some(m) => if m.operations == 0 then None else Some(bare.(model := Some(m)))
    else if p.kind == KIND_JSONSCHEMA then
      if !AllCompile(cc, p.documents) then None
      else
        var byName := map name | name in p.documents :: cc.schema(name, p.documents[name]).value;
        var main := if p.source != "" && p.source in byName then Some(byName[p.source]) else None;
        if main.None? && p.bindings == [] && p.frame.bindings == [] then None
        else Some(bare.(main := main, byName := byName))
    else None
  }

  /** The loop over the documents. */
  method CompileAll(cc: Compilers, docs: map<string, Bytes>) returns (r: Option<map<string, Schema>>)
    ensures r.Some? <==> AllCompile(cc, docs)
    ensures r.Some? ==> r.value == map name | name in docs :: cc.schema(name, docs[name]).value
  {
    var left := docs.Keys;
    var byName: map<string, Schema> := map[];
    while left != {}
      invariant left <= docs.Keys && byName.Keys == docs.Keys - left
      invariant forall name :: name in byName ==> cc.schema(name, docs[name]) == Some(byName[name])
      decreases |left|
    {
      var name :| name in left;
      var compiled := cc.schema(name, docs[name]);
      if compiled.None? {
        return None;
      }
      byName := byName[name := compiled.value];
      left := left - {name};
    }
    forall name | name in docs ensures cc.schema(name, docs[name]).Some? {
      assert name in byName;
    }
    return Some(byName);
  }

  method Build(cc: Compilers, p: Profile) returns (r: Option<Contract>)
    ensures r == Built(cc, p)
  {
    var c := Contract(p.kind, p.source, None, None, map[], p.bindings, p.frame.bindings);
    if p.kind == KIND_OPENAPI {
      if p.source !in p.documents {
        return None;
      }
      var m := cc.openapi(p.documents[p.source]);
      if m.None? || m.value.operations == 0 {
        return None;
      }
      return Some(c.(model := m));
    }
    if p.kind != KIND_JSONSCHEMA {
      return None;
    }
    var compiled := CompileAll(cc, p.documents);
    if compiled.None? {
      return None;
    }
    var byName := compiled.value;
    var main := if p.source != "" && p.source in byName then Some(byName[p.source]) else None;
    if main.None? && p.bindings == [] && p.frame.bindings == [] {
      return None;
    }
    return Some(c.(main := main, byName := byName));
  }

  /** The documents attached to a profile are those it mentions. */
  ghost predicate Attached(p: Profile) {
    forall name :: name in p.documents <==> Mentions(p, name)
  }

  // ------------------------------------------------ picking a schema

  /** The first binding that matches decides; without one the main schema does. */
  function PickFrom(c: Contract, k: nat, method_: string, path: string): Option<Schema>
    requires k <= |c.bindings|
    decreases |c.bindings| - k
  {
    if k == |c.bindings| then c.main
    else if Matches(c.bindings[k], method_, path) then
      if c.bindings[k].schema in c.byName then Some(c.byName[c.bindings[k].schema]) else None
    else PickFrom(c, k + 1, method_, path)
  }

  /** The binding at k matches and no earlier one does. */
  ghost predicate FirstMatch(bindings: seq<Binding>, k: nat, method_: string, path: string) {
    k < |bindings| && Matches(bindings[k], method_, path) && forall j :: 0 <= j < k ==> !Matches(bindings[j], method_, path)
  }

  function SchemaNamed(c: Contract, name: string): Option<Schema> {
    if name in c.byName then Some(c.byName[name]) else None
  }

  /** The schema named by the first binding that matches, or the main schema when none does. */
  ghost predicate Picked(c: Contract, method_: string, path: string, sch: Option<Schema>) {
    && (forall k: nat :: FirstMatch(c.bindings, k, method_, path) ==> sch == SchemaNamed(c, c.bindings[k].schema))
    && ((forall k :: 0 <= k < |c.bindings| ==> !Matches(c.bindings[k], method_, path)) ==> sch == c.main)
  }

  lemma {:induction false} PickSkips(c: Contract, k: nat, n: nat, method_: string, path: string)
    requires k <= n <= |c.bindings| && forall j :: k <= j < n ==> !Matches(c.bindings[j], method_, path)
    ensures PickFrom(c, k, method_, path) == PickFrom(c, n, method_, path)
    decreases n - k
  {
    if k < n {
      PickSkips(c, k + 1, n, method_, path);
    }
  }

  lemma PickFromIsPicked(c: Contract, method_: string, path: string)
    ensures Picked(c, method_, path, PickFrom(c, 0, method_, path))
  {
    forall k: nat | FirstMatch(c.bindings, k, method_, path)
      ensures PickFrom(c, 0, method_, path) == SchemaNamed(c, c.bindings[k].schema)
    {
      PickSkips(c, 0, k, method_, path);
    }
    if forall k :: 0 <= k < |c.bindings| ==> !Matches(c.bindings[k], method_, path) {
      PickSkips(c, 0, |c.bindings|, method_, path);
    }
  }

  method Pick(c: Contract, method_: string, path: string) returns (sch: Option<Schema>)
    ensures sch == PickFrom(c, 0, method_, path) && Picked(c, method_, path, sch)
  {
    PickFromIsPicked(c, method_, path);
    for i := 0 to |c.bindings|
      invariant PickFrom(c, 0, method_, path) == PickFrom(c, i, method_, path)
    {
      var b := c.bindings[i];
      if !Matches(b, method_, path) {
        continue;
      }
      return if b.schema in c.byName then Some(c.byName[b.schema]) else None;
    }
    return c.main;
  }

  datatype Frame = Frame(path: string, direction: string, subprotocol: string)

  predicate Discriminates(value: JsonPointer.Doc, d: Discriminator) {
    match JsonPointer.PointerValue(value, d.pointer)
    case Some(Str(text)) => text == d.value
    case Some(Num(text)) => text == d.value
    case Some(Bool(b)) => (if b then "true" else "false") == d.value
    case _ => false
  }

  method Discriminate(value: JsonPointer.Doc, d: Discriminator) returns (ok: bool)
    ensures ok == Discriminates(value, d)
  {
    var found := JsonPointer.Pointer(value, d.pointer);
    if found.None? {
      return false;
    }
    match found.value {
      case Str(text) => return text == d.value;
      case Num(text) => return text == d.value;
      case Bool(b) => return (if b then "true" else "false") == d.value;
      case Null => return false;
      case List(_) => return false;
      case Dict(_) => return false;
    }
  }

  predicate Selects(b: FrameBinding, in_: Frame, value: JsonPointer.Doc) {
    && FrameMatches(b, in_.path, in_.direction, in_.subprotocol)
    && (b.discriminator.Some? ==> Discriminates(value, b.discriminator.value))
  }

  function PickFrameFrom(c: Contract, k: nat, in_: Frame, value: JsonPointer.Doc): Option<Schema>
    requires k <= |c.frames|
    decreases |c.frames| - k
  {
    if k == |c.frames| then c.main
    else if Selects(c.frames[k], in_, value) then
      if c.frames[k].schema in c.byName then Some(c.byName[c.frames[k].schema]) else None
    else PickFrameFrom(c, k + 1, in_, value)
  }

  ghost predicate FirstSelected(bindings: seq<FrameBinding>, k: nat, in_: Frame, value: JsonPointer.Doc) {
    k < |bindings| && Selects(bindings[k], in_, value) && forall j :: 0 <= j < k ==> !Selects(bindings[j], in_, value)
  }

  ghost predicate FramePicked(c: Contract, in_: Frame, value: JsonPointer.Doc, sch: Option<Schema>) {
    && (forall k: nat :: FirstSelected(c.frames, k, in_, value) ==> sch == SchemaNamed(c, c.frames[k].schema))
    && ((forall k :: 0 <= k < |c.frames| ==> !Selects(c.frames[k], in_, value)) ==> sch == c.main)
  }

  lemma {:induction false} PickFrameSkips(c: Contract, k: nat, n: nat, in_: Frame, value: JsonPointer.Doc)
    requires k <= n <= |c.frames| && forall j :: k <= j < n ==> !Selects(c.frames[j], in_, value)
    ensures PickFrameFrom(c, k, in_, value) == PickFrameFrom(c, n, in_, value)
    decreases n - k
  {
    if k < n {
      PickFrameSkips(c, k + 1, n, in_, value);
    }
  }

  lemma PickFrameFromIsPicked(c: Contract, in_: Frame, value: JsonPointer.Doc)
    ensures FramePicked(c, in_, value, PickFrameFrom(c, 0, in_, value))
  {
    forall k: nat | FirstSelected(c.frames, k, in_, value)
      ensures PickFrameFrom(c, 0, in_, value) == SchemaNamed(c, c.frames[k].schema)
    {
      PickFrameSkips(c, 0, k, in_, value);
    }
    if forall k :: 0 <= k < |c.frames| ==> !Selects(c.frames[k], in_, value) {
      PickFrameSkips(c, 0, |c.frames|, in_, value);
    }
  }

  method PickFrame(c: Contract, in_: Frame, value: JsonPointer.Doc) returns (sch: Option<Schema>)
    ensures sch == PickFrameFrom(c, 0, in_, value) && FramePicked(c, in_, value, sch)
  {
    sch := FindFrame(c, in_, value);
    PickFrameFromIsPicked(c, in_, value);
  }

  /** The loop. */
  method FindFrame(c: Contract, in_: Frame, value: JsonPointer.Doc) returns (sch: Option<Schema>)
    ensures sch == PickFrameFrom(c, 0, in_, value)
  {
    for i := 0 to |c.frames|
      invariant PickFrameFrom(c, 0, in_, value) == PickFrameFrom(c, i, in_, value)
    {
      var b := c.frames[i];
      if !FrameMatches(b, in_.path, in_.direction, in_.subprotocol) {
        continue;
      }
      if b.discriminator.Some? {
        var ok := Discriminate(value, b.discriminator.value);
        if !ok {
          continue;
        }
      }
      return if b.schema in c.byName then Some(c.byName[b.schema]) else None;
    }
    return c.main;
  }

  lemma {:induction false} PickFindsFirst(c: Contract, k: nat, method_: string, path: string)
    requires k <= |c.bindings|
    requires forall b :: b in c.bindings ==> b.schema in c.byName
    ensures PickFrom(c, k, method_, path).None? <==>
            c.main.None? && forall j :: k <= j < |c.bindings| ==> !Matches(c.bindings[j], method_, path)
    decreases |c.bindings| - k
  {
    if k < |c.bindings| && !Matches(c.bindings[k], method_, path) {
      PickFindsFirst(c, k + 1, method_, path);
    }
  }

  lemma {:induction false} PickFrameFindsFirst(c: Contract, k: nat, in_: Frame, value: JsonPointer.Doc)
    requires k <= |c.frames|
    requires forall b :: b in c.frames ==> b.schema in c.byName
    ensures PickFrameFrom(c, k, in_, value).None? <==>
            c.main.None? && forall j :: k <= j < |c.frames| ==> !Selects(c.frames[j], in_, value)
    decreases |c.frames| - k
  {
    if k < |c.frames| && !Selects(c.frames[k], in_, value) {
      PickFrameFindsFirst(c, k + 1, in_, value);
    }
  }

  /** For a validated JSON Schema profile with its documents attached, no schema is found exactly when no
      binding matches and the profile names no main schema; and likewise for frames when that phase is on. */
  lemma NoSchemaOnlyWithoutBinding(cc: Compilers, p: Profile, method_: string, path: string, in_: Frame, value: JsonPointer.Doc)
    requires p.mode != Policy.OFF && GoodProfile(p) && Attached(p)
    requires p.kind == KIND_JSONSCHEMA && Built(cc, p).Some?
    ensures PickFrom(Built(cc, p).value, 0, method_, path).None? <==>
            p.source == "" && forall b :: b in p.bindings ==> !Matches(b, method_, path)
    ensures p.frame.enabled ==>
            (PickFrameFrom(Built(cc, p).value, 0, in_, value).None? <==>
             p.source == "" && forall b :: b in p.frame.bindings ==> !Selects(b, in_, value))
  {
    var c := Built(cc, p).value;
    assert p.source != "" ==> Mentions(p, p.source);
    forall b | b in p.bindings ensures b.schema in c.byName {
      assert GoodBinding(b);
      assert Mentions(p, b.schema);
    }
    PickFindsFirst(c, 0, method_, path);
    if p.frame.enabled {
      forall b | b in p.frame.bindings ensures b.schema in c.byName {
        assert GoodFrameBinding(b);
        assert Mentions(p, b.schema);
      }
      PickFrameFindsFirst(c, 0, in_, value);
    }
  }
}
