/** What compiling a profile gives, and which of its schemas a message is checked against, over the profile itself. */
module ContractLaws {
  import opened Basics
  import opened Profiles
  import opened Contracts
  import Policy
  import JsonPointer

  /** A validated profile for JSON Schema, with the documents it mentions. */
  ghost predicate Ready(p: Profile) {
    p.mode != Policy.OFF && GoodProfile(p) && Attached(p) && p.kind == KIND_JSONSCHEMA
  }

  /** The schema that the compiler makes of the profile's document of this name. */
  ghost predicate CompiledFrom(cc: Compilers, p: Profile, name: string, sch: Option<Schema>) {
    name in p.documents && sch.Some? && cc.schema(name, p.documents[name]) == sch
  }

  /** A JSON Schema profile builds exactly when every document compiles and there is something to check against; an
      OpenAPI profile when its source document is there, compiles and describes an operation. No other kind builds. */
  lemma BuildsExactly(cc: Compilers, p: Profile)
    ensures Built(cc, p).Some? <==>
      if p.kind == KIND_JSONSCHEMA then
        && (forall name :: name in p.documents ==> cc.schema(name, p.documents[name]).Some?)
        && ((p.source != "" && p.source in p.documents) || p.bindings != [] || p.frame.bindings != [])
      else
        && p.kind == KIND_OPENAPI && p.source in p.documents
        && cc.openapi(p.documents[p.source]).Some? && cc.openapi(p.documents[p.source]).value.operations > 0
    ensures Built(cc, p).Some? ==>
      var c := Built(cc, p).value;
      && c.kind == p.kind && c.source == p.source && c.bindings == p.bindings && c.frames == p.frame.bindings
      && (p.kind == KIND_OPENAPI ==> c.model == cc.openapi(p.documents[p.source]))
  {
    assert KIND_OPENAPI[0] != KIND_JSONSCHEMA[0];
  }

  lemma NamedIsCompiled(cc: Compilers, p: Profile, name: string)
    requires Ready(p) && Built(cc, p).Some? && name != "" && Mentions(p, name)
    ensures CompiledFrom(cc, p, name, SchemaNamed(Built(cc, p).value, name))
  {
  }

  lemma MainIsCompiled(cc: Compilers, p: Profile)
    requires Ready(p) && Built(cc, p).Some?
    ensures if p.source == "" then Built(cc, p).value.main.None?
            else CompiledFrom(cc, p, p.source, Built(cc, p).value.main)
  {
    assert p.source != "" ==> Mentions(p, p.source);
  }

  /** A call is checked against the schema of the first binding that matches it, compiled from the document of that
      name; without one against the schema compiled from the main document, if the profile names one. */
  lemma CallIsCheckedAgainst(cc: Compilers, p: Profile, method_: string, path: string)
    requires Ready(p) && Built(cc, p).Some?
    ensures var sch := PickFrom(Built(cc, p).value, 0, method_, path);
      && (forall k: nat :: FirstMatch(p.bindings, k, method_, path) ==> CompiledFrom(cc, p, p.bindings[k].schema, sch))
      && ((forall k :: 0 <= k < |p.bindings| ==> !Matches(p.bindings[k], method_, path)) ==>
            if p.source == "" then sch.None? else CompiledFrom(cc, p, p.source, sch))
  {
    var c := Built(cc, p).value;
    PickFromIsPicked(c, method_, path);
    MainIsCompiled(cc, p);
    forall k: nat | FirstMatch(p.bindings, k, method_, path)
      ensures CompiledFrom(cc, p, p.bindings[k].schema, PickFrom(c, 0, method_, path))
    {
      assert p.bindings[k] in p.bindings && GoodBinding(p.bindings[k]);
      NamedIsCompiled(cc, p, p.bindings[k].schema);
    }
  }

  /** The same for a frame, in a profile with the frame phase on. */
  lemma FrameIsCheckedAgainst(cc: Compilers, p: Profile, in_: Contracts.Frame, value: JsonPointer.Doc)
    requires Ready(p) && Built(cc, p).Some? && p.frame.enabled
    ensures var sch := PickFrameFrom(Built(cc, p).value, 0, in_, value);
      && (forall k: nat :: FirstSelected(p.frame.bindings, k, in_, value) ==>
            CompiledFrom(cc, p, p.frame.bindings[k].schema, sch))
      && ((forall k :: 0 <= k < |p.frame.bindings| ==> !Selects(p.frame.bindings[k], in_, value)) ==>
            if p.source == "" then sch.None? else CompiledFrom(cc, p, p.source, sch))
  {
    var c := Built(cc, p).value;
    PickFrameFromIsPicked(c, in_, value);
    MainIsCompiled(cc, p);
    forall k: nat | FirstSelected(p.frame.bindings, k, in_, value)
      ensures CompiledFrom(cc, p, p.frame.bindings[k].schema, PickFrameFrom(c, 0, in_, value))
    {
      assert p.frame.bindings[k] in p.frame.bindings && GoodFrameBinding(p.frame.bindings[k]);
      NamedIsCompiled(cc, p, p.frame.bindings[k].schema);
    }
  }

  // ------------------------------------------------ what matching means

  /** The path is the one given, or starts with it. */
  predicate PathFits(match_: string, want: string, path: string) {
    if match_ == "exact" then path == want else |want| <= |path| && path[..|want|] == want
  }

  /** A validated binding matches a call by its method, whatever the case, or any if it names none, and by its path. */
  lemma BindingMatchesExactly(b: Binding, method_: string, path: string)
    requires GoodBinding(b)
    ensures Matches(b, method_, path) <==>
      && (|b.methods| == 0 || exists k :: 0 <= k < |b.methods| && EqualFold(b.methods[k], method_))
      && PathFits(b.match_, b.path, path)
  {
    assert (exists m :: m in b.methods && EqualFold(m, method_))
      <==> exists k :: 0 <= k < |b.methods| && EqualFold(b.methods[k], method_);
  }

  /** Method names of one length are the same up to the case of ASCII letters, and of the two other letters that
      fold to one. */
  lemma FoldingIsByLetter(a: string, b: string)
    ensures EqualFold(a, b) <==> |a| == |b| && forall k :: 0 <= k < |a| ==> SameLetter(a[k], b[k])
  {
    forall x: char, y: char ensures FoldChar(x) == FoldChar(y) <==> SameLetter(x, y) {
    }
  }

  predicate SameLetter(x: char, y: char) {
    || x == y
    || ('A' <= x <= 'Z' && y as int == x as int + 32) || ('A' <= y <= 'Z' && x as int == y as int + 32)
    || (x in "kK\U{212A}" && y in "kK\U{212A}") || (x in "sS\U{017F}" && y in "sS\U{017F}")
  }

  /** What a discriminator asks of the document: at its place a string or a number written so, or that truth value. */
  predicate Says(value: JsonPointer.Doc, d: Discriminator) {
    var found := JsonPointer.PointerValue(value, d.pointer);
    || found == Some(JsonPointer.Str(d.value)) || found == Some(JsonPointer.Num(d.value))
    || (found == Some(JsonPointer.Bool(true)) && d.value == "true")
    || (found == Some(JsonPointer.Bool(false)) && d.value == "false")
  }

  /** A validated frame binding selects by direction, subprotocol, path and discriminator. */
  lemma FrameBindingSelectsExactly(b: FrameBinding, in_: Contracts.Frame, value: JsonPointer.Doc)
    requires GoodFrameBinding(b)
    ensures Selects(b, in_, value) <==>
      && (b.direction == "any" || b.direction == in_.direction)
      && (b.subprotocol == "" || b.subprotocol == in_.subprotocol)
      && PathFits(b.match_, b.path, in_.path)
      && (b.discriminator.Some? ==> Says(value, b.discriminator.value))
  {
  }
}
