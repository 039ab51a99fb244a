/** Reading a directory of profiles into a snapshot. */
module Snapshots {
  import opened Basics
  import opened Profiles
  import opened Contracts
  import Policy

  const DEFAULT_NAME := "default"
  const PROBE_NAME := "_probe"
  const PROFILE_FILE := "profile.yaml"
  const SCHEMA_PREFIX := "schema-"

  /** The files of a folder; a file without bytes is there but cannot be read. */
  type Files = map<string, Option<Bytes>>

  /** An entry of a directory: a plain file, or a folder of files. */
  datatype Node = Plain | Folder(files: Files)

  type Tree = map<string, Node>

  /** The YAML reader and the schema compilers. */
  datatype Tools = Tools(parse: Bytes -> Option<Profile>, compilers: Compilers)

  datatype Snapshot = Snapshot(
    byName: map<string, Profile>, names: seq<string>, limits: Limits, contracts: map<string, Contract>)

  // ------------------------------------------------ one profile

  datatype ReadResult = Absent | Bad | Present(p: Profile)

  /** The defaults ParseProfile fills in after the YAML reader. */
  function Named(p: Profile, name: string): Profile {
    p.(name := name, documents := map[],
       frame := p.frame.(bindings := seq(|p.frame.bindings|, i requires 0 <= i < |p.frame.bindings| =>
         var b := p.frame.bindings[i];
         b.(match_ := if b.match_ == "" then MATCH_PREFIX else b.match_,
            direction := if b.direction == "" then ANY_DIRECTION else b.direction))))
  }

  /** The profile with the documents it mentions; None when one is missing or empty. */
  function AttachmentOf(p: Profile, files: Files): Option<Profile> {
    if p.mode == Policy.OFF then Some(p)
    else if exists name :: name in MentionSet(p) && !HasDocument(files, name) then None
    else Some(p.(documents := map name | name in MentionSet(p) && HasDocument(files, name) :: files[SCHEMA_PREFIX + name].value))
  }

  predicate HasDocument(files: Files, name: string) {
    SCHEMA_PREFIX + name in files && files[SCHEMA_PREFIX + name].Some? && files[SCHEMA_PREFIX + name].value != []
  }

  /** What reading one profile folder gives. */
  function ReadOf(t: Tools, node: Node, name: string): ReadResult {
    if node.Plain? || PROFILE_FILE !in node.files then Absent
    else if node.files[PROFILE_FILE].None? then Bad
    else match t.parse(node.files[PROFILE_FILE].value)
      case None => Bad
      case Some(parsed) =>
        if !GoodProfile(Named(parsed, name)) then Bad
        else match AttachmentOf(Named(parsed, name), node.files)
          case None => Bad
          case Some(p) => Present(p)
  }

  method AttachDocuments(p: Profile, files: Files) returns (r: Option<Profile>)
    ensures r == AttachmentOf(p, files)
  {
    if p.mode == Policy.OFF {
      return Some(p);
    }
    var sources := Sources(p);
    var docs: map<string, Bytes> := map[];
    for i := 0 to |sources|
      invariant forall n :: n in docs <==> exists k :: 0 <= k < i && sources[k] == n
      invariant forall n :: n in docs ==> HasDocument(files, n) && docs[n] == files[SCHEMA_PREFIX + n].value
    {
      var path := SCHEMA_PREFIX + sources[i];
      if path !in files || files[path].None? || files[path].value == [] {
        assert sources[i] in sources;
        assert sources[i] in MentionSet(p) && !HasDocument(files, sources[i]);
        return None;
      }
      docs := docs[sources[i] := files[path].value];
    }
    forall n ensures n in docs <==> n in MentionSet(p) {
      assert n in sources <==> exists k :: 0 <= k < |sources| && sources[k] == n;
      assert n in sources <==> Mentions(p, n);
    }
    assert docs == map name | name in MentionSet(p) && HasDocument(files, name) :: files[SCHEMA_PREFIX + name].value;
    return Some(p.(documents := docs));
  }

  method ReadProfile(t: Tools, node: Node, name: string) returns (r: ReadResult)
    ensures r == ReadOf(t, node, name)
  {
    if node.Plain? || PROFILE_FILE !in node.files {
      return Absent;
    }
    if node.files[PROFILE_FILE].None? {
      return Bad;
    }
    var parsed := t.parse(node.files[PROFILE_FILE].value);
    if parsed.None? {
      return Bad;
    }
    var p := Named(parsed.value, name);
    var ok := Validate(p);
    if !ok {
      return Bad;
    }
    var q := AttachDocuments(p, node.files);
    return if q.None? then Bad else Present(q.value);
  }

  // ------------------------------------------------ what a directory amounts to

  /** A snapshot apart from the listing of its names. */
  datatype Content = Content(byName: map<string, Profile>, contracts: map<string, Contract>)

  function ProfilesIn(t: Tools, tree: Tree): map<string, Profile> {
    map name | name in tree && ReadOf(t, tree[name], name).Present? :: ReadOf(t, tree[name], name).p
  }

  ghost predicate AnyBad(t: Tools, tree: Tree) {
    exists name :: name in tree && ReadOf(t, tree[name], name).Bad?
  }

  /** The probe profile comes from the image when the directory is not the image's own and has none. */
  function WithProbe(t: Tools, profs: map<string, Profile>, base: Tree, foreign: bool): map<string, Profile> {
    if PROBE_NAME in profs || !foreign || PROBE_NAME !in base then profs
    else match ReadOf(t, base[PROBE_NAME], PROBE_NAME)
      case Present(p) => profs[PROBE_NAME := p]
      case _ => profs
  }

  ghost predicate SameLimits(profs: map<string, Profile>) {
    forall a, b :: a in profs && b in profs ==> profs[a].limits == profs[b].limits
  }

  ghost predicate AllBuild(t: Tools, profs: map<string, Profile>) {
    forall name :: name in profs && profs[name].mode != Policy.OFF ==> Built(t.compilers, profs[name]).Some?
  }

  ghost function ContractsOf(t: Tools, profs: map<string, Profile>): map<string, Contract>
    requires AllBuild(t, profs)
  {
    map name | name in profs && profs[name].mode != Policy.OFF :: Built(t.compilers, profs[name]).value
  }

  /** What the store serves after reading a directory, or None when it must not be served. */
  ghost function Loaded(t: Tools, tree: Tree, base: Tree, foreign: bool): Option<Content> {
    var profs := WithProbe(t, ProfilesIn(t, tree), base, foreign);
    if AnyBad(t, tree) || DEFAULT_NAME !in profs || !SameLimits(profs) || !AllBuild(t, profs) then None
    else Some(Content(profs, ContractsOf(t, profs)))
  }

  // ------------------------------------------------ sorted names

  predicate Before(a: string, b: string) {
    if b == "" then false
    else if a == "" then true
    else a[0] < b[0] || (a[0] == b[0] && Before(a[1..], b[1..]))
  }

  predicate Sorted(names: seq<string>) {
    forall j, k :: 0 <= j < k < |names| ==> Before(names[j], names[k])
  }

  lemma {:induction false} BeforeTrans(a: string, b: string, c: string)
    requires Before(a, b) && Before(b, c)
    ensures Before(a, c)
  {
    if a != "" && a[0] == b[0] == c[0] {
      BeforeTrans(a[1..], b[1..], c[1..]);
    }
  }

  lemma {:induction false} BeforeTotal(a: string, b: string)
    ensures a == b || Before(a, b) || Before(b, a)
    ensures !Before(a, a)
  {
    if a != "" && b != "" && a[0] == b[0] {
      BeforeTotal(a[1..], b[1..]);
      assert a == [a[0]] + a[1..] && b == [b[0]] + b[1..];
    } else if a != "" {
      BeforeTotal(a[1..], a[1..]);
    }
  }

  /** One name goes to its place among the sorted ones. */
  method InsertName(names: seq<string>, name: string) returns (r: seq<string>)
    requires Sorted(names) && name !in names
    ensures Sorted(r) && forall n :: n in r <==> n in names || n == name
  {
    var i := 0;
    while i < |names| && Before(names[i], name)
      invariant 0 <= i <= |names|
      invariant forall k :: 0 <= k < i ==> Before(names[k], name)
    {
      i := i + 1;
    }
    if i < |names| {
      BeforeTotal(names[i], name);
      assert Before(name, names[i]);
      forall k | i < k < |names| ensures Before(name, names[k]) {
        BeforeTrans(name, names[i], names[k]);
      }
    }
    r := names[..i] + [name] + names[i..];
    forall n ensures n in r <==> n in names || n == name {
      assert names == names[..i] + names[i..];
    }
  }

  /** The listing of a directory, sorted as os.ReadDir gives it. */
  method ReadDir(tree: Tree) returns (names: seq<string>)
    ensures Sorted(names) && forall n :: n in names <==> n in tree
  {
    var left := tree.Keys;
    names := [];
    while left != {}
      invariant left <= tree.Keys && Sorted(names)
      invariant forall n :: n in names <==> n in tree && n !in left
      decreases |left|
    {
      var name :| name in left;
      names := InsertName(names, name);
      left := left - {name};
    }
  }

  const NO_LIMITS := Limits(0, 0, 0, 0)

  /** The common limits of the profiles, or None when two of them differ. */
  method CommonLimits(byName: map<string, Profile>, names: seq<string>) returns (r: Option<Limits>)
    requires forall n :: n in names <==> n in byName
    ensures r.Some? <==> SameLimits(byName)
    ensures r.Some? ==> forall n :: n in byName ==> byName[n].limits == r.value
  {
    if names == [] {
      return Some(NO_LIMITS);
    }
    assert names[0] in names;
    var limits := byName[names[0]].limits;
    for i := 1 to |names|
      invariant forall k :: 0 <= k < i ==> byName[names[k]].limits == limits
    {
      assert names[i] in names;
      if byName[names[i]].limits != limits {
        return None;
      }
    }
    forall n | n in byName ensures byName[n].limits == limits {
      assert n in names;
    }
    return Some(limits);
  }

  method Compile(t: Tools, byName: map<string, Profile>, names: seq<string>) returns (r: Option<map<string, Contract>>)
    requires Sorted(names) && forall n :: n in names <==> n in byName
    ensures r.Some? <==> AllBuild(t, byName)
    ensures r.Some? ==> r.value == ContractsOf(t, byName)
  {
    var set_: map<string, Contract> := map[];
    for i := 0 to |names|
      invariant forall k :: 0 <= k < i && byName[names[k]].mode != Policy.OFF ==> Built(t.compilers, byName[names[k]]).Some?
      invariant forall n :: n in set_ <==> n in byName && byName[n].mode != Policy.OFF && n in names[..i]
      invariant forall n :: n in set_ ==> Built(t.compilers, byName[n]) == Some(set_[n])
    {
      assert names[i] in names && names[..i + 1] == names[..i] + [names[i]];
      var p := byName[names[i]];
      if p.mode == Policy.OFF {
        continue;
      }
      var c := Build(t.compilers, p);
      if c.None? {
        return None;
      }
      set_ := set_[names[i] := c.value];
    }
    assert names[..|names|] == names;
    forall n | n in byName && byName[n].mode != Policy.OFF ensures Built(t.compilers, byName[n]).Some? {
      assert n in names;
    }
    assert set_ == ContractsOf(t, byName);
    return Some(set_);
  }

  /** The profiles read from the first entries, none of them bad. */
  ghost predicate ReadSoFar(t: Tools, tree: Tree, done: seq<string>, byName: map<string, Profile>) {
    && (forall n :: n in done ==> n in tree && !ReadOf(t, tree[n], n).Bad?)
    && (forall n :: n in byName <==> n in done && n in tree && ReadOf(t, tree[n], n).Present?)
    && (forall n :: n in byName && n in tree ==> byName[n] == ReadOf(t, tree[n], n).p)
  }

  lemma ReadSkips(t: Tools, tree: Tree, done: seq<string>, byName: map<string, Profile>, name: string)
    requires ReadSoFar(t, tree, done, byName) && name in tree && ReadOf(t, tree[name], name).Absent?
    ensures ReadSoFar(t, tree, done + [name], byName)
  {
  }

  lemma ReadTakes(t: Tools, tree: Tree, done: seq<string>, byName: map<string, Profile>, name: string)
    requires ReadSoFar(t, tree, done, byName) && name in tree && ReadOf(t, tree[name], name).Present?
    ensures ReadSoFar(t, tree, done + [name], byName[name := ReadOf(t, tree[name], name).p])
  {
  }

  lemma ReadAll(t: Tools, tree: Tree, done: seq<string>, byName: map<string, Profile>)
    requires ReadSoFar(t, tree, done, byName) && forall n :: n in done <==> n in tree
    ensures !AnyBad(t, tree) && byName == ProfilesIn(t, tree)
  {
  }

  /** The loop over the entries of the directory. */
  method ReadEntries(t: Tools, tree: Tree) returns (ok: bool, byName: map<string, Profile>, names: seq<string>)
    ensures ok <==> !AnyBad(t, tree)
    ensures ok ==> byName == ProfilesIn(t, tree)
    ensures ok ==> Sorted(names) && forall n :: n in names <==> n in byName
  {
    var entries := ReadDir(tree);
    byName, names := map[], [];
    for i := 0 to |entries|
      invariant Sorted(names) && forall n :: n in names <==> n in byName
      invariant ReadSoFar(t, tree, entries[..i], byName)
    {
      var name := entries[i];
      assert name in entries && entries[..i + 1] == entries[..i] + [name];
      var p := ReadProfile(t, tree[name], name);
      if p.Bad? {
        return false, byName, names;
      }
      if p.Absent? {
        ReadSkips(t, tree, entries[..i], byName, name);
        continue;
      }
      ReadTakes(t, tree, entries[..i], byName, name);
      Earlier(entries, i);
      byName := byName[name := p.p];
      names := InsertName(names, name);
    }
    assert entries[..|entries|] == entries;
    ReadAll(t, tree, entries, byName);
    return true, byName, names;
  }

  /** A sorted listing has no name twice. */
  lemma Earlier(names: seq<string>, i: nat)
    requires Sorted(names) && i < |names|
    ensures names[i] !in names[..i]
  {
    BeforeTotal(names[i], names[i]);
  }

  method AddProbe(t: Tools, profs: map<string, Profile>, listed: seq<string>, base: Tree, foreign: bool)
    returns (byName: map<string, Profile>, names: seq<string>)
    requires Sorted(listed) && forall n :: n in listed <==> n in profs
    ensures byName == WithProbe(t, profs, base, foreign)
    ensures Sorted(names) && forall n :: n in names <==> n in byName
  {
    byName, names := profs, listed;
    if PROBE_NAME !in byName && foreign && PROBE_NAME in base {
      var p := ReadProfile(t, base[PROBE_NAME], PROBE_NAME);
      if p.Present? {
        byName := byName[PROBE_NAME := p.p];
        names := InsertName(names, PROBE_NAME);
      }
    }
  }

  /** Store.read: the snapshot of a directory, refused as a whole if any profile in it is bad. */
  method Read(t: Tools, tree: Tree, base: Tree, foreign: bool) returns (r: Option<Snapshot>)
    ensures r.Some? <==> Loaded(t, tree, base, foreign).Some?
    ensures r.Some? ==> Content(r.value.byName, r.value.contracts) == Loaded(t, tree, base, foreign).value
    ensures r.Some? ==> Sorted(r.value.names) && forall n :: n in r.value.names <==> n in r.value.byName
    ensures r.Some? ==> forall n :: n in r.value.byName ==> r.value.byName[n].limits == r.value.limits
  {
    var ok, byName, names := ReadEntries(t, tree);
    if !ok {
      return None;
    }
    byName, names := AddProbe(t, byName, names, base, foreign);
    if DEFAULT_NAME !in byName {
      return None;
    }
    assert DEFAULT_NAME in names;
    var limits := CommonLimits(byName, names);
    if limits.None? {
      return None;
    }
    var compiled := Compile(t, byName, names);
    if compiled.None? {
      return None;
    }
    return Some(Snapshot(byName, names, limits.value, compiled.value));
  }

  // ------------------------------------------------ what is served

  lemma ReadIsGood(t: Tools, node: Node, name: string)
    requires ReadOf(t, node, name).Present?
    ensures var p := ReadOf(t, node, name).p;
      p.name == name && GoodProfile(p) && (p.mode != Policy.OFF ==> Attached(p))
  {
    var p := ReadOf(t, node, name).p;
    var bare := Named(t.parse(node.files[PROFILE_FILE].value).value, name);
    assert p == bare.(documents := p.documents);
    assert MentionSet(p) == MentionSet(bare);
  }

  /** Every snapshot that gets served contains the default profile, holds validated profiles with the documents
      they mention, and has a contract for exactly the profiles that are not off: a handler that found its
      profile never misses its contract. */
  lemma ServedSnapshotIsComplete(t: Tools, tree: Tree, base: Tree, foreign: bool)
    requires Loaded(t, tree, base, foreign).Some?
    ensures var c := Loaded(t, tree, base, foreign).value;
      && DEFAULT_NAME in c.byName && SameLimits(c.byName)
      && (forall n :: n in c.byName ==> c.byName[n].name == n && GoodProfile(c.byName[n]))
      && (forall n :: n in c.byName && c.byName[n].mode != Policy.OFF ==> Attached(c.byName[n]))
      && (forall n :: n in c.contracts <==> n in c.byName && c.byName[n].mode != Policy.OFF)
      && (forall n :: n in c.contracts ==> Built(t.compilers, c.byName[n]) == Some(c.contracts[n]))
  {
    var c := Loaded(t, tree, base, foreign).value;
    forall n | n in c.byName
      ensures c.byName[n].name == n && GoodProfile(c.byName[n]) && (c.byName[n].mode != Policy.OFF ==> Attached(c.byName[n]))
    {
      if n in ProfilesIn(t, tree) {
        ReadIsGood(t, tree[n], n);
      } else {
        ReadIsGood(t, base[n], n);
      }
    }
  }

  /** Replacing the directory as a whole does not lose the health check: the image's probe profile is served
      whenever it is good and the new directory has no probe of its own. */
  lemma ProbeSurvives(t: Tools, tree: Tree, base: Tree)
    requires PROBE_NAME in base && ReadOf(t, base[PROBE_NAME], PROBE_NAME).Present?
    ensures Loaded(t, tree, base, true).Some? ==>
      var c := Loaded(t, tree, base, true).value;
      && PROBE_NAME in c.byName
      && (PROBE_NAME !in ProfilesIn(t, tree) ==> c.byName[PROBE_NAME] == ReadOf(t, base[PROBE_NAME], PROBE_NAME).p)
  {
  }

  /** A binding of a frame as it is read, with the defaults filled in. */
  predicate WithDefaults(b: FrameBinding, read: FrameBinding) {
    && b.path == read.path && b.subprotocol == read.subprotocol && b.discriminator == read.discriminator
    && b.schema == read.schema
    && b.match_ == (if read.match_ == "" then "prefix" else read.match_)
    && b.direction == (if read.direction == "" then "any" else read.direction)
  }

  /** p is what the folder says: its profile file as parsed, under the folder's name, with the defaults filled in, and
      unless it is off with each schema it mentions read from the file of that name. */
  ghost predicate SaidBy(t: Tools, files: Files, name: string, p: Profile) {
    && "profile.yaml" in files && files["profile.yaml"].Some? && t.parse(files["profile.yaml"].value).Some?
    && var read := t.parse(files["profile.yaml"].value).value;
       && p == read.(name := name, documents := p.documents, frame := read.frame.(bindings := p.frame.bindings))
       && |p.frame.bindings| == |read.frame.bindings|
       && (forall k :: 0 <= k < |p.frame.bindings| ==> WithDefaults(p.frame.bindings[k], read.frame.bindings[k]))
       && (if p.mode == "off" then p.documents == map[]
           else forall d :: d in p.documents <==> Mentions(p, d))
       && (forall d :: d in p.documents ==>
             && "schema-" + d in files && files["schema-" + d] == Some(p.documents[d]) && p.documents[d] != [])
  }

  lemma ReadSays(t: Tools, node: Node, name: string)
    ensures ReadOf(t, node, name).Present? ==> node.Folder? && SaidBy(t, node.files, name, ReadOf(t, node, name).p)
    ensures ReadOf(t, node, name).Absent? <==> node.Plain? || "profile.yaml" !in node.files
  {
    if ReadOf(t, node, name).Present? {
      ReadIsGood(t, node, name);
    }
  }

  predicate HasProfile(tree: Tree, n: string) {
    n in tree && tree[n].Folder? && "profile.yaml" in tree[n].files
  }

  lemma FolderIsServed(t: Tools, tree: Tree, base: Tree, foreign: bool, n: string)
    requires Loaded(t, tree, base, foreign).Some? && HasProfile(tree, n)
    ensures var c := Loaded(t, tree, base, foreign).value; n in c.byName && SaidBy(t, tree[n].files, n, c.byName[n])
  {
    assert !ReadOf(t, tree[n], n).Bad?;
    ReadSays(t, tree[n], n);
    assert n in ProfilesIn(t, tree);
  }

  lemma OtherIsProbe(t: Tools, tree: Tree, base: Tree, foreign: bool, n: string)
    requires Loaded(t, tree, base, foreign).Some? && n in Loaded(t, tree, base, foreign).value.byName && !HasProfile(tree, n)
    ensures n == "_probe" && foreign && HasProfile(base, n)
    ensures SaidBy(t, base[n].files, n, Loaded(t, tree, base, foreign).value.byName[n])
  {
    if n in tree {
      ReadSays(t, tree[n], n);
    }
    assert n !in ProfilesIn(t, tree);
    ReadSays(t, base[n], n);
  }

  /** A served snapshot has exactly the folders of the directory that have a profile file, each as it says, and besides
      them at most the probe profile of the image. */
  lemma ServedProfilesAreRead(t: Tools, tree: Tree, base: Tree, foreign: bool)
    requires Loaded(t, tree, base, foreign).Some?
    ensures var c := Loaded(t, tree, base, foreign).value;
      && (forall n :: HasProfile(tree, n) ==> n in c.byName && SaidBy(t, tree[n].files, n, c.byName[n]))
      && (forall n :: n in c.byName && !HasProfile(tree, n) ==>
            n == "_probe" && foreign && HasProfile(base, n) && SaidBy(t, base[n].files, n, c.byName[n]))
  {
    var c := Loaded(t, tree, base, foreign).value;
    forall n | HasProfile(tree, n) ensures n in c.byName && SaidBy(t, tree[n].files, n, c.byName[n]) {
      FolderIsServed(t, tree, base, foreign, n);
    }
    forall n | n in c.byName && !HasProfile(tree, n)
      ensures n == "_probe" && foreign && HasProfile(base, n) && SaidBy(t, base[n].files, n, c.byName[n])
    {
      OtherIsProbe(t, tree, base, foreign, n);
    }
  }

  // ------------------------------------------------ when a directory is refused

  /** The folder says a profile that validation accepts, and has the schemas it mentions. */
  ghost predicate SaysGood(t: Tools, files: Files, name: string) {
    exists p :: SaidBy(t, files, name, p) && GoodProfile(p)
  }

  lemma SaidIsNamed(t: Tools, files: Files, name: string, p: Profile)
    requires SaidBy(t, files, name, p)
    ensures p == Named(t.parse(files["profile.yaml"].value).value, name).(documents := p.documents)
  {
    assert p.frame.bindings == Named(t.parse(files["profile.yaml"].value).value, name).frame.bindings;
  }

  lemma SaidIsPresent(t: Tools, node: Node, name: string, p: Profile)
    requires node.Folder? && SaidBy(t, node.files, name, p) && GoodProfile(p)
    ensures ReadOf(t, node, name).Present?
  {
    SaidIsNamed(t, node.files, name, p);
    var bare := Named(t.parse(node.files["profile.yaml"].value).value, name);
    assert GoodProfile(bare);
    if bare.mode != "off" {
      forall d | d in MentionSet(bare) ensures HasDocument(node.files, d) {
        assert Mentions(p, d);
      }
    }
  }

  /** A profile is read from exactly the folders that say a good one; the others with a profile file are bad. */
  lemma ReadExactly(t: Tools, node: Node, name: string)
    ensures ReadOf(t, node, name).Present? <==> node.Folder? && SaysGood(t, node.files, name)
    ensures ReadOf(t, node, name).Bad? <==>
      node.Folder? && "profile.yaml" in node.files && !SaysGood(t, node.files, name)
  {
    ReadSays(t, node, name);
    if ReadOf(t, node, name).Present? {
      ReadIsGood(t, node, name);
    }
    if node.Folder? && SaysGood(t, node.files, name) {
      var p :| SaidBy(t, node.files, name, p) && GoodProfile(p);
      SaidIsPresent(t, node, name, p);
    }
  }

  ghost predicate AllSayGood(t: Tools, tree: Tree) {
    forall n :: HasProfile(tree, n) ==> SaysGood(t, tree[n].files, n)
  }

  lemma NothingIsBad(t: Tools, tree: Tree)
    ensures AnyBad(t, tree) <==> !AllSayGood(t, tree)
  {
    forall n | n in tree ensures ReadOf(t, tree[n], n).Bad? <==> HasProfile(tree, n) && !SaysGood(t, tree[n].files, n) {
      ReadExactly(t, tree[n], n);
    }
    if !AllSayGood(t, tree) {
      var n :| HasProfile(tree, n) && !SaysGood(t, tree[n].files, n);
      assert ReadOf(t, tree[n], n).Bad?;
    }
  }

  lemma DefaultIsThere(t: Tools, tree: Tree, base: Tree, foreign: bool)
    requires !AnyBad(t, tree)
    ensures "default" in WithProbe(t, ProfilesIn(t, tree), base, foreign) <==> HasProfile(tree, "default")
  {
    if "default" in tree {
      ReadSays(t, tree["default"], "default");
      assert !ReadOf(t, tree["default"], "default").Bad?;
    }
  }

  /** The profiles have the same limits, and those that are not off build. */
  ghost predicate Fits(t: Tools, profs: map<string, Profile>) {
    && (forall a, b :: a in profs && b in profs ==> profs[a].limits == profs[b].limits)
    && (forall n :: n in profs && profs[n].mode != "off" ==> Built(t.compilers, profs[n]).Some?)
  }

  lemma FitsExactly(t: Tools, profs: map<string, Profile>)
    ensures Fits(t, profs) <==> SameLimits(profs) && AllBuild(t, profs)
  {
  }

  /** A directory is served exactly when each of its profile files says a good profile, one of them is the default's,
      and the profiles, with the image's probe if it is taken, have the same limits and build unless they are off. */
  lemma ServedExactly(t: Tools, tree: Tree, base: Tree, foreign: bool)
    ensures Loaded(t, tree, base, foreign).Some? <==>
      AllSayGood(t, tree) && HasProfile(tree, "default") && Fits(t, WithProbe(t, ProfilesIn(t, tree), base, foreign))
  {
    NothingIsBad(t, tree);
    FitsExactly(t, WithProbe(t, ProfilesIn(t, tree), base, foreign));
    if AllSayGood(t, tree) {
      DefaultIsThere(t, tree, base, foreign);
    }
  }
}
