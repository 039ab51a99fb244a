/**
 Swapping a generation of profiles on disk and in service. Apply stages a manifest, parks the
 live tree, promotes the staged one, loads it, and rolls back when a step fails; Watch applies
 the manifests it is sent and reports which one is in service.
 */
module Generations {
  import opened Basics
  import opened Snapshots
  import opened Profiles
  import opened Contracts
  import Policy

  const APPLY_OK := "ok"
  const APPLY_FAILED := "apply_failed"

  datatype File = File(name: string, text: Bytes)

  /** A parsed manifest: its hash is never empty. */
  datatype Manifest = Manifest(rev: int, hash: string, profiles: map<string, seq<File>>)

  /** The files of one profile folder; of two files of one name the later stays. */
  function FilesOf(files: seq<File>): Files {
    if files == [] then map[]
    else FilesOf(files[..|files| - 1])[files[|files| - 1].name := Some(files[|files| - 1].text)]
  }

  function TreeOf(m: Manifest): Tree {
    map name | name in m.profiles :: Folder(FilesOf(m.profiles[name]))
  }

  /** No later file has the name of this one. */
  predicate LastNamed(files: seq<File>, k: nat)
    requires k < |files|
  {
    forall j :: k < j < |files| ==> files[j].name != files[k].name
  }

  /** A folder holds exactly the listed files, each with its own text, the last one where a name comes twice. */
  ghost predicate HoldsFiles(folder: Files, files: seq<File>) {
    && (forall k: nat :: k < |files| && LastNamed(files, k) ==>
          files[k].name in folder && folder[files[k].name] == Some(files[k].text))
    && (forall name :: name in folder ==> Listed(files, name))
  }

  predicate Listed(files: seq<File>, name: string) {
    exists k :: 0 <= k < |files| && files[k].name == name
  }

  /** A tree holds exactly the profiles of the manifest, each a folder of exactly its files. */
  ghost predicate HoldsManifest(tree: Tree, m: Manifest) {
    && tree.Keys == m.profiles.Keys
    && forall name :: name in tree && name in m.profiles ==>
         tree[name].Folder? && HoldsFiles(tree[name].files, m.profiles[name])
  }

  lemma ListedSnoc(files: seq<File>, f: File, name: string)
    ensures Listed(files + [f], name) <==> Listed(files, name) || name == f.name
  {
    var all := files + [f];
    assert all[|files|] == f;
    if k :| 0 <= k < |files| && files[k].name == name {
      assert all[k].name == name;
    }
  }

  /** Writing one file more. */
  lemma HoldsSnoc(folder: Files, files: seq<File>, f: File)
    requires HoldsFiles(folder, files)
    ensures HoldsFiles(folder[f.name := Some(f.text)], files + [f])
  {
    var all, folder' := files + [f], folder[f.name := Some(f.text)];
    forall k: nat | k < |all| && LastNamed(all, k)
      ensures all[k].name in folder' && folder'[all[k].name] == Some(all[k].text)
    {
      assert all[|files|] == f;
      if k < |files| {
        StillLast(files, f, k);
      }
    }
    forall name | name in folder' ensures Listed(all, name) {
      ListedSnoc(files, f, name);
    }
  }

  lemma StillLast(files: seq<File>, f: File, k: nat)
    requires k < |files| && LastNamed(files + [f], k)
    ensures LastNamed(files, k) && files[k].name != f.name
  {
    var all := files + [f];
    assert all[|files|] == f && all[k] == files[k];
    forall j | k < j < |files| ensures files[j].name != files[k].name {
      assert all[j] == files[j];
    }
  }

  lemma FilesOfSnoc(before: seq<File>, last: File)
    ensures FilesOf(before + [last]) == FilesOf(before)[last.name := Some(last.text)]
  {
    assert (before + [last])[..|before|] == before;
  }

  lemma {:induction false} FilesOfHold(files: seq<File>)
    ensures HoldsFiles(FilesOf(files), files)
  {
    if files != [] {
      FilesOfHold(files[..|files| - 1]);
      OneMoreHolds(files[..|files| - 1], files[|files| - 1]);
      assert files == files[..|files| - 1] + [files[|files| - 1]];
    }
  }

  lemma OneMoreHolds(before: seq<File>, last: File)
    requires HoldsFiles(FilesOf(before), before)
    ensures HoldsFiles(FilesOf(before + [last]), before + [last])
  {
    FilesOfSnoc(before, last);
    HoldsSnoc(FilesOf(before), before, last);
  }

  lemma TreeOfHolds(m: Manifest)
    ensures HoldsManifest(TreeOf(m), m)
  {
    forall name | name in m.profiles ensures HoldsFiles(FilesOf(m.profiles[name]), m.profiles[name]) {
      FilesOfHold(m.profiles[name]);
    }
  }

  /** Which of the steps that can fail do fail; removing a tree always succeeds. `write` says how
      many folders were written when the write failed. */
  datatype Faults = Faults(
    mkdir: bool, write: Option<nat>, park: bool, promote: bool, load: bool, restore: bool, reload: bool)

  /** The three trees under the data directory, whether the store reads the live one, and what it serves. */
  datatype World = World(next: Option<Tree>, prev: Option<Tree>, live: Option<Tree>, local: bool, served: Content)

  /** What surrounds the swap and does not change: the tools and the profiles of the image. */
  datatype Setting = Setting(tools: Tools, base: Tree)

  ghost function LoadedAt(e: Setting, tree: Option<Tree>, fault: bool): Option<Content> {
    if fault || tree.None? then None else Loaded(e.tools, tree.value, e.base, true)
  }

  ghost function Reloaded(e: Setting, w: World, fault: bool): World {
    match LoadedAt(e, w.live, fault)
    case Some(c) => w.(local := true, served := c)
    case None => w
  }

  ghost function Applied(e: Setting, w: World, m: Manifest, f: Faults): (World, bool) {
    if f.mkdir then (w, false)
    else if f.write.Some? then (w.(next := None), false)
    else if f.park then (w.(next := None, prev := None), false)
    else
      var kept := if f.restore then None else w.live;
      var parked := if f.restore then w.live else None;
      if f.promote then (w.(next := None, prev := parked, live := kept), false)
      else match LoadedAt(e, Some(TreeOf(m)), f.load)
        case Some(c) => (World(None, None, Some(TreeOf(m)), true, c), true)
        case None => (Reloaded(e, w.(next := None, prev := parked, live := kept), f.reload), false)
  }

  // ------------------------------------------------ the class

  method WriteFolder(list: seq<File>) returns (files: Files)
    ensures files == FilesOf(list)
  {
    files := map[];
    for i := 0 to |list|
      invariant files == FilesOf(list[..i])
    {
      assert list[..i + 1][..i] == list[..i];
      files := files[list[i].name := Some(list[i].text)];
    }
    assert list[..|list|] == list;
  }

  class Host {
    const e: Setting
    var next: Option<Tree>
    var prev: Option<Tree>
    var live: Option<Tree>
    var local: bool
    var cur: Snapshot

    ghost function View(): World
      reads this
    {
      World(next, prev, live, local, Content(cur.byName, cur.contracts))
    }

    constructor (e: Setting, live: Option<Tree>, cur: Snapshot)
      ensures this.e == e && View() == World(None, None, live, false, Content(cur.byName, cur.contracts))
    {
      this.e, this.live, this.cur := e, live, cur;
      next, prev, local := None, None, false;
    }

    /** Store.ReloadFrom of the live tree. */
    method ReloadFrom(fault: bool) returns (ok: bool)
      modifies this`local, this`cur
      ensures ok <==> LoadedAt(e, live, fault).Some?
      ensures View() == Reloaded(e, old(View()), fault)
    {
      var was := local;
      local := true;
      if fault || live.None? {
        local := was;
        return false;
      }
      var snap := Read(e.tools, live.value, e.base, true);
      if snap.None? {
        local := was;
        return false;
      }
      cur := snap.value;
      return true;
    }

    /** Writes the folders of the manifest into the staging tree, in any order. */
    method Write(m: Manifest, failure: Option<nat>) returns (ok: bool)
      modifies this`next
      ensures ok <==> failure.None?
      ensures ok ==> next == Some(TreeOf(m)) && HoldsManifest(next.value, m)
    {
      var left := m.profiles.Keys;
      var tree: Tree := map[];
      while left != {}
        invariant left <= m.profiles.Keys && tree.Keys == m.profiles.Keys - left
        invariant forall n :: n in tree ==> tree[n] == Folder(FilesOf(m.profiles[n]))
        decreases |left|
      {
        if failure.Some? && |tree| >= failure.value {
          next := Some(tree);
          return false;
        }
        var name :| name in left;
        var files := WriteFolder(m.profiles[name]);
        tree := tree[name := Folder(files)];
        left := left - {name};
      }
      assert tree.Keys == TreeOf(m).Keys;
      assert tree == TreeOf(m);
      next := Some(tree);
      TreeOfHolds(m);
      return failure.None?;
    }

    method Apply(m: Manifest, f: Faults) returns (ok: bool)
      modifies this
      ensures (View(), ok) == Applied(e, old(View()), m, f)
      ensures ok ==> live.Some? && HoldsManifest(live.value, m)
    {
      TreeOfHolds(m);
      if f.mkdir {
        return false;
      }
      next := None;
      var written := Write(m, f.write);
      if !written {
        next := None;
        return false;
      }
      prev := None;
      if f.park {
        next := None;
        return false;
      }
      var lived := live.Some?;
      if lived {
        prev, live := live, None;
      }
      if f.promote {
        if lived && !f.restore {
          live, prev := prev, None;
        }
        next := None;
        return false;
      }
      live, next := next, None;
      var loaded := ReloadFrom(f.load);
      if !loaded {
        live := None;
        if lived && !f.restore {
          live, prev := prev, None;
          var again := ReloadFrom(f.reload);
        }
        return false;
      }
      prev := None;
      return true;
    }

    /** At start: serve the live tree if it is usable, else stay with the profiles of the image. */
    method Bootstrap(fault: bool) returns (ok: bool)
      modifies this`local, this`cur
      ensures View() == Bootstrapped(e, old(View()), fault)
      ensures ok <==> HasDefault(live) && LoadedAt(e, live, fault).Some?
    {
      if !HasDefault(live) {
        return false;
      }
      ok := ReloadFrom(fault);
    }
  }

  /** There is a file for the default profile. */
  predicate HasDefault(tree: Option<Tree>) {
    && tree.Some? && DEFAULT_NAME in tree.value && tree.value[DEFAULT_NAME].Folder?
    && PROFILE_FILE in tree.value[DEFAULT_NAME].files
  }

  ghost function Bootstrapped(e: Setting, w: World, fault: bool): World {
    if HasDefault(w.live) then Reloaded(e, w, fault) else w
  }

  /** LoadProfiles: the store starts from the profiles of the image, or not at all. */
  method LoadProfiles(e: Setting, live: Option<Tree>) returns (h: Option<Host>)
    ensures h.Some? <==> Loaded(e.tools, e.base, e.base, false).Some?
    ensures h.Some? ==> fresh(h.value) && h.value.e == e
    ensures h.Some? ==> h.value.View() == World(None, None, live, false, Loaded(e.tools, e.base, e.base, false).value)
  {
    var snap := Read(e.tools, e.base, e.base, false);
    if snap.None? {
      return None;
    }
    var host := new Host(e, live, snap.value);
    return Some(host);
  }

  // ------------------------------------------------ one Apply

  /** A successful Apply leaves a live tree that holds exactly the manifest's files, serves what this tree loads to, and
      leaves nothing behind; it succeeds exactly when no step fails and the tree is one the store may serve. */
  lemma SuccessServesManifest(e: Setting, w: World, m: Manifest, f: Faults)
    ensures var (w', ok) := Applied(e, w, m, f);
      && (ok <==> !f.mkdir && f.write.None? && !f.park && !f.promote && !f.load
                  && Loaded(e.tools, TreeOf(m), e.base, true).Some?)
      && (ok ==> w'.live == Some(TreeOf(m)) && w'.next.None? && w'.prev.None? && w'.local
                 && Loaded(e.tools, TreeOf(m), e.base, true) == Some(w'.served))
      && (ok ==> HoldsManifest(w'.live.value, m) && Loaded(e.tools, w'.live.value, e.base, true) == Some(w'.served))
  {
    TreeOfHolds(m);
  }

  /** No Apply leaves a staged tree, unless the data directory could not even be made; and what is left parked is
      what was parked before, or the live tree that could not be put back. */
  lemma ApplyCleansUp(e: Setting, w: World, m: Manifest, f: Faults)
    ensures var w' := Applied(e, w, m, f).0;
      && (if f.mkdir then w' == w else w'.next.None?)
      && (w'.prev.Some? ==> w'.prev == w.prev || (w'.prev == w.live && w'.live.None?))
      && (!f.mkdir && f.write.None? ==> w'.prev.Some? ==> f.restore)
  {
  }

  /** What a failing Apply does to the live tree: nothing, unless the tree was parked and could not be put
      back, and then it is still there as the parked tree. */
  lemma FailureKeepsTree(e: Setting, w: World, m: Manifest, f: Faults)
    requires !Applied(e, w, m, f).1
    ensures var w' := Applied(e, w, m, f).0;
      var parked := !f.mkdir && f.write.None? && !f.park;
      && (!(parked && f.restore) ==> w'.live == w.live)
      && (parked && f.restore ==> w'.live.None? && w'.prev == w.live)
  {
  }

  /** The store serves the live tree whenever that tree can be served at all. */
  ghost predicate Synced(e: Setting, w: World) {
    var c := LoadedAt(e, w.live, false);
    c.Some? ==> w.served == c.value && w.local
  }

  /** A failing Apply keeps what is served. */
  ghost predicate KeepsServed(e: Setting, w: World, m: Manifest, f: Faults) {
    !Applied(e, w, m, f).1 ==> Applied(e, w, m, f).0.served == w.served
  }

  /** The rollback loads the old tree again: this is the one way a failing Apply touches what is served. */
  ghost predicate RolledBack(e: Setting, w: World, m: Manifest, f: Faults) {
    && !f.mkdir && f.write.None? && !f.park && !f.promote
    && LoadedAt(e, Some(TreeOf(m)), f.load).None?
    && !f.restore && LoadedAt(e, w.live, f.reload).Some?
  }

  /** One failing Apply, fault by fault: it keeps what is served exactly when it did not reload the old tree or the
      old tree is what was served already. */
  lemma FailedCallKeepsContent(e: Setting, w: World, m: Manifest, f: Faults)
    ensures !Applied(e, w, m, f).1 ==>
      (KeepsServed(e, w, m, f) <==> (RolledBack(e, w, m, f) ==> LoadedAt(e, w.live, f.reload) == Some(w.served)))
  {
  }

  ghost function Keeping(e: Setting, w: World): (Manifest, Faults) -> bool {
    (m: Manifest, f: Faults) => KeepsServed(e, w, m, f)
  }

  ghost predicate Always(keeps: (Manifest, Faults) -> bool) {
    forall m, f :: keeps(m, f)
  }

  /** The live tree, where it loads at all, loads to what is served. */
  ghost predicate ServesLiveTree(e: Setting, w: World) {
    LoadedAt(e, w.live, false).Some? ==> LoadedAt(e, w.live, false) == Some(w.served)
  }

  /** Every failing Apply, of whatever manifest and whatever fails, keeps what is served if and only if the live tree,
      where it loads at all, loads to what is served already: a rollback serves the live tree again, whatever was
      served before. */
  lemma FailuresKeepContentExactly(e: Setting, w: World)
    ensures Always(Keeping(e, w)) <==> ServesLiveTree(e, w)
  {
    if ServesLiveTree(e, w) {
      forall m, f ensures Keeping(e, w)(m, f) {
        FailedCallKeepsContent(e, w, m, f);
      }
    } else {
      OtherTreeIsNotKept(e, w, Manifest(1, "sha256:", map[]));
    }
  }

  lemma OtherTreeIsNotKept(e: Setting, w: World, m: Manifest)
    requires !ServesLiveTree(e, w)
    ensures !Keeping(e, w)(m, ONLY_LOAD)
  {
    LateTreeIsSwitchedTo(e, w, m);
  }

  const ONLY_LOAD := Faults(false, None, false, false, true, false, false)

  /** How it happens: the read of the live tree fails once at start, so the store stays with the image; then the load
      of any manifest fails, and nothing else does, and the rollback serves the live tree after all. */
  lemma LateTreeIsSwitchedTo(e: Setting, w: World, m: Manifest)
    requires !ServesLiveTree(e, w)
    ensures Bootstrapped(e, w, true) == w
    ensures var (w', ok) := Applied(e, w, m, ONLY_LOAD);
      !ok && w'.served == LoadedAt(e, w.live, false).value && w'.served != w.served
  {
  }

  // A setting in which it happens: profiles that are off and differ in a limit.

  const NO_RULES := Policy.RequestRules(NO_RULE, NO_RULE, NO_RULE, NO_RULE, NO_RULE, NO_RULE)
  const NO_RULE := Policy.Rule("allow", 0)
  const NO_DIRECTION :=
    FrameDirection(false, Policy.FrameRules(NO_RULE, NO_RULE, NO_RULE, NO_RULE, NO_RULE, NO_RULE), "", [])

  function OffProfile(n: byte): Profile {
    Profile("default", Policy.OFF, KIND_JSONSCHEMA, "", "", [],
            RequestPhase(false, RequestChecks(false, false, false, false), NO_RULES, "", []),
            ResponsePhase(false, ResponseChecks(false, false, false), Policy.ResponseRules(NO_RULES, NO_RULE), "", []),
            FramePhase(false, [], NO_DIRECTION, NO_DIRECTION),
            [], Limits(n as int, 1, 0, 0), "off", map[])
  }

  const OFF_TOOLS := Tools((b: Bytes) => if b == [] then None else Some(OffProfile(b[0])),
                           Compilers((name, b) => None, b => None))

  function OffTree(n: byte): Tree {
    map[DEFAULT_NAME := Folder(map[PROFILE_FILE := Some([n])])]
  }

  function OffContent(n: byte): Content {
    Content(map[DEFAULT_NAME := OffProfile(n)], map[])
  }

  lemma OffTreeLoads(n: byte, base: Tree)
    requires PROBE_NAME !in base
    ensures Loaded(OFF_TOOLS, OffTree(n), base, true) == Some(OffContent(n))
  {
    var p := OffProfile(n);
    var node := OffTree(n)[DEFAULT_NAME];
    assert Named(p, DEFAULT_NAME) == p;
    assert GoodProfile(p);
    assert ReadOf(OFF_TOOLS, node, DEFAULT_NAME) == Present(p);
    assert ProfilesIn(OFF_TOOLS, OffTree(n)) == map[DEFAULT_NAME := p];
    assert WithProbe(OFF_TOOLS, ProfilesIn(OFF_TOOLS, OffTree(n)), base, true) == map[DEFAULT_NAME := p];
    assert !AnyBad(OFF_TOOLS, OffTree(n));
    assert ContractsOf(OFF_TOOLS, map[DEFAULT_NAME := p]) == map[];
  }

  /** The image serves one limit, the live tree declares another; the failing Apply switches to it. */
  lemma FailingApplySwitches(m: Manifest)
    ensures var e := Setting(OFF_TOOLS, OffTree(1));
      var w := World(None, None, Some(OffTree(2)), false, OffContent(1));
      var (w', ok) := Applied(e, Bootstrapped(e, w, true), m, ONLY_LOAD);
      !ok && w'.served == OffContent(2) && w'.served != OffContent(1)
  {
    OffTreeLoads(2, OffTree(1));
    var e := Setting(OFF_TOOLS, OffTree(1));
    var w := World(None, None, Some(OffTree(2)), false, OffContent(1));
    assert OffProfile(1).limits.maxBody == 1 && OffProfile(2).limits.maxBody == 2;
    assert OffContent(1).byName[DEFAULT_NAME] != OffContent(2).byName[DEFAULT_NAME];
    LateTreeIsSwitchedTo(e, w, m);
  }

  lemma SuccessSyncs(e: Setting, w: World, m: Manifest, f: Faults)
    ensures Applied(e, w, m, f).1 ==> Synced(e, Applied(e, w, m, f).0)
  {
    SuccessServesManifest(e, w, m, f);
  }

  lemma FailureKeepsSync(e: Setting, w: World, m: Manifest, f: Faults)
    requires Synced(e, w)
    ensures var (w', ok) := Applied(e, w, m, f);
      !ok ==> Synced(e, w') && w'.served == w.served && w'.local == w.local
  {
    if !Applied(e, w, m, f).1 {
      FailureKeepsTree(e, w, m, f);
    }
  }

  /** So on a synced host every failing Apply keeps what is served, and every Apply keeps the host synced. */
  lemma SyncedIsKept(e: Setting, w: World, m: Manifest, f: Faults)
    requires Synced(e, w)
    ensures var (w', ok) := Applied(e, w, m, f);
      Synced(e, w') && (!ok ==> w'.served == w.served && w'.local == w.local)
  {
    SuccessSyncs(e, w, m, f);
    FailureKeepsSync(e, w, m, f);
  }

  /** Bootstrap syncs the host when its read does not fail for some other reason than the tree. */
  lemma BootstrapSyncs(e: Setting, w: World)
    ensures Synced(e, Bootstrapped(e, w, false))
  {
    if LoadedAt(e, w.live, false).Some? {
      var tree := w.live.value;
      assert DEFAULT_NAME in ProfilesIn(e.tools, tree);
    }
  }

  // ------------------------------------------------ whole runs of Watch

  /** What the heartbeat reports. */
  datatype Report = Report(hash: string, rev: int, apply: string, names: set<string>)

  const NO_REPORT := Report("", 0, "", {})

  /** An update of the bucket: one that Watch passes over, or a manifest with what befalls its Apply. */
  datatype Update = Ignored | Sent(m: Manifest, f: Faults)

  ghost function Watched(e: Setting, w: World, r: Report, u: Update): (World, Report) {
    match u
    case Ignored => (w, r)
    case Sent(m, f) =>
      if r.apply == APPLY_OK && r.hash == m.hash && r.rev == m.rev then (w, r)
      else
        var (w', ok) := Applied(e, w, m, f);
        (w', if ok then Report(m.hash, m.rev, APPLY_OK, m.profiles.Keys) else r.(apply := APPLY_FAILED))
  }

  ghost function WatchedAll(e: Setting, w: World, us: seq<Update>): (World, Report) {
    if us == [] then (w, NO_REPORT)
    else
      var (w', r) := WatchedAll(e, w, us[..|us| - 1]);
      Watched(e, w', r, us[|us| - 1])
  }

  method Watch(h: Host, us: seq<Update>) returns (r: Report)
    modifies h
    ensures (h.View(), r) == WatchedAll(h.e, old(h.View()), us)
  {
    r := NO_REPORT;
    for i := 0 to |us|
      invariant (h.View(), r) == WatchedAll(h.e, old(h.View()), us[..i])
    {
      assert us[..i + 1][..i] == us[..i];
      match us[i] {
        case Ignored =>
        case Sent(m, f) =>
          if !(r.apply == APPLY_OK && r.hash == m.hash && r.rev == m.rev) {
            var ok := h.Apply(m, f);
            r := if ok then Report(m.hash, m.rev, APPLY_OK, m.profiles.Keys) else r.(apply := APPLY_FAILED);
          }
      }
    }
    assert us[..|us|] == us;
  }

  /** A manifest that can be served and whose Apply meets no fault is in service once Watch has seen it, and reported
      as applied; it is passed over only when the report names its hash and revision already. */
  lemma GoodUpdateIsServed(e: Setting, w: World, r: Report, u: Update)
    requires u.Sent? && Loaded(e.tools, TreeOf(u.m), e.base, true).Some?
    requires !u.f.mkdir && u.f.write.None? && !u.f.park && !u.f.promote && !u.f.load
    ensures var (w', r') := Watched(e, w, r, u);
      && r'.apply == APPLY_OK && r'.hash == u.m.hash && r'.rev == u.m.rev
      && (r.apply == APPLY_OK && r.hash == u.m.hash && r.rev == u.m.rev ==> w' == w && r' == r)
      && (!(r.apply == APPLY_OK && r.hash == u.m.hash && r.rev == u.m.rev) ==>
            w'.live.Some? && HoldsManifest(w'.live.value, u.m) && r'.names == u.m.profiles.Keys
            && Loaded(e.tools, TreeOf(u.m), e.base, true) == Some(w'.served))
  {
    SuccessServesManifest(e, w, u.m, u.f);
  }

  /** What fails is reported as failed, under the hash, revision and names of what was applied last. */
  lemma FailedUpdateIsReported(e: Setting, w: World, r: Report, u: Update)
    requires u.Sent? && !(r.apply == APPLY_OK && r.hash == u.m.hash && r.rev == u.m.rev)
    ensures var (w', r') := Watched(e, w, r, u);
      && (r'.apply == APPLY_OK <==> Applied(e, w, u.m, u.f).1)
      && (r'.apply != APPLY_OK ==> r' == r.(apply := APPLY_FAILED))
  {
    assert |APPLY_OK| != |APPLY_FAILED|;
  }

  /** What the store serves once the tree of a manifest is live. */
  ghost function ServedBy(e: Setting): Manifest -> Option<Content> {
    (m: Manifest) => Loaded(e.tools, TreeOf(m), e.base, true)
  }

  /** The report names a manifest that was sent, and that manifest is what is served. */
  ghost predicate Names(serve: Manifest -> Option<Content>, served: Content, r: Report, us: seq<Update>, k: nat) {
    && k < |us| && us[k].Sent?
    && r.hash == us[k].m.hash && r.rev == us[k].m.rev && r.names == us[k].m.profiles.Keys
    && serve(us[k].m) == Some(served)
  }

  ghost predicate NamesSome(serve: Manifest -> Option<Content>, served: Content, r: Report, us: seq<Update>) {
    exists k: nat :: Names(serve, served, r, us, k)
  }

  ghost predicate Truthful(e: Setting, w: World, r: Report, us: seq<Update>) {
    r.hash != "" ==> Synced(e, w) && NamesSome(ServedBy(e), w.served, r, us)
  }

  /** What a report names stays named while neither the report nor what is served changes. */
  lemma StillNamed(serve: Manifest -> Option<Content>, served: Content, r: Report, r': Report, us: seq<Update>, n: nat)
    requires n <= |us| && NamesSome(serve, served, r, us[..n])
    requires r' == r.(apply := r'.apply)
    ensures NamesSome(serve, served, r', us)
  {
    var k: nat :| Names(serve, served, r, us[..n], k);
    assert us[..n][k] == us[k];
    assert Names(serve, served, r', us, k);
  }

  lemma UpdateKeepsTruth(e: Setting, w: World, r: Report, us: seq<Update>, n: nat)
    requires n == |us| - 1 && Truthful(e, w, r, us[..n])
    ensures Truthful(e, Watched(e, w, r, us[n]).0, Watched(e, w, r, us[n]).1, us)
  {
    var (w', r') := Watched(e, w, r, us[n]);
    if (w', r') == (w, r) {
      if r.hash != "" {
        StillNamed(ServedBy(e), w.served, r, r', us, n);
      }
    } else {
      var m, f := us[n].m, us[n].f;
      SuccessServesManifest(e, w, m, f);
      if Applied(e, w, m, f).1 {
        assert Names(ServedBy(e), w'.served, r', us, n);
      } else if r.hash != "" {
        SyncedIsKept(e, w, m, f);
        StillNamed(ServedBy(e), w.served, r, r', us, n);
      }
    }
  }

  /** In every run, from any disk and whatever was served before, whatever fails: a report with a hash in it
      names a manifest that was sent and is in service, also after later manifests failed to apply. */
  lemma {:induction false} ReportsTellTheTruth(e: Setting, w: World, us: seq<Update>)
    ensures Truthful(e, WatchedAll(e, w, us).0, WatchedAll(e, w, us).1, us)
  {
    if us != [] {
      var n := |us| - 1;
      ReportsTellTheTruth(e, w, us[..n]);
      UpdateKeepsTruth(e, WatchedAll(e, w, us[..n]).0, WatchedAll(e, w, us[..n]).1, us, n);
    }
  }

  /** One hash and revision always stand for one set of profiles. */
  ghost predicate NoCollision(us: seq<Update>) {
    forall i, k :: 0 <= i < |us| && 0 <= k < |us| && SameTag(us[i], us[k]) ==> us[i].m.profiles == us[k].m.profiles
  }

  predicate SameTag(u: Update, v: Update) {
    u.Sent? && v.Sent? && u.m.hash == v.m.hash && u.m.rev == v.m.rev
  }

  /** Then every manifest sent under the reported hash and revision is what is served. */
  lemma ReportIdentifiesContent(e: Setting, w: World, us: seq<Update>, j: nat)
    requires NoCollision(us) && j < |us| && us[j].Sent? && us[j].m.hash != ""
    requires us[j].m.hash == WatchedAll(e, w, us).1.hash && us[j].m.rev == WatchedAll(e, w, us).1.rev
    ensures Loaded(e.tools, TreeOf(us[j].m), e.base, true) == Some(WatchedAll(e, w, us).0.served)
  {
    ReportsTellTheTruth(e, w, us);
    NamedIsServed(ServedBy(e), WatchedAll(e, w, us).0.served, WatchedAll(e, w, us).1, us, j);
  }

  lemma NamedIsServed(serve: Manifest -> Option<Content>, served: Content, r: Report, us: seq<Update>, j: nat)
    requires NoCollision(us) && NamesSome(serve, served, r, us)
    requires j < |us| && us[j].Sent? && us[j].m.hash == r.hash && us[j].m.rev == r.rev
    ensures serve(us[j].m) == Some(served)
  {
    var k: nat :| Names(serve, served, r, us, k);
    assert SameTag(us[j], us[k]);
    assert us[j].m == us[k].m;
  }
}
