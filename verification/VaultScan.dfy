/** The vault walk and the delete inference of `internal/sync/startup.go`. */
module VaultScan {
  import opened Paths
  import opened Exclusion

  // ----- The vault -------------------------------------------------------------------------------

  datatype Node = File(mtime: int) | Folder(mtime: int, entries: seq<Entry>)
  datatype Entry = Entry(name: string, node: Node)

  datatype Kind = NoteItem | FileItem | FolderItem
  datatype Item = Item(path: string, isDir: bool, mtime: int) {
    function Kind(): Kind {
      if isDir then FolderItem else if IsNotePath(path) then NoteItem else FileItem
    }
  }

  predicate IsNotePath(path: string) { HasSuffix(ToLower(path), ".md") }

  /** Notes are told by their extension, in any case. */
  lemma NoteExtension(path: string)
    ensures IsNotePath(path) <==>
      var n := |path|; n >= 3 && path[n - 3] == '.' && path[n - 2] in {'m', 'M'} && path[n - 1] in {'d', 'D'}
  {
    var n, low := |path|, ToLower(path);
    if n >= 3 {
      assert low[n - 3..] == [low[n - 3], low[n - 2], low[n - 1]];
      assert ".md" == ['.', 'm', 'd'];
    }
  }

  function Child(prefix: string, name: string): string {
    if prefix == "" then name else prefix + "/" + name
  }

  /** Everything on disk below `prefix`, in walk order, whatever the rules say. */
  function Items(prefix: string, entries: seq<Entry>): seq<Item>
    decreases entries
  {
    if entries == [] then []
    else ItemsOf(Child(prefix, entries[0].name), entries[0].node) + Items(prefix, entries[1..])
  }

  function ItemsOf(path: string, node: Node): seq<Item>
    decreases node
  {
    match node
    case File(mtime) => [Item(path, false, mtime)]
    case Folder(mtime, entries) => [Item(path, true, mtime)] + Items(path, entries)
  }

  /** The node that the names lead to, from folder to folder. */
  ghost predicate Located(entries: seq<Entry>, names: seq<string>, node: Node)
    decreases |names|
  {
    names != [] && exists e | e in entries ::
      e.name == names[0]
      && if |names| == 1 then e.node == node else e.node.Folder? && Located(e.node.entries, names[1..], node)
  }

  function PathOf(prefix: string, names: seq<string>): string
    decreases |names|
  {
    if names == [] then prefix else PathOf(Child(prefix, names[0]), names[1..])
  }

  ghost predicate IsItem(prefix: string, entries: seq<Entry>, item: Item, names: seq<string>, node: Node) {
    Located(entries, names, node) && item == Item(PathOf(prefix, names), node.Folder?, node.mtime)
  }

  /** Everything that can be reached is listed. */
  lemma {:induction false} ListedIfLocated(
    prefix: string, entries: seq<Entry>, item: Item, names: seq<string>, node: Node)
    requires IsItem(prefix, entries, item, names, node)
    ensures item in Items(prefix, entries)
    decreases |names|, entries
  {
    var e :| e in entries && e.name == names[0]
      && if |names| == 1 then e.node == node else e.node.Folder? && Located(e.node.entries, names[1..], node);
    if e == entries[0] {
      var path := Child(prefix, e.name);
      if |names| > 1 {
        ListedIfLocated(path, e.node.entries, item, names[1..], node);
      } else {
        assert PathOf(path, names[1..]) == path;
      }
    } else {
      assert e in entries[1..];
      ListedIfLocated(prefix, entries[1..], item, names, node);
    }
  }

  /** And nothing else is. */
  lemma {:induction false} LocatedIfListed(prefix: string, entries: seq<Entry>, item: Item)
    returns (names: seq<string>, node: Node)
    requires item in Items(prefix, entries)
    ensures IsItem(prefix, entries, item, names, node)
    decreases entries
  {
    var e := entries[0];
    var path := Child(prefix, e.name);
    if item in ItemsOf(path, e.node) {
      if item == Item(path, e.node.Folder?, e.node.mtime) {
        names, node := [e.name], e.node;
        assert names[1..] == [] && PathOf(prefix, names) == path;
      } else {
        var rest;
        rest, node := LocatedIfListed(path, e.node.entries, item);
        names := [e.name] + rest;
        assert names[1..] == rest;
      }
    } else {
      names, node := LocatedIfListed(prefix, entries[1..], item);
      StillLocated(entries, names, node);
    }
  }

  lemma StillLocated(entries: seq<Entry>, names: seq<string>, node: Node)
    requires entries != [] && Located(entries[1..], names, node)
    ensures Located(entries, names, node)
  {
    var e :| e in entries[1..] && e.name == names[0]
      && if |names| == 1 then e.node == node else e.node.Folder? && Located(e.node.entries, names[1..], node);
    assert e in entries;
  }

  /** The items of a tree are what names can lead to, at whatever depth. */
  lemma ItemsExactly(prefix: string, entries: seq<Entry>, item: Item)
    ensures item in Items(prefix, entries) <==> exists names, node :: IsItem(prefix, entries, item, names, node)
  {
    if item in Items(prefix, entries) {
      var names, node := LocatedIfListed(prefix, entries, item);
    } else if exists names, node :: IsItem(prefix, entries, item, names, node) {
      var names, node :| IsItem(prefix, entries, item, names, node);
      ListedIfLocated(prefix, entries, item, names, node);
    }
  }

  /** The normaliser leaves all paths below `prefix` alone. */
  ghost predicate NormalTree(prefix: string, entries: seq<Entry>)
    decreases entries
  {
    forall e | e in entries ::
      && '/' !in e.name && Normal(Child(prefix, e.name))
      && (e.node.Folder? ==> NormalTree(Child(prefix, e.name), e.node.entries))
  }

  // ----- What a scan should report -----------------------------------------------------------------

  /** The state captured before the walk. */
  datatype Context = Context(
    rules: Rules, offlineDelete: bool, incremental: bool,
    cached: set<string>, snapshot: set<string>,
    pendingNotes: set<string>, pendingUploads: set<string>,
    lastNoteTime: int, lastFileTime: int, lastFolderTime: int)

  predicate UnderObsidian(path: string) { HasPrefix(path, OBSIDIAN + "/") }

  /** The settings directory is scanned separately. */
  predicate InScope(path: string, isDir: bool) {
    !UnderObsidian(path) && !(isDir && path == OBSIDIAN)
  }

  predicate Eligible(rules: Rules, path: string, isDir: bool) {
    if isDir then !IsFolderPathExcluded(rules, path) else !IsVaultFileExcluded(rules, path)
  }

  predicate Kept(ctx: Context, item: Item) {
    InScope(item.path, item.isDir) && Eligible(ctx.rules, item.path, item.isDir)
  }

  /** An incremental round leaves out what it has cached and what has not changed since. */
  predicate Offered(ctx: Context, item: Item) {
    !ctx.incremental ||
    match item.Kind()
    case FolderItem => item.path !in ctx.snapshot || item.mtime >= ctx.lastFolderTime
    case NoteItem => item.path !in ctx.cached || item.mtime >= ctx.lastNoteTime || item.path in ctx.pendingNotes
    case FileItem => item.path !in ctx.cached || item.mtime >= ctx.lastFileTime || item.path in ctx.pendingUploads
  }

  function Local(ctx: Context, items: seq<Item>, kind: Kind): set<string> {
    set item | item in items && item.Kind() == kind && Kept(ctx, item) :: item.path
  }

  function Offers(ctx: Context, items: seq<Item>, kind: Kind): seq<string> {
    if items == [] then []
    else (if items[0].Kind() == kind && Kept(ctx, items[0]) && Offered(ctx, items[0])
          then [items[0].path] else []) + Offers(ctx, items[1..], kind)
  }

  lemma {:induction false} OffersConcat(ctx: Context, a: seq<Item>, b: seq<Item>, kind: Kind)
    ensures Offers(ctx, a + b, kind) == Offers(ctx, a, kind) + Offers(ctx, b, kind)
  {
    if a == [] {
      assert a + b == b;
    } else {
      assert (a + b)[1..] == a[1..] + b;
      OffersConcat(ctx, a[1..], b, kind);
    }
  }

  lemma LocalConcat(ctx: Context, a: seq<Item>, b: seq<Item>, kind: Kind)
    ensures Local(ctx, a + b, kind) == Local(ctx, a, kind) + Local(ctx, b, kind)
  {
    assert forall item :: item in a + b <==> item in a || item in b;
  }

  lemma {:induction false} NothingKept(ctx: Context, items: seq<Item>, kind: Kind)
    requires forall item | item in items :: !Kept(ctx, item)
    ensures Offers(ctx, items, kind) == [] && Local(ctx, items, kind) == {}
  {
    if items != [] {
      NothingKept(ctx, items[1..], kind);
    }
  }

  lemma OneItem(ctx: Context, item: Item, kind: Kind)
    ensures Local(ctx, [item], kind) == (if item.Kind() == kind && Kept(ctx, item) then {item.path} else {})
    ensures Offers(ctx, [item], kind) ==
            (if item.Kind() == kind && Kept(ctx, item) && Offered(ctx, item) then [item.path] else [])
  {
    assert item in [item];
    assert [item][1..] == [];
  }

  // ----- What is offered -----------------------------------------------------------------------------

  /** The lists and times of a kind; folders are never pending. */
  function Remembered(ctx: Context, kind: Kind): set<string> { if kind == FolderItem then ctx.snapshot else ctx.cached }

  function Pending(ctx: Context, kind: Kind): set<string> {
    match kind
    case NoteItem => ctx.pendingNotes
    case FileItem => ctx.pendingUploads
    case FolderItem => {}
  }

  function LastTime(ctx: Context, kind: Kind): int {
    match kind
    case NoteItem => ctx.lastNoteTime
    case FileItem => ctx.lastFileTime
    case FolderItem => ctx.lastFolderTime
  }

  /** A scan has nothing to say about an item only if it is incremental and the item is remembered, has not
      changed since the last time, and is not pending. */
  predicate Unchanged(ctx: Context, item: Item, kind: Kind) {
    && ctx.incremental && item.path in Remembered(ctx, kind)
    && item.mtime < LastTime(ctx, kind) && item.path !in Pending(ctx, kind)
  }

  predicate Wanted(ctx: Context, item: Item, kind: Kind) {
    && item.Kind() == kind && InScope(item.path, item.isDir) && Eligible(ctx.rules, item.path, item.isDir)
    && !Unchanged(ctx, item, kind)
  }

  /** `list` has the paths of the items at the places `at`, which are in order and are all that are wanted. */
  ghost predicate Picks(ctx: Context, items: seq<Item>, kind: Kind, list: seq<string>, at: seq<nat>) {
    && |at| == |list| && (forall i, j | 0 <= i < j < |at| :: at[i] < at[j])
    && (forall i | 0 <= i < |at| :: at[i] < |items| && items[at[i]].path == list[i])
    && (forall n: nat | n < |items| :: n in at <==> Wanted(ctx, items[n], kind))
  }

  ghost predicate Offering(ctx: Context, disk: seq<Item>, kind: Kind, list: seq<string>) {
    exists at :: Picks(ctx, disk, kind, list, at)
  }

  /** The offers are the paths of the wanted items, in walk order: a full scan offers every eligible item in
      scope, an incremental one all but those that are remembered, unchanged and not pending. */
  lemma {:induction false} OffersExactly(ctx: Context, items: seq<Item>, kind: Kind) returns (at: seq<nat>)
    ensures Picks(ctx, items, kind, Offers(ctx, items, kind), at)
  {
    hide IsVaultFileExcluded, IsFolderPathExcluded, IsNotePath, InScope;
    if items == [] {
      at := [];
    } else {
      var rest := OffersExactly(ctx, items[1..], kind);
      at := PickFirst(ctx, items, kind, Offers(ctx, items[1..], kind), rest);
    }
  }

  lemma OffersOffer(ctx: Context, items: seq<Item>, kind: Kind)
    ensures Offering(ctx, items, kind, Offers(ctx, items, kind))
  {
    var at := OffersExactly(ctx, items, kind);
  }

  function Shifted(at: seq<nat>): seq<nat> { seq(|at|, i requires 0 <= i < |at| => at[i] + 1) }

  lemma ShiftedHas(at: seq<nat>, n: nat)
    ensures n in Shifted(at) <==> n > 0 && n - 1 in at
  {
    if n > 0 && n - 1 in at {
      var i :| 0 <= i < |at| && at[i] == n - 1;
      assert Shifted(at)[i] == n;
    }
  }

  lemma PickFirst(ctx: Context, items: seq<Item>, kind: Kind, list: seq<string>, rest: seq<nat>) returns (at: seq<nat>)
    requires items != [] && Picks(ctx, items[1..], kind, list, rest)
    ensures Picks(ctx, items, kind, (if Wanted(ctx, items[0], kind) then [items[0].path] else []) + list, at)
  {
    hide Wanted;
    var later := Shifted(rest);
    var first := if Wanted(ctx, items[0], kind) then [0] else [];
    at := first + later;
    forall n: nat | n < |items| ensures n in at <==> Wanted(ctx, items[n], kind) {
      ShiftedHas(rest, n);
      assert n in at <==> n in first || n in later;
      if n > 0 {
        assert items[n] == items[1..][n - 1];
      }
    }
    PickPlaces(items, list, rest, first);
  }

  lemma PickPlaces(items: seq<Item>, list: seq<string>, rest: seq<nat>, first: seq<nat>)
    requires items != [] && |rest| == |list| && (first == [] || first == [0])
    requires forall i, j | 0 <= i < j < |rest| :: rest[i] < rest[j]
    requires forall i | 0 <= i < |rest| :: rest[i] < |items[1..]| && items[1..][rest[i]].path == list[i]
    ensures var at, all := first + Shifted(rest), (if first == [] then [] else [items[0].path]) + list;
      && |at| == |all| && (forall i, j | 0 <= i < j < |at| :: at[i] < at[j])
      && forall i | 0 <= i < |at| :: at[i] < |items| && items[at[i]].path == all[i]
  {
  }

  // ----- Pruning loses nothing ---------------------------------------------------------------------

  ghost predicate Below(path: string, item: Item) {
    Ancestor(path, item.path) && Normal(item.path) && Normal(Dir(item.path))
  }

  lemma ChildBelow(path: string, name: string)
    requires path != "" && '/' !in name && Normal(Child(path, name))
    ensures Ancestor(path, Child(path, name)) && Dir(Child(path, name)) == path
  {
    var p := Child(path, name);
    NormalProper(p);
    ProperAncestor(path, p);
    LastSlash(p, |path| + 1);
    assert p[..|path| + 1] == path + "/";
    ProperClean(path);
  }

  lemma {:induction false} LastSlash(p: string, n: nat)
    requires 0 < n <= |p| && p[n - 1] == '/' && '/' !in p[n..]
    ensures DirLength(p) == n
  {
    if n < |p| {
      assert p[|p| - 1] == p[n..][|p| - 1 - n];
      assert p[..|p| - 1][n..] == p[n..][..|p| - 1 - n];
      LastSlash(p[..|p| - 1], n);
    }
  }

  lemma BelowTransitive(top: string, path: string, item: Item)
    requires Ancestor(top, path) && Below(path, item)
    ensures Below(top, item)
  {
    assert item.path[..|top|] == item.path[..|path|][..|top|];
    assert item.path[|top|] == item.path[..|path|][|top|];
  }

  lemma {:induction false} BelowEntry(path: string, e: Entry)
    requires path != "" && Normal(path) && NormalTree(path, [e])
    ensures forall item | item in ItemsOf(Child(path, e.name), e.node) :: Below(path, item)
    decreases e
  {
    var p := Child(path, e.name);
    assert e in [e];
    ChildBelow(path, e.name);
    if e.node.Folder? {
      BelowAll(p, e.node.entries);
      forall item | item in Items(p, e.node.entries) ensures Below(path, item) {
        BelowTransitive(path, p, item);
      }
    }
  }

  lemma {:induction false} BelowAll(path: string, entries: seq<Entry>)
    requires path != "" && Normal(path) && NormalTree(path, entries)
    ensures forall item | item in Items(path, entries) :: Below(path, item)
    decreases entries
  {
    if entries != [] {
      BelowEntry(path, entries[0]);
      BelowAll(path, entries[1..]);
    }
  }

  /** Nothing below a directory that the walk skips would have been kept. */
  lemma SkippedDirKeepsNothing(ctx: Context, path: string, entries: seq<Entry>)
    requires path != "" && Normal(path) && NormalTree(path, entries)
    requires path == OBSIDIAN || !ShouldTraverseVaultDir(ctx.rules, path)
    ensures forall item | item in Items(path, entries) :: !Kept(ctx, item)
  {
    BelowAll(path, entries);
    forall item | item in Items(path, entries) ensures !Kept(ctx, item) {
      NotKeptBelow(ctx, path, item);
    }
  }

  lemma NotKeptBelow(ctx: Context, path: string, item: Item)
    requires Normal(path) && Below(path, item)
    requires path == OBSIDIAN || !ShouldTraverseVaultDir(ctx.rules, path)
    ensures !Kept(ctx, item)
  {
    if path == OBSIDIAN {
      AncestorParts(path, item.path);
      assert !Outside(item.path);
    } else if Kept(ctx, item) {
      KeptReachable(ctx, path, item);
    }
  }

  lemma BelowOutside(path: string, item: Item)
    requires Ancestor(path, item.path) && InScope(item.path, item.isDir)
    ensures Outside(item.path)
  {
    assert '/' !in OBSIDIAN && item.path[|path|] == '/';
  }

  lemma KeptReachable(ctx: Context, path: string, item: Item)
    requires Normal(path) && Below(path, item) && Kept(ctx, item)
    ensures ShouldTraverseVaultDir(ctx.rules, path)
  {
    BelowOutside(path, item);
    hide ShouldTraverseVaultDir, IsFolderPathExcluded, IsVaultFileExcluded, Normal, Ancestor, Outside, InScope;
    if item.isDir {
      EligibleFolderReachable(ctx.rules, item.path, path);
    } else {
      EligibleReachable(ctx.rules, item.path, path);
    }
  }

  lemma UntraversedExcluded(rules: Rules, path: string)
    requires Normal(path) && !ShouldTraverseVaultDir(rules, path)
    ensures IsFolderPathExcluded(rules, path)
  {
  }

  // ----- The scan ------------------------------------------------------------------------------------

  ghost predicate Lists(list: seq<string>, paths: set<string>) {
    (forall i, j | 0 <= i < j < |list| :: list[i] != list[j]) && (set p | p in list) == paths
  }

  /** The offline-delete switch and the scan mode decide which list, if any, receives `paths`. */
  ghost predicate Routed(ctx: Context, paths: set<string>, del: seq<string>, missing: seq<string>) {
    && Lists(del, if ctx.offlineDelete then paths else {})
    && Lists(missing, if !ctx.offlineDelete && ctx.incremental then paths else {})
  }

  predicate OfKind(path: string, kind: Kind) {
    match kind
    case FolderItem => true
    case NoteItem => IsNotePath(path)
    case FileItem => !IsNotePath(path)
  }

  /** The remembered paths that the walk did not meet. */
  ghost function Gone(ctx: Context, remembered: set<string>, local: set<string>, kind: Kind): set<string> {
    set p | p in remembered && OfKind(p, kind) && Eligible(ctx.rules, p, kind == FolderItem) && p !in local
  }

  lemma GoneNext(ctx: Context, seen: set<string>, path: string, local: set<string>, kind: Kind)
    ensures Gone(ctx, seen + {path}, local, kind) ==
            Gone(ctx, seen, local, kind)
            + (if OfKind(path, kind) && Eligible(ctx.rules, path, kind == FolderItem) && path !in local
               then {path} else {})
    ensures path !in seen ==> path !in Gone(ctx, seen, local, kind)
  {
  }

  predicate OnDisk(disk: seq<Item>, path: string, isDir: bool) {
    exists item | item in disk :: item.path == path && item.isDir == isDir
  }

  /** The remembered paths that are eligible and not on disk (the walk never looks into the settings
      directory, so for a path in there absence is not observed). */
  ghost function Absent(ctx: Context, remembered: set<string>, disk: seq<Item>, kind: Kind): set<string> {
    var isDir := kind == FolderItem;
    set p | p in remembered && OfKind(p, kind) && Eligible(ctx.rules, p, isDir)
            && !(InScope(p, isDir) && OnDisk(disk, p, isDir))
  }

  lemma GoneIsAbsent(ctx: Context, remembered: set<string>, disk: seq<Item>, kind: Kind)
    ensures Gone(ctx, remembered, Local(ctx, disk, kind), kind) == Absent(ctx, remembered, disk, kind)
  {
    hide IsVaultFileExcluded, IsFolderPathExcluded, IsNotePath;
    var isDir := kind == FolderItem;
    forall p | p in remembered && OfKind(p, kind) && Eligible(ctx.rules, p, isDir)
      ensures p in Local(ctx, disk, kind) <==> InScope(p, isDir) && OnDisk(disk, p, isDir)
    {
      if InScope(p, isDir) && OnDisk(disk, p, isDir) {
        var item :| item in disk && item.path == p && item.isDir == isDir;
        assert item.Kind() == kind && Kept(ctx, item);
      }
    }
  }

  /** There is something of this path and sort in the tree. */
  ghost predicate InTree(vault: seq<Entry>, path: string, isDir: bool) {
    exists names, node :: Located(vault, names, node) && PathOf("", names) == path && node.Folder? == isDir
  }

  /** A remembered path counts as deleted exactly if it is of the kind, not excluded, and there is nothing of its
      sort in the tree, or only in the settings directory, where the walk does not look. */
  lemma AbsentExactly(ctx: Context, remembered: set<string>, vault: seq<Entry>, kind: Kind, p: string)
    ensures p in Absent(ctx, remembered, Items("", vault), kind) <==>
      && p in remembered
      && (match kind case NoteItem => IsNotePath(p) case FileItem => !IsNotePath(p) case FolderItem => true)
      && (if kind == FolderItem then !IsFolderPathExcluded(ctx.rules, p) else !IsVaultFileExcluded(ctx.rules, p))
      && !(InTree(vault, p, kind == FolderItem)
           && !HasPrefix(p, OBSIDIAN + "/") && !(kind == FolderItem && p == OBSIDIAN))
  {
    hide IsVaultFileExcluded, IsFolderPathExcluded, IsNotePath, Items, HasPrefix;
    OnDiskExactly(vault, p, kind == FolderItem);
  }

  lemma OnDiskExactly(vault: seq<Entry>, path: string, isDir: bool)
    ensures OnDisk(Items("", vault), path, isDir) <==> InTree(vault, path, isDir)
  {
    hide Items, Located, PathOf;
    var disk := Items("", vault);
    if OnDisk(disk, path, isDir) {
      var item :| item in disk && item.path == path && item.isDir == isDir;
      ItemsExactly("", vault, item);
      var names, node :| IsItem("", vault, item, names, node);
      assert Located(vault, names, node) && PathOf("", names) == path;
    }
    if InTree(vault, path, isDir) {
      var names, node :| Located(vault, names, node) && PathOf("", names) == path && node.Folder? == isDir;
      var item := Item(path, isDir, node.mtime);
      assert IsItem("", vault, item, names, node);
      ItemsExactly("", vault, item);
    }
  }

  /** What the walk has written so far. */
  datatype Seen = Seen(
    localNotes: set<string>, localFiles: set<string>, localFolders: set<string>,
    notes: seq<string>, files: seq<string>, folders: seq<string>)

  /** `after` is `before` with `items` filtered in. */
  ghost predicate Recorded(ctx: Context, before: Seen, items: seq<Item>, after: Seen) {
    after == Seen(
      before.localNotes + Local(ctx, items, NoteItem),
      before.localFiles + Local(ctx, items, FileItem),
      before.localFolders + Local(ctx, items, FolderItem),
      before.notes + Offers(ctx, items, NoteItem),
      before.files + Offers(ctx, items, FileItem),
      before.folders + Offers(ctx, items, FolderItem))
  }

  /** What recording a single item comes to. */
  ghost function Noted(ctx: Context, seen: Seen, item: Item): Seen {
    if !Kept(ctx, item) then seen
    else
      match item.Kind()
      case NoteItem => seen.(localNotes := seen.localNotes + {item.path}, notes := WithOffer(ctx, seen.notes, item))
      case FileItem => seen.(localFiles := seen.localFiles + {item.path}, files := WithOffer(ctx, seen.files, item))
      case FolderItem =>
        seen.(localFolders := seen.localFolders + {item.path}, folders := WithOffer(ctx, seen.folders, item))
  }

  function WithOffer(ctx: Context, list: seq<string>, item: Item): seq<string> {
    if Offered(ctx, item) then list + [item.path] else list
  }

  lemma NotedRecorded(ctx: Context, seen: Seen, item: Item)
    ensures Recorded(ctx, seen, [item], Noted(ctx, seen, item))
  {
    hide Kept, Offered, Local, Offers, IsNotePath;
    OneItem(ctx, item, NoteItem);
    OneItem(ctx, item, FileItem);
    OneItem(ctx, item, FolderItem);
  }

  lemma RecordNothing(ctx: Context, seen: Seen, items: seq<Item>)
    requires forall item | item in items :: !Kept(ctx, item)
    ensures Recorded(ctx, seen, items, seen)
  {
    NothingKept(ctx, items, NoteItem);
    NothingKept(ctx, items, FileItem);
    NothingKept(ctx, items, FolderItem);
  }

  lemma FromNothing(ctx: Context, nothing: Seen, items: seq<Item>, after: Seen)
    requires Recorded(ctx, nothing, items, after) && nothing == Seen({}, {}, {}, [], [], [])
    ensures after == Seen(
      Local(ctx, items, NoteItem), Local(ctx, items, FileItem), Local(ctx, items, FolderItem),
      Offers(ctx, items, NoteItem), Offers(ctx, items, FileItem), Offers(ctx, items, FolderItem))
  {
    hide Local, Offers;
  }

  lemma RecordTwice(ctx: Context, s0: Seen, a: seq<Item>, s1: Seen, b: seq<Item>, s2: Seen)
    requires Recorded(ctx, s0, a, s1) && Recorded(ctx, s1, b, s2)
    ensures Recorded(ctx, s0, a + b, s2)
  {
    hide Local, Offers;
    LocalConcat(ctx, a, b, NoteItem);
    LocalConcat(ctx, a, b, FileItem);
    LocalConcat(ctx, a, b, FolderItem);
    OffersConcat(ctx, a, b, NoteItem);
    OffersConcat(ctx, a, b, FileItem);
    OffersConcat(ctx, a, b, FolderItem);
  }

  lemma ChildInScope(prefix: string, name: string)
    requires !UnderObsidian(prefix) && prefix != OBSIDIAN && '/' !in name
    ensures !UnderObsidian(Child(prefix, name))
  {
    var path, top := Child(prefix, name), OBSIDIAN + "/";
    if prefix != "" {
      assert path[..|prefix|] == prefix && path[|prefix|] == '/';
    }
    assert |OBSIDIAN| == 9 && top[9] == '/' && forall i | 0 <= i < 9 :: top[i] != '/';
    if |prefix| > 9 {
      assert path[..10] == prefix[..10];
    }
  }

  class ScanResult {
    var localNotes: set<string>
    var localFiles: set<string>
    var localFolders: set<string>
    var notes: seq<string>
    var files: seq<string>
    var folders: seq<string>
    var delNotes: seq<string>
    var delFiles: seq<string>
    var delFolders: seq<string>
    var missingNotes: seq<string>
    var missingFiles: seq<string>
    var missingFolders: seq<string>

    constructor ()
      ensures localNotes == localFiles == localFolders == {}
      ensures notes == files == folders == []
      ensures delNotes == delFiles == delFolders == []
      ensures missingNotes == missingFiles == missingFolders == []
    {
      localNotes, localFiles, localFolders := {}, {}, {};
      notes, files, folders := [], [], [];
      delNotes, delFiles, delFolders := [], [], [];
      missingNotes, missingFiles, missingFolders := [], [], [];
    }

    /** The walk callback; `skip` is `SkipDir`. */
    method Visit(ctx: Context, item: Item) returns (skip: bool)
      requires Normal(item.path)
      modifies `localNotes, `localFiles, `localFolders, `notes, `files, `folders
      ensures skip <==> item.isDir && (item.path == OBSIDIAN || !ShouldTraverseVaultDir(ctx.rules, item.path))
      ensures !UnderObsidian(item.path) ==> Recorded(ctx, old(Progress()), [item], Progress())
    {
      hide IsFolderPathExcluded, IsVaultFileExcluded, ShouldTraverseVaultDir, IsNotePath, Local, Offers, Recorded;
      NotedRecorded(ctx, Progress(), item);
      if item.isDir && item.path == OBSIDIAN {
        return true;
      }
      if item.isDir {
        if !ShouldTraverseVaultDir(ctx.rules, item.path) {
          UntraversedExcluded(ctx.rules, item.path);
          return true;
        }
        if IsFolderPathExcluded(ctx.rules, item.path) {
          return false;
        }
        localFolders := localFolders + {item.path};
        if ctx.incremental && item.path in ctx.snapshot && item.mtime < ctx.lastFolderTime {
          return false;
        }
        folders := folders + [item.path];
        return false;
      }
      if IsVaultFileExcluded(ctx.rules, item.path) {
        return false;
      }
      if IsNotePath(item.path) {
        localNotes := localNotes + {item.path};
        if ctx.incremental && item.path in ctx.cached && item.mtime < ctx.lastNoteTime {
          if item.path !in ctx.pendingNotes {
            return false;
          }
        }
        notes := notes + [item.path];
      } else {
        localFiles := localFiles + {item.path};
        if ctx.incremental && item.path in ctx.cached && item.mtime < ctx.lastFileTime {
          if item.path !in ctx.pendingUploads {
            return false;
          }
        }
        files := files + [item.path];
      }
      return false;
    }

    /** `filepath.WalkDir` below `prefix`. Although it prunes whole directories, the outcome is the
        one of filtering everything on disk. */
    method Walk(ctx: Context, prefix: string, entries: seq<Entry>)
      requires !UnderObsidian(prefix) && prefix != OBSIDIAN && NormalTree(prefix, entries)
      modifies `localNotes, `localFiles, `localFolders, `notes, `files, `folders
      ensures Recorded(ctx, old(Progress()), Items(prefix, entries), Progress())
      decreases entries
    {
      if entries == [] {
        return;
      }
      var path, node := Child(prefix, entries[0].name), entries[0].node;
      assert entries[0] in entries;
      ChildInScope(prefix, entries[0].name);
      var skip := Visit(ctx, Item(path, node.Folder?, node.mtime));
      label visited:
      if node.Folder? {
        if skip {
          SkippedDirKeepsNothing(ctx, path, node.entries);
          RecordNothing(ctx, Progress(), Items(path, node.entries));
        } else {
          Walk(ctx, path, node.entries);
        }
        RecordTwice(ctx, old(Progress()), [Item(path, true, node.mtime)], old@visited(Progress()),
          Items(path, node.entries), Progress());
      }
      label entered:
      Walk(ctx, prefix, entries[1..]);
      RecordTwice(ctx, old(Progress()), ItemsOf(path, node), old@entered(Progress()), Items(prefix, entries[1..]),
        Progress());
    }

    ghost function Progress(): Seen
      reads this
    {
      Seen(localNotes, localFiles, localFolders, notes, files, folders)
    }

    /** `computeDelMissing`: the cached files in no particular order. */
    method ComputeDelMissing(ctx: Context)
      requires delNotes == delFiles == missingNotes == missingFiles == []
      modifies `delNotes, `delFiles, `missingNotes, `missingFiles
      ensures Routed(ctx, Gone(ctx, ctx.cached, localNotes, NoteItem), delNotes, missingNotes)
      ensures Routed(ctx, Gone(ctx, ctx.cached, localFiles, FileItem), delFiles, missingFiles)
    {
      hide IsVaultFileExcluded, IsFolderPathExcluded, IsNotePath;
      var rest := ctx.cached;
      while rest != {}
        invariant rest <= ctx.cached
        invariant Routed(ctx, Gone(ctx, ctx.cached - rest, localNotes, NoteItem), delNotes, missingNotes)
        invariant Routed(ctx, Gone(ctx, ctx.cached - rest, localFiles, FileItem), delFiles, missingFiles)
      {
        var path :| path in rest;
        GoneNext(ctx, ctx.cached - rest, path, localNotes, NoteItem);
        GoneNext(ctx, ctx.cached - rest, path, localFiles, FileItem);
        assert ctx.cached - (rest - {path}) == (ctx.cached - rest) + {path};
        rest := rest - {path};
        if IsVaultFileExcluded(ctx.rules, path) {
          continue;
        }
        if IsNotePath(path) {
          if path in localNotes {
            continue;
          }
          if ctx.offlineDelete {
            delNotes := delNotes + [path];
          } else if ctx.incremental {
            missingNotes := missingNotes + [path];
          }
        } else {
          if path in localFiles {
            continue;
          }
          if ctx.offlineDelete {
            delFiles := delFiles + [path];
          } else if ctx.incremental {
            missingFiles := missingFiles + [path];
          }
        }
      }
      assert ctx.cached - rest == ctx.cached;
    }

    /** `computeFolderDelMissing`. */
    method ComputeFolderDelMissing(ctx: Context)
      requires delFolders == missingFolders == []
      modifies `delFolders, `missingFolders
      ensures Routed(ctx, Gone(ctx, ctx.snapshot, localFolders, FolderItem), delFolders, missingFolders)
    {
      hide IsVaultFileExcluded, IsFolderPathExcluded, IsNotePath;
      var rest := ctx.snapshot;
      while rest != {}
        invariant rest <= ctx.snapshot
        invariant Routed(ctx, Gone(ctx, ctx.snapshot - rest, localFolders, FolderItem), delFolders, missingFolders)
      {
        var path :| path in rest;
        GoneNext(ctx, ctx.snapshot - rest, path, localFolders, FolderItem);
        assert ctx.snapshot - (rest - {path}) == (ctx.snapshot - rest) + {path};
        rest := rest - {path};
        if IsFolderPathExcluded(ctx.rules, path) || path in localFolders {
          continue;
        }
        if ctx.offlineDelete {
          delFolders := delFolders + [path];
        } else if ctx.incremental {
          missingFolders := missingFolders + [path];
        }
      }
      assert ctx.snapshot - rest == ctx.snapshot;
    }
  }

  /** `scanVault`, without the settings scan: what is offered, and what is inferred to be gone, in
      terms of the whole disk. */
  method ScanVault(ctx: Context, vault: seq<Entry>) returns (r: ScanResult)
    requires NormalTree("", vault)
    ensures fresh(r)
    ensures var disk := Items("", vault);
      && Offering(ctx, disk, NoteItem, r.notes)
      && Offering(ctx, disk, FileItem, r.files)
      && Offering(ctx, disk, FolderItem, r.folders)
      && Routed(ctx, Absent(ctx, ctx.cached, disk, NoteItem), r.delNotes, r.missingNotes)
      && Routed(ctx, Absent(ctx, ctx.cached, disk, FileItem), r.delFiles, r.missingFiles)
      && Routed(ctx, Absent(ctx, ctx.snapshot, disk, FolderItem), r.delFolders, r.missingFolders)
  {
    hide Offering, Offers, Local, Gone, Absent, Lists, NormalTree, Items, Recorded;
    r := new ScanResult();
    ghost var nothing := r.Progress();
    r.Walk(ctx, "", vault);
    FromNothing(ctx, nothing, Items("", vault), r.Progress());
    r.ComputeDelMissing(ctx);
    r.ComputeFolderDelMissing(ctx);
    ghost var disk := Items("", vault);
    OffersOffer(ctx, disk, NoteItem);
    OffersOffer(ctx, disk, FileItem);
    OffersOffer(ctx, disk, FolderItem);
    GoneIsAbsent(ctx, ctx.cached, disk, NoteItem);
    GoneIsAbsent(ctx, ctx.cached, disk, FileItem);
    GoneIsAbsent(ctx, ctx.snapshot, disk, FolderItem);
  }
}
