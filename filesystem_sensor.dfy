/**
 * The filesystem sensor's `traverse_directory`: a depth-first walk that emits
 * the index-aligned `labels`/`parents`/`values` lists the card consumes. The
 * filesystem is an in-memory tree of entries. `ProcessDir` and `ScanList`
 * specify the inner `process_directory` closure; the class `Walker` holds the
 * lists and the `unique_paths` set the closure mutates, and its method is the
 * closure itself, proved against them.
 */
module FilesystemSensor {
  import opened Wrappers
  import opened Collections

  /** One directory entry as `os.scandir` reports it. A file's size is None when
      `stat()` raises; a directory that is not `readable` makes `os.scandir`
      raise; `path` is the resolved path (`os.path.realpath`) of a directory. */
  datatype Entry =
    | File(name: string, size: Option<nat>)
    | Dir(name: string, path: string, readable: bool, children: seq<Entry>)
    | Symlink(name: string)
    | Special(name: string)  // neither a directory nor a regular file

  /** `max_depth` and `EXCLUDE_DIRS` from the configuration. */
  datatype Settings = Settings(maxDepth: int, excludeDirs: seq<string>)

  /** The state shared by all calls of the closure: the three output lists and
      the names accepted so far. */
  datatype Acc = Acc(labels: seq<string>, parents: seq<string>, values: seq<nat>, seen: set<string>)

  /** What one call of `process_directory` returns, with the state after it. */
  datatype Walk = Walk(size: nat, acc: Acc)

  /** The loop over a directory's entries either finishes with a total or is
      cut short by an error, which the directory turns into size 0. */
  datatype Scan = Completed(total: nat, acc: Acc) | Raised(acc: Acc)

  /** The dictionary `traverse_directory` returns. */
  datatype Chart = Chart(labels: seq<string>, parents: seq<string>, values: seq<nat>)

  function Record(acc: Acc, name: string, parent: string, value: nat): Acc
  {
    acc.(labels := acc.labels + [name], parents := acc.parents + [parent], values := acc.values + [value])
  }

  // ---------------------------------------------------------------------------
  // Specification of the walk
  // ---------------------------------------------------------------------------

  /** `process_directory(path, parent_name, depth)` applied to `node`. */
  function ProcessDir(cfg: Settings, path: string, node: Entry, parentName: string, depth: int, acc: Acc): Walk
    decreases node
  {
    if depth > cfg.maxDepth || path in cfg.excludeDirs then Walk(0, acc)
    else if !node.Dir? || !node.readable then Walk(0, acc)
    else match ScanList(cfg, node.children, parentName, depth, acc, 0)
      case Completed(total, acc') => Walk(total, acc')
      case Raised(acc') => Walk(0, acc')
  }

  /** The `for entry in os.scandir(path)` loop from the given entries on. */
  function ScanList(cfg: Settings, es: seq<Entry>, parentName: string, depth: int, acc: Acc, total: nat): Scan
    decreases es
  {
    if es == [] then Completed(total, acc)
    else
      var e := es[0];
      if e.Symlink? || e.name in acc.seen then ScanList(cfg, es[1..], parentName, depth, acc, total)
      else
        var acc1 := acc.(seen := acc.seen + {e.name});
        if e.Dir? then
          var w := ProcessDir(cfg, e.path, e, e.name, depth + 1, acc1);
          ScanList(cfg, es[1..], parentName, depth, Record(w.acc, e.name, parentName, w.size), total + w.size)
        else if e.File? then
          if e.size.None? then Raised(acc1)
          else ScanList(cfg, es[1..], parentName, depth, acc1, total + e.size.value)
        else ScanList(cfg, es[1..], parentName, depth, acc1, total)
  }

  /** `traverse_directory(root_path, max_depth)`: the walk from the root, then
      the `Root` row inserted in front. */
  function Traverse(cfg: Settings, rootPath: string, root: Entry): Chart
  {
    var w := ProcessDir(cfg, rootPath, root, "Root", 0, Acc([], [], [], {}));
    Chart(["Root"] + w.acc.labels, [""] + w.acc.parents, [w.size] + w.acc.values)
  }

  // ---------------------------------------------------------------------------
  // Invariants of the walk on every tree
  // ---------------------------------------------------------------------------

  /** The lists are aligned, their labels are distinct and all accepted. */
  ghost predicate Good(acc: Acc)
  {
    && |acc.labels| == |acc.parents| == |acc.values|
    && NoDup(acc.labels)
    && Elems(acc.labels) <= acc.seen
  }

  /** `b` only appends to `a`: every earlier row stays, no accepted name is
      forgotten, and every new label is a name that was not accepted before. */
  ghost predicate Grows(a: Acc, b: Acc)
  {
    && a.labels <= b.labels && a.parents <= b.parents && a.values <= b.values
    && a.seen <= b.seen
    && forall k :: |a.labels| <= k < |b.labels| ==> b.labels[k] !in a.seen
  }

  lemma GrowsTransitive(a: Acc, b: Acc, c: Acc)
    requires Grows(a, b) && Grows(b, c)
    ensures Grows(a, c)
  {
    forall k | |a.labels| <= k < |c.labels| ensures c.labels[k] !in a.seen {
      if k < |b.labels| {
        assert c.labels[k] == b.labels[k];
      }
    }
  }

  /** On every path, errors and cut-offs included, a directory walk keeps the
      lists aligned and their labels distinct, and only appends to them. */
  lemma {:induction false} ProcessDirKeeps(cfg: Settings, path: string, node: Entry, parentName: string, depth: int, acc: Acc)
    requires Good(acc)
    ensures Good(ProcessDir(cfg, path, node, parentName, depth, acc).acc)
    ensures Grows(acc, ProcessDir(cfg, path, node, parentName, depth, acc).acc)
    decreases node
  {
    if !(depth > cfg.maxDepth || path in cfg.excludeDirs) && node.Dir? && node.readable {
      ScanListKeeps(cfg, node.children, parentName, depth, acc, 0);
    }
  }

  lemma {:induction false} ScanListKeeps(cfg: Settings, es: seq<Entry>, parentName: string, depth: int, acc: Acc, total: nat)
    requires Good(acc)
    ensures Good(ScanList(cfg, es, parentName, depth, acc, total).acc)
    ensures Grows(acc, ScanList(cfg, es, parentName, depth, acc, total).acc)
    decreases es
  {
    if es != [] {
      var e := es[0];
      if e.Symlink? || e.name in acc.seen {
        ScanListKeeps(cfg, es[1..], parentName, depth, acc, total);
      } else {
        var acc1 := acc.(seen := acc.seen + {e.name});
        assert Good(acc1) && Grows(acc, acc1);
        if e.Dir? {
          var w := ProcessDir(cfg, e.path, e, e.name, depth + 1, acc1);
          ProcessDirKeeps(cfg, e.path, e, e.name, depth + 1, acc1);
          var acc2 := Record(w.acc, e.name, parentName, w.size);
          assert e.name !in Elems(w.acc.labels) by {
            forall k | 0 <= k < |w.acc.labels| ensures w.acc.labels[k] != e.name {
              if k < |acc.labels| {
                assert acc.labels[k] in Elems(acc.labels);
              }
            }
          }
          assert Good(acc2) by {
            NoDupConcat(w.acc.labels, [e.name]);
            ElemsConcat(w.acc.labels, [e.name]);
          }
          GrowsTransitive(acc, acc1, w.acc);
          assert Grows(acc, acc2);
          ScanListKeeps(cfg, es[1..], parentName, depth, acc2, total + w.size);
          GrowsTransitive(acc, acc2, ScanList(cfg, es[1..], parentName, depth, acc2, total + w.size).acc);
        } else if e.File? && e.size.None? {
        } else {
          var next := if e.File? then total + e.size.value else total;
          ScanListKeeps(cfg, es[1..], parentName, depth, acc1, next);
          GrowsTransitive(acc, acc1, ScanList(cfg, es[1..], parentName, depth, acc1, next).acc);
        }
      }
    }
  }

  /** The result's three lists are aligned, row 0 is `("Root", "", root size)`,
      and the labels after row 0 are pairwise distinct. */
  lemma TraverseShape(cfg: Settings, rootPath: string, root: Entry)
    ensures var r := Traverse(cfg, rootPath, root);
      && |r.labels| == |r.parents| == |r.values| >= 1
      && r.labels[0] == "Root" && r.parents[0] == ""
      && r.values[0] == ProcessDir(cfg, rootPath, root, "Root", 0, Acc([], [], [], {})).size
      && NoDup(r.labels[1..])
  {
    var acc0 := Acc([], [], [], {});
    ProcessDirKeeps(cfg, rootPath, root, "Root", 0, acc0);
    var r := Traverse(cfg, rootPath, root);
    assert r.labels[1..] == ProcessDir(cfg, rootPath, root, "Root", 0, acc0).acc.labels;
  }

  /** A symbolic link, or an entry whose name was already accepted anywhere in
      the walk, adds no row, no name and no size. */
  lemma SkippedEntry(cfg: Settings, es: seq<Entry>, parentName: string, depth: int, acc: Acc, total: nat)
    requires es != [] && (es[0].Symlink? || es[0].name in acc.seen)
    ensures ScanList(cfg, es, parentName, depth, acc, total) == ScanList(cfg, es[1..], parentName, depth, acc, total)
  {
  }

  /** A new directory at a depth beyond `max_depth`, or whose path is excluded,
      is not scanned, yet it is still recorded, with value 0. */
  lemma CutOffRecordedAsZero(cfg: Settings, es: seq<Entry>, parentName: string, depth: int, acc: Acc, total: nat)
    requires es != [] && es[0].Dir? && es[0].name !in acc.seen
    requires depth + 1 > cfg.maxDepth || es[0].path in cfg.excludeDirs
    ensures ScanList(cfg, es, parentName, depth, acc, total)
         == ScanList(cfg, es[1..], parentName, depth,
                     Record(acc.(seen := acc.seen + {es[0].name}), es[0].name, parentName, 0), total)
  {
  }

  /** A directory that cannot be listed, or whose loop hits a file whose size
      cannot be read, returns 0; rows appended before the error stay. */
  lemma ErrorsYieldZero(cfg: Settings, path: string, node: Entry, parentName: string, depth: int, acc: Acc)
    requires Good(acc)
    requires node.Dir? && !(depth > cfg.maxDepth || path in cfg.excludeDirs)
    requires !node.readable || ScanList(cfg, node.children, parentName, depth, acc, 0).Raised?
    ensures ProcessDir(cfg, path, node, parentName, depth, acc).size == 0
    ensures ProcessDir(cfg, path, node, parentName, depth, acc).acc
         == (if node.readable then ScanList(cfg, node.children, parentName, depth, acc, 0).acc else acc)
    ensures Grows(acc, ProcessDir(cfg, path, node, parentName, depth, acc).acc)
  {
    ProcessDirKeeps(cfg, path, node, parentName, depth, acc);
  }

  // ---------------------------------------------------------------------------
  // Size aggregation and post-order, on trees the walk sees in full
  // ---------------------------------------------------------------------------

  /** Every directory is readable, within `max_depth` and not excluded, and
      every file's size can be read; `depth` is the depth the entry is
      processed at. */
  ghost predicate CleanEntry(cfg: Settings, e: Entry, depth: int)
    decreases e
  {
    if e.Dir? then depth <= cfg.maxDepth && e.path !in cfg.excludeDirs && e.readable
                   && CleanList(cfg, e.children, depth + 1)
    else if e.File? then e.size.Some?
    else true
  }

  ghost predicate CleanList(cfg: Settings, es: seq<Entry>, depth: int)
    decreases es
  {
    es == [] || (CleanEntry(cfg, es[0], depth) && CleanList(cfg, es[1..], depth))
  }

  /** The names the walk accepts from a subtree, in the order it meets them. */
  function EntryNames(e: Entry): seq<string>
    decreases e
  {
    if e.Symlink? then []
    else if e.Dir? then [e.name] + ListNames(e.children)
    else [e.name]
  }

  function ListNames(es: seq<Entry>): seq<string>
    decreases es
  {
    if es == [] then [] else EntryNames(es[0]) + ListNames(es[1..])
  }

  /** The disk usage of a subtree: the sizes of its regular files. */
  function EntrySize(e: Entry): nat
    decreases e
  {
    if e.File? then (if e.size.Some? then e.size.value else 0)
    else if e.Dir? then ListSize(e.children)
    else 0
  }

  function ListSize(es: seq<Entry>): nat
    decreases es
  {
    if es == [] then 0 else EntrySize(es[0]) + ListSize(es[1..])
  }

  function Join(a: Chart, b: Chart): Chart
  {
    Chart(a.labels + b.labels, a.parents + b.parents, a.values + b.values)
  }

  /** The rows of a subtree listed in post-order: each directory after all of
      its descendants, with its parent's label and its subtree's disk usage. */
  function EntryRows(e: Entry, parentName: string): Chart
    decreases e
  {
    if e.Dir? then Join(ListRows(e.children, e.name), Chart([e.name], [parentName], [EntrySize(e)]))
    else Chart([], [], [])
  }

  function ListRows(es: seq<Entry>, parentName: string): Chart
    decreases es
  {
    if es == [] then Chart([], [], []) else Join(EntryRows(es[0], parentName), ListRows(es[1..], parentName))
  }

  function After(acc: Acc, rows: Chart, names: seq<string>): Acc
  {
    Acc(acc.labels + rows.labels, acc.parents + rows.parents, acc.values + rows.values, acc.seen + Elems(names))
  }

  lemma AfterAfter(acc: Acc, rows1: Chart, names1: seq<string>, rows2: Chart, names2: seq<string>)
    ensures After(After(acc, rows1, names1), rows2, names2) == After(acc, Join(rows1, rows2), names1 + names2)
  {
    ElemsConcat(names1, names2);
  }

  /** One entry of a fully visible listing, whose names are new: the loop moves
      on with the entry's rows appended, its names accepted and its disk usage
      added. */
  lemma {:induction false} ScanStepClean(cfg: Settings, es: seq<Entry>, parentName: string, depth: int, acc: Acc, total: nat)
    requires es != [] && CleanEntry(cfg, es[0], depth + 1)
    requires NoDup(EntryNames(es[0])) && Elems(EntryNames(es[0])) !! acc.seen
    ensures ScanList(cfg, es, parentName, depth, acc, total)
         == ScanList(cfg, es[1..], parentName, depth,
                     After(acc, EntryRows(es[0], parentName), EntryNames(es[0])), total + EntrySize(es[0]))
    decreases es, 0
  {
    var e := es[0];
    if e.Symlink? {
      assert After(acc, EntryRows(e, parentName), EntryNames(e)) == acc;
    } else {
      assert e.name in Elems(EntryNames(e));
      var acc1 := acc.(seen := acc.seen + {e.name});
      if e.Dir? {
        NoDupConcat([e.name], ListNames(e.children));
        ElemsConcat([e.name], ListNames(e.children));
        DirClean(cfg, e, depth + 1, acc1);
        var w := ProcessDir(cfg, e.path, e, e.name, depth + 1, acc1);
        assert Elems([e.name]) == {e.name};
        assert Record(w.acc, e.name, parentName, w.size) == After(acc, EntryRows(e, parentName), EntryNames(e));
      } else {
        assert Elems(EntryNames(e)) == {e.name};
        assert After(acc, EntryRows(e, parentName), EntryNames(e)) == acc1;
      }
    }
  }

  /** On a fully visible tree whose names are all distinct and new, the loop
      over a directory's entries returns their disk usage and appends exactly
      their rows in post-order. */
  lemma {:induction false} ScanListClean(cfg: Settings, es: seq<Entry>, parentName: string, depth: int, acc: Acc, total: nat)
    requires CleanList(cfg, es, depth + 1)
    requires NoDup(ListNames(es)) && Elems(ListNames(es)) !! acc.seen
    ensures ScanList(cfg, es, parentName, depth, acc, total)
         == Completed(total + ListSize(es), After(acc, ListRows(es, parentName), ListNames(es)))
    decreases es, 1
  {
    if es == [] {
      assert After(acc, ListRows(es, parentName), ListNames(es)) == acc;
    } else {
      var e, rest := es[0], es[1..];
      NoDupConcat(EntryNames(e), ListNames(rest));
      ElemsConcat(EntryNames(e), ListNames(rest));
      ScanStepClean(cfg, es, parentName, depth, acc, total);
      var acc1 := After(acc, EntryRows(e, parentName), EntryNames(e));
      ScanListClean(cfg, rest, parentName, depth, acc1, total + EntrySize(e));
      AfterAfter(acc, EntryRows(e, parentName), EntryNames(e), ListRows(rest, parentName), ListNames(rest));
    }
  }

  /** A fully visible directory returns its disk usage and appends its
      descendants' rows in post-order. */
  lemma {:induction false} DirClean(cfg: Settings, node: Entry, depth: int, acc: Acc)
    requires node.Dir? && CleanEntry(cfg, node, depth)
    requires NoDup(ListNames(node.children)) && Elems(ListNames(node.children)) !! acc.seen
    ensures ProcessDir(cfg, node.path, node, node.name, depth, acc)
         == Walk(EntrySize(node), After(acc, ListRows(node.children, node.name), ListNames(node.children)))
    decreases node, 1
  {
    ScanListClean(cfg, node.children, node.name, depth, acc, 0);
  }

  /** The sensor's output on a fully visible tree with distinct names: the Root
      row with the total disk usage, then every directory in post-order with
      its parent's label and its subtree's disk usage. */
  lemma TraverseClean(cfg: Settings, rootPath: string, root: Entry)
    requires root.Dir? && root.readable && 0 <= cfg.maxDepth && rootPath !in cfg.excludeDirs
    requires CleanList(cfg, root.children, 1) && NoDup(ListNames(root.children))
    ensures var rows := ListRows(root.children, "Root");
      Traverse(cfg, rootPath, root)
        == Chart(["Root"] + rows.labels, [""] + rows.parents, [EntrySize(root)] + rows.values)
  {
    ScanListClean(cfg, root.children, "Root", 0, Acc([], [], [], {}), 0);
  }

  /** A directory named `Root` repeats the label of row 0: the name set starts
      empty, so nothing stops it. */
  lemma ExampleRootNameRepeats()
    ensures Traverse(Settings(3, []), "/", Dir("", "/", true, [Dir("Root", "/Root", true, [])])).labels
         == ["Root", "Root"]
  {
    assert Elems<string>([]) == {};
  }

  // ---------------------------------------------------------------------------
  // The closure and its caller
  // ---------------------------------------------------------------------------

  /** The variables `process_directory` closes over. */
  class Walker {
    const settings: Settings
    var labels: seq<string>
    var parents: seq<string>
    var values: seq<nat>
    var uniquePaths: set<string>

    function State(): Acc
      reads this
    {
      Acc(labels, parents, values, uniquePaths)
    }

    constructor (settings: Settings)
      ensures this.settings == settings && State() == Acc([], [], [], {})
    {
      this.settings := settings;
      labels, parents, values, uniquePaths := [], [], [], {};
    }

    /** `process_directory`: returns the directory's counted size and leaves
        the lists and the name set as the walk specifies. */
    method ProcessDirectory(path: string, node: Entry, parentName: string, depth: int) returns (size: nat)
      modifies this
      ensures size == ProcessDir(settings, path, node, parentName, depth, old(State())).size
      ensures State() == ProcessDir(settings, path, node, parentName, depth, old(State())).acc
      decreases node
    {
      if depth > settings.maxDepth || path in settings.excludeDirs {
        return 0;
      }
      if !node.Dir? || !node.readable {
        return 0;  // os.scandir raises
      }
      var entries := node.children;
      var totalSize: nat := 0;
      var i := 0;
      while i < |entries|
        invariant i <= |entries|
        invariant ScanList(settings, entries, parentName, depth, old(State()), 0)
               == ScanList(settings, entries[i..], parentName, depth, State(), totalSize)
      {
        var entry := entries[i];
        assert entries[i..][0] == entry && entries[i..][1..] == entries[i + 1..];
        if entry.Symlink? {
          i := i + 1;
          continue;
        }
        var uniqueLabel := entry.name;
        if uniqueLabel in uniquePaths {
          i := i + 1;
          continue;
        }
        uniquePaths := uniquePaths + {uniqueLabel};
        if entry.Dir? {
          var entrySize := ProcessDirectory(entry.path, entry, uniqueLabel, depth + 1);
          labels := labels + [uniqueLabel];
          parents := parents + [parentName];
          values := values + [entrySize];
          totalSize := totalSize + entrySize;
        } else if entry.File? {
          if entry.size.None? {
            return 0;  // entry.stat() raises
          }
          totalSize := totalSize + entry.size.value;
        }
        i := i + 1;
      }
      return totalSize;
    }
  }

  /** `traverse_directory`: walks from the root, then inserts the Root row at
      index 0 of each list. */
  method TraverseDirectory(settings: Settings, rootPath: string, root: Entry) returns (result: Chart)
    ensures result == Traverse(settings, rootPath, root)
    ensures |result.labels| == |result.parents| == |result.values| >= 1
    ensures result.labels[0] == "Root" && result.parents[0] == ""
    ensures NoDup(result.labels[1..])
  {
    var walker := new Walker(settings);
    var rootSize := walker.ProcessDirectory(rootPath, root, "Root", 0);
    walker.labels := ["Root"] + walker.labels;
    walker.parents := [""] + walker.parents;
    walker.values := [rootSize] + walker.values;
    result := Chart(walker.labels, walker.parents, walker.values);
    TraverseShape(settings, rootPath, root);
  }
}
