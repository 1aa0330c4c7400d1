/**
  The shadow copy of CPython's built-in extension table (`set_pyimport_inittab`).
  CPython's own replacement API mishandles memory when used more than once per
  process, so the manager snapshots the original table once and, before every
  bring-up, installs a freshly built table: the snapshot, then the oxidized
  importer's record when enabled, then the configured extra modules, then one
  sentinel record.
*/
module Inittab {
  import opened Wrappers
  import opened PythonRuntime
  import opened InterpreterConfig

  /** Value of `OXIDIZED_IMPORTER_NAME`; importer.rs, where it is declared, is not part of this model. */
  const OxidizedImporterName: string := "oxidized_importer"

  const OxidizedImporterEntry: Entry := Entry(Some(OxidizedImporterName), Some(PyInitOxidizedImporter))

  predicate AllNamed(entries: seq<Entry>)
  {
    forall i :: 0 <= i < |entries| ==> entries[i].name.Some?
  }

  /** The records before the first one with a null name. */
  function NamedPrefix(table: seq<Entry>): seq<Entry>
  {
    if table == [] || table[0].name.None? then [] else [table[0]] + NamedPrefix(table[1..])
  }

  /** The record pushed for one configured extra module. */
  function EntryFor(m: ExtensionModule): Entry
  {
    Entry(Some(m.name), Some(m.initFunc))
  }

  /** The records pushed for the extra modules, one per module, in configuration order. */
  function EntriesOf(ms: seq<ExtensionModule>): seq<Entry>
  {
    if ms == [] then [] else EntriesOf(ms[..|ms| - 1]) + [EntryFor(ms[|ms| - 1])]
  }

  function ImporterEntries(cfg: Config): seq<Entry>
  {
    if cfg.oxidizedImporter then [OxidizedImporterEntry] else []
  }

  function ExtraEntries(cfg: Config): seq<Entry>
  {
    match cfg.extraExtensionModules
    case None => []
    case Some(ms) => EntriesOf(ms)
  }

  /** The table installed for `cfg` on top of the snapshot `original`. */
  function InstalledTable(original: seq<Entry>, cfg: Config): seq<Entry>
  {
    original + ImporterEntries(cfg) + ExtraEntries(cfg) + [Sentinel]
  }

  /** `table` extends `original`, ends with the sentinel, and holds no other null name. */
  ghost predicate InstalledOver(table: seq<Entry>, original: seq<Entry>)
  {
    && |original| < |table|
    && table[..|original|] == original
    && table[|table| - 1] == Sentinel
    && AllNamed(table[..|table| - 1])
  }

  /** Scanning a terminated table stops at its first null name and keeps everything before it. */
  lemma {:induction false} NamedPrefixStopsAtSentinel(table: seq<Entry>)
    requires Terminated(table)
    ensures |NamedPrefix(table)| < |table|
    ensures NamedPrefix(table) == table[..|NamedPrefix(table)|]
    ensures table[|NamedPrefix(table)|].name.None?
    ensures AllNamed(NamedPrefix(table))
  {
    if table[0].name.Some? {
      var k :| 0 <= k < |table| && table[k].name.None?;
      assert table[1..][k - 1].name.None?;
      NamedPrefixStopsAtSentinel(table[1..]);
    }
  }

  /** Scanning named records followed by the sentinel gives back exactly the named records. */
  lemma {:induction false} NamedPrefixOfTerminated(named: seq<Entry>, rest: seq<Entry>)
    requires AllNamed(named)
    ensures NamedPrefix(named + [Sentinel] + rest) == named
  {
    if named == [] {
      assert (named + [Sentinel] + rest)[0] == Sentinel;
    } else {
      assert (named + [Sentinel] + rest)[1..] == named[1..] + [Sentinel] + rest;
      NamedPrefixOfTerminated(named[1..], rest);
    }
  }

  /** One named record per extra module, in configuration order. */
  lemma {:induction false} EntriesOfInOrder(ms: seq<ExtensionModule>)
    ensures |EntriesOf(ms)| == |ms|
    ensures forall i :: 0 <= i < |ms| ==> EntriesOf(ms)[i] == EntryFor(ms[i])
    ensures AllNamed(EntriesOf(ms))
  {
    if ms != [] {
      EntriesOfInOrder(ms[..|ms| - 1]);
    }
  }

  /**
    The installed table starts with the snapshot, ends with its only sentinel,
    and scanning it as CPython does yields everything but the sentinel.
  */
  lemma InstalledTableShape(original: seq<Entry>, cfg: Config)
    requires AllNamed(original)
    ensures InstalledOver(InstalledTable(original, cfg), original)
    ensures NamedPrefix(InstalledTable(original, cfg))
            == original + ImporterEntries(cfg) + ExtraEntries(cfg)
  {
    var named := original + ImporterEntries(cfg) + ExtraEntries(cfg);
    if cfg.extraExtensionModules.Some? {
      EntriesOfInOrder(cfg.extraExtensionModules.value);
    }
    assert AllNamed(named);
    assert InstalledTable(original, cfg) == named + [Sentinel] + [];
    NamedPrefixOfTerminated(named, []);
  }

  /** The `for i in 0..` scan of the C table, stopping at the first null name. */
  method ScanInittab(table: seq<Entry>) returns (entries: seq<Entry>)
    requires Terminated(table)
    ensures entries == NamedPrefix(table)
  {
    entries := [];
    var i := 0;
    while table[i].name.Some?
      invariant 0 <= i < |table|
      invariant exists k :: i <= k < |table| && table[k].name.None?
      invariant entries + NamedPrefix(table[i..]) == NamedPrefix(table)
      decreases |table| - i
    {
      assert table[i..][1..] == table[i + 1..];
      entries := entries + [table[i]];
      i := i + 1;
    }
  }

  /**
    The two `static mut` tables: the snapshot of CPython's original records,
    taken once, and the table most recently installed.
  */
  class ExtensionTables {
    var original: Option<seq<Entry>>
    var replaced: Option<seq<Entry>>

    constructor ()
      ensures original == None && replaced == None
    {
      original := None;
      replaced := None;
    }

    ghost predicate Valid()
      reads this
    {
      && (original.Some? ==> AllNamed(original.value))
      && (replaced.Some? ==> original.Some? && InstalledOver(replaced.value, original.value))
    }

    /** `set_pyimport_inittab`: snapshot on first use, then build and install a new table. */
    method SetPyImportInittab(cfg: Config, rt: Runtime)
      requires Valid()
      requires original.None? ==> Terminated(rt.inittab)
      modifies this, rt`inittab
      ensures Valid()
      ensures old(original).Some? ==> original == old(original)
      ensures old(original).None? ==> original == Some(NamedPrefix(old(rt.inittab)))
      ensures replaced == Some(InstalledTable(original.value, cfg))
      ensures rt.inittab == replaced.value
    {
      if original.None? {
        var entries := ScanInittab(rt.inittab);
        NamedPrefixStopsAtSentinel(rt.inittab);
        original := Some(entries);
      }
      var extensions := original.value;
      if cfg.oxidizedImporter {
        extensions := extensions + [OxidizedImporterEntry];
      }
      match cfg.extraExtensionModules {
        case Some(ms) =>
          ghost var base := extensions;
          for i := 0 to |ms|
            invariant extensions == base + EntriesOf(ms[..i])
          {
            assert ms[..i + 1][..i] == ms[..i];
            extensions := extensions + [EntryFor(ms[i])];
          }
          assert ms[..|ms|] == ms;
        case None =>
      }
      assert extensions == original.value + ImporterEntries(cfg) + ExtraEntries(cfg);
      extensions := extensions + [Sentinel];
      InstalledTableShape(original.value, cfg);
      replaced := Some(extensions);
      rt.inittab := extensions;
    }
  }
}
