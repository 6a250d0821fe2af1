/** What a registry built by `load_from_dir` contains, stated against an
    independent description of the scan: the list of commands the loop hands
    to `insert`, and "the last of them with a given name". */
module LoaderProperties {

  import opened Wrappers
  import opened CommandTypes
  import opened Loader

  /** The entry makes the scan insert a command. */
  predicate Inserts(e: DirEntry) {
    e.File? && IsYaml(e.extension) && e.parsed.Success?
  }

  /** The commands the scan inserts, in scan order, up to the first entry
      that aborts it. */
  function Inserted(entries: seq<DirEntry>): seq<Command>
    decreases |entries|
  {
    if |entries| == 0 || Aborts(entries[0]) then []
    else if Inserts(entries[0]) then [entries[0].parsed.value] + Inserted(entries[1..])
    else Inserted(entries[1..])
  }

  /** The last command in `cmds` whose name is `name`, searching from the end. */
  function LastNamed(cmds: seq<Command>, name: string): Option<Command>
    decreases |cmds|
  {
    if |cmds| == 0 then None
    else if cmds[|cmds| - 1].name == name then Some(cmds[|cmds| - 1])
    else LastNamed(cmds[..|cmds| - 1], name)
  }

  /** The names occurring in `cmds`. */
  function Names(cmds: seq<Command>): set<string> {
    set i | 0 <= i < |cmds| :: cmds[i].name
  }

  function OrElse(a: Option<Command>, b: Option<Command>): Option<Command> {
    if a.Some? then a else b
  }

  /** `LastNamed` finds nothing exactly when no command carries the name, and
      what it finds carries the name and comes from `cmds`. */
  lemma {:induction false} LastNamedSpec(cmds: seq<Command>, name: string)
    ensures LastNamed(cmds, name).None? <==> forall i :: 0 <= i < |cmds| ==> cmds[i].name != name
    ensures LastNamed(cmds, name).Some? ==>
              LastNamed(cmds, name).value.name == name && LastNamed(cmds, name).value in cmds
    decreases |cmds|
  {
    if |cmds| > 0 && cmds[|cmds| - 1].name != name {
      var init := cmds[..|cmds| - 1];
      LastNamedSpec(init, name);
      assert forall i :: 0 <= i < |init| ==> init[i] == cmds[i];
    }
  }

  /** Prepending a command only matters when no later command has its name. */
  lemma {:induction false} LastNamedCons(c: Command, cmds: seq<Command>, name: string)
    ensures LastNamed([c] + cmds, name)
              == OrElse(LastNamed(cmds, name), if c.name == name then Some(c) else None)
    decreases |cmds|
  {
    var all := [c] + cmds;
    if |cmds| > 0 {
      assert all[|all| - 1] == cmds[|cmds| - 1];
      if cmds[|cmds| - 1].name != name {
        assert all[..|all| - 1] == [c] + cmds[..|cmds| - 1];
        LastNamedCons(c, cmds[..|cmds| - 1], name);
      }
    } else {
      assert all[..|all| - 1] == [];
    }
  }

  /** Loading on top of `r`: a name is looked up in the loaded commands first
      (the last one wins), and falls back to what `r` already held. */
  lemma {:induction false} LoadGet(r: CommandRegistry, entries: seq<DirEntry>, name: string)
    ensures Get(LoadFromDir(r, entries).registry, name)
              == OrElse(LastNamed(Inserted(entries), name), Get(r, name))
    decreases |entries|
  {
    if |entries| > 0 && !Aborts(entries[0]) {
      var e := entries[0];
      if Inserts(e) {
        var c := e.parsed.value;
        LoadGet(Insert(r, c), entries[1..], name);
        LastNamedCons(c, Inserted(entries[1..]), name);
      } else {
        LoadGet(r, entries[1..], name);
      }
    }
  }

  /** From an empty registry, `get(n)` returns the last loaded command named `n`,
      and nothing when no loaded command has that exact name. */
  lemma LoadedGet(entries: seq<DirEntry>, name: string)
    ensures Get(LoadFromDir(New(), entries).registry, name) == LastNamed(Inserted(entries), name)
    ensures Get(LoadFromDir(New(), entries).registry, name).None? <==>
              forall i :: 0 <= i < |Inserted(entries)| ==> Inserted(entries)[i].name != name
  {
    LoadGet(New(), entries, name);
    LastNamedSpec(Inserted(entries), name);
  }

  /** The registered names are those already present plus the loaded ones. */
  lemma {:induction false} LoadKeys(r: CommandRegistry, entries: seq<DirEntry>)
    ensures LoadFromDir(r, entries).registry.commands.Keys
              == r.commands.Keys + Names(Inserted(entries))
    decreases |entries|
  {
    if |entries| > 0 && !Aborts(entries[0]) {
      var e := entries[0];
      var rest := Inserted(entries[1..]);
      if Inserts(e) {
        var c := e.parsed.value;
        LoadKeys(Insert(r, c), entries[1..]);
        NamesCons(c, rest);
      } else {
        LoadKeys(r, entries[1..]);
      }
    }
  }

  lemma NamesCons(c: Command, cmds: seq<Command>)
    ensures Names([c] + cmds) == {c.name} + Names(cmds)
  {
    var all := [c] + cmds;
    forall n | n in Names(cmds)
      ensures n in Names(all)
    {
      var i :| 0 <= i < |cmds| && cmds[i].name == n;
      assert all[i + 1] == cmds[i];
    }
    assert all[0] == c;
  }

  /** A sequence names at most as many distinct names as it has commands. */
  lemma {:induction false} NamesBound(cmds: seq<Command>)
    ensures |Names(cmds)| <= |cmds|
    decreases |cmds|
  {
    if |cmds| > 0 {
      NamesCons(cmds[0], cmds[1..]);
      assert [cmds[0]] + cmds[1..] == cmds;
      NamesBound(cmds[1..]);
    } else {
      assert Names(cmds) == {};
    }
  }

  /** `list` of a freshly loaded registry: one entry per distinct loaded name,
      so never more entries than commands loaded, and every listed command is
      found by `get` under its own name. */
  lemma LoadedList(entries: seq<DirEntry>, r: CommandRegistry, order: seq<string>)
    requires r == LoadFromDir(New(), entries).registry
    requires IsIterationOrder(r, order)
    ensures |List(r, order)| == |Names(Inserted(entries))|
    ensures |List(r, order)| <= |Inserted(entries)|
    ensures forall c :: c in List(r, order) ==> Get(r, c.name) == Some(c)
  {
    LoadKeys(New(), entries);
    NamesBound(Inserted(entries));
  }

  /** The scan succeeds exactly when no entry aborts it; otherwise it reports
      the reason of the first entry that does. */
  lemma {:induction false} LoadError(r: CommandRegistry, entries: seq<DirEntry>)
    ensures LoadFromDir(r, entries).error.None? <==>
              forall i :: 0 <= i < |entries| ==> !Aborts(entries[i])
    ensures LoadFromDir(r, entries).error.Some? ==>
              exists i :: 0 <= i < |entries| && Aborts(entries[i])
                && (forall j :: 0 <= j < i ==> !Aborts(entries[j]))
                && LoadFromDir(r, entries).error.value == AbortReason(entries[i])
    decreases |entries|
  {
    if |entries| > 0 {
      if Aborts(entries[0]) {
        assert LoadFromDir(r, entries).error == Some(AbortReason(entries[0]));
      } else {
        var r' := LoadEntry(r, entries[0]).value;
        LoadError(r', entries[1..]);
        assert forall i :: 1 <= i < |entries| ==> entries[i] == entries[1..][i - 1];
        if LoadFromDir(r', entries[1..]).error.Some? {
          var i :| 0 <= i < |entries[1..]| && Aborts(entries[1..][i])
                && (forall j :: 0 <= j < i ==> !Aborts(entries[1..][j]))
                && LoadFromDir(r', entries[1..]).error.value == AbortReason(entries[1..][i]);
          assert entries[i + 1] == entries[1..][i];
        }
      }
    }
  }

  /** A new registry lists nothing, whatever order is assumed. */
  lemma NewIsEmpty(order: seq<string>)
    requires IsIterationOrder(New(), order)
    ensures order == [] && List(New(), order) == []
  {
    EnumerationLength(order, New().commands.Keys);
  }

  /** A file whose extension is not exactly `yaml` (`yml`, `YAML`, none at
      all) is skipped without being read: removing it from the scan changes
      nothing, even if its contents would not parse. */
  lemma {:induction false} NonYamlIgnored(r: CommandRegistry, before: seq<DirEntry>, skipped: DirEntry, after: seq<DirEntry>)
    requires skipped.File? && !IsYaml(skipped.extension)
    ensures LoadFromDir(r, before + [skipped] + after) == LoadFromDir(r, before + after)
    decreases |before|
  {
    if |before| == 0 {
      assert before + [skipped] + after == [skipped] + after;
      assert ([skipped] + after)[1..] == after;
      assert before + after == after;
    } else {
      assert (before + [skipped] + after)[0] == before[0];
      assert (before + after)[0] == before[0];
      assert (before + [skipped] + after)[1..] == before[1..] + [skipped] + after;
      assert (before + after)[1..] == before[1..] + after;
      match LoadEntry(r, before[0])
      case Failure(_) =>
      case Success(r') => NonYamlIgnored(r', before[1..], skipped, after);
    }
  }

  /** The error text an aborting entry produces. */
  function AbortReason(e: DirEntry): string
    requires Aborts(e)
  {
    if e.Unlisted? then e.reason else e.parsed.error
  }
}
