/** The command registry of src/command/loader.rs: a map from command name to
    command, filled by scanning a directory. The scan itself (listing the
    directory, reading each file, parsing its YAML) is outside the model; it is
    represented by the sequence of `DirEntry` values it would produce. */
module Loader {

  import opened Wrappers
  import opened CommandTypes

  datatype CommandRegistry = CommandRegistry(commands: map<string, Command>)

  /** Every command is stored under its own `name`, which is how `insert` is
      always called. Registries built by `New`, `Insert` and `LoadFromDir` keep it. */
  predicate WellKeyed(r: CommandRegistry) {
    forall k :: k in r.commands ==> r.commands[k].name == k
  }

  /** `CommandRegistry::new`: nothing is registered. */
  function New(): (r: CommandRegistry)
    ensures WellKeyed(r)
    ensures |r.commands| == 0
    ensures forall name :: Get(r, name) == None
  {
    CommandRegistry(map[])
  }

  /** `get`: exact, case-sensitive lookup by name. */
  function Get(r: CommandRegistry, name: string): (c: Option<Command>)
    ensures c.Some? <==> name in r.commands
    ensures c.Some? ==> c.value in r.commands.Values
    ensures WellKeyed(r) && c.Some? ==> c.value.name == name
  {
    if name in r.commands then Some(r.commands[name]) else None
  }

  /** `insert(command.name.clone(), command)`: a second command with the same
      name silently replaces the first; no other name is affected. */
  function Insert(r: CommandRegistry, c: Command): (r': CommandRegistry)
    ensures Get(r', c.name) == Some(c)
    ensures forall n :: n != c.name ==> Get(r', n) == Get(r, n)
    ensures r'.commands.Keys == r.commands.Keys + {c.name}
    ensures WellKeyed(r) ==> WellKeyed(r')
  {
    CommandRegistry(r.commands[c.name := c])
  }

  /** `values()` of a hash map visits every key once, in an order the hash
      table chooses. The model receives that order as a parameter: any
      duplicate-free enumeration of the registered names. */
  predicate IsIterationOrder(r: CommandRegistry, order: seq<string>) {
    && (forall i, j :: 0 <= i < j < |order| ==> order[i] != order[j])
    && (forall i :: 0 <= i < |order| ==> order[i] in r.commands)
    && (forall k :: k in r.commands ==> k in order)
  }

  /** The commands stored under `keys`, in that order. */
  function Project(r: CommandRegistry, keys: seq<string>): (l: seq<Command>)
    requires forall i :: 0 <= i < |keys| ==> keys[i] in r.commands
    ensures |l| == |keys|
    ensures forall i :: 0 <= i < |keys| ==> l[i] == r.commands[keys[i]]
  {
    if |keys| == 0 then [] else [r.commands[keys[0]]] + Project(r, keys[1..])
  }

  /** `list`: every registered command exactly once, in iteration order. */
  function List(r: CommandRegistry, order: seq<string>): (l: seq<Command>)
    requires IsIterationOrder(r, order)
    ensures |l| == |r.commands|
    ensures forall i :: 0 <= i < |l| ==> l[i] in r.commands.Values
    ensures forall c :: c in r.commands.Values ==> c in l
    ensures WellKeyed(r) ==> forall i :: 0 <= i < |l| ==> Get(r, l[i].name) == Some(l[i])
  {
    EnumerationLength(order, r.commands.Keys);
    var l := Project(r, order);
    assert forall c :: c in r.commands.Values ==> c in l by {
      forall c | c in r.commands.Values
        ensures c in l
      {
        var k :| k in r.commands && r.commands[k] == c;
        var i :| 0 <= i < |order| && order[i] == k;
        assert l[i] == c;
      }
    }
    l
  }

  /** A duplicate-free sequence listing exactly the elements of `s` has `|s|` entries. */
  lemma {:induction false} EnumerationLength<T>(order: seq<T>, s: set<T>)
    requires forall i, j :: 0 <= i < j < |order| ==> order[i] != order[j]
    requires forall i :: 0 <= i < |order| ==> order[i] in s
    requires forall x :: x in s ==> x in order
    ensures |order| == |s|
    decreases |order|
  {
    if |order| > 0 {
      var rest := order[1..];
      var s' := s - {order[0]};
      forall x | x in s'
        ensures x in rest
      {
        var i :| 0 <= i < |order| && order[i] == x;
        assert i != 0;
        assert rest[i - 1] == x;
      }
      forall i | 0 <= i < |rest|
        ensures rest[i] in s'
      {
        assert rest[i] == order[i + 1];
      }
      EnumerationLength(rest, s');
    } else {
      assert s == {};
    }
  }

  /** One item produced by `fs::read_dir`. `Unlisted` is an entry the
      directory iterator could not yield (`entry?` fails). For a `File`,
      `extension` is the path's extension when it is valid UTF-8, and `parsed`
      is what reading and YAML-parsing the file would give; it is consulted
      only for `.yaml` files. */
  datatype DirEntry =
    | Unlisted(reason: string)
    | File(extension: Option<string>, parsed: Result<Command, string>)

  /** Only the exact extension `yaml` is loaded: `yml` or `YAML` are not. */
  predicate IsYaml(extension: Option<string>) {
    extension == Some("yaml")
  }

  /** The entry stops the scan with an error. */
  predicate Aborts(e: DirEntry) {
    e.Unlisted? || (IsYaml(e.extension) && e.parsed.Failure?)
  }

  /** One step of the loop in `load_from_dir`. */
  function LoadEntry(r: CommandRegistry, e: DirEntry): (out: Result<CommandRegistry, string>)
    ensures out.Failure? <==> Aborts(e)
    ensures e.File? && !IsYaml(e.extension) ==> out == Success(r)
    ensures e.File? && IsYaml(e.extension) && e.parsed.Success? ==>
              out == Success(Insert(r, e.parsed.value))
  {
    match e
    case Unlisted(reason) => Failure(reason)
    case File(extension, parsed) =>
      if IsYaml(extension) then
        match parsed
        case Failure(reason) => Failure(reason)
        case Success(c) => Success(Insert(r, c))
      else
        Success(r)
  }

  /** What `load_from_dir` leaves behind: the registry as mutated so far, and
      the error it returned, if any. Commands inserted before a failing entry
      stay registered. */
  datatype LoadOutcome = LoadOutcome(registry: CommandRegistry, error: Option<string>)

  /** `load_from_dir`, over the entries the directory scan yields, in the
      order `fs::read_dir` yields them (an order the platform chooses). It only
      ever adds names, keeps every command under its own name, and a scan that
      meets no `.yaml` file and no unlistable entry changes nothing. */
  function LoadFromDir(r: CommandRegistry, entries: seq<DirEntry>): (out: LoadOutcome)
    ensures r.commands.Keys <= out.registry.commands.Keys
    ensures WellKeyed(r) ==> WellKeyed(out.registry)
    ensures (forall i :: 0 <= i < |entries| ==> entries[i].File? && !IsYaml(entries[i].extension)) ==>
              out == LoadOutcome(r, None)
    decreases |entries|
  {
    if |entries| == 0 then
      LoadOutcome(r, None)
    else
      match LoadEntry(r, entries[0])
      case Failure(reason) => LoadOutcome(r, Some(reason))
      case Success(r') => LoadFromDir(r', entries[1..])
  }
}
