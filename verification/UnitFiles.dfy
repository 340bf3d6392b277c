/** Where units come from: the name rule, the configuration directories and instance templates. */
module UnitFiles {
  import opened Prelude
  import opened Units

  // ---------------------------------------------------------------- splitting names

  /** Position of the first `c`, or the length. */
  function First(s: string, c: char): (k: nat)
    ensures k <= |s| && c !in s[..k] && (k < |s| ==> s[k] == c)
  {
    if s == [] || s[0] == c then 0
    else
      assert s == [s[0]] + s[1..];
      1 + First(s[1..], c)
  }

  /** Position of the last `c`, or the length. */
  function Last(s: string, c: char): (k: nat)
    ensures k <= |s| && (if k < |s| then s[k] == c && c !in s[k + 1..] else c !in s)
  {
    if s == [] then 0
    else
      assert s == [s[0]] + s[1..];
      var k := Last(s[1..], c);
      if k < |s| - 1 then 1 + k else if s[0] == c then 0 else |s|
  }

  lemma FirstIs(a: string, c: char, b: string)
    requires c !in a
    ensures First(a + [c] + b, c) == |a|
  {
    var s := a + [c] + b;
    var k := First(s, c);
    assert s[|a|] == c;
    assert forall i | 0 <= i < |a| :: s[i] == a[i] && a[i] in a;
    assert forall i | 0 <= i < k :: s[..k][i] == s[i] && s[i] in s[..k];
  }

  lemma {:induction false} LastIs(a: string, c: char, b: string)
    requires c !in b
    ensures Last(a + [c] + b, c) == |a|
    decreases |a|
  {
    var s := a + [c] + b;
    if a == [] {
      assert s[1..] == b;
    } else {
      assert s[1..] == a[1..] + [c] + b;
      LastIs(a[1..], c, b);
    }
  }

  /** The file a unit id names, and the instance it asks for. */
  datatype FileName = FileName(file: string, instance: Option<string>)

  /** `base@instance.ext` names the template `base@.ext`; an id without `@` names its own file. */
  function NameOf(id: UnitId): Option<FileName> {
    var at := First(id, '@');
    if at == |id| then Some(FileName(id, None))
    else
      var rest := id[at + 1..];
      var dot := Last(rest, '.');
      if dot == |rest| then None else Some(FileName(id[..at] + ['@', '.'] + rest[dot + 1..], Some(rest[..dot])))
  }

  lemma InstanceName(base: string, instance: string, ext: string)
    requires '@' !in base && '.' !in ext
    ensures NameOf(base + ['@'] + instance + ['.'] + ext) == Some(FileName(base + ['@', '.'] + ext, Some(instance)))
  {
    var id, rest := base + ['@'] + instance + ['.'] + ext, instance + ['.'] + ext;
    assert id == base + ['@'] + rest;
    FirstIs(base, '@', rest);
    assert id[..|base|] == base && id[|base| + 1..] == rest;
    LastIs(instance, '.', ext);
    assert rest[..|instance|] == instance && rest[|instance| + 1..] == ext;
  }

  // ---------------------------------------------------------------- templates

  const PLACEHOLDER := "$INSTANCE"

  ghost predicate PlaceholderAt(s: string, k: nat) {
    k <= |s| && PLACEHOLDER <= s[k..]
  }

  ghost predicate Mentions(s: string) {
    exists k :: PlaceholderAt(s, k)
  }

  /** Every placeholder replaced, from the left. */
  function Fill(s: string, instance: string): string
    decreases |s|
  {
    if |s| < |PLACEHOLDER| then s
    else if PLACEHOLDER <= s then instance + Fill(s[|PLACEHOLDER|..], instance)
    else [s[0]] + Fill(s[1..], instance)
  }

  lemma {:induction false} FillPlain(s: string, instance: string)
    requires !Mentions(s)
    ensures Fill(s, instance) == s
    decreases |s|
  {
    if |s| >= |PLACEHOLDER| {
      assert s[0..] == s && !PlaceholderAt(s, 0);
      forall k: nat ensures !PlaceholderAt(s[1..], k) {
        if k < |s| { assert s[1..][k..] == s[k + 1..] && !PlaceholderAt(s, k + 1); }
      }
      FillPlain(s[1..], instance);
      assert s == [s[0]] + s[1..];
    }
  }

  // ---------------------------------------------------------------- directories

  /** What a unit file holds, as far as loading is concerned. */
  datatype UnitFile = UnitFile(
    required: seq<string>,
    defaultDependencies: bool,
    architectures: Option<seq<string>>,
    boards: Option<seq<string>>)

  /** File names, with None for a file that cannot be read or parsed. */
  type Directory = map<string, Option<UnitFile>>

  /** The directories in order of increasing precedence, and the machine init is built for. */
  datatype Machine = Machine(dirs: seq<Directory>, architecture: string, board: Option<string>)

  /** The file in the last directory that has it. */
  function Lookup(dirs: seq<Directory>, file: string): Option<Option<UnitFile>> {
    if dirs == [] then None
    else if file in dirs[|dirs| - 1] then Some(dirs[|dirs| - 1][file])
    else Lookup(dirs[..|dirs| - 1], file)
  }

  function FillIn(s: string, instance: Option<string>): string {
    if instance.Some? then Fill(s, instance.value) else s
  }

  function FillAll(ss: seq<string>, instance: Option<string>): (r: seq<string>)
    ensures |r| == |ss|
  {
    seq(|ss|, i requires 0 <= i < |ss| => FillIn(ss[i], instance))
  }

  predicate ConditionsMet(m: Machine, f: UnitFile, instance: Option<string>) {
    && (f.architectures.Some? ==> m.architecture in FillAll(f.architectures.value, instance))
    && (f.boards.Some? ==> m.board.Some? && m.board.value in FillAll(f.boards.value, instance))
  }

  /** The unit under an id, if its file exists and parses. */
  function ReadUnit(m: Machine, id: UnitId): Option<Unit> {
    match NameOf(id)
    case None => None
    case Some(name) =>
      match Lookup(m.dirs, name.file)
      case Some(Some(f)) => Some(Unit(FillAll(f.required, name.instance), f.defaultDependencies, ConditionsMet(m, f, name.instance)))
      case _ => None
  }

  function ConfigOf(m: Machine, target: Option<UnitId>): Config { Config(id => ReadUnit(m, id), target) }

  // ---------------------------------------------------------------- what is read

  /** An id without `@` is its own file; with `@` but no dot behind it, it names nothing. */
  lemma PlainName(id: UnitId)
    ensures '@' !in id ==> NameOf(id) == Some(FileName(id, None))
    ensures forall k: nat | k < |id| && id[k] == '@' && '@' !in id[..k] && '.' !in id[k + 1..] :: NameOf(id).None?
  {
    forall k: nat | k < |id| && id[k] == '@' && '@' !in id[..k] ensures First(id, '@') == k {
      assert id == id[..k] + ['@'] + id[k + 1..];
      FirstIs(id[..k], '@', id[k + 1..]);
    }
  }

  /** Directory `i` has the file and no later one does. */
  ghost predicate LastHas(dirs: seq<Directory>, file: string, i: nat) {
    i < |dirs| && file in dirs[i] && forall j | i < j < |dirs| :: file !in dirs[j]
  }

  /** The later directory wins; a file in no directory is not found. */
  lemma {:induction false} LookupLast(dirs: seq<Directory>, file: string, i: nat)
    ensures LastHas(dirs, file, i) ==> Lookup(dirs, file) == Some(dirs[i][file])
    ensures (forall j | 0 <= j < |dirs| :: file !in dirs[j]) ==> Lookup(dirs, file).None?
    decreases |dirs|
  {
    if dirs != [] && file !in dirs[|dirs| - 1] {
      var front := dirs[..|dirs| - 1];
      LookupLast(front, file, i);
      if LastHas(dirs, file, i) { assert i != |dirs| - 1 && LastHas(front, file, i); }
    }
  }

  /** A placeholder is replaced by the instance; any other character stays. */
  lemma FillStep(s: string, instance: string)
    requires s != []
    ensures PlaceholderAt(s, 0) ==> Fill(s, instance) == instance + Fill(s[|PLACEHOLDER|..], instance)
    ensures !PlaceholderAt(s, 0) ==> Fill(s, instance) == [s[0]] + Fill(s[1..], instance)
  {
    assert s[0..] == s;
    if |s| < |PLACEHOLDER| { assert Fill(s[1..], instance) == s[1..] && s == [s[0]] + s[1..]; }
  }

  /** `d` is what the `k`-th string becomes for this instance. */
  ghost predicate Becomes(ss: seq<string>, k: nat, instance: Option<string>, d: string) {
    k < |ss| && d == match instance case None => ss[k] case Some(x) => Fill(ss[k], x)
  }

  ghost predicate Listed(ss: seq<string>, instance: Option<string>, d: string) {
    exists k :: Becomes(ss, k, instance, d)
  }

  /** The list is absent, or names the value. */
  ghost predicate Holds(list: Option<seq<string>>, instance: Option<string>, value: Option<string>) {
    list.Some? ==> value.Some? && Listed(list.value, instance, value.value)
  }

  lemma FillAllLists(ss: seq<string>, instance: Option<string>, d: string)
    ensures d in FillAll(ss, instance) <==> Listed(ss, instance, d)
  {
    var all := FillAll(ss, instance);
    if d in all {
      var k: nat :| k < |all| && all[k] == d;
      assert Becomes(ss, k, instance, d);
    }
    if k: nat :| Becomes(ss, k, instance, d) { assert all[k] == d; }
  }

  /**
   A unit is read from the file in the last directory that has it: it requires what the file lists,
   with the instance put in, in order, and after that the runtime target if default dependencies
   are on; its conditions are met exactly if each list there is names this machine.
   */
  lemma UnitIsRead(m: Machine, target: Option<UnitId>, id: UnitId, name: FileName, i: nat, f: UnitFile)
    requires NameOf(id) == Some(name) && LastHas(m.dirs, name.file, i) && m.dirs[i][name.file] == Some(f)
    ensures LoadSingle(ConfigOf(m, target), id).Some?
    ensures
      var u, n := LoadSingle(ConfigOf(m, target), id).value, |f.required|;
      && |u.required| == n + (if f.defaultDependencies && target.Some? then 1 else 0)
      && (forall k: nat | k < n :: Becomes(f.required, k, name.instance, u.required[k]))
      && (f.defaultDependencies && target.Some? ==> u.required[n] == target.value)
      && (u.conditionsMet <==> Holds(f.architectures, name.instance, Some(m.architecture)) && Holds(f.boards, name.instance, m.board))
  {
    LookupLast(m.dirs, name.file, i);
    if f.architectures.Some? { FillAllLists(f.architectures.value, name.instance, m.architecture); }
    if f.boards.Some? && m.board.Some? { FillAllLists(f.boards.value, name.instance, m.board.value); }
  }

  /** It is not loadable if its id names nothing, no directory has the file, or the file found does not parse. */
  lemma UnitIsMissing(m: Machine, target: Option<UnitId>, id: UnitId, i: nat)
    requires
      || NameOf(id).None?
      || (forall j | 0 <= j < |m.dirs| :: NameOf(id).value.file !in m.dirs[j])
      || (LastHas(m.dirs, NameOf(id).value.file, i) && m.dirs[i][NameOf(id).value.file].None?)
    ensures LoadSingle(ConfigOf(m, target), id).None?
  {
    if NameOf(id).Some? { LookupLast(m.dirs, NameOf(id).value.file, i); }
  }

  // ---------------------------------------------------------------- a template that never ends

  function Instance(base: string, instance: string, ext: string): UnitId {
    base + ['@'] + instance + ['.'] + ext
  }

  /** One file: a template whose instances each require the instance with `suffix` appended. */
  function Growing(base: string, suffix: string, ext: string): Machine {
    var file := UnitFile([Instance(base, PLACEHOLDER + suffix, ext)], false, None, None);
    Machine([map[base + ['@', '.'] + ext := Some(file)]], "", None)
  }

  ghost predicate Plain(s: string) { '$' !in s && '@' !in s && '.' !in s }

  lemma FillChar(c: char, s: string, instance: string)
    requires c != '$'
    ensures Fill([c] + s, instance) == [c] + Fill(s, instance)
  {
    assert ([c] + s)[0] == c && ([c] + s)[1..] == s;
    if |s| + 1 < |PLACEHOLDER| { assert Fill(s, instance) == s; }
  }

  lemma {:induction false} FillPrefix(p: string, s: string, instance: string)
    requires '$' !in p
    ensures Fill(p + s, instance) == p + Fill(s, instance)
    decreases |p|
  {
    if p == [] {
      assert p + s == s;
    } else {
      assert p + s == [p[0]] + (p[1..] + s) && p == [p[0]] + p[1..];
      FillChar(p[0], p[1..] + s, instance);
      FillPrefix(p[1..], s, instance);
      assert [p[0]] + (p[1..] + Fill(s, instance)) == p + Fill(s, instance);
    }
  }

  lemma FillHere(s: string, instance: string)
    ensures Fill(PLACEHOLDER + s, instance) == instance + Fill(s, instance)
  {
    assert (PLACEHOLDER + s)[|PLACEHOLDER|..] == s;
  }

  lemma InstanceSplits(base: string, instance: string, suffix: string, ext: string)
    ensures Instance(base, instance + suffix, ext) == (base + ['@']) + (instance + (suffix + ['.'] + ext))
  {}

  lemma FillWhole(s: string, instance: string)
    requires '$' !in s
    ensures Fill(s, instance) == s
  {
    assert s + [] == s;
    FillPrefix(s, [], instance);
  }

  lemma NextInstance(base: string, suffix: string, ext: string, instance: string)
    requires Plain(base) && Plain(suffix) && Plain(ext)
    ensures Fill(Instance(base, PLACEHOLDER + suffix, ext), instance) == Instance(base, instance + suffix, ext)
  {
    var head, tail := base + ['@'], suffix + ['.'] + ext;
    InstanceSplits(base, PLACEHOLDER, suffix, ext);
    InstanceSplits(base, instance, suffix, ext);
    FillPrefix(head, PLACEHOLDER + tail, instance);
    FillHere(tail, instance);
    FillWhole(tail, instance);
  }

  lemma InstanceRequires(base: string, suffix: string, ext: string, instance: string)
    requires Plain(base) && Plain(suffix) && Plain(ext)
    ensures
      LoadSingle(ConfigOf(Growing(base, suffix, ext), None), Instance(base, instance, ext))
      == Some(Unit([Instance(base, instance + suffix, ext)], false, true))
  {
    var m, id := Growing(base, suffix, ext), Instance(base, instance, ext);
    InstanceName(base, instance, ext);
    NextInstance(base, suffix, ext, instance);
    var file := base + ['@', '.'] + ext;
    assert Lookup(m.dirs, file) == Some(m.dirs[0][file]);
    assert FillAll(m.dirs[0][file].value.required, Some(instance)) == [Instance(base, instance + suffix, ext)];
    assert ReadUnit(m, id) == Some(Unit([Instance(base, instance + suffix, ext)], false, true));
  }

  /** Only the instance on the stack is new: everything loaded is shorter. */
  ghost predicate Chasing(s: Load, id: UnitId) {
    s.pending == [id] && forall u | u in s.units :: |u| < |id|
  }

  lemma ChaseTurn(c: Config, s: Load, id: UnitId, longer: UnitId)
    requires Chasing(s, id) && LoadSingle(c, id) == Some(Unit([longer], false, true)) && |id| < |longer|
    ensures Chasing(Turn(c, s), longer)
  {
    assert s.pending[..0] + [longer] == [longer];
  }

  lemma {:induction false} ChaseGoesOn(base: string, suffix: string, ext: string, s: Load, instance: string, n: nat)
    requires Plain(base) && Plain(suffix) && Plain(ext) && suffix != [] && Chasing(s, Instance(base, instance, ext))
    ensures Turns(ConfigOf(Growing(base, suffix, ext), None), s, n).pending != []
    decreases n
  {
    if n > 0 {
      var c := ConfigOf(Growing(base, suffix, ext), None);
      InstanceRequires(base, suffix, ext, instance);
      ChaseTurn(c, s, Instance(base, instance, ext), Instance(base, instance + suffix, ext));
      ChaseGoesOn(base, suffix, ext, Turn(c, s), instance + suffix, n - 1);
    }
  }

  /** One template file in one directory suffices: loading any instance of it never ends. */
  lemma EndlessNeverTerminates(base: string, suffix: string, ext: string, instance: string)
    requires Plain(base) && Plain(suffix) && Plain(ext) && suffix != []
    ensures !Terminates(ConfigOf(Growing(base, suffix, ext), None), Begin(map[], Instance(base, instance, ext)))
  {
    var c, s := ConfigOf(Growing(base, suffix, ext), None), Begin(map[], Instance(base, instance, ext));
    forall n: nat ensures Turns(c, s, n).pending != [] {
      ChaseGoesOn(base, suffix, ext, s, instance, n);
    }
  }

  // ---------------------------------------------------------------- directories on which it ends

  /** No template passes its instance on to what it requires; there may be no templates at all. */
  ghost predicate Unparameterised(dirs: seq<Directory>) {
    forall i, f, r | 0 <= i < |dirs| && f in dirs[i] && '@' in f && dirs[i][f].Some? && r in dirs[i][f].value.required :: !Mentions(r)
  }

  /** Everything any file requires. */
  function Named(dirs: seq<Directory>): set<UnitId> {
    set i, f, r | 0 <= i < |dirs| && f in dirs[i] && dirs[i][f].Some? && r in dirs[i][f].value.required :: r
  }

  lemma {:induction false} LookupFinds(dirs: seq<Directory>, file: string) returns (i: nat)
    requires Lookup(dirs, file).Some?
    ensures i < |dirs| && file in dirs[i] && Lookup(dirs, file) == Some(dirs[i][file])
    decreases |dirs|
  {
    i := |dirs| - 1;
    if file !in dirs[i] { i := LookupFinds(dirs[..i], file); }
  }

  lemma InstanceHasAt(id: UnitId)
    requires NameOf(id).Some? && NameOf(id).value.instance.Some?
    ensures '@' in NameOf(id).value.file
  {
    var at := First(id, '@');
    assert NameOf(id).value.file[at] == '@';
  }

  lemma RequiresNamed(m: Machine, target: Option<UnitId>, id: UnitId, d: UnitId)
    requires Unparameterised(m.dirs)
    requires LoadSingle(ConfigOf(m, target), id).Some? && d in LoadSingle(ConfigOf(m, target), id).value.required
    ensures d in Named(m.dirs) || target == Some(d)
  {
    var name := NameOf(id).value;
    var i := LookupFinds(m.dirs, name.file);
    var f := m.dirs[i][name.file].value;
    var own := FillAll(f.required, name.instance);
    if d in own {
      var k :| 0 <= k < |own| && own[k] == d;
      assert f.required[k] in f.required;
      if name.instance.Some? {
        InstanceHasAt(id);
        FillPlain(f.required[k], name.instance.value);
      }
    }
  }

  /**
   Over finitely many directories in which no template passes its instance on, in particular
   without templates, loading ends from every store and every root.
   */
  lemma UnparameterisedTerminates(m: Machine, target: Option<UnitId>, s: Load)
    requires Unparameterised(m.dirs)
    ensures Terminates(ConfigOf(m, target), s)
  {
    var c := ConfigOf(m, target);
    var fence := (set u | u in s.pending) + Named(m.dirs) + (if target.Some? then {target.value} else {});
    forall u, d | u in fence && u !in s.units && LoadSingle(c, u).Some? && d in LoadSingle(c, u).value.required
      ensures d in fence
    {
      RequiresNamed(m, target, u, d);
    }
    assert Fenced(c, s, fence);
    LoadTerminatesIff(c, s);
  }

  // ---------------------------------------------------------------- the store

  class UnitStore {
    var machine: Machine
    var runtimeTarget: Option<UnitId>
    var units: map<UnitId, Unit>

    ghost function Config(): Config
      reads this`machine, this`runtimeTarget
    {
      ConfigOf(machine, runtimeTarget)
    }

    constructor (machine: Machine)
      ensures this.machine == machine && runtimeTarget == None && units == map[]
    {
      this.machine, runtimeTarget, units := machine, None, map[];
    }

    method SetRuntimeTarget(id: UnitId)
      requires runtimeTarget.None? && id in units
      modifies this`runtimeTarget
      ensures runtimeTarget == Some(id)
    {
      runtimeTarget := Some(id);
    }

    /** The search through the directories, the last one first. */
    method FindFile(file: string) returns (r: Option<Option<UnitFile>>)
      ensures r == Lookup(machine.dirs, file)
      ensures forall i: nat | LastHas(machine.dirs, file, i) :: r == Some(machine.dirs[i][file])
    {
      forall i: nat | LastHas(machine.dirs, file, i) ensures Lookup(machine.dirs, file) == Some(machine.dirs[i][file]) {
        LookupLast(machine.dirs, file, i);
      }
      var i := |machine.dirs|;
      assert machine.dirs[..i] == machine.dirs;
      while i > 0
        invariant 0 <= i <= |machine.dirs| && Lookup(machine.dirs[..i], file) == Lookup(machine.dirs, file)
      {
        i := i - 1;
        assert machine.dirs[..i + 1][..i] == machine.dirs[..i];
        if file in machine.dirs[i] { return Some(machine.dirs[i][file]); }
      }
      r := None;
    }

    method LoadSingleUnit(id: UnitId) returns (r: Option<Unit>)
      modifies this`units
      ensures r == LoadSingle(Config(), id)
      ensures units == if r.Some? then old(units)[id := r.value] else old(units)
    {
      var name := NameOf(id);
      if name.None? { return None; }
      var found := FindFile(name.value.file);
      if found.None? || found.value.None? { return None; }
      var f, instance := found.value.value, name.value.instance;
      var u := Unit(FillAll(f.required, instance), f.defaultDependencies, ConditionsMet(machine, f, instance));
      if u.defaultDependencies && runtimeTarget.Some? {
        u := u.(required := u.required + [runtimeTarget.value]);
      }
      units := units[id := u];
      r := Some(u);
    }

    /** Callable exactly when the loop ends. */
    method LoadUnits(root: UnitId) returns (loaded: seq<UnitId>)
      requires Terminates(Config(), Begin(units, root))
      modifies this`units
      ensures LoadedAll(Config(), old(units), root, units, loaded)
      ensures forall u, d | u in loaded && d in units[u].required :: d in units || LoadSingle(Config(), d).None?
    {
      loaded := [];
      var pending := [root];
      ghost var c := Config();
      ghost var left: nat :| Turns(c, Begin(units, root), left).pending == [];
      ghost var begin, total := Begin(units, root), left;
      while pending != []
        invariant Config() == c && Turns(c, Load(units, loaded, pending), left) == Turns(c, begin, total)
        decreases left
      {
        assert left > 0;
        left := left - 1;
        var id := pending[|pending| - 1];
        pending := pending[..|pending| - 1];
        if id in units { continue; }
        var u := LoadSingleUnit(id);
        if u.Some? {
          loaded := loaded + [id];
          pending := pending + u.value.required;
        }
      }
      LoadResult(c, old(units), root, total);
    }
  }
}
