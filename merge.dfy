/**
 * The merge of a parent devfile into a local one, for devfile version 1.0.0
 * (pkg/devfile/versions/1.0.0/merge.go).
 *
 * The specification is stated on values first (MissingFrom, MergedByName,
 * MergeMetadata, MergeFields, MergedDevfile) together with the lemmas about
 * it; the class Devfile100 then updates its fields in place, as the source
 * does, and its methods are proved against those functions.
 */
module Version100 {
  import opened Wrappers
  import opened Common

  /** The set of keys (names) of the items of `items`. */
  function Names<T(!new)>(items: seq<T>, key: T -> string): set<string>
  {
    set i | 0 <= i < |items| :: key(items[i])
  }

  /**
   * The items of `parent`, in parent order, whose key is not in `names`.
   * Two parent items with the same missing key are both kept.
   */
  function MissingFrom<T(!new)>(parent: seq<T>, names: set<string>, key: T -> string): (r: seq<T>)
    ensures |r| <= |parent|
    ensures forall x :: x in r <==> x in parent && key(x) !in names
    decreases |parent|
  {
    if parent == [] then []
    else
      var last := parent[|parent| - 1];
      assert parent == parent[..|parent| - 1] + [last];
      MissingFrom(parent[..|parent| - 1], names, key) + (if key(last) in names then [] else [last])
  }

  /**
   * The three-case rule of mergeProjects and mergeCommands: an empty parent
   * list changes nothing; an empty local list takes the parent list whole;
   * otherwise the parent items whose name is not a local name are appended.
   */
  function MergedByName<T(!new)>(local: seq<T>, parent: seq<T>, key: T -> string): (r: seq<T>)
    ensures |parent| < 1 ==> r == local
    ensures |local| < 1 ==> r == parent
    ensures |r| >= |local| && r[..|local|] == local
    ensures forall x :: x in r ==> x in local || x in parent
  {
    if |parent| < 1 then local
    else if |local| < 1 then local + parent
    else local + MissingFrom(parent, Names(local, key), key)
  }

  /** Metadata is replaced wholesale, and only when the local one is the zero value. */
  function MergeMetadata(local: DevfileMetadata, parent: DevfileMetadata): (r: DevfileMetadata)
    ensures local == ZeroMetadata ==> r == parent
    ensures local != ZeroMetadata ==> r == local
  {
    if local == ZeroMetadata then parent else local
  }

  /** The fields MergeDevfiles visits, in the order it visits them. */
  const Fields: seq<string> := ["Metadata", "Projects", "Components", "Commands"]

  /** One case of the switch in MergeDevfiles; "Components" has an empty case. */
  function MergeField(local: Devfile, parent: Devfile, field: string): (r: Devfile)
    ensures r.apiVersion == local.apiVersion && r.components == local.components
    ensures field != "Metadata" ==> r.metadata == local.metadata
    ensures field != "Projects" ==> r.projects == local.projects
    ensures field != "Commands" ==> r.commands == local.commands
  {
    match field
    case "Metadata" =>
      local.(metadata := MergeMetadata(local.metadata, parent.metadata))
    case "Projects" =>
      local.(projects := MergedByName(local.projects, parent.projects, ProjectName))
    case "Commands" =>
      local.(commands := MergedByName(local.commands, parent.commands, CommandName))
    case _ => local
  }

  /** The switch applied to each of `fields` in turn. */
  function MergeFields(local: Devfile, parent: Devfile, fields: seq<string>): (r: Devfile)
    ensures r.apiVersion == local.apiVersion && r.components == local.components
    ensures "Metadata" !in fields ==> r.metadata == local.metadata
    ensures "Projects" !in fields ==> r.projects == local.projects
    ensures "Commands" !in fields ==> r.commands == local.commands
    decreases |fields|
  {
    if fields == [] then local
    else MergeField(MergeFields(local, parent, fields[..|fields| - 1]), parent, fields[|fields| - 1])
  }

  /** The merge stated field by field: each field follows its own rule, independently. */
  function MergedDevfile(local: Devfile, parent: Devfile): (r: Devfile)
    ensures r.apiVersion == local.apiVersion && r.components == local.components
    ensures r.metadata == if local.metadata == ZeroMetadata then parent.metadata else local.metadata
    ensures |r.projects| >= |local.projects| && r.projects[..|local.projects|] == local.projects
    ensures |r.commands| >= |local.commands| && r.commands[..|local.commands|] == local.commands
  {
    local.(metadata := MergeMetadata(local.metadata, parent.metadata),
           projects := MergedByName(local.projects, parent.projects, ProjectName),
           commands := MergedByName(local.commands, parent.commands, CommandName))
  }

  // ---------------------------------------------------------------------
  // Lemmas about the specification
  // ---------------------------------------------------------------------

  lemma NameOf<T(!new)>(items: seq<T>, x: T, key: T -> string)
    requires x in items
    ensures key(x) in Names(items, key)
  {
    var i :| 0 <= i < |items| && items[i] == x;
  }

  /** Without any name to exclude, nothing is filtered out. */
  lemma {:induction false} MissingFromNoNames<T(!new)>(parent: seq<T>, key: T -> string)
    ensures MissingFrom(parent, {}, key) == parent
    decreases |parent|
  {
    if parent != [] {
      MissingFromNoNames(parent[..|parent| - 1], key);
      assert parent == parent[..|parent| - 1] + [parent[|parent| - 1]];
    }
  }

  /** When every parent name is already known, nothing is missing. */
  lemma MissingFromCovered<T(!new)>(parent: seq<T>, names: set<string>, key: T -> string)
    requires Names(parent, key) <= names
    ensures MissingFrom(parent, names, key) == []
  {
    var r := MissingFrom(parent, names, key);
    if r != [] {
      assert r[0] in r;
      NameOf(parent, r[0], key);
      assert false;
    }
  }

  /** Filtering distributes over concatenation, so the parent order is kept. */
  lemma {:induction false} MissingFromAppend<T(!new)>(a: seq<T>, b: seq<T>, names: set<string>, key: T -> string)
    ensures MissingFrom(a + b, names, key) == MissingFrom(a, names, key) + MissingFrom(b, names, key)
    decreases |b|
  {
    if b == [] {
      assert a + b == a;
    } else {
      var b' := b[..|b| - 1];
      var last := b[|b| - 1];
      assert (a + b)[..|a + b| - 1] == a + b';
      assert (a + b)[|a + b| - 1] == last;
      MissingFromAppend(a, b', names, key);
    }
  }

  /**
   * Every parent item whose name is missing is kept as many times as it
   * occurs in the parent; every other item is dropped. In particular two
   * parent items sharing a name that is not local are both appended.
   */
  lemma {:induction false} MissingFromMultiplicity<T(!new)>(parent: seq<T>, names: set<string>, key: T -> string, x: T)
    ensures multiset(MissingFrom(parent, names, key))[x] ==
            if key(x) in names then 0 else multiset(parent)[x]
    decreases |parent|
  {
    if parent != [] {
      var init := parent[..|parent| - 1];
      var last := parent[|parent| - 1];
      assert parent == init + [last];
      MissingFromMultiplicity(init, names, key, x);
    }
  }

  /**
   * The three cases are one rule: the local list, unchanged, followed by the
   * parent items whose name is not a local name. The two early returns of
   * the source only shortcut that rule.
   */
  lemma MergedIsLocalThenMissing<T(!new)>(local: seq<T>, parent: seq<T>, key: T -> string)
    ensures MergedByName(local, parent, key) == local + MissingFrom(parent, Names(local, key), key)
  {
    if |parent| >= 1 && |local| < 1 {
      assert Names(local, key) == {};
      MissingFromNoNames(parent, key);
    }
  }

  /**
   * What the merged list holds: the local list as a prefix, and after it
   * exactly the parent items whose name is not among the local names,
   * counted with their parent multiplicity. No local entry is removed or
   * overwritten, and no parent item with a local name is added.
   */
  lemma MergedContents<T(!new)>(local: seq<T>, parent: seq<T>, key: T -> string, x: T)
    ensures |MergedByName(local, parent, key)| >= |local|
    ensures MergedByName(local, parent, key)[..|local|] == local
    ensures forall i :: |local| <= i < |MergedByName(local, parent, key)| ==>
              key(MergedByName(local, parent, key)[i]) !in Names(local, key)
    ensures x in MergedByName(local, parent, key) <==>
              x in local || (x in parent && key(x) !in Names(local, key))
    ensures multiset(MergedByName(local, parent, key))[x] ==
              multiset(local)[x] + (if key(x) in Names(local, key) then 0 else multiset(parent)[x])
  {
    var names := Names(local, key);
    var tail := MissingFrom(parent, names, key);
    MergedIsLocalThenMissing(local, parent, key);
    assert MergedByName(local, parent, key)[|local|..] == tail;
    forall i | |local| <= i < |MergedByName(local, parent, key)|
      ensures key(MergedByName(local, parent, key)[i]) !in names
    {
      assert MergedByName(local, parent, key)[i] == tail[i - |local|];
      assert tail[i - |local|] in tail;
    }
    MissingFromMultiplicity(parent, names, key, x);
  }

  /** Every parent name is present after the merge. */
  lemma MergedCoversParentNames<T(!new)>(local: seq<T>, parent: seq<T>, key: T -> string)
    ensures Names(local, key) <= Names(MergedByName(local, parent, key), key)
    ensures Names(parent, key) <= Names(MergedByName(local, parent, key), key)
  {
    var r := MergedByName(local, parent, key);
    MergedIsLocalThenMissing(local, parent, key);
    forall n | n in Names(local, key) ensures n in Names(r, key) {
      var i :| 0 <= i < |local| && key(local[i]) == n;
      assert r[i] == local[i];
    }
    forall n | n in Names(parent, key) ensures n in Names(r, key) {
      var i :| 0 <= i < |parent| && key(parent[i]) == n;
      if n !in Names(local, key) {
        assert parent[i] in MissingFrom(parent, Names(local, key), key);
        assert parent[i] in r;
        NameOf(r, parent[i], key);
      }
    }
  }

  /** Merging the same parent list a second time changes nothing. */
  lemma MergedByNameIdempotent<T(!new)>(local: seq<T>, parent: seq<T>, key: T -> string)
    ensures MergedByName(MergedByName(local, parent, key), parent, key) == MergedByName(local, parent, key)
  {
    var r := MergedByName(local, parent, key);
    if |parent| >= 1 {
      MergedCoversParentNames(local, parent, key);
      MissingFromCovered(parent, Names(r, key), key);
    }
  }

  /** The switch over the four field names computes the field-by-field merge. */
  lemma FieldLoopIsFieldwise(local: Devfile, parent: Devfile)
    ensures MergeFields(local, parent, Fields) == MergedDevfile(local, parent)
  {
    var d1 := MergeField(local, parent, "Metadata");
    var d2 := MergeField(d1, parent, "Projects");
    var d3 := MergeField(d2, parent, "Components");
    assert Fields[..1][..0] == [] && Fields[..1][0] == "Metadata";
    assert MergeFields(local, parent, Fields[..1]) == d1;
    assert Fields[..2][..1] == Fields[..1] && Fields[..2][1] == "Projects";
    assert MergeFields(local, parent, Fields[..2]) == d2;
    assert Fields[..3][..2] == Fields[..2] && Fields[..3][2] == "Components";
    assert MergeFields(local, parent, Fields[..3]) == d3;
    assert Fields[..3] == Fields[..|Fields| - 1];
  }

  /** Merging the same parent devfile a second time changes nothing. */
  lemma MergedDevfileIdempotent(local: Devfile, parent: Devfile)
    ensures MergedDevfile(MergedDevfile(local, parent), parent) == MergedDevfile(local, parent)
  {
    MergedByNameIdempotent(local.projects, parent.projects, ProjectName);
    MergedByNameIdempotent(local.commands, parent.commands, CommandName);
  }

  lemma SingleName(a: DevfileProject)
    ensures Names([a], ProjectName) == {a.name}
  {
    assert ProjectName([a][0]) == a.name;
  }

  /**
   * Local [a] with parent [a', b] gives [a, b]: the local "a" is kept, the
   * parent's "a" is dropped, and "b" is appended.
   */
  lemma LocalEntryWinsExample(a: DevfileProject, a': DevfileProject, b: DevfileProject)
    requires a.name == a'.name == "a" && b.name == "b"
    ensures MergedByName([a], [a', b], ProjectName) == [a, b]
  {
    SingleName(a);
    assert [a', b][..1] == [a'] && [a'][..0] == [];
    assert MissingFrom([a'], {"a"}, ProjectName) == [];
  }

  /**
   * The name set is built from the local list once, before the loop: two
   * parent projects sharing a name that is not local are both appended.
   */
  lemma DuplicateParentNamesBothAppended(a: DevfileProject, b1: DevfileProject, b2: DevfileProject)
    requires a.name == "a" && b1.name == b2.name == "b"
    ensures MergedByName([a], [b1, b2], ProjectName) == [a, b1, b2]
  {
    SingleName(a);
    assert [b1, b2][..1] == [b1] && [b1][..0] == [];
    assert MissingFrom([b1], {"a"}, ProjectName) == [b1];
  }

  // ---------------------------------------------------------------------
  // The in-place implementation
  // ---------------------------------------------------------------------

  /** The name map mergeProjects and mergeCommands build from the local list. */
  method NameMap<T(!new)>(items: seq<T>, key: T -> string) returns (m: map<string, bool>)
    ensures m.Keys == Names(items, key)
    ensures forall n :: n in m ==> m[n]
  {
    m := map[];
    for i := 0 to |items|
      invariant m.Keys == Names(items[..i], key)
      invariant forall n :: n in m ==> m[n]
    {
      assert Names(items[..i + 1], key) == Names(items[..i], key) + {key(items[i])} by {
        assert forall j :: 0 <= j < i ==> items[..i + 1][j] == items[..i][j];
        assert items[..i + 1][i] == items[i];
      }
      m := m[key(items[i]) := true];
    }
    assert items[..|items|] == items;
  }

  /** A version 1.0.0 devfile whose fields the merge updates in place. */
  class Devfile100 {
    var apiVersion: string
    var metadata: DevfileMetadata
    var projects: seq<DevfileProject>
    var components: seq<DevfileComponent>
    var commands: seq<DevfileCommand>

    function Value(): Devfile
      reads this
    {
      Devfile(apiVersion, metadata, projects, components, commands)
    }

    constructor (d: Devfile)
      ensures Value() == d
    {
      apiVersion, metadata, projects, components, commands :=
        d.apiVersion, d.metadata, d.projects, d.components, d.commands;
    }

    /**
     * Merges `parent` into this devfile: the four fields in turn, each by
     * its own rule. Never fails.
     */
    method MergeDevfiles(parent: Devfile100) returns (err: Option<string>)
      modifies this
      ensures err == None
      ensures Value() == MergedDevfile(old(Value()), old(parent.Value()))
    {
      var p := parent.Value();
      for i := 0 to |Fields|
        invariant Value() == MergeFields(old(Value()), p, Fields[..i])
      {
        assert Fields[..i + 1][..i] == Fields[..i];
        match Fields[i]
        case "Metadata" =>
          if metadata == ZeroMetadata {
            metadata := p.metadata;
          }
        case "Projects" =>
          MergeProjects(p.projects);
        case "Components" =>
        case "Commands" =>
          MergeCommands(p.commands);
        case _ =>
      }
      assert Fields[..|Fields|] == Fields;
      FieldLoopIsFieldwise(old(Value()), p);
      err := None;
    }

    method MergeProjects(parentProjects: seq<DevfileProject>)
      modifies this`projects
      ensures projects == MergedByName(old(projects), parentProjects, ProjectName)
    {
      if |parentProjects| < 1 {
        return;
      }
      if |projects| < 1 {
        projects := projects + parentProjects;
        return;
      }
      var localProjects := NameMap(projects, ProjectName);
      ghost var names := Names(old(projects), ProjectName);
      for i := 0 to |parentProjects|
        invariant projects == old(projects) + MissingFrom(parentProjects[..i], names, ProjectName)
      {
        assert parentProjects[..i + 1][..i] == parentProjects[..i];
        if parentProjects[i].name !in localProjects {
          projects := projects + [parentProjects[i]];
        }
      }
      assert parentProjects[..|parentProjects|] == parentProjects;
    }

    method MergeCommands(parentCommands: seq<DevfileCommand>)
      modifies this`commands
      ensures commands == MergedByName(old(commands), parentCommands, CommandName)
    {
      if |parentCommands| < 1 {
        return;
      }
      if |commands| < 1 {
        commands := commands + parentCommands;
        return;
      }
      var localCommands := NameMap(commands, CommandName);
      ghost var names := Names(old(commands), CommandName);
      for i := 0 to |parentCommands|
        invariant commands == old(commands) + MissingFrom(parentCommands[..i], names, CommandName)
      {
        assert parentCommands[..i + 1][..i] == parentCommands[..i];
        if parentCommands[i].name !in localCommands {
          commands := commands + [parentCommands[i]];
        }
      }
      assert parentCommands[..|parentCommands|] == parentCommands;
    }
  }
}
