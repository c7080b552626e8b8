/**
 The tools one session publishes for its caller's Processes: whose each name is, which names each
 Process has, and what the server lists, kept in agreement.
 */
module Surfaces {
  import opened Collections

  type Id = string

  /** usable is whether the server takes the tool's input schema. */
  datatype Tool = Tool(name: string, usable: bool)

  /** tools is none where a schema of the manifest cannot be read. */
  datatype Manifest = Manifest(name: string, tools: Option<seq<Tool>>)

  datatype Verdict =
    | NothingToDo
    | NoManifest
    | ReservedName
    | BadSchemas
    | Detached
    | Published
    | Taken(names: seq<string>)
    | Unusable(names: seq<string>)

  const FAMILIES := {"fs", "pkg", "proc", "tel", "users", "approvals", "secrets"}

  predicate Reserved(name: string) {
    name in FAMILIES
  }

  function ToolName(pkg: string, tool: string): string {
    pkg + "_" + tool
  }

  /** What stands before the first underscore, if there is one. */
  function Namespace(surface: string): Option<string> {
    if surface == [] then None
    else if surface[0] == '_' then Some("")
    else
      match Namespace(surface[1..])
      case None => None
      case Some(rest) => Some([surface[0]] + rest)
  }

  predicate ReservedSurface(surface: string) {
    Namespace(surface) == None || Reserved(Namespace(surface).value)
  }

  /** A name is in a family exactly where it is the family's name, an underscore and anything. */
  lemma {:induction false} NamespaceIsBeforeTheFirst(surface: string, family: string)
    ensures Namespace(surface) == Some(family) <==>
      |family| < |surface| && surface[..|family|] == family && surface[|family|] == '_' && '_' !in family
  {
    if surface != [] && surface[0] != '_' && family != [] {
      NamespaceIsBeforeTheFirst(surface[1..], family[1..]);
      assert family == [family[0]] + family[1..];
      if |family| < |surface| {
        assert surface[1..][..|family| - 1] == surface[..|family|][1..];
        assert surface[..|family|] == [surface[0]] + surface[1..][..|family| - 1];
      }
    } else if surface != [] && surface[0] == '_' && family != [] && |family| < |surface| {
      assert surface[..|family|][0] == '_';
    }
  }

  /**
   A tool's name is in a family exactly where its package is one, or has the name of one before its first
   underscore: every other package's tools may join.
   */
  lemma ReservedByItsPackage(pkg: string, tool: string)
    ensures ReservedSurface(ToolName(pkg, tool)) <==>
      exists family :: family in FAMILIES && family + "_" <= pkg + "_"
  {
    var surface := ToolName(pkg, tool);
    NamespaceIsThere(pkg, tool);
    var first := Namespace(surface).value;
    NamespaceIsBeforeTheFirst(surface, first);
    if first in FAMILIES {
      PrefixOfThePackage(pkg, tool, first);
    }
    forall family | family in FAMILIES && family + "_" <= pkg + "_"
      ensures first == family
    {
      NoUnderscore(family);
      assert (pkg + "_")[..|family| + 1] == family + "_";
      assert surface[..|family| + 1] == family + "_";
      assert surface[..|family|] == (family + "_")[..|family|] == family && surface[|family|] == '_';
      NamespaceIsBeforeTheFirst(surface, family);
    }
  }

  lemma {:induction false} NamespaceIsThere(pkg: string, tool: string)
    ensures Namespace(ToolName(pkg, tool)) != None && |Namespace(ToolName(pkg, tool)).value| <= |pkg|
  {
    var surface := ToolName(pkg, tool);
    if pkg != [] && surface[0] != '_' {
      NamespaceIsThere(pkg[1..], tool);
      assert surface[1..] == ToolName(pkg[1..], tool);
    }
  }

  lemma PrefixOfThePackage(pkg: string, tool: string, first: string)
    requires |first| <= |pkg| && |first| < |ToolName(pkg, tool)|
    requires ToolName(pkg, tool)[..|first|] == first && ToolName(pkg, tool)[|first|] == '_'
    ensures first + "_" <= pkg + "_"
  {
    assert (pkg + "_")[..|first|] == ToolName(pkg, tool)[..|first|];
    assert (pkg + "_")[|first|] == '_';
    assert (pkg + "_")[..|first| + 1] == first + "_";
  }

  lemma NoUnderscore(family: string)
    requires family in FAMILIES
    ensures '_' !in family
  {
  }

  /** Whose a name is among the Processes that are not this one. */
  function Others(owners: map<string, Id>, id: Id): map<string, Id> {
    map s | s in owners && owners[s] != id :: owners[s]
  }

  /** One of the tools answers this name, of those that may. */
  ghost predicate Answers(pkg: string, tools: seq<Tool>, others: map<string, Id>, surface: string) {
    && !ReservedSurface(surface) && surface !in others
    && exists k :: 0 <= k < |tools| && tools[k].usable && ToolName(pkg, tools[k].name) == surface
  }

  predicate IsTaken(pkg: string, tool: Tool, others: map<string, Id>) {
    ReservedSurface(ToolName(pkg, tool.name)) || ToolName(pkg, tool.name) in others
  }

  /** The names that are kept off the surface because something answers them, in the order declared. */
  function TakenOf(pkg: string, tools: seq<Tool>, others: map<string, Id>): seq<string> {
    if tools == [] then []
    else
      var t := tools[|tools| - 1];
      TakenOf(pkg, tools[..|tools| - 1], others) + if IsTaken(pkg, t, others) then [ToolName(pkg, t.name)] else []
  }

  /** And the tools whose own schema does. */
  function UnusableOf(pkg: string, tools: seq<Tool>, others: map<string, Id>): seq<string> {
    if tools == [] then []
    else
      var t := tools[|tools| - 1];
      UnusableOf(pkg, tools[..|tools| - 1], others) + if !IsTaken(pkg, t, others) && !t.usable then [t.name] else []
  }

  /** What a Process is told: why it was not asked about, or what of it could not join. */
  function Asked(reachable: bool, manifest: Option<Manifest>, attached: bool, owners: map<string, Id>,
      id: Id): Verdict {
    if !reachable then NothingToDo
    else if manifest == None then NoManifest
    else if Reserved(manifest.value.name) then ReservedName
    else if manifest.value.tools == None then BadSchemas
    else if !attached then Detached
    else
      var pkg, declared, others := manifest.value.name, manifest.value.tools.value, Others(owners, id);
      if TakenOf(pkg, declared, others) != [] then Taken(TakenOf(pkg, declared, others))
      else if UnusableOf(pkg, declared, others) != [] then Unusable(UnusableOf(pkg, declared, others))
      else Published
  }

  predicate Publishes(verdict: Verdict) {
    verdict.Published? || verdict.Taken? || verdict.Unusable?
  }

  /** What each Process has and whose each name is are one and the same, and no name is in a family. */
  ghost predicate Agree(published: map<Id, seq<string>>, owners: map<string, Id>) {
    && (forall s <- owners :: !ReservedSurface(s))
    && (forall s <- owners :: owners[s] in published && s in published[owners[s]])
    && (forall id <- published :: forall s <- published[id] :: s in owners && owners[s] == id)
  }

  lemma OthersTwice(owners: map<string, Id>, id: Id)
    ensures Others(Others(owners, id), id) == Others(owners, id)
  {
  }

  lemma NoneIsReserved(published: map<Id, seq<string>>, owners: map<string, Id>)
    requires Agree(published, owners)
    ensures forall s <- owners :: !ReservedSurface(s)
  {
  }

  lemma DroppingAgrees(published: map<Id, seq<string>>, owners: map<string, Id>, id: Id)
    requires Agree(published, owners)
    ensures Agree(published - {id}, Others(owners, id))
  {
  }

  /** The server loses exactly the names that were given up, and no built-in. */
  lemma DroppingLists(builtins: set<string>, owners: map<string, Id>, id: Id, mine: seq<string>)
    requires (forall s <- builtins :: ReservedSurface(s)) && (forall s <- owners :: !ReservedSurface(s))
    requires forall s :: s in mine <==> s in owners && owners[s] == id
    ensures builtins + owners.Keys - (set s | s in mine) == builtins + Others(owners, id).Keys
    ensures mine == [] ==> Others(owners, id) == owners
  {
  }

  lemma PublishingAgrees(published: map<Id, seq<string>>, others: map<string, Id>, owners: map<string, Id>, id: Id,
      names: seq<string>)
    requires Agree(published, others) && id !in published && Others(owners, id) == others
    requires forall s <- owners :: !ReservedSurface(s)
    requires forall s :: s in names <==> s in owners && owners[s] == id
    ensures Agree(published[id := names], owners)
  {
    forall s <- owners
      ensures owners[s] in published[id := names] && s in published[id := names][owners[s]]
    {
      if owners[s] != id {
        assert s in others;
      }
    }
    forall other <- published, s <- published[other]
      ensures s in owners && owners[s] == other
    {
      assert s in others;
    }
  }

  class Bridge {
    const builtins: set<string>
    var attached: bool
    /** What the server lists. */
    var tools: set<string>
    var published: map<Id, seq<string>>
    var owners: map<string, Id>
    var packages: map<Id, string>
    var sessions: set<Id>

    /** Every built-in is in a family, and no name in one is ever a Process's. */
    ghost predicate Valid()
      reads this
    {
      && (forall s <- builtins :: ReservedSurface(s)) && Agree(published, owners)
      && tools == builtins + owners.Keys && packages.Keys == published.Keys
      && (!attached ==> published == map[])
    }

    constructor (builtins: set<string>)
      requires forall s <- builtins :: ReservedSurface(s)
      ensures Valid() && tools == builtins && this.builtins == builtins && !attached && owners == map[]
    {
      this.builtins, attached, tools := builtins, false, builtins;
      published, owners, packages, sessions := map[], map[], map[], {};
    }

    method Attach()
      requires Valid()
      modifies this`attached
      ensures Valid() && attached
    {
      attached := true;
    }

    /** Takes the names that are this Process's own out of owners. A manifest may name one twice. */
    method GiveUp(id: Id) returns (mine: seq<string>)
      requires Valid()
      modifies this`owners
      ensures owners == Others(old(owners), id)
      ensures forall s :: s in mine <==> s in old(owners) && old(owners)[s] == id
    {
      mine := [];
      var names := if id in published then published[id] else [];
      for i := 0 to |names|
        invariant forall s :: s in owners <==> s in old(owners) && s !in names[..i]
        invariant forall s <- owners :: owners[s] == old(owners)[s]
        invariant forall s :: s in mine <==> s in names[..i]
      {
        assert names[..i + 1] == names[..i] + [names[i]];
        if names[i] !in owners || owners[names[i]] != id {
          continue;
        }
        owners := owners - {names[i]};
        mine := mine + [names[i]];
      }
      assert names[..|names|] == names;
    }

    /** And what the server lists with them, where it lists anything. */
    method TakeOff(id: Id)
      requires Valid()
      modifies this`tools, this`owners
      ensures owners == Others(old(owners), id) && tools == builtins + owners.Keys
    {
      var mine := GiveUp(id);
      DroppingLists(builtins, old(owners), id, mine);
      if |mine| > 0 && attached {
        tools := tools - set s | s in mine;
      }
    }

    /** A Process leaves the surface, with the names it owns and no other's. */
    method Drop(id: Id)
      requires Valid()
      modifies this`tools, this`published, this`owners, this`packages, this`sessions
      ensures Valid()
      ensures owners == Others(old(owners), id)
      ensures published == old(published) - {id} && packages == old(packages) - {id} && sessions == old(sessions) - {id}
    {
      hide Agree, ReservedSurface;
      DroppingAgrees(published, owners, id);
      TakeOff(id);
      published := published - {id};
      packages := packages - {id};
      sessions := sessions - {id};
    }

    method Remove(id: Id)
      requires Valid()
      modifies this`tools, this`published, this`owners, this`packages, this`sessions
      ensures Valid()
      ensures owners == Others(old(owners), id)
      ensures published == old(published) - {id} && packages == old(packages) - {id} && sessions == old(sessions) - {id}
    {
      Drop(id);
    }

    /** One tool of a Process whose earlier names are gone. taken and unusable say what kept it off. */
    method AddOne(id: Id, pkg: string, tool: Tool, ghost others: map<string, Id>, names: seq<string>)
      returns (names': seq<string>, taken: bool, unusable: bool)
      requires attached && Others(owners, id) == others
      requires tools == builtins + owners.Keys
      modifies this`tools, this`owners
      ensures Others(owners, id) == others && tools == builtins + owners.Keys
      ensures taken == IsTaken(pkg, tool, others) && unusable == (!taken && !tool.usable)
      ensures taken || unusable ==> owners == old(owners) && names' == names
      ensures !taken && !unusable ==>
        owners == old(owners)[ToolName(pkg, tool.name) := id] && names' == names + [ToolName(pkg, tool.name)]
    {
      var surface := ToolName(pkg, tool.name);
      if ReservedSurface(surface) {
        return names, true, false;
      }
      if surface in owners && owners[surface] != id {
        assert surface in others;
        return names, true, false;
      }
      assert surface !in others;
      if !tool.usable {
        return names, false, true;
      }
      tools := tools + {surface};
      owners := owners[surface := id];
      return names + [surface], false, false;
    }

    /** Every tool of the manifest, in the order declared. */
    method AddAll(id: Id, pkg: string, declared: seq<Tool>)
      returns (names: seq<string>, taken: seq<string>, unusable: seq<string>)
      requires attached && Others(owners, id) == owners
      requires tools == builtins + owners.Keys && forall s <- owners :: !ReservedSurface(s)
      modifies this`tools, this`owners
      ensures Others(owners, id) == old(owners)
      ensures tools == builtins + owners.Keys && forall s <- owners :: !ReservedSurface(s)
      ensures forall s :: s in owners && owners[s] == id <==> Answers(pkg, declared, old(owners), s)
      ensures forall s :: s in names <==> s in owners && owners[s] == id
      ensures taken == TakenOf(pkg, declared, old(owners)) && unusable == UnusableOf(pkg, declared, old(owners))
    {
      names, taken, unusable := [], [], [];
      ghost var others := owners;
      for i := 0 to |declared|
        invariant Others(owners, id) == others && tools == builtins + owners.Keys
        invariant forall s :: s in owners && owners[s] == id <==> Answers(pkg, declared[..i], others, s)
        invariant forall s :: s in names <==> s in owners && owners[s] == id
        invariant taken == TakenOf(pkg, declared[..i], others) && unusable == UnusableOf(pkg, declared[..i], others)
      {
        AnswersNext(pkg, declared, i, others);
        var isTaken, isUnusable;
        names, isTaken, isUnusable := AddOne(id, pkg, declared[i], others, names);
        if isTaken {
          taken := taken + [ToolName(pkg, declared[i].name)];
        }
        if isUnusable {
          unusable := unusable + [declared[i].name];
        }
        assert declared[..i + 1][..i] == declared[..i];
      }
      assert declared[..|declared|] == declared;
      forall s <- owners
        ensures !ReservedSurface(s)
      {
        if owners[s] != id {
          assert s in others;
        }
      }
    }

    /** The names this Process has once this is over are the ones it declares and nothing else answers. */
    ghost predicate Republished(id: Id, pkg: string, declared: seq<Tool>, others: map<string, Id>)
      reads this
    {
      && Others(owners, id) == others
      && forall s :: s in owners && owners[s] == id <==> Answers(pkg, declared, others, s)
    }

    method Publish(id: Id, package: string, pkg: string, declared: seq<Tool>)
      returns (taken: seq<string>, unusable: seq<string>)
      requires Valid() && attached
      modifies this`tools, this`published, this`owners, this`packages, this`sessions
      ensures Valid()
      ensures Republished(id, pkg, declared, Others(old(owners), id))
      ensures taken == TakenOf(pkg, declared, Others(old(owners), id))
      ensures unusable == UnusableOf(pkg, declared, Others(old(owners), id))
      ensures id in published && published - {id} == old(published) - {id} && packages == old(packages)[id := package]
    {
      hide Agree, ReservedSurface, Answers, TakenOf, UnusableOf, Others;
      OthersTwice(owners, id);
      Drop(id);
      NoneIsReserved(published, owners);
      var names;
      names, taken, unusable := AddAll(id, pkg, declared);
      PublishingAgrees(published, Others(old(owners), id), owners, id, names);
      published := published[id := names];
      packages := packages[id := package];
    }

    /** manifest is what its folder says now. Nobody else loses a name. */
    method Add(id: Id, package: string, reachable: bool, manifest: Option<Manifest>) returns (verdict: Verdict)
      requires Valid()
      modifies this`tools, this`published, this`owners, this`packages, this`sessions
      ensures Valid()
      ensures verdict == Asked(reachable, manifest, attached, old(owners), id)
      ensures Publishes(verdict) ==>
        && Republished(id, manifest.value.name, manifest.value.tools.value, Others(old(owners), id))
        && published - {id} == old(published) - {id} && packages == old(packages)[id := package]
      ensures !Publishes(verdict) ==>
        owners == old(owners) && published == old(published) && packages == old(packages) && sessions == old(sessions)
    {
      if !reachable {
        return NothingToDo;
      }
      if manifest == None {
        return NoManifest;
      }
      var m := manifest.value;
      if Reserved(m.name) {
        return ReservedName;
      }
      if m.tools == None {
        return BadSchemas;
      }
      if !attached {
        return Detached;
      }
      var taken, unusable := Publish(id, package, m.name, m.tools.value);
      if |taken| > 0 {
        return Taken(taken);
      }
      if |unusable| > 0 {
        return Unusable(unusable);
      }
      verdict := Published;
    }

    /** Which Process, of which Package, answers a name, and nobody for a built-in. */
    method Owner(surface: string) returns (path: string, process: Id, ok: bool)
      requires Valid()
      ensures ok <==> surface in owners
      ensures ok ==> process == owners[surface] && process in packages && path == packages[process]
      ensures surface in builtins ==> !ok
    {
      if surface !in owners {
        return "", "", false;
      }
      return packages[owners[surface]], owners[surface], true;
    }
  }

  lemma AnswersNext(pkg: string, tools: seq<Tool>, i: nat, others: map<string, Id>)
    requires i < |tools|
    ensures forall s :: Answers(pkg, tools[..i + 1], others, s) <==>
      Answers(pkg, tools[..i], others, s)
      || (!IsTaken(pkg, tools[i], others) && tools[i].usable && s == ToolName(pkg, tools[i].name))
  {
    var more, fewer := tools[..i + 1], tools[..i];
    forall s
      ensures Answers(pkg, more, others, s) <==>
        Answers(pkg, fewer, others, s)
          || (!IsTaken(pkg, tools[i], others) && tools[i].usable && s == ToolName(pkg, tools[i].name))
    {
      if Answers(pkg, fewer, others, s) {
        var k :| 0 <= k < |fewer| && fewer[k].usable && ToolName(pkg, fewer[k].name) == s;
        assert more[k] == fewer[k];
      }
      if Answers(pkg, more, others, s) {
        var k :| 0 <= k < |more| && more[k].usable && ToolName(pkg, more[k].name) == s;
        if k < i {
          assert fewer[k] == more[k];
        }
      }
      if !IsTaken(pkg, tools[i], others) && tools[i].usable && s == ToolName(pkg, tools[i].name) {
        assert more[i] == tools[i];
      }
    }
  }
}
