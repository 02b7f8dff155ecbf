/** src/Parser/ClassUsageExtractor.php: a visitor that records every place a
    class name is written out statically. */
module ClassUsageExtractor {
  import opened Ast
  import Seqs

  /** The positions of a node where a class name can be written out, in
      declaration order: the class of `new`, `instanceof` and `C::X`, a
      parameter's type, each caught type, a class's parent and interfaces,
      an interface's parents and each used trait. */
  function ClassSlots(kind: Kind): seq<NameRef> {
    match kind
    case New(c) => [c]
    case InstanceOf(c) => [c]
    case ClassConstFetch(c) => [c]
    case Param(t) => [t]
    case Catch(types) => types
    case ClassDecl(parent, interfaces) => [parent] + interfaces
    case InterfaceDecl(parents) => parents
    case TraitUse(traits) => traits
    case _ => []
  }

  /** The records enterNode adds for one node of kind `kind` starting on
      `line`, while `file` is the current file: one per static `Name` among
      the node's class positions, in order, all on the node's line; other
      forms of class expression give nothing. */
  function UsagesOf(kind: Kind, line: int, file: string): (r: seq<Record>)
    ensures forall u :: u in r ==> u.line == line && u.file == file
  {
    match kind
    case New(c) => RecordsFor([c], "instantiation", line, file)
    case InstanceOf(c) => RecordsFor([c], "instanceof", line, file)
    case ClassConstFetch(c) => RecordsFor([c], "const_access", line, file)
    case Param(t) => RecordsFor([t], "type_hint", line, file)
    case Catch(types) => RecordsFor(types, "catch", line, file)
    case ClassDecl(parent, interfaces) =>
      RecordsFor([parent], "extends", line, file) + RecordsFor(interfaces, "implements", line, file)
    case InterfaceDecl(parents) => RecordsFor(parents, "extends", line, file)
    case TraitUse(traits) => RecordsFor(traits, "use_trait", line, file)
    case _ => []
  }

  /** A node gives one record per static `Name` among its class positions,
      in order, and nothing for any other form of class expression. */
  lemma UsagesOfSlots(kind: Kind, line: int, file: string)
    ensures var r := UsagesOf(kind, line, file);
      |r| == |NamesOf(ClassSlots(kind))| &&
      forall i :: 0 <= i < |r| ==> r[i].name == NamesOf(ClassSlots(kind))[i]
  {
    if kind.ClassDecl? {
      TwoRecordLists([kind.parent], kind.interfaces, "extends", "implements", line, file);
    }
  }

  /** Two record lists one after the other name the names of both slot
      lists, in order. */
  lemma TwoRecordLists(a: seq<NameRef>, b: seq<NameRef>, k1: string, k2: string, line: int, file: string)
    ensures var r := RecordsFor(a, k1, line, file) + RecordsFor(b, k2, line, file);
      |r| == |NamesOf(a + b)| && forall i :: 0 <= i < |r| ==> r[i].name == NamesOf(a + b)[i]
  {
    NamesOfAppend(a, b);
    var ra: seq<Record> := RecordsFor(a, k1, line, file);
    var rb: seq<Record> := RecordsFor(b, k2, line, file);
    var names := NamesOf(a + b);
    forall i | 0 <= i < |ra + rb|
      ensures (ra + rb)[i].name == names[i]
    {
      if i < |ra| {
        assert (ra + rb)[i] == ra[i];
      } else {
        assert (ra + rb)[i] == rb[i - |ra|];
      }
    }
  }

  /** Calls are not class usages. */
  lemma CallsRecordNothing(kind: Kind, line: int, file: string)
    requires kind.FuncCall? || kind.MethodCall? || kind.StaticCall? || kind.Other?
    ensures UsagesOf(kind, line, file) == []
  {
  }

  /** The records a traversal of `nodes` adds, in visiting order. */
  function UsagesIn(nodes: seq<Node>, file: string): (r: seq<Record>)
    ensures forall u :: u in r ==> u.file == file
  {
    if nodes == [] then []
    else UsagesIn(nodes[..|nodes| - 1], file) + UsagesOf(nodes[|nodes| - 1].kind, nodes[|nodes| - 1].line, file)
  }

  /** Visiting one more node appends that node's records. */
  lemma UsagesInStep(nodes: seq<Node>, i: nat, file: string)
    requires i < |nodes|
    ensures UsagesIn(nodes[..i + 1], file) == UsagesIn(nodes[..i], file) + UsagesOf(nodes[i].kind, nodes[i].line, file)
  {
    assert nodes[..i + 1][..i] == nodes[..i];
  }

  /** A class declaration records its parent first, then each interface, all
      on the declaration's start line. */
  lemma ClassDeclRecords(parent: NameRef, interfaces: seq<NameRef>, line: int, file: string)
    ensures var r := UsagesOf(ClassDecl(parent, interfaces), line, file);
      |r| == (if parent.Name? then 1 else 0) + |NamesOf(interfaces)| &&
      (parent.Name? ==> r[0] == Record(parent.text, "extends", line, file)) &&
      forall u :: u in r ==> u.line == line && (u.kind == "extends" || u.kind == "implements")
  {
    RecordsForOne(parent, "extends", line, file);
  }

  /** One class position gives its record when it is a `Name`, else none. */
  lemma RecordsForOne(c: NameRef, kind: string, line: int, file: string)
    ensures RecordsFor([c], kind, line, file) == if c.Name? then [Record(c.text, kind, line, file)] else []
  {
    assert NamesOf([c]) == if c.Name? then [c.text] else [];
  }

  class ClassUsageExtractor {
    var currentFile: string
    var classUsages: seq<Record>

    constructor ()
      ensures currentFile == "" && classUsages == []
      ensures Valid()
    {
      currentFile := "";
      classUsages := [];
    }

    /** setCurrentFile: switches file and forgets earlier records. */
    method SetCurrentFile(file: string)
      modifies this
      ensures currentFile == file && classUsages == []
      ensures Valid()
    {
      currentFile := file;
      classUsages := [];
    }

    /** addClassUsage */
    method AddClassUsage(name: string, node: Node, kind: string)
      modifies this
      ensures currentFile == old(currentFile)
      ensures classUsages == old(classUsages) + [Record(name, kind, node.line, currentFile)]
    {
      classUsages := classUsages + [Record(name, kind, node.line, currentFile)];
    }

    /** The foreach loops of enterNode: one record per Name in `refs`. */
    method AddEach(refs: seq<NameRef>, node: Node, kind: string)
      modifies this
      ensures currentFile == old(currentFile)
      ensures classUsages == old(classUsages) + RecordsFor(refs, kind, node.line, currentFile)
    {
      for i := 0 to |refs|
        invariant currentFile == old(currentFile)
        invariant classUsages == old(classUsages) + RecordsFor(refs[..i], kind, node.line, currentFile)
      {
        NamesOfAppend(refs[..i], [refs[i]]);
        assert refs[..i + 1] == refs[..i] + [refs[i]];
        if refs[i].Name? {
          AddClassUsage(refs[i].text, node, kind);
        }
      }
      assert refs[..|refs|] == refs;
    }

    /** enterNode */
    method EnterNode(node: Node)
      modifies this
      ensures currentFile == old(currentFile)
      ensures classUsages == old(classUsages) + UsagesOf(node.kind, node.line, currentFile)
    {
      // The node kinds are exclusive, so enterNode's chain of instanceof
      // tests is a case split.
      match node.kind {
        case New(c) =>
          RecordsForOne(c, "instantiation", node.line, currentFile);
          if c.Name? { AddClassUsage(c.text, node, "instantiation"); }
        case InstanceOf(c) =>
          RecordsForOne(c, "instanceof", node.line, currentFile);
          if c.Name? { AddClassUsage(c.text, node, "instanceof"); }
        case ClassConstFetch(c) =>
          RecordsForOne(c, "const_access", node.line, currentFile);
          if c.Name? { AddClassUsage(c.text, node, "const_access"); }
        case Param(t) =>
          RecordsForOne(t, "type_hint", node.line, currentFile);
          if t.Name? { AddClassUsage(t.text, node, "type_hint"); }
        case Catch(types) =>
          AddEach(types, node, "catch");
        case ClassDecl(parent, interfaces) =>
          AddClassDecl(parent, interfaces, node);
        case InterfaceDecl(parents) =>
          AddEach(parents, node, "extends");
        case TraitUse(traits) =>
          AddEach(traits, node, "use_trait");
        case _ =>
      }
    }

    /** The class-declaration branch of enterNode: the parent, then each
        interface. */
    method AddClassDecl(parent: NameRef, interfaces: seq<NameRef>, node: Node)
      modifies this
      ensures currentFile == old(currentFile)
      ensures classUsages == old(classUsages) + (RecordsFor([parent], "extends", node.line, currentFile) +
                                                 RecordsFor(interfaces, "implements", node.line, currentFile))
    {
      RecordsForOne(parent, "extends", node.line, currentFile);
      if parent.Name? {
        AddClassUsage(parent.text, node, "extends");
      }
      AddEach(interfaces, node, "implements");
      Seqs.AppendAssoc(old(classUsages), RecordsFor([parent], "extends", node.line, currentFile),
                       RecordsFor(interfaces, "implements", node.line, currentFile));
    }

    /** NodeTraverser::traverse with this visitor: enterNode on every node in
        pre-order. */
    method Traverse(ast: seq<Node>)
      modifies this
      ensures currentFile == old(currentFile)
      ensures classUsages == old(classUsages) + UsagesIn(PreOrder(ast), currentFile)
      ensures old(Valid()) ==> Valid()
    {
      var nodes := PreOrder(ast);
      for i := 0 to |nodes|
        invariant currentFile == old(currentFile)
        invariant classUsages == old(classUsages) + UsagesIn(nodes[..i], currentFile)
      {
        UsagesInStep(nodes, i, currentFile);
        EnterNode(nodes[i]);
        Seqs.AppendAssoc(old(classUsages), UsagesIn(nodes[..i], currentFile), UsagesOf(nodes[i].kind, nodes[i].line, currentFile));
      }
      assert nodes[..|nodes|] == nodes;
    }

    /** Every record carries the current file:
        setCurrentFile forgets the records made before it. */
    predicate Valid()
      reads this
    {
      forall u :: u in classUsages ==> u.file == currentFile
    }

    /** getClassUsages: the records of the current file. */
    function GetClassUsages(): (r: seq<Record>)
      reads this
      requires Valid()
      ensures forall u :: u in r ==> u.file == currentFile
    {
      classUsages
    }

    /** getUniqueClassNames: each recorded name once, first occurrences first. */
    function GetUniqueClassNames(): (r: seq<string>)
      reads this
      ensures forall n :: n in r <==> exists u :: u in classUsages && u.name == n
      ensures forall i, j :: 0 <= i < j < |r| ==> r[i] != r[j]
    {
      var names := seq(|classUsages|, i requires 0 <= i < |classUsages| reads this => classUsages[i].name);
      assert forall n :: n in names <==> exists u :: u in classUsages && u.name == n by {
        forall n ensures n in names <==> exists u :: u in classUsages && u.name == n {
          if exists u :: u in classUsages && u.name == n {
            var u :| u in classUsages && u.name == n;
            var i :| 0 <= i < |classUsages| && classUsages[i] == u;
            assert names[i] == n;
          }
        }
      }
      Unique(names)
    }

    /** getUsagesByName: exactly the records with this name, case-sensitively. */
    function GetUsagesByName(name: string): (r: seq<Record>)
      reads this
      ensures forall u :: u in r <==> u in classUsages && u.name == name
      ensures forall u :: multiset(r)[u] == if u.name == name then multiset(classUsages)[u] else 0
    {
      WithNameCounts(classUsages, name);
      WithName(classUsages, name)
    }

    /** reset */
    method Reset()
      modifies this
      ensures classUsages == [] && currentFile == ""
      ensures Valid()
    {
      classUsages := [];
      currentFile := "";
    }
  }

  /** Records for one file: what analyzeFile obtains from a fresh extractor
      after setCurrentFile and traverse. */
  method ExtractUsages(ast: seq<Node>, file: string) returns (usages: seq<Record>)
    ensures usages == UsagesIn(PreOrder(ast), file)
  {
    var extractor := new ClassUsageExtractor();
    extractor.SetCurrentFile(file);
    extractor.Traverse(ast);
    usages := extractor.GetClassUsages();
  }
}
