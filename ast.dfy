/** The part of a PHP syntax tree that the extractors look at.  The parser
    itself (nikic/php-parser behind src/Parser/PHPParser.php) is not part of
    this model: a parse gives `Option<seq<Node>>`, None standing for the
    parser's `null` on a missing file or a syntax error, and `traverse` visits
    the nodes in pre-order. */
module Ast {

  /** A class or function reference: a static `Name` node, or any other
      expression (a variable, a call result, an absent type). */
  datatype NameRef = Name(text: string) | NotName

  /** A method-name position: a static `Identifier`, or a dynamic expression. */
  datatype IdentRef = Identifier(text: string) | NotIdentifier

  datatype Kind =
    | FuncCall(callee: NameRef)
    | MethodCall(methodName: IdentRef)
    | StaticCall(staticClass: NameRef, staticMethod: IdentRef)
    | New(newClass: NameRef)
    | InstanceOf(testedClass: NameRef)
    | ClassConstFetch(constClass: NameRef)
    | Param(paramType: NameRef)
    | Catch(caught: seq<NameRef>)
    | ClassDecl(parent: NameRef, interfaces: seq<NameRef>)
    | InterfaceDecl(parents: seq<NameRef>)
    | TraitUse(traits: seq<NameRef>)
    | Other

  /** A node: its kind, its start line and its children in source order. */
  datatype Node = Node(kind: Kind, line: int, children: seq<Node>)

  /** One record of an extractor: name, type, line and file. */
  datatype Record = Record(name: string, kind: string, line: int, file: string)

  /** The order in which NodeTraverser calls enterNode: each node before its
      children, siblings left to right. */
  function PreOrder(nodes: seq<Node>): (r: seq<Node>)
    ensures |r| >= |nodes|
    decreases nodes
  {
    if nodes == [] then []
    else [nodes[0]] + PreOrder(nodes[0].children) + PreOrder(nodes[1..])
  }

  /** Every top-level node is visited. */
  lemma {:induction false} PreOrderVisitsRoots(nodes: seq<Node>, i: nat)
    requires i < |nodes|
    ensures nodes[i] in PreOrder(nodes)
    decreases nodes
  {
    if i > 0 {
      PreOrderVisitsRoots(nodes[1..], i - 1);
    }
  }

  /** The names among `refs`, in order. */
  function NamesOf(refs: seq<NameRef>): (r: seq<string>)
    ensures |r| <= |refs|
    ensures forall n :: n in r <==> Name(n) in refs
  {
    if refs == [] then []
    else
      var rest := NamesOf(refs[1..]);
      assert refs == [refs[0]] + refs[1..];
      if refs[0].Name? then [refs[0].text] + rest else rest
  }

  lemma NamesOfAppend(a: seq<NameRef>, b: seq<NameRef>)
    ensures NamesOf(a + b) == NamesOf(a) + NamesOf(b)
  {
    if a != [] {
      assert (a + b)[1..] == a[1..] + b;
      NamesOfAppend(a[1..], b);
    } else {
      assert a + b == b;
    }
  }

  /** The names of `refs` each recorded with the given type, line and file. */
  function RecordsFor(refs: seq<NameRef>, kind: string, line: int, file: string): (r: seq<Record>)
    ensures |r| == |NamesOf(refs)|
    ensures forall i :: 0 <= i < |r| ==> r[i] == Record(NamesOf(refs)[i], kind, line, file)
  {
    var names := NamesOf(refs);
    seq(|names|, i requires 0 <= i < |names| => Record(names[i], kind, line, file))
  }

  /** Names in first-occurrence order without repeats, as `array_unique` keeps them. */
  function Unique(names: seq<string>): (r: seq<string>)
    ensures forall n :: n in r <==> n in names
    ensures forall i, j :: 0 <= i < j < |r| ==> r[i] != r[j]
  {
    if names == [] then []
    else
      var r := Unique(names[..|names| - 1]);
      var last := names[|names| - 1];
      assert names == names[..|names| - 1] + [last];
      if last in r then r else r + [last]
  }

  /** The records whose name equals `name` exactly (case-sensitively). */
  function WithName(records: seq<Record>, name: string): (r: seq<Record>)
    ensures forall x :: x in r <==> x in records && x.name == name
  {
    if records == [] then []
    else
      var rest := WithName(records[1..], name);
      assert records == [records[0]] + records[1..];
      if records[0].name == name then [records[0]] + rest else rest
  }

  /** Each matching record is kept as often as it occurs, and no other:
      `array_filter` drops no duplicate. */
  lemma {:induction false} WithNameCounts(records: seq<Record>, name: string)
    ensures forall x :: multiset(WithName(records, name))[x] == if x.name == name then multiset(records)[x] else 0
  {
    if records != [] {
      WithNameCounts(records[1..], name);
      assert records == [records[0]] + records[1..];
      assert multiset(records) == multiset([records[0]]) + multiset(records[1..]);
    }
  }

  /** Filtering keeps the order: the matches of two record lists one after
      the other are the two match lists one after the other. */
  lemma {:induction false} WithNameAppend(a: seq<Record>, b: seq<Record>, name: string)
    ensures WithName(a + b, name) == WithName(a, name) + WithName(b, name)
  {
    if a == [] {
      assert a + b == b;
    } else {
      var head := if a[0].name == name then [a[0]] else [];
      assert (a + b)[0] == a[0] && (a + b)[1..] == a[1..] + b;
      assert WithName(a + b, name) == head + WithName(a[1..] + b, name);
      assert WithName(a, name) == head + WithName(a[1..], name);
      WithNameAppend(a[1..], b, name);
    }
  }

  /** One record is kept exactly when it has the name. */
  lemma WithNameSingle(x: Record, name: string)
    ensures WithName([x], name) == if x.name == name then [x] else []
  {
    assert [x][1..] == [];
  }
}
