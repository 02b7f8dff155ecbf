/** src/Parser/FunctionCallExtractor.php: a visitor that records every call
    whose callee is written out statically. */
module FunctionCallExtractor {
  import opened Text
  import opened Ast

  /** The records enterNode adds for one node of kind `kind` starting on
      `line`, while `file` is the current file. */
  function CallsOf(kind: Kind, line: int, file: string): (r: seq<Record>)
    ensures |r| <= 1
    ensures forall c :: c in r ==> c.line == line && c.file == file
    // a function call is recorded only when its name is a static Name
    ensures kind.FuncCall? ==> (|r| == 1 <==> kind.callee.Name?)
    ensures kind.FuncCall? && kind.callee.Name? ==> r == [Record(kind.callee.text, "function", line, file)]
    // a method call is recorded under the bare method name
    ensures kind.MethodCall? ==> (|r| == 1 <==> kind.methodName.Identifier?)
    ensures kind.MethodCall? && kind.methodName.Identifier? ==> r == [Record(kind.methodName.text, "method", line, file)]
    // a static call is "Class::method" when the class is a Name, else the bare method name
    ensures kind.StaticCall? ==> (|r| == 1 <==> kind.staticMethod.Identifier?)
    ensures kind.StaticCall? && kind.staticMethod.Identifier? ==>
      r[0].kind == "static_method" &&
      r[0].name == if kind.staticClass.Name? && Truthy(kind.staticClass.text)
                   then kind.staticClass.text + "::" + kind.staticMethod.text
                   else kind.staticMethod.text
    ensures !kind.FuncCall? && !kind.MethodCall? && !kind.StaticCall? ==> r == []
  {
    match kind
    case FuncCall(Name(n)) => [Record(n, "function", line, file)]
    case MethodCall(Identifier(m)) => [Record(m, "method", line, file)]
    case StaticCall(cls, Identifier(m)) =>
      var className := if cls.Name? then cls.text else "";
      var fullName := if Truthy(className) then className + "::" + m else m;
      [Record(fullName, "static_method", line, file)]
    case _ => []
  }

  /** The records a traversal of `nodes` adds, in visiting order. */
  function CallsIn(nodes: seq<Node>, file: string): (r: seq<Record>)
    ensures forall c :: c in r ==> c.file == file
  {
    if nodes == [] then []
    else CallsIn(nodes[..|nodes| - 1], file) + CallsOf(nodes[|nodes| - 1].kind, nodes[|nodes| - 1].line, file)
  }

  /** Traversal records are the concatenation of the per-node records. */
  lemma {:induction false} CallsInAppend(a: seq<Node>, b: seq<Node>, file: string)
    ensures CallsIn(a + b, file) == CallsIn(a, file) + CallsIn(b, file)
    decreases |b|
  {
    if b == [] {
      assert a + b == a;
    } else {
      var b' := b[..|b| - 1];
      assert (a + b)[..|a + b| - 1] == a + b';
      CallsInAppend(a, b', file);
    }
  }

  /** Each record carries the line of a visited node. */
  lemma {:induction false} CallsInLines(nodes: seq<Node>, file: string)
    ensures forall c :: c in CallsIn(nodes, file) ==> exists n :: n in nodes && c.line == n.line
  {
    if nodes != [] {
      var init := nodes[..|nodes| - 1];
      CallsInLines(init, file);
      var last := nodes[|nodes| - 1];
      forall c | c in CallsIn(nodes, file) ensures exists n :: n in nodes && c.line == n.line {
        if c in CallsIn(init, file) {
          var n :| n in init && c.line == n.line;
          assert n in nodes;
        } else {
          assert c in CallsOf(last.kind, last.line, file);
          assert last in nodes;
        }
      }
    }
  }

  class FunctionCallExtractor {
    var currentFile: string
    var functionCalls: seq<Record>

    constructor ()
      ensures currentFile == "" && functionCalls == []
      ensures Valid()
    {
      currentFile := "";
      functionCalls := [];
    }

    /** setCurrentFile: switches file and forgets earlier records. */
    method SetCurrentFile(file: string)
      modifies this
      ensures currentFile == file && functionCalls == []
      ensures Valid()
    {
      currentFile := file;
      functionCalls := [];
    }

    /** addFunctionCall */
    method AddFunctionCall(name: string, node: Node, kind: string)
      modifies this
      ensures currentFile == old(currentFile)
      ensures functionCalls == old(functionCalls) + [Record(name, kind, node.line, currentFile)]
    {
      functionCalls := functionCalls + [Record(name, kind, node.line, currentFile)];
    }

    /** enterNode */
    method EnterNode(node: Node)
      modifies this
      ensures currentFile == old(currentFile)
      ensures functionCalls == old(functionCalls) + CallsOf(node.kind, node.line, currentFile)
    {
      if node.kind.FuncCall? {
        if node.kind.callee.Name? {
          AddFunctionCall(node.kind.callee.text, node, "function");
        }
      }
      if node.kind.MethodCall? {
        if node.kind.methodName.Identifier? {
          AddFunctionCall(node.kind.methodName.text, node, "method");
        }
      }
      if node.kind.StaticCall? {
        if node.kind.staticMethod.Identifier? {
          var className := "";
          if node.kind.staticClass.Name? {
            className := node.kind.staticClass.text;
          }
          var methodName := node.kind.staticMethod.text;
          var fullName := if Truthy(className) then className + "::" + methodName else methodName;
          AddFunctionCall(fullName, node, "static_method");
        }
      }
    }

    /** NodeTraverser::traverse with this visitor: enterNode on every node in
        pre-order. */
    method Traverse(ast: seq<Node>)
      modifies this
      ensures currentFile == old(currentFile)
      ensures functionCalls == old(functionCalls) + CallsIn(PreOrder(ast), currentFile)
      ensures old(Valid()) ==> Valid()
    {
      var nodes := PreOrder(ast);
      for i := 0 to |nodes|
        invariant currentFile == old(currentFile)
        invariant functionCalls == old(functionCalls) + CallsIn(nodes[..i], currentFile)
      {
        assert nodes[..i + 1][..i] == nodes[..i];
        EnterNode(nodes[i]);
      }
      assert nodes[..|nodes|] == nodes;
    }

    /** Every record carries the current file:
        setCurrentFile forgets the records made before it. */
    predicate Valid()
      reads this
    {
      forall c :: c in functionCalls ==> c.file == currentFile
    }

    /** getFunctionCalls: the records of the current file. */
    function GetFunctionCalls(): (r: seq<Record>)
      reads this
      requires Valid()
      ensures forall c :: c in r ==> c.file == currentFile
    {
      functionCalls
    }

    /** getUniqueFunctionNames: each recorded name once, first occurrences first. */
    function GetUniqueFunctionNames(): (r: seq<string>)
      reads this
      ensures forall n :: n in r <==> exists c :: c in functionCalls && c.name == n
      ensures forall i, j :: 0 <= i < j < |r| ==> r[i] != r[j]
    {
      var names := seq(|functionCalls|, i requires 0 <= i < |functionCalls| reads this => functionCalls[i].name);
      assert forall n :: n in names <==> exists c :: c in functionCalls && c.name == n by {
        forall n ensures n in names <==> exists c :: c in functionCalls && c.name == n {
          if exists c :: c in functionCalls && c.name == n {
            var c :| c in functionCalls && c.name == n;
            var i :| 0 <= i < |functionCalls| && functionCalls[i] == c;
            assert names[i] == n;
          }
        }
      }
      Unique(names)
    }

    /** getCallsByName: exactly the records with this name, case-sensitively. */
    function GetCallsByName(name: string): (r: seq<Record>)
      reads this
      ensures forall c :: c in r <==> c in functionCalls && c.name == name
      ensures forall c :: multiset(r)[c] == if c.name == name then multiset(functionCalls)[c] else 0
    {
      WithNameCounts(functionCalls, name);
      WithName(functionCalls, name)
    }

    /** reset */
    method Reset()
      modifies this
      ensures functionCalls == [] && currentFile == ""
      ensures Valid()
    {
      functionCalls := [];
      currentFile := "";
    }
  }

  /** Records for one file: what analyzeFile obtains from a fresh extractor
      after setCurrentFile and traverse. */
  method ExtractCalls(ast: seq<Node>, file: string) returns (calls: seq<Record>)
    ensures calls == CallsIn(PreOrder(ast), file)
  {
    var extractor := new FunctionCallExtractor();
    extractor.SetCurrentFile(file);
    extractor.Traverse(ast);
    calls := extractor.GetFunctionCalls();
  }
}
