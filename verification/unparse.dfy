/**
 * The unparser as it runs: every `unparse` method appends to an output
 * stream, one piece at a time, and loops over the lists of globals, formals
 * and statements.  Each method is proved to append exactly the text the
 * corresponding `Render` function gives, and nothing else.
 */
module Unparse {
  import opened Ast
  import opened Render

  /** The output stream: text is only ever appended to it. */
  class OutStream {
    var text: string

    constructor ()
      ensures text == ""
    {
      text := "";
    }

    method Write(s: string)
      modifies this
      ensures text == old(text) + s
    {
      text := text + s;
    }
  }

  /** `doIndent`: one tab for each `k` from 0 up to `indent`. */
  method DoIndent(out: OutStream, indent: int)
    modifies out
    ensures out.text == old(out.text) + Tabs(indent)
  {
    var k := 0;
    while k < indent
      invariant 0 <= k <= if indent <= 0 then 0 else indent
      invariant out.text == old(out.text) + Tabs(k)
    {
      out.Write("\t");
      k := k + 1;
    }
  }

  // ---------------------------------------------------------------------
  // Identifiers, types and the defined expression nodes
  // ---------------------------------------------------------------------

  method UnparseId(id: Id, out: OutStream, indent: int)
    modifies out
    ensures out.text == old(out.text) + RenderId(id, indent)
  {
    DoIndent(out, indent);
    out.Write(id.strVal);
  }

  method UnparseType(t: Type, out: OutStream, indent: int)
    modifies out
    ensures out.text == old(out.text) + RenderType(t, indent)
    decreases t
  {
    DoIndent(out, indent);
    match t
    case ArrayType(_, elem) => UnparseType(elem, out, 0);
    case BoolType(_) => out.Write("bool");
    case ByteType(_) => out.Write("byte");
    case IntType(_) => out.Write("int");
    case VoidType(_) => out.Write("void");
  }

  method UnparseAssignExp(a: AssignExp, out: OutStream, indent: int)
    modifies out
    ensures out.text == old(out.text) + RenderAssignExp(a, indent)
  {
    DoIndent(out, indent);
  }

  method UnparseLVal(lv: LVal, out: OutStream, indent: int, st: Stubs)
    modifies out
    ensures out.text == old(out.text) + RenderLVal(lv, indent, st)
  {
    match lv
    case IdRef(id) => UnparseId(id, out, indent);
    case Index(_, _, _) => out.Write(st.index(lv, indent));
  }

  method UnparseExp(e: Exp, out: OutStream, indent: int, st: Stubs)
    modifies out
    ensures out.text == old(out.text) + RenderExp(e, indent, st)
  {
    match e
    case Assign(a) => UnparseAssignExp(a, out, indent);
    case LValue(lv) => UnparseLVal(lv, out, indent, st);
    case _ => out.Write(st.exp(e, indent));
  }

  // ---------------------------------------------------------------------
  // Statements
  // ---------------------------------------------------------------------

  /** The virtual call `stmt->unparse(out, indent)`. */
  method UnparseStmt(s: Stmt, out: OutStream, indent: int, st: Stubs)
    modifies out
    ensures out.text == old(out.text) + RenderStmt(s, indent, st)
    decreases s, 1
  {
    match s
    case AssignStmt(_, _) => UnparseAssignStmt(s, out, indent, st);
    case ReadStmt(_, _) => UnparseReadStmt(s, out, indent, st);
    case WriteStmt(_, _) => UnparseWriteStmt(s, out, indent, st);
    case PostDecStmt(_, _) => UnparsePostDecStmt(s, out, indent, st);
    case PostIncStmt(_, _) => UnparsePostIncStmt(s, out, indent, st);
    case IfStmt(_, _, _) => UnparseIfStmt(s, out, indent, st);
    case IfElseStmt(_, _, _, _) => UnparseIfElseStmt(s, out, indent, st);
    case WhileStmt(_, _, _) => UnparseWhileStmt(s, out, indent, st);
    case ReturnStmt(_, _) => UnparseReturnStmt(s, out, indent, st);
    case CallStmt(_, _) => UnparseCallStmt(s, out, indent, st);
  }

  method UnparseAssignStmt(s: Stmt, out: OutStream, indent: int, st: Stubs)
    requires s.AssignStmt?
    modifies out
    ensures out.text == old(out.text) + RenderStmt(s, indent, st)
  {
    DoIndent(out, indent);
    UnparseAssignExp(s.assign, out, 0);
  }

  method UnparseReadStmt(s: Stmt, out: OutStream, indent: int, st: Stubs)
    requires s.ReadStmt?
    modifies out
    ensures out.text == old(out.text) + RenderStmt(s, indent, st)
  {
    DoIndent(out, indent);
    UnparseLVal(s.lval, out, 0, st);
  }

  method UnparseWriteStmt(s: Stmt, out: OutStream, indent: int, st: Stubs)
    requires s.WriteStmt?
    modifies out
    ensures out.text == old(out.text) + RenderStmt(s, indent, st)
  {
    DoIndent(out, indent);
    UnparseExp(s.exp, out, 0, st);
  }

  method UnparsePostDecStmt(s: Stmt, out: OutStream, indent: int, st: Stubs)
    requires s.PostDecStmt?
    modifies out
    ensures out.text == old(out.text) + RenderStmt(s, indent, st)
  {
    DoIndent(out, indent);
    UnparseLVal(s.lval, out, 0, st);
    out.Write("--\n");
  }

  method UnparsePostIncStmt(s: Stmt, out: OutStream, indent: int, st: Stubs)
    requires s.PostIncStmt?
    modifies out
    ensures out.text == old(out.text) + RenderStmt(s, indent, st)
  {
    DoIndent(out, indent);
    UnparseLVal(s.lval, out, 0, st);
    out.Write("++\n");
  }

  /** The `for` loop over a statement list: each statement in order, at `indent`. */
  method UnparseStmtList(ss: seq<Stmt>, out: OutStream, indent: int, st: Stubs)
    modifies out
    ensures out.text == old(out.text) + RenderStmts(ss, indent, st)
    decreases ss, 2
  {
    for j := 0 to |ss|
      invariant out.text == old(out.text) + RenderStmts(ss[..j], indent, st)
    {
      RenderStmtsSnoc(ss, j, indent, st);
      AppendAssoc(old(out.text), RenderStmts(ss[..j], indent, st), RenderStmt(ss[j], indent, st));
      UnparseStmt(ss[j], out, indent, st);
    }
    assert ss[..|ss|] == ss;
  }

  method UnparseIfStmt(s: Stmt, out: OutStream, indent: int, st: Stubs)
    requires s.IfStmt?
    modifies out
    ensures out.text == old(out.text) + RenderStmt(s, indent, st)
    decreases s, 0
  {
    UnparseBlock("if ( ", s.cond, s.body, out, indent, st);
    IfStmtText(old(out.text), s, indent, st);
  }

  method UnparseIfElseStmt(s: Stmt, out: OutStream, indent: int, st: Stubs)
    requires s.IfElseStmt?
    modifies out
    ensures out.text == old(out.text) + RenderStmt(s, indent, st)
    decreases s, 0
  {
    UnparseBlock("if (", s.cond, s.thenBody, out, indent, st);
    ghost var mid := out.text;
    out.Write("else{");
    UnparseStmtList(s.elseBody, out, indent + 1, st);
    DoIndent(out, indent);
    out.Write("}");
    IfElseStmtText(old(out.text), mid, s, indent, st);
  }

  method UnparseWhileStmt(s: Stmt, out: OutStream, indent: int, st: Stubs)
    requires s.WhileStmt?
    modifies out
    ensures out.text == old(out.text) + RenderStmt(s, indent, st)
    decreases s, 0
  {
    UnparseBlock("while(", s.cond, s.body, out, indent, st);
    WhileText(old(out.text), s, indent, st);
  }

  /**
   * The shape shared by `if` and `while`: the keyword at `indent`, the
   * condition, `){`, the body one level deeper and the closing brace.
   */
  method UnparseBlock(keyword: string, cond: Exp, body: seq<Stmt>, out: OutStream, indent: int, st: Stubs)
    modifies out
    ensures out.text == old(out.text) + Tabs(indent) + keyword + RenderExp(cond, 0, st) + "){\n"
                        + RenderStmts(body, indent + 1, st) + Tabs(indent) + "}"
    decreases body, 3
  {
    DoIndent(out, indent);
    out.Write(keyword);
    UnparseExp(cond, out, 0, st);
    out.Write("){\n");
    UnparseStmtList(body, out, indent + 1, st);
    DoIndent(out, indent);
    out.Write("}");
  }

  method UnparseReturnStmt(s: Stmt, out: OutStream, indent: int, st: Stubs)
    requires s.ReturnStmt?
    modifies out
    ensures out.text == old(out.text) + RenderStmt(s, indent, st)
    decreases s, 0
  {
    DoIndent(out, indent);
    out.Write("return ");
    if s.result.Some? {
      out.Write(" ");
      UnparseExp(s.result.value, out, 0, st);
    }
    out.Write(";\n");
  }

  method UnparseCallStmt(s: Stmt, out: OutStream, indent: int, st: Stubs)
    requires s.CallStmt?
    modifies out
    ensures out.text == old(out.text) + RenderStmt(s, indent, st)
  {
    DoIndent(out, indent);
    out.Write(st.exp(Call(s.call), 0));
    out.Write(";\n");
  }

  // ---------------------------------------------------------------------
  // Declarations and the program
  // ---------------------------------------------------------------------

  method UnparseVarDecl(d: Decl, out: OutStream, indent: int, st: Stubs)
    requires d.VarDecl?
    modifies out
    ensures out.text == old(out.text) + RenderDecl(d, indent, st)
  {
    DoIndent(out, indent);
    UnparseId(d.id, out, 0);
    out.Write(" : ");
    UnparseType(d.ty, out, 0);
    out.Write(";\n");
  }

  method UnparseFormal(f: Formal, out: OutStream, indent: int)
    modifies out
    ensures out.text == old(out.text) + RenderFormal(f, indent)
  {
    DoIndent(out, indent);
    UnparseId(f.id, out, 0);
    out.Write(" : ");
    UnparseType(f.ty, out, 0);
  }

  method UnparseFnDecl(d: Decl, out: OutStream, indent: int, st: Stubs)
    requires d.FnDecl?
    modifies out
    ensures out.text == old(out.text) + RenderDecl(d, indent, st)
  {
    DoIndent(out, indent);
    UnparseType(d.ty, out, 0);
    out.Write(" : ");
    UnparseId(d.id, out, 0);
    out.Write("(");
    UnparseFormalList(d.formals, out);
    out.Write(")\n");
    UnparseStmtList(d.body, out, indent + 1, st);
    DoIndent(out, indent);
    out.Write("}\n");
    FnDeclText(old(out.text), d, indent, st);
  }

  /** The loop over the formals of a function: each preceded by ", ". */
  method UnparseFormalList(fs: seq<Formal>, out: OutStream)
    modifies out
    ensures out.text == old(out.text) + RenderFormals(fs)
  {
    for j := 0 to |fs|
      invariant out.text == old(out.text) + RenderFormals(fs[..j])
    {
      RenderFormalsSnoc(fs, j);
      AppendAssoc(old(out.text), RenderFormals(fs[..j]) + ", ", RenderFormal(fs[j], 0));
      AppendAssoc(old(out.text), RenderFormals(fs[..j]), ", ");
      out.Write(", ");
      UnparseFormal(fs[j], out, 0);
    }
    assert fs[..|fs|] == fs;
  }

  /** The virtual call `decl->unparse(out, indent)`. */
  method UnparseDecl(d: Decl, out: OutStream, indent: int, st: Stubs)
    modifies out
    ensures out.text == old(out.text) + RenderDecl(d, indent, st)
  {
    match d
    case VarDecl(_, _, _) => UnparseVarDecl(d, out, indent, st);
    case FormalDecl(f) => UnparseFormal(f, out, indent);
    case FnDecl(_, _, _, _, _) => UnparseFnDecl(d, out, indent, st);
  }

  method UnparseProgram(p: Program, out: OutStream, indent: int, st: Stubs)
    modifies out
    ensures out.text == old(out.text) + RenderProgram(p, indent, st)
  {
    for j := 0 to |p.globals|
      invariant out.text == old(out.text) + RenderDecls(p.globals[..j], indent, st)
    {
      RenderDeclsSnoc(p.globals, j, indent, st);
      AppendAssoc(old(out.text), RenderDecls(p.globals[..j], indent, st), RenderDecl(p.globals[j], indent, st));
      UnparseDecl(p.globals[j], out, indent, st);
    }
    assert p.globals[..|p.globals|] == p.globals;
  }

  /** What the driver does with a parsed program: unparse it at level 0 into a fresh stream. */
  method UnparseToNewStream(p: Program, st: Stubs) returns (text: string)
    ensures text == RenderProgram(p, 0, st)
  {
    var out := new OutStream();
    UnparseProgram(p, out, 0, st);
    text := out.text;
  }

  // ---------------------------------------------------------------------
  // The text a block statement appends, one piece per write
  // ---------------------------------------------------------------------

  lemma WhileText(o: string, s: Stmt, indent: int, st: Stubs)
    requires s.WhileStmt?
    ensures o + RenderStmt(s, indent, st)
         == o + Tabs(indent) + "while(" + RenderExp(s.cond, 0, st) + "){\n"
            + RenderStmts(s.body, indent + 1, st) + Tabs(indent) + "}"
  {
    var t, c, b := Tabs(indent), RenderExp(s.cond, 0, st), RenderStmts(s.body, indent + 1, st);
    var x2 := t + "while(";
    var x3 := x2 + c;
    var x4 := x3 + "){\n";
    var x5 := x4 + b;
    var x6 := x5 + t;
    assert RenderStmt(s, indent, st) == x6 + "}";
    AppendAssoc(o, x6, "}");
    AppendAssoc(o, x5, t);
    AppendAssoc(o, x4, b);
    AppendAssoc(o, x3, "){\n");
    AppendAssoc(o, x2, c);
    AppendAssoc(o, t, "while(");
  }

  lemma IfStmtText(o: string, s: Stmt, indent: int, st: Stubs)
    requires s.IfStmt?
    ensures o + RenderStmt(s, indent, st)
         == o + Tabs(indent) + "if ( " + RenderExp(s.cond, 0, st) + "){\n"
            + RenderStmts(s.body, indent + 1, st) + Tabs(indent) + "}"
  {
    var t, c, b := Tabs(indent), RenderExp(s.cond, 0, st), RenderStmts(s.body, indent + 1, st);
    var x2 := t + "if ( ";
    var x3 := x2 + c;
    var x4 := x3 + "){\n";
    var x5 := x4 + b;
    var x6 := x5 + t;
    assert RenderStmt(s, indent, st) == x6 + "}";
    AppendAssoc(o, x6, "}");
    AppendAssoc(o, x5, t);
    AppendAssoc(o, x4, b);
    AppendAssoc(o, x3, "){\n");
    AppendAssoc(o, x2, c);
    AppendAssoc(o, t, "if ( ");
  }

  lemma IfElseStmtText(o: string, mid: string, s: Stmt, indent: int, st: Stubs)
    requires s.IfElseStmt?
    requires mid == o + Tabs(indent) + "if (" + RenderExp(s.cond, 0, st) + "){\n"
                    + RenderStmts(s.thenBody, indent + 1, st) + Tabs(indent) + "}"
    ensures o + RenderStmt(s, indent, st)
         == mid + "else{" + RenderStmts(s.elseBody, indent + 1, st) + Tabs(indent) + "}"
  {
    var t, c := Tabs(indent), RenderExp(s.cond, 0, st);
    var b, e := RenderStmts(s.thenBody, indent + 1, st), RenderStmts(s.elseBody, indent + 1, st);
    var x2 := t + "if (";
    var x3 := x2 + c;
    var x4 := x3 + "){\n";
    var x5 := x4 + b;
    var x6 := x5 + t;
    var x7 := x6 + "}";
    var y1 := x7 + "else{";
    var y2 := y1 + e;
    var y3 := y2 + t;
    assert RenderStmt(s, indent, st) == y3 + "}";
    AppendAssoc(o, y3, "}");
    AppendAssoc(o, y2, t);
    AppendAssoc(o, y1, e);
    AppendAssoc(o, x7, "else{");
    AppendAssoc(o, x6, "}");
    AppendAssoc(o, x5, t);
    AppendAssoc(o, x4, b);
    AppendAssoc(o, x3, "){\n");
    AppendAssoc(o, x2, c);
    AppendAssoc(o, t, "if (");
  }

  lemma FnDeclText(o: string, d: Decl, indent: int, st: Stubs)
    requires d.FnDecl?
    ensures o + RenderDecl(d, indent, st)
         == o + Tabs(indent) + RenderType(d.ty, 0) + " : " + RenderId(d.id, 0) + "("
            + RenderFormals(d.formals) + ")\n" + RenderStmts(d.body, indent + 1, st) + Tabs(indent) + "}\n"
  {
    var t, ty, id := Tabs(indent), RenderType(d.ty, 0), RenderId(d.id, 0);
    var fs, b := RenderFormals(d.formals), RenderStmts(d.body, indent + 1, st);
    var x2 := t + ty;
    var x3 := x2 + " : ";
    var x4 := x3 + id;
    var x5 := x4 + "(";
    var x6 := x5 + fs;
    var x7 := x6 + ")\n";
    var x8 := x7 + b;
    var x9 := x8 + t;
    assert RenderDecl(d, indent, st) == x9 + "}\n";
    AppendAssoc(o, x9, "}\n");
    AppendAssoc(o, x8, t);
    AppendAssoc(o, x7, b);
    AppendAssoc(o, x6, ")\n");
    AppendAssoc(o, x5, fs);
    AppendAssoc(o, x4, "(");
    AppendAssoc(o, x3, id);
    AppendAssoc(o, x2, " : ");
    AppendAssoc(o, t, ty);
  }
}
