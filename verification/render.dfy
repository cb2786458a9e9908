/**
 * The text each `unparse` method of the Crona AST appends to its output
 * stream, as a function of the node and the indentation level.
 *
 * `Render...(node, indent)` is exactly what `node->unparse(out, indent)`
 * appends.  The unparse methods that ast.hpp declares but unparse.cpp never
 * defines (calls, literals, `true`/`false`/`havoc`, the unary and binary
 * operators, indexing) have no known output: they are the two functions of
 * a `Stubs` value that every renderer takes, and every lemma below holds
 * whatever those functions are.
 */
module Render {
  import opened Ast

  /** Output of the unparse methods that are declared but not defined. */
  datatype Stubs = Stubs(exp: (Exp, int) -> string, index: (LVal, int) -> string)

  /** `doIndent`: one tab per level, none for a level of zero or below. */
  function Tabs(indent: int): (s: string)
    ensures |s| == if indent <= 0 then 0 else indent
    ensures forall k :: 0 <= k < |s| ==> s[k] == '\t'
    decreases indent
  {
    if indent <= 0 then "" else Tabs(indent - 1) + "\t"
  }

  /** The keyword of a non-array type. */
  function Keyword(t: Type): string
    requires !t.ArrayType?
  {
    match t
    case IntType(_) => "int"
    case BoolType(_) => "bool"
    case ByteType(_) => "byte"
    case VoidType(_) => "void"
  }

  function RenderId(id: Id, indent: int): string {
    Tabs(indent) + id.strVal
  }

  function RenderType(t: Type, indent: int): string {
    match t
    case ArrayType(_, elem) => Tabs(indent) + RenderType(elem, 0)
    case BoolType(_) => Tabs(indent) + "bool"
    case ByteType(_) => Tabs(indent) + "byte"
    case IntType(_) => Tabs(indent) + "int"
    case VoidType(_) => Tabs(indent) + "void"
  }

  /** AssignExpNode prints its indentation and nothing of its operands. */
  function RenderAssignExp(a: AssignExp, indent: int): string {
    Tabs(indent)
  }

  function RenderLVal(lv: LVal, indent: int, st: Stubs): string {
    match lv
    case IdRef(id) => RenderId(id, indent)
    case Index(_, _, _) => st.index(lv, indent)
  }

  function RenderExp(e: Exp, indent: int, st: Stubs): string {
    match e
    case Assign(a) => RenderAssignExp(a, indent)
    case LValue(lv) => RenderLVal(lv, indent, st)
    case _ => st.exp(e, indent)
  }

  function RenderStmt(s: Stmt, indent: int, st: Stubs): string
    decreases s
  {
    match s
    case AssignStmt(_, a) => Tabs(indent) + RenderAssignExp(a, 0)
    case ReadStmt(_, lv) => Tabs(indent) + RenderLVal(lv, 0, st)
    case WriteStmt(_, e) => Tabs(indent) + RenderExp(e, 0, st)
    case PostDecStmt(_, lv) => Tabs(indent) + RenderLVal(lv, 0, st) + "--\n"
    case PostIncStmt(_, lv) => Tabs(indent) + RenderLVal(lv, 0, st) + "++\n"
    case IfStmt(_, cond, body) =>
      Tabs(indent) + "if ( " + RenderExp(cond, 0, st) + "){\n"
      + RenderStmts(body, indent + 1, st)
      + Tabs(indent) + "}"
    case IfElseStmt(_, cond, thenBody, elseBody) =>
      Tabs(indent) + "if (" + RenderExp(cond, 0, st) + "){\n"
      + RenderStmts(thenBody, indent + 1, st)
      + Tabs(indent) + "}" + "else{"
      + RenderStmts(elseBody, indent + 1, st)
      + Tabs(indent) + "}"
    case WhileStmt(_, cond, body) =>
      Tabs(indent) + "while(" + RenderExp(cond, 0, st) + "){\n"
      + RenderStmts(body, indent + 1, st)
      + Tabs(indent) + "}"
    case ReturnStmt(_, result) =>
      Tabs(indent) + "return "
      + (if result.Some? then " " + RenderExp(result.value, 0, st) else "")
      + ";\n"
    case CallStmt(_, c) => Tabs(indent) + RenderExp(Call(c), 0, st) + ";\n"
  }

  /** A statement list: each statement in order, all at the same level. */
  function RenderStmts(ss: seq<Stmt>, indent: int, st: Stubs): string
    decreases ss
  {
    if ss == [] then "" else RenderStmt(ss[0], indent, st) + RenderStmts(ss[1..], indent, st)
  }

  function RenderFormal(f: Formal, indent: int): string {
    Tabs(indent) + RenderId(f.id, 0) + " : " + RenderType(f.ty, 0)
  }

  /** The parameter list of a function: every formal preceded by ", ". */
  function RenderFormals(fs: seq<Formal>): string {
    if fs == [] then "" else ", " + RenderFormal(fs[0], 0) + RenderFormals(fs[1..])
  }

  function RenderDecl(d: Decl, indent: int, st: Stubs): string {
    match d
    case VarDecl(_, ty, id) => Tabs(indent) + RenderId(id, 0) + " : " + RenderType(ty, 0) + ";\n"
    case FormalDecl(f) => RenderFormal(f, indent)
    case FnDecl(_, ty, id, formals, body) =>
      Tabs(indent) + RenderType(ty, 0) + " : " + RenderId(id, 0)
      + "(" + RenderFormals(formals) + ")\n"
      + RenderStmts(body, indent + 1, st)
      + Tabs(indent) + "}\n"
  }

  function RenderDecls(ds: seq<Decl>, indent: int, st: Stubs): string {
    if ds == [] then "" else RenderDecl(ds[0], indent, st) + RenderDecls(ds[1..], indent, st)
  }

  function RenderProgram(p: Program, indent: int, st: Stubs): string {
    RenderDecls(p.globals, indent, st)
  }

  /** How often `ch` occurs in `s`. */
  function Count(s: string, ch: char): (n: nat)
    ensures n <= |s|
    ensures n == 0 <==> ch !in s
  {
    if s == [] then 0 else (if s[0] == ch then 1 else 0) + Count(s[1..], ch)
  }

  // ---------------------------------------------------------------------
  // Counting characters
  // ---------------------------------------------------------------------

  lemma {:induction false} CountAppend(a: string, b: string, ch: char)
    ensures Count(a + b, ch) == Count(a, ch) + Count(b, ch)
  {
    if a == [] {
      assert a + b == b;
    } else {
      assert (a + b)[0] == a[0] && (a + b)[1..] == a[1..] + b;
      CountAppend(a[1..], b, ch);
    }
  }

  lemma {:induction false} CountTabs(indent: int, ch: char)
    ensures Count(Tabs(indent), ch) == if ch == '\t' then |Tabs(indent)| else 0
    decreases indent
  {
    if indent > 0 {
      CountTabs(indent - 1, ch);
      CountAppend(Tabs(indent - 1), "\t", ch);
    }
  }

  // ---------------------------------------------------------------------
  // Types and identifiers
  // ---------------------------------------------------------------------

  /** Any type prints as the keyword of its innermost base type: arrays print only their element type. */
  lemma {:induction false} RenderTypeIsBaseKeyword(t: Type, indent: int)
    ensures RenderType(t, indent) == Tabs(indent) + Keyword(BaseType(t))
  {
    match t
    case ArrayType(_, elem) =>
      RenderTypeIsBaseKeyword(elem, 0);
    case _ =>
  }

  /** An array type prints exactly as its element type does. */
  lemma ArrayRendersAsElement(p: Pos, elem: Type, indent: int)
    ensures RenderType(ArrayType(p, elem), indent) == RenderType(elem, indent)
  {
    RenderTypeIsBaseKeyword(ArrayType(p, elem), indent);
    RenderTypeIsBaseKeyword(elem, indent);
  }

  /** A printed type holds its indentation tabs and no tab, comma or newline after them. */
  lemma RenderTypeCounts(t: Type, indent: int, ch: char)
    requires ch in "\t,\n"
    ensures Count(RenderType(t, indent), ch) == if ch == '\t' then |Tabs(indent)| else 0
  {
    RenderTypeIsBaseKeyword(t, indent);
    var b := BaseType(t);
    CountAppend(Tabs(indent), Keyword(b), ch);
    CountTabs(indent, ch);
    assert ch !in Keyword(b);
  }

  /** An identifier built from a token prints as bare indentation: its name is never stored. */
  lemma RenderIdFromToken(token: IdToken, indent: int)
    ensures RenderId(MkId(token), indent) == Tabs(indent)
  {
  }

  // ---------------------------------------------------------------------
  // Declarations
  // ---------------------------------------------------------------------

  /** A variable declaration prints as the formal with the same type and id, followed by ";\n". */
  lemma VarDeclIsTerminatedFormal(l: nat, c: nat, ty: Type, id: Id, indent: int, st: Stubs)
    ensures RenderDecl(MkVarDecl(l, c, ty, id), indent, st)
         == RenderFormal(MkFormal(l, c, ty, id), indent) + ";\n"
  {
  }

  /** A declaration of an identifier from a token prints as `tabs : keyword;\n`. */
  lemma VarDeclFromTokenText(l: nat, c: nat, ty: Type, token: IdToken, indent: int, st: Stubs)
    ensures RenderDecl(MkVarDecl(l, c, ty, MkId(token)), indent, st)
         == Tabs(indent) + " : " + Keyword(BaseType(ty)) + ";\n"
  {
    RenderTypeIsBaseKeyword(ty, 0);
  }

  /** A variable declaration holds exactly `indent` tabs when its name has none. */
  lemma VarDeclTabCount(p: Pos, ty: Type, id: Id, indent: int, st: Stubs)
    requires '\t' !in id.strVal
    ensures Count(RenderDecl(VarDecl(p, ty, id), indent, st), '\t') == if indent <= 0 then 0 else indent
  {
    var rest := id.strVal + " : " + RenderType(ty, 0) + ";\n";
    RenderTypeCounts(ty, 0, '\t');
    assert '\t' !in rest;
    assert RenderDecl(VarDecl(p, ty, id), indent, st) == Tabs(indent) + rest;
    CountAppend(Tabs(indent), rest, '\t');
    CountTabs(indent, '\t');
  }

  lemma {:induction false} RenderFormalsAppend(a: seq<Formal>, b: seq<Formal>)
    ensures RenderFormals(a + b) == RenderFormals(a) + RenderFormals(b)
  {
    if a == [] {
      assert a + b == b;
    } else {
      var f, rest := ", " + RenderFormal(a[0], 0), a[1..];
      assert RenderFormals(a + b) == f + RenderFormals(rest + b) by {
        assert (a + b)[0] == a[0] && (a + b)[1..] == rest + b;
      }
      RenderFormalsAppend(rest, b);
      AppendAssoc(f, RenderFormals(rest), RenderFormals(b));
    }
  }

  /** The k-th formal is printed, after ", ", between those before it and those after it. */
  lemma RenderFormalsAt(fs: seq<Formal>, k: nat)
    requires k < |fs|
    ensures RenderFormals(fs)
         == RenderFormals(fs[..k]) + ", " + RenderFormal(fs[k], 0) + RenderFormals(fs[k + 1..])
  {
    SplitAt(fs, k);
    RenderFormalsSingle(fs[k]);
    RenderFormalsAppend(fs[..k + 1], fs[k + 1..]);
    RenderFormalsAppend(fs[..k], [fs[k]]);
    AppendAssoc(RenderFormals(fs[..k]), ", ", RenderFormal(fs[k], 0));
  }

  lemma RenderFormalsSingle(f: Formal)
    ensures RenderFormals([f]) == ", " + RenderFormal(f, 0)
  {
    assert [f][1..] == [];
  }

  /** A parameter list holds one comma per formal, when no name holds one. */
  lemma {:induction false} RenderFormalsCommaCount(fs: seq<Formal>)
    requires forall k :: 0 <= k < |fs| ==> ',' !in fs[k].id.strVal
    ensures Count(RenderFormals(fs), ',') == |fs|
  {
    if fs != [] {
      var f := fs[0];
      var rest := RenderFormal(f, 0) + RenderFormals(fs[1..]);
      assert RenderFormals(fs) == ", " + rest;
      CountAppend(", ", rest, ',');
      CountAppend(RenderFormal(f, 0), RenderFormals(fs[1..]), ',');
      assert RenderFormal(f, 0) == f.id.strVal + " : " + RenderType(f.ty, 0);
      CountAppend(f.id.strVal + " : ", RenderType(f.ty, 0), ',');
      CountAppend(f.id.strVal, " : ", ',');
      RenderTypeCounts(f.ty, 0, ',');
      RenderFormalsCommaCount(fs[1..]);
    }
  }

  /** A function opens at its indentation with its return type and closes with `tabs}\n`. */
  lemma FnDeclBrackets(p: Pos, ty: Type, id: Id, formals: seq<Formal>, body: seq<Stmt>, indent: int, st: Stubs)
    ensures var r := RenderDecl(FnDecl(p, ty, id, formals, body), indent, st);
      && var head := Tabs(indent) + RenderType(ty, 0) + " : ";
      && |head| <= |r| && r[..|head|] == head
      && var tail := Tabs(indent) + "}\n";
      && |tail| <= |r| && r[|r| - |tail|..] == tail
  {
    var t := Tabs(indent);
    var head := t + RenderType(ty, 0) + " : ";
    var y1 := head + RenderId(id, 0) + "(";
    var y2 := y1 + RenderFormals(formals) + ")\n";
    var y3 := y2 + RenderStmts(body, indent + 1, st);
    assert RenderDecl(FnDecl(p, ty, id, formals, body), indent, st) == y3 + t + "}\n";
    AppendAssoc(y3, t, "}\n");
    DropPrefix(y3, t + "}\n");
    TakeAppend(head + RenderId(id, 0), "(", |head|);
    TakeAppend(head, RenderId(id, 0), |head|);
    TakeAppend(y1 + RenderFormals(formals), ")\n", |head|);
    TakeAppend(y1, RenderFormals(formals), |head|);
    TakeAppend(y2, RenderStmts(body, indent + 1, st), |head|);
    TakeAppend(y3, t, |head|);
    TakeAppend(y3 + t, "}\n", |head|);
  }

  /** A function's body is its statement list one level deeper, right after the parameter list. */
  lemma FnDeclBody(p: Pos, ty: Type, id: Id, formals: seq<Formal>, body: seq<Stmt>, indent: int, st: Stubs)
    ensures var r := RenderDecl(FnDecl(p, ty, id, formals, body), indent, st);
      && var head := Tabs(indent) + RenderType(ty, 0) + " : " + RenderId(id, 0) + "(" + RenderFormals(formals) + ")\n";
      && var b := RenderStmts(body, indent + 1, st);
      && |head| + |b| <= |r| && r[|head|..|head| + |b|] == b
  {
  }

  lemma {:induction false} RenderDeclsAppend(a: seq<Decl>, b: seq<Decl>, indent: int, st: Stubs)
    ensures RenderDecls(a + b, indent, st) == RenderDecls(a, indent, st) + RenderDecls(b, indent, st)
  {
    if a == [] {
      assert a + b == b;
    } else {
      var d, rest := RenderDecl(a[0], indent, st), a[1..];
      assert RenderDecls(a + b, indent, st) == d + RenderDecls(rest + b, indent, st) by {
        assert (a + b)[0] == a[0] && (a + b)[1..] == rest + b;
      }
      RenderDeclsAppend(rest, b, indent, st);
      AppendAssoc(d, RenderDecls(rest, indent, st), RenderDecls(b, indent, st));
    }
  }

  lemma RenderDeclsSingle(d: Decl, indent: int, st: Stubs)
    ensures RenderDecls([d], indent, st) == RenderDecl(d, indent, st)
  {
    assert [d][1..] == [];
  }

  /** A program prints its globals one after the other, all at the program's level. */
  lemma ProgramRenderAppend(a: seq<Decl>, b: seq<Decl>, indent: int, st: Stubs)
    ensures RenderProgram(MkProgram(a + b), indent, st)
         == RenderProgram(MkProgram(a), indent, st) + RenderProgram(MkProgram(b), indent, st)
  {
    RenderDeclsAppend(a, b, indent, st);
  }

  /** The k-th global is printed between those before it and those after it. */
  lemma ProgramRenderAt(globals: seq<Decl>, k: nat, indent: int, st: Stubs)
    requires k < |globals|
    ensures RenderProgram(MkProgram(globals), indent, st)
         == RenderDecls(globals[..k], indent, st) + RenderDecl(globals[k], indent, st)
            + RenderDecls(globals[k + 1..], indent, st)
  {
    SplitAt(globals, k);
    RenderDeclsSingle(globals[k], indent, st);
    RenderDeclsAppend(globals[..k + 1], globals[k + 1..], indent, st);
    RenderDeclsAppend(globals[..k], [globals[k]], indent, st);
  }

  /** Every declaration starts with the indentation it is printed at. */
  lemma RenderDeclIndented(d: Decl, indent: int, st: Stubs)
    ensures var t := Tabs(indent);
      && var r := RenderDecl(d, indent, st);
      && |t| <= |r| && r[..|t|] == t
  {
  }

  // ---------------------------------------------------------------------
  // Statements
  // ---------------------------------------------------------------------

  lemma {:induction false} RenderStmtsAppend(a: seq<Stmt>, b: seq<Stmt>, indent: int, st: Stubs)
    ensures RenderStmts(a + b, indent, st) == RenderStmts(a, indent, st) + RenderStmts(b, indent, st)
  {
    if a == [] {
      assert a + b == b;
    } else {
      var r, rest := RenderStmt(a[0], indent, st), a[1..];
      assert RenderStmts(a + b, indent, st) == r + RenderStmts(rest + b, indent, st) by {
        assert (a + b)[0] == a[0] && (a + b)[1..] == rest + b;
      }
      RenderStmtsAppend(rest, b, indent, st);
      AppendAssoc(r, RenderStmts(rest, indent, st), RenderStmts(b, indent, st));
    }
  }

  lemma RenderStmtsSingle(s: Stmt, indent: int, st: Stubs)
    ensures RenderStmts([s], indent, st) == RenderStmt(s, indent, st)
  {
    assert [s][1..] == [];
  }

  /** The k-th statement of a list is printed between those before it and those after it. */
  lemma RenderStmtsAt(ss: seq<Stmt>, k: nat, indent: int, st: Stubs)
    requires k < |ss|
    ensures RenderStmts(ss, indent, st)
         == RenderStmts(ss[..k], indent, st) + RenderStmt(ss[k], indent, st)
            + RenderStmts(ss[k + 1..], indent, st)
  {
    SplitAt(ss, k);
    RenderStmtsSingle(ss[k], indent, st);
    RenderStmtsAppend(ss[..k + 1], ss[k + 1..], indent, st);
    RenderStmtsAppend(ss[..k], [ss[k]], indent, st);
  }

  /** Every statement starts with the indentation it is printed at. */
  lemma RenderStmtIndented(s: Stmt, indent: int, st: Stubs)
    ensures var t := Tabs(indent);
      && var r := RenderStmt(s, indent, st);
      && |t| <= |r| && r[..|t|] == t
  {
  }

  /**
   * A statement without a body prints its children at level 0: moving it to
   * another level only changes its leading tabs.
   */
  lemma SimpleStmtShift(s: Stmt, indent: int, st: Stubs)
    requires !s.IfStmt? && !s.IfElseStmt? && !s.WhileStmt?
    ensures RenderStmt(s, indent, st) == Tabs(indent) + RenderStmt(s, 0, st)
  {
    var t := Tabs(indent);
    assert Tabs(0) == "";
    match s
    case AssignStmt(_, a) =>
      assert RenderStmt(s, 0, st) == "" + RenderAssignExp(a, 0);
      assert "" + RenderAssignExp(a, 0) == RenderAssignExp(a, 0);
    case ReadStmt(_, lv) =>
      assert RenderStmt(s, 0, st) == "" + RenderLVal(lv, 0, st);
      assert "" + RenderLVal(lv, 0, st) == RenderLVal(lv, 0, st);
    case WriteStmt(_, e) =>
      assert RenderStmt(s, 0, st) == "" + RenderExp(e, 0, st);
      assert "" + RenderExp(e, 0, st) == RenderExp(e, 0, st);
    case PostDecStmt(_, lv) =>
      var l := RenderLVal(lv, 0, st);
      assert RenderStmt(s, 0, st) == "" + l + "--\n";
      assert "" + l == l;
      AppendAssoc(t, l, "--\n");
    case PostIncStmt(_, lv) =>
      var l := RenderLVal(lv, 0, st);
      assert RenderStmt(s, 0, st) == "" + l + "++\n";
      assert "" + l == l;
      AppendAssoc(t, l, "++\n");
    case ReturnStmt(_, result) =>
      var r := if result.Some? then " " + RenderExp(result.value, 0, st) else "";
      assert RenderStmt(s, 0, st) == "" + "return " + r + ";\n";
      assert "" + "return " == "return ";
      AppendAssoc(t, "return " + r, ";\n");
      AppendAssoc(t, "return ", r);
    case CallStmt(_, c) =>
      var x := RenderExp(Call(c), 0, st);
      assert RenderStmt(s, 0, st) == "" + x + ";\n";
      assert "" + x == x;
      AppendAssoc(t, x, ";\n");
  }

  /** An assignment statement prints its indentation and nothing else. */
  lemma AssignStmtIsIndentOnly(p: Pos, a: AssignExp, indent: int, st: Stubs)
    ensures RenderStmt(AssignStmt(p, a), indent, st) == Tabs(indent)
  {
  }

  /** `++` and `--` statements end their line with their operator; a call statement with ";\n". */
  lemma SimpleStmtEndings(p: Pos, lv: LVal, c: CallExp, indent: int, st: Stubs)
    ensures var r := RenderStmt(PostIncStmt(p, lv), indent, st);
      |r| >= 3 && r[|r| - 3..] == "++\n"
    ensures var r := RenderStmt(PostDecStmt(p, lv), indent, st);
      |r| >= 3 && r[|r| - 3..] == "--\n"
    ensures var r := RenderStmt(CallStmt(p, c), indent, st);
      |r| >= 2 && r[|r| - 2..] == ";\n"
  {
  }

  /**
   * A return statement opens with `tabs return ` and ends with ";\n"; the
   * character after `return ` is a space exactly when there is an expression,
   * and without one nothing else is printed.
   */
  lemma ReturnShape(p: Pos, result: Option<Exp>, indent: int, st: Stubs)
    ensures var r := RenderStmt(ReturnStmt(p, result), indent, st);
      && var n := |Tabs(indent)|;
      && n + 9 <= |r|
      && r[..n + 7] == Tabs(indent) + "return "
      && r[|r| - 2..] == ";\n"
      && (result.Some? <==> r[n + 7] == ' ')
      && (result.None? <==> |r| == n + 9)
  {
  }

  /** A block statement is closed by its own indentation and "}", with no newline after it. */
  lemma BlockStmtCloses(s: Stmt, indent: int, st: Stubs)
    requires s.IfStmt? || s.IfElseStmt? || s.WhileStmt?
    ensures var r := RenderStmt(s, indent, st);
      && var tail := Tabs(indent) + "}";
      && |tail| <= |r| && r[|r| - |tail|..] == tail
  {
  }

  /**
   * An if-else prints as the if with the same condition and then-branch,
   * less the space after "(", followed by "else{", the else-branch one level
   * deeper and its closing `tabs}`.
   */
  lemma IfElseExtendsIf(p: Pos, cond: Exp, thenBody: seq<Stmt>, elseBody: seq<Stmt>, indent: int, st: Stubs)
    ensures var n := |Tabs(indent)|;
      && var ifText := RenderStmt(IfStmt(p, cond, thenBody), indent, st);
      && n + 5 <= |ifText|
      && RenderStmt(IfElseStmt(p, cond, thenBody, elseBody), indent, st)
         == Tabs(indent) + "if (" + ifText[n + 5..]
            + "else{" + RenderStmts(elseBody, indent + 1, st) + Tabs(indent) + "}"
  {
    var t, c := Tabs(indent), RenderExp(cond, 0, st);
    var b, e := RenderStmts(thenBody, indent + 1, st), RenderStmts(elseBody, indent + 1, st);
    var tail := c + "){\n" + b + t + "}";
    BlockTail(t + "if ( ", c, b, t);
    BlockTail(t + "if (", c, b, t);
    DropPrefix(t + "if ( ", tail);
  }

  /** The text of a block after its keyword, glued on in one piece or write by write. */
  lemma BlockTail(h: string, c: string, b: string, t: string)
    ensures h + (c + "){\n" + b + t + "}") == h + c + "){\n" + b + t + "}"
  {
    AppendAssoc(h, c + "){\n" + b + t, "}");
    AppendAssoc(h, c + "){\n" + b, t);
    AppendAssoc(h, c + "){\n", b);
    AppendAssoc(h, c, "){\n");
  }

  /**
   * Each statement of an if or while body is printed, in order, right after
   * the block's header, starting with one more level of indentation than
   * the block itself.
   */
  lemma BlockBodyAt(s: Stmt, k: nat, indent: int, st: Stubs)
    requires s.IfStmt? || s.WhileStmt?
    requires k < |s.body|
    ensures var h := Tabs(indent) + (if s.IfStmt? then "if ( " else "while(") + RenderExp(s.cond, 0, st) + "){\n";
      && var before := RenderStmts(s.body[..k], indent + 1, st);
      && var r := RenderStmt(s.body[k], indent + 1, st);
      && var text := RenderStmt(s, indent, st);
      && |h| + |before| + |r| <= |text|
      && text[|h| + |before|..|h| + |before| + |r|] == r
      && |Tabs(indent + 1)| <= |r| && r[..|Tabs(indent + 1)|] == Tabs(indent + 1)
  {
    var h := Tabs(indent) + (if s.IfStmt? then "if ( " else "while(") + RenderExp(s.cond, 0, st) + "){\n";
    BlockSplit(s, h, indent, st);
    StmtInList(h, s.body, k, Tabs(indent) + "}", indent + 1, st);
  }

  /**
   * The statements of an if-else's then-branch are printed in order, right
   * after the header `tabs if (cond){\n`, one level deeper than the statement.
   */
  lemma IfElseThenAt(s: Stmt, k: nat, indent: int, st: Stubs)
    requires s.IfElseStmt?
    requires k < |s.thenBody|
    ensures var h := Tabs(indent) + "if (" + RenderExp(s.cond, 0, st) + "){\n";
      && var before := RenderStmts(s.thenBody[..k], indent + 1, st);
      && var r := RenderStmt(s.thenBody[k], indent + 1, st);
      && var text := RenderStmt(s, indent, st);
      && |h| + |before| + |r| <= |text|
      && text[|h| + |before|..|h| + |before| + |r|] == r
      && |Tabs(indent + 1)| <= |r| && r[..|Tabs(indent + 1)|] == Tabs(indent + 1)
  {
    var t := Tabs(indent);
    var h := t + "if (" + RenderExp(s.cond, 0, st) + "){\n";
    var pre := h + RenderStmts(s.thenBody, indent + 1, st) + t + "}" + "else{";
    var post := t + "}" + "else{" + RenderStmts(s.elseBody, indent + 1, st) + t + "}";
    IfElseSplit(s, h, pre, indent, st);
    assert RenderStmt(s, indent, st) == h + RenderStmts(s.thenBody, indent + 1, st) + post;
    StmtInList(h, s.thenBody, k, post, indent + 1, st);
  }

  /**
   * The statements of an if-else's else-branch are printed in order, right
   * after the then-branch and `tabs}else{`, one level deeper than the statement.
   */
  lemma IfElseElseAt(s: Stmt, k: nat, indent: int, st: Stubs)
    requires s.IfElseStmt?
    requires k < |s.elseBody|
    ensures var h := Tabs(indent) + "if (" + RenderExp(s.cond, 0, st) + "){\n";
      && var pre := h + RenderStmts(s.thenBody, indent + 1, st) + Tabs(indent) + "}" + "else{";
      && var before := RenderStmts(s.elseBody[..k], indent + 1, st);
      && var r := RenderStmt(s.elseBody[k], indent + 1, st);
      && var text := RenderStmt(s, indent, st);
      && |pre| + |before| + |r| <= |text|
      && text[|pre| + |before|..|pre| + |before| + |r|] == r
      && |Tabs(indent + 1)| <= |r| && r[..|Tabs(indent + 1)|] == Tabs(indent + 1)
  {
    var t := Tabs(indent);
    var h := t + "if (" + RenderExp(s.cond, 0, st) + "){\n";
    var pre := h + RenderStmts(s.thenBody, indent + 1, st) + t + "}" + "else{";
    IfElseSplit(s, h, pre, indent, st);
    StmtInList(pre, s.elseBody, k, t + "}", indent + 1, st);
  }

  /** An if or while statement is its header, its body and its closing `tabs}`. */
  lemma BlockSplit(s: Stmt, h: string, indent: int, st: Stubs)
    requires s.IfStmt? || s.WhileStmt?
    requires h == Tabs(indent) + (if s.IfStmt? then "if ( " else "while(") + RenderExp(s.cond, 0, st) + "){\n"
    ensures RenderStmt(s, indent, st) == h + RenderStmts(s.body, indent + 1, st) + (Tabs(indent) + "}")
  {
    var b := RenderStmts(s.body, indent + 1, st);
    assert RenderStmt(s, indent, st) == h + b + Tabs(indent) + "}";
    AppendAssoc(h + b, Tabs(indent), "}");
  }

  /** An if-else statement split around its then-branch, and around its else-branch. */
  lemma IfElseSplit(s: Stmt, h: string, pre: string, indent: int, st: Stubs)
    requires s.IfElseStmt?
    requires h == Tabs(indent) + "if (" + RenderExp(s.cond, 0, st) + "){\n"
    requires pre == h + RenderStmts(s.thenBody, indent + 1, st) + Tabs(indent) + "}" + "else{"
    ensures var t, e := Tabs(indent), RenderStmts(s.elseBody, indent + 1, st);
      && RenderStmt(s, indent, st) == h + RenderStmts(s.thenBody, indent + 1, st) + (t + "}" + "else{" + e + t + "}")
      && RenderStmt(s, indent, st) == pre + e + (t + "}")
  {
    var t, e := Tabs(indent), RenderStmts(s.elseBody, indent + 1, st);
    var x := h + RenderStmts(s.thenBody, indent + 1, st);
    assert RenderStmt(s, indent, st) == x + t + "}" + "else{" + e + t + "}";
    AppendAssoc(pre + e, t, "}");
    AppendAssoc(x, t + "}" + "else{" + e + t, "}");
    AppendAssoc(x, t + "}" + "else{" + e, t);
    AppendAssoc(x, t + "}" + "else{", e);
    AppendAssoc(x, t + "}", "else{");
    AppendAssoc(x, t, "}");
  }

  /** The k-th statement of a list sits after the text before the list and the statements before it. */
  lemma StmtInList(pre: string, ss: seq<Stmt>, k: nat, post: string, indent: int, st: Stubs)
    requires k < |ss|
    ensures var before := RenderStmts(ss[..k], indent, st);
      && var r := RenderStmt(ss[k], indent, st);
      && var text := pre + RenderStmts(ss, indent, st) + post;
      && |pre| + |before| + |r| <= |text|
      && text[|pre| + |before|..|pre| + |before| + |r|] == r
      && |Tabs(indent)| <= |r| && r[..|Tabs(indent)|] == Tabs(indent)
  {
    var before, r, after := RenderStmts(ss[..k], indent, st), RenderStmt(ss[k], indent, st), RenderStmts(ss[k + 1..], indent, st);
    RenderStmtsAt(ss, k, indent, st);
    RenderStmtIndented(ss[k], indent, st);
    Regroup(pre, before, r, after, post);
    SliceMiddle(pre + before, r, after + post, |r|);
    assert r[..|r|] == r;
  }

  // ---------------------------------------------------------------------
  // One more element: the step of the unparser's loops
  // ---------------------------------------------------------------------

  lemma RenderStmtsSnoc(ss: seq<Stmt>, j: nat, indent: int, st: Stubs)
    requires j < |ss|
    ensures RenderStmts(ss[..j + 1], indent, st) == RenderStmts(ss[..j], indent, st) + RenderStmt(ss[j], indent, st)
  {
    SplitAt(ss, j);
    RenderStmtsSingle(ss[j], indent, st);
    RenderStmtsAppend(ss[..j], [ss[j]], indent, st);
  }

  lemma RenderDeclsSnoc(ds: seq<Decl>, j: nat, indent: int, st: Stubs)
    requires j < |ds|
    ensures RenderDecls(ds[..j + 1], indent, st) == RenderDecls(ds[..j], indent, st) + RenderDecl(ds[j], indent, st)
  {
    SplitAt(ds, j);
    RenderDeclsSingle(ds[j], indent, st);
    RenderDeclsAppend(ds[..j], [ds[j]], indent, st);
  }

  lemma RenderFormalsSnoc(fs: seq<Formal>, j: nat)
    requires j < |fs|
    ensures RenderFormals(fs[..j + 1]) == RenderFormals(fs[..j]) + ", " + RenderFormal(fs[j], 0)
  {
    SplitAt(fs, j);
    RenderFormalsSingle(fs[j]);
    RenderFormalsAppend(fs[..j], [fs[j]]);
  }

  // ---------------------------------------------------------------------
  // Slicing concatenations
  // ---------------------------------------------------------------------

  lemma SplitAt<T>(s: seq<T>, k: nat)
    requires k < |s|
    ensures s[..k + 1] == s[..k] + [s[k]]
    ensures s[..k + 1] + s[k + 1..] == s
  {
  }

  lemma AppendAssoc(a: string, b: string, c: string)
    ensures a + (b + c) == a + b + c
  {
  }

  lemma TakeAppend(x: string, y: string, n: nat)
    requires n <= |x|
    ensures (x + y)[..n] == x[..n]
  {
  }

  lemma DropPrefix(a: string, b: string)
    ensures (a + b)[|a|..] == b
  {
  }

  lemma Regroup(w: string, x: string, y: string, z: string, v: string)
    ensures w + (x + y + z) + v == (w + x) + y + (z + v)
  {
  }

  lemma SliceMiddle(x: string, y: string, z: string, n: nat)
    requires n <= |y|
    ensures |x| + n <= |x + y + z| && (x + y + z)[|x|..|x| + n] == y[..n]
  {
  }
}
