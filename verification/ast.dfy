/**
 * The abstract syntax tree of the Crona front end.
 *
 * Every node kind of the C++ class hierarchy becomes a variant of a closed
 * datatype, one datatype per family (Program, Decl, Formal, Type, Exp, LVal,
 * Stmt).  Each node records the (line, column) at which it starts.  Most
 * constructors store the position they are handed; the ones that derive it
 * from a child instead are written out below as `Mk...` functions, so that
 * the datatype constructor itself stands for the constructors that store
 * the given position unchanged.  Nodes are values: nothing changes a node's
 * position or children once it is built.
 */
module Ast {

  datatype Option<T> = None | Some(value: T)

  /** A source position: `size_t` line and column, unbounded here. */
  datatype Pos = Pos(line: nat, col: nat)

  /** The identifier token handed to an IDNode; only its position is read. */
  datatype IdToken = IdToken(line: nat, col: nat)

  /** The value range of a C++ `int`, the type of an integer literal's value. */
  newtype Int32 = x: int | -0x8000_0000 <= x < 0x8000_0000

  /** IDNode: its name field is declared but never assigned. */
  datatype Id = Id(pos: Pos, strVal: string)

  datatype Type =
    | IntType(pos: Pos)
    | BoolType(pos: Pos)
    | ByteType(pos: Pos)
    | VoidType(pos: Pos)
    | ArrayType(pos: Pos, elem: Type)

  datatype BinOp =
    | And | Or | Equals | NotEquals | Less | LessEq
    | Greater | GreaterEq | Plus | Minus | Times | Divide

  datatype UnOp = Neg | Not

  datatype AssignExp = AssignExp(pos: Pos, dest: LVal, src: Exp)

  datatype CallExp = CallExp(pos: Pos, callee: Id, args: seq<Exp>)

  /** LValNode and its two subclasses; an IDNode is an l-value. */
  datatype LVal =
    | IdRef(id: Id)
    | Index(pos: Pos, base: Id, offset: Exp)
  {
    function Position(): Pos {
      match this
      case IdRef(id) => id.pos
      case Index(p, _, _) => p
    }
  }

  datatype Exp =
    | Assign(assign: AssignExp)
    | Call(call: CallExp)
    | Binary(pos: Pos, op: BinOp, lhs: Exp, rhs: Exp)
    | Unary(pos: Pos, uop: UnOp, operand: Exp)
    | IntLit(pos: Pos, intVal: Int32)
    | StrLit(pos: Pos, text: string)
    | TrueLit(pos: Pos)
    | FalseLit(pos: Pos)
    | Havoc(pos: Pos)
    | LValue(lval: LVal)
  {
    function Position(): Pos {
      match this
      case Assign(a) => a.pos
      case Call(c) => c.pos
      case Binary(p, _, _, _) => p
      case Unary(p, _, _) => p
      case IntLit(p, _) => p
      case StrLit(p, _) => p
      case TrueLit(p) => p
      case FalseLit(p) => p
      case Havoc(p) => p
      case LValue(lv) => lv.Position()
    }
  }

  datatype Stmt =
    | AssignStmt(pos: Pos, assign: AssignExp)
    | ReadStmt(pos: Pos, lval: LVal)
    | WriteStmt(pos: Pos, exp: Exp)
    | PostDecStmt(pos: Pos, lval: LVal)
    | PostIncStmt(pos: Pos, lval: LVal)
    | IfStmt(pos: Pos, cond: Exp, body: seq<Stmt>)
    | IfElseStmt(pos: Pos, cond: Exp, thenBody: seq<Stmt>, elseBody: seq<Stmt>)
    | WhileStmt(pos: Pos, cond: Exp, body: seq<Stmt>)
    | ReturnStmt(pos: Pos, result: Option<Exp>)
    | CallStmt(pos: Pos, call: CallExp)

  /**
   * FormalDeclNode derives from VarDeclNode and declares its own `myType`
   * and `myId` beside the inherited ones: `baseType`/`baseId` are the
   * VarDeclNode part, `ty`/`id` the fields the formal itself declares.
   */
  datatype Formal = Formal(pos: Pos, baseType: Type, baseId: Id, ty: Type, id: Id)

  datatype Decl =
    | VarDecl(pos: Pos, ty: Type, id: Id)
    | FormalDecl(formal: Formal)
    | FnDecl(pos: Pos, ty: Type, id: Id, formals: seq<Formal>, body: seq<Stmt>)
  {
    function Position(): Pos {
      match this
      case VarDecl(p, _, _) => p
      case FormalDecl(f) => f.pos
      case FnDecl(p, _, _, _, _) => p
    }
  }

  datatype Program = Program(pos: Pos, globals: seq<Decl>)

  /** ASTNode: any node, with the accessors every node inherits. */
  datatype Node =
    | ProgramNode(program: Program)
    | DeclNode(decl: Decl)
    | TypeNode(ty: Type)
    | ExpNode(exp: Exp)
    | StmtNode(stmt: Stmt)
  {
    function Position(): Pos {
      match this
      case ProgramNode(p) => p.pos
      case DeclNode(d) => d.Position()
      case TypeNode(t) => t.pos
      case ExpNode(e) => e.Position()
      case StmtNode(s) => s.pos
    }

    function Line(): nat { Position().line }

    function Col(): nat { Position().col }

    /** `pos()`: the position as "[line,col]". */
    function PosText(): (s: string)
      ensures 5 <= |s| && s[0] == '[' && s[|s| - 1] == ']'
      ensures s[1..|s| - 1] == Decimal(Position().line) + "," + Decimal(Position().col)
    {
      FormatPos(Position())
    }
  }

  // ---------------------------------------------------------------------
  // Constructors that do not store the position they are given
  // ---------------------------------------------------------------------

  /** ProgramNode: always at (1,1), whatever its globals. */
  function MkProgram(globals: seq<Decl>): (p: Program)
    ensures p.pos == Pos(1, 1) && p.globals == globals
  {
    Program(Pos(1, 1), globals)
  }

  /** IDNode: the token's position; the name is left empty. */
  function MkId(token: IdToken): (id: Id)
    ensures id.pos == Pos(token.line, token.col)
    ensures id.strVal == ""
  {
    Id(Pos(token.line, token.col), "")
  }

  /** VarDeclNode: positioned at its type; `l` and `c` are not used. */
  function MkVarDecl(l: nat, c: nat, ty: Type, id: Id): (d: Decl)
    ensures d.VarDecl? && d.Position() == ty.pos
    ensures d.ty == ty && d.id == id
  {
    VarDecl(ty.pos, ty, id)
  }

  /**
   * FormalDeclNode: positioned at its type; its own type and id are the
   * ones it passes to its VarDeclNode part.
   */
  function MkFormal(l: nat, c: nat, ty: Type, id: Id): (f: Formal)
    ensures f.pos == ty.pos
    ensures f.ty == ty && f.id == id
    ensures f.baseType == f.ty && f.baseId == f.id
  {
    Formal(ty.pos, ty, id, ty, id)
  }

  /** FnDeclNode: positioned at its return type; `l` and `c` are not used. */
  function MkFnDecl(l: nat, c: nat, ty: Type, id: Id, formals: seq<Formal>, body: seq<Stmt>): (d: Decl)
    ensures d.FnDecl? && d.Position() == ty.pos
    ensures d.ty == ty && d.id == id && d.formals == formals && d.body == body
  {
    FnDecl(ty.pos, ty, id, formals, body)
  }

  /** ArrayTypeNode: positioned at its element type; it stores no size. */
  function MkArrayType(l: nat, c: nat, elem: Type): (t: Type)
    ensures t.ArrayType? && t.pos == elem.pos && t.elem == elem
    ensures WellPositioned(elem) ==> WellPositioned(t)
  {
    ArrayType(elem.pos, elem)
  }

  /** IfStmtNode: positioned at its condition. */
  function MkIfStmt(l: nat, c: nat, cond: Exp, body: seq<Stmt>): (s: Stmt)
    ensures s.IfStmt? && s.pos == cond.Position()
    ensures s.cond == cond && s.body == body
  {
    IfStmt(cond.Position(), cond, body)
  }

  /** IfElseStmtNode: positioned at its condition. */
  function MkIfElseStmt(l: nat, c: nat, cond: Exp, thenBody: seq<Stmt>, elseBody: seq<Stmt>): (s: Stmt)
    ensures s.IfElseStmt? && s.pos == cond.Position()
    ensures s.cond == cond && s.thenBody == thenBody && s.elseBody == elseBody
  {
    IfElseStmt(cond.Position(), cond, thenBody, elseBody)
  }

  /** The position arguments of the deriving constructors make no difference. */
  lemma PositionArgumentsIgnored(l1: nat, c1: nat, l2: nat, c2: nat, ty: Type, id: Id,
                                 formals: seq<Formal>, body: seq<Stmt>, cond: Exp, other: seq<Stmt>)
    ensures MkVarDecl(l1, c1, ty, id) == MkVarDecl(l2, c2, ty, id)
    ensures MkFormal(l1, c1, ty, id) == MkFormal(l2, c2, ty, id)
    ensures MkFnDecl(l1, c1, ty, id, formals, body) == MkFnDecl(l2, c2, ty, id, formals, body)
    ensures MkArrayType(l1, c1, ty) == MkArrayType(l2, c2, ty)
    ensures MkIfStmt(l1, c1, cond, body) == MkIfStmt(l2, c2, cond, body)
    ensures MkIfElseStmt(l1, c1, cond, body, other) == MkIfElseStmt(l2, c2, cond, body, other)
  {
  }

  // ---------------------------------------------------------------------
  // Array types and their element types
  // ---------------------------------------------------------------------

  /** The innermost non-array type of a (possibly nested) array type. */
  function BaseType(t: Type): (b: Type)
    ensures !b.ArrayType?
  {
    match t
    case ArrayType(_, elem) => BaseType(elem)
    case _ => t
  }

  /** Every array type in `t` sits where its element type sits, as MkArrayType builds it. */
  predicate WellPositioned(t: Type) {
    match t
    case ArrayType(p, elem) => p == elem.pos && WellPositioned(elem)
    case _ => true
  }

  /** A nested array type built by MkArrayType is positioned at its innermost base type. */
  lemma {:induction false} ArrayPositionIsBasePosition(t: Type)
    requires WellPositioned(t)
    ensures t.pos == BaseType(t).pos
  {
    match t
    case ArrayType(_, elem) => ArrayPositionIsBasePosition(elem);
    case _ =>
  }

  // ---------------------------------------------------------------------
  // pos(): "[" + to_string(line) + "," + to_string(col) + "]"
  // ---------------------------------------------------------------------

  predicate IsDigit(ch: char) { '0' as int <= ch as int <= '9' as int }

  function DigitChar(d: nat): (ch: char)
    requires d < 10
    ensures IsDigit(ch) && DigitValue(ch) == d
  {
    ('0' as int + d) as char
  }

  /** The decimal text of a natural number, as `std::to_string` writes it. */
  function Decimal(n: nat): (s: string)
    ensures 1 <= |s|
    ensures forall k :: 0 <= k < |s| ==> IsDigit(s[k])
    decreases n
  {
    if n < 10 then [DigitChar(n)] else Decimal(n / 10) + [DigitChar(n % 10)]
  }

  function DigitValue(ch: char): (d: nat)
    requires IsDigit(ch)
    ensures d < 10
  {
    ch as int - '0' as int
  }

  /** The number a string of decimal digits denotes. */
  function DecimalValue(s: string): nat
    requires forall k :: 0 <= k < |s| ==> IsDigit(s[k])
  {
    if s == [] then 0 else 10 * DecimalValue(s[..|s| - 1]) + DigitValue(s[|s| - 1])
  }

  lemma {:induction false} DecimalRoundTrip(n: nat)
    ensures DecimalValue(Decimal(n)) == n
  {
    if n >= 10 {
      var s := Decimal(n);
      assert s[..|s| - 1] == Decimal(n / 10);
      DecimalRoundTrip(n / 10);
    }
  }

  /** `pos()`: the line and the column in decimal, separated by a comma, in brackets. */
  function FormatPos(p: Pos): string {
    "[" + Decimal(p.line) + "," + Decimal(p.col) + "]"
  }

  /** The text `pos()` returns determines the line and the column. */
  lemma FormatPosInjective(p: Pos, q: Pos)
    requires FormatPos(p) == FormatPos(q)
    ensures p == q
  {
    var a, b := Decimal(p.line), Decimal(p.col);
    var a', b' := Decimal(q.line), Decimal(q.col);
    var s := FormatPos(p);
    assert s == "[" + a + "," + b + "]";
    assert s == "[" + a' + "," + b' + "]";
    // the comma of the shorter text would face a digit of the longer one
    assert s[1 + |a|] == ',' && s[1 + |a'|] == ',';
    assert forall k :: 0 <= k < |a| ==> s[1 + k] == a[k] && s[1 + k] != ',';
    assert forall k :: 0 <= k < |a'| ==> s[1 + k] == a'[k] && s[1 + k] != ',';
    assert |a| == |a'|;
    assert a == s[1..1 + |a|] == a';
    assert b == s[2 + |a|..|s| - 1] == b';
    DecimalRoundTrip(p.line);
    DecimalRoundTrip(q.line);
    DecimalRoundTrip(p.col);
    DecimalRoundTrip(q.col);
  }

  /** A program node always reports "[1,1]". */
  lemma ProgramPosText(globals: seq<Decl>)
    ensures ProgramNode(MkProgram(globals)).PosText() == "[1,1]"
  {
    assert Decimal(1) == "1";
  }

  /** line() and col() give back the position the node stores. */
  lemma LineColArePosition(n: Node)
    ensures Pos(n.Line(), n.Col()) == n.Position()
  {
  }
}
