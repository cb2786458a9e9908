# Crona AST and unparser, in Dafny

This project models the abstract syntax tree of the Crona compiler front end
and its unparser: the pass that walks a parsed program and writes it back out
as source text, one tab per nesting level.

- `ast.dfy` (module `Ast`) holds the node families as datatypes: `Program`,
  `Decl` (variable, formal and function declarations, with `Formal` for
  parameters), `Type` (int, bool, byte, void, array), `Exp` and `LVal`
  (assignment, call, the twelve binary and two unary operators, literals,
  `true`, `false`, `havoc`, identifiers and indexing) and `Stmt` (the ten
  statement kinds). Every node carries its source position. The node
  constructors that derive their position from a child, or that throw away
  part of what they are given, are written out as `Mk...` functions. The
  module also models `line()`, `col()` and `pos()`, with `std::to_string`
  given as decimal digits.
- `render.dfy` (module `Render`) gives, as pure functions, the exact text each
  node's `unparse(out, indent)` appends, and proves what that text looks like:
  how it is indented, how it opens and closes, and how lists are put together.
- `unparse.dfy` (module `Unparse`) is the unparser itself. It uses an output
  stream object that only ever has text appended to it, `doIndent`'s loop, and
  the loops over globals, formals and statement lists. Each method is proved to
  append exactly the text the matching `Render` function gives, and nothing else.

Several `unparse` methods are declared in `ast.hpp` but never defined in
`unparse.cpp`: call expressions, integer and string literals, `true`, `false`,
`havoc`, the unary and binary operators, and indexing. Their output is
unknown, so the model takes it as a parameter. A `Stubs` value holds two
functions that give that text, every renderer takes one, and every property
holds whatever those functions return.

The unparser is modelled as written, and as written it differs from a canonical printer of Crona source in these ways:

- an identifier node never stores its name (`IDNode` ignores the token's text),
  so identifiers print as indentation only;
- an array type stores no size and prints exactly as its element type;
- an assignment expression prints its indentation and nothing of its operands;
- every formal, the first included, is preceded by `", "`;
- a function body is opened by `")\n"` with no `{`, and is closed by `"}\n"`;
- `if (`, `if ( ` and `while(` are printed with the spacing the code uses, and
  `}else{` has no newline before `else`.

## Model

| member | source | states |
|---|---|---|
| Ast.MkProgram | ast.hpp:57-58 | a program node is at line 1, column 1 whatever its globals, and keeps the globals in order |
| Ast.MkId | ast.hpp:116-117 | an identifier node takes the token's line and column, and its name is left empty |
| Ast.MkVarDecl | ast.hpp:126-127 | a variable declaration is positioned at its type, not at the position passed in, and keeps its type and identifier |
| Ast.MkFormal | ast.hpp:137-138 | a formal is positioned at its type, and the type and identifier of its own part are the same as those of its variable-declaration part |
| Ast.MkFnDecl | ast.hpp:148-149 | a function declaration is positioned at its return type and keeps its formals and body in order |
| Ast.MkArrayType | ast.hpp:163-164 | an array type is positioned at its element type, stores no size, and keeps the element-position invariant |
| Ast.MkIfStmt | ast.hpp:452-453 | an if statement is positioned at its condition |
| Ast.MkIfElseStmt | ast.hpp:462-463 | an if-else statement is positioned at its condition and keeps both branches |
| Ast.PositionArgumentsIgnored | ast.hpp:126-164 | the line and column passed to the deriving constructors make no difference to the node built |
| Ast.BaseType | ast.hpp:161-164 | the innermost element type of a nested array type is never an array type |
| Ast.ArrayPositionIsBasePosition | ast.hpp:163-164 | an array type nested to any depth sits at the position of its innermost base type |
| Ast.Decimal | ast.hpp:38-41 | the decimal text of a number is non-empty and all digits |
| Ast.DecimalRoundTrip | ast.hpp:38-41 | reading back the decimal text of a number gives the number |
| Ast.Node.PosText | ast.hpp:38-41 | `pos()` is the node's own line and column in decimal, separated by a comma, between "[" and "]" |
| Ast.FormatPosInjective | ast.hpp:38-41 | two positions with the same `pos()` text are the same position |
| Ast.ProgramPosText | ast.hpp:57-58 | every program node reports "[1,1]" |
| Ast.LineColArePosition | ast.hpp:29-30 | `line()` and `col()` give back the position the node stores |
| Render.Tabs | unparse.cpp:9-11 | the indentation is one tab per level, and none for level zero or below |
| Render.RenderId | unparse.cpp:115-118 | the text an identifier's unparse appends: its indentation, then its stored name |
| Render.RenderType | unparse.cpp:83-106 | the text a type's unparse appends: its indentation, then `int`, `bool`, `byte` or `void`, or for an array its element type's text at level 0 |
| Render.RenderAssignExp | unparse.cpp:111-113 | the text an assignment expression's unparse appends: its indentation only |
| Render.RenderLVal | unparse.cpp:115-118 | the text an l-value's unparse appends: an identifier's text, or for indexing the undefined method's text |
| Render.RenderExp | unparse.cpp:111-118 | the text an expression's unparse appends: defined for assignments and l-values, the undefined methods' text for every other kind |
| Render.RenderStmt | unparse.cpp:123-211 | the exact text each statement's unparse appends, case by case, with block bodies one level deeper |
| Render.RenderStmts | unparse.cpp:155-158 | the text of a statement list: each statement's text in order, all at the same level |
| Render.RenderFormal | unparse.cpp:51-56 | the text a formal's unparse appends: indentation, its own identifier, " : " and its own type |
| Render.RenderFormals | unparse.cpp:64-67 | the text of a parameter list: each formal's text after ", ", in order |
| Render.RenderDecl | unparse.cpp:43-78 | the exact text each declaration's unparse appends: variable, formal and function declarations |
| Render.RenderDecls | unparse.cpp:30-40 | the text of a list of declarations: each declaration's text in order, at the same level |
| Render.RenderProgram | unparse.cpp:25-41 | the text a program's unparse appends: its globals' text, at the program's level |
| Render.RenderTypeIsBaseKeyword | unparse.cpp:83-106 | any type, arrays included, prints as its indentation and the keyword of its innermost base type |
| Render.ArrayRendersAsElement | unparse.cpp:83-86 | an array type prints exactly as its element type |
| Render.RenderTypeCounts | unparse.cpp:83-106 | a printed type holds only its indentation tabs, and no comma or newline |
| Render.RenderIdFromToken | unparse.cpp:115-118 | an identifier built from a token prints as bare indentation |
| Render.VarDeclIsTerminatedFormal | unparse.cpp:43-56 | a variable declaration prints as the formal with the same type and identifier followed by ";\n" |
| Render.VarDeclFromTokenText | unparse.cpp:43-49 | a declaration of a token's identifier prints as `tabs : keyword;\n` |
| Render.VarDeclTabCount | unparse.cpp:43-49 | a variable declaration holds exactly its indentation's tabs when its name has none |
| Render.RenderFormalsAppend | unparse.cpp:64-67 | the parameter text of two lists of formals joined is the two texts joined |
| Render.RenderFormalsAt | unparse.cpp:64-67 | the k-th formal is printed after ", " between the formals before it and those after it |
| Render.RenderFormalsCommaCount | unparse.cpp:64-67 | a parameter list holds exactly one comma per formal when no name holds one |
| Render.FnDeclBrackets | unparse.cpp:58-78 | a function opens with its indentation, return type and " : ", and closes with its indentation and "}\n" |
| Render.FnDeclBody | unparse.cpp:69-73 | a function's body is its statement list one level deeper, right after the parameter list |
| Render.RenderDeclsAppend | unparse.cpp:25-41 | the text of two lists of declarations joined is the two texts joined |
| Render.ProgramRenderAppend | unparse.cpp:25-41 | a program of two lists of globals prints as the two programs one after the other |
| Render.ProgramRenderAt | unparse.cpp:25-41 | the k-th global is printed between the globals before it and those after it, at the program's level |
| Render.RenderDeclIndented | unparse.cpp:43-78 | every declaration starts with the indentation it is printed at |
| Render.RenderStmtsAppend | unparse.cpp:155-158 | the text of two statement lists joined is the two texts joined |
| Render.RenderStmtsAt | unparse.cpp:155-158 | the k-th statement of a list is printed between those before it and those after it |
| Render.RenderStmtIndented | unparse.cpp:123-211 | every statement starts with the indentation it is printed at |
| Render.SimpleStmtShift | unparse.cpp:123-148 | a statement without a body prints its children at level 0, so a change of level only changes its leading tabs |
| Render.AssignStmtIsIndentOnly | unparse.cpp:123-126 | an assignment statement prints its indentation and nothing else |
| Render.SimpleStmtEndings | unparse.cpp:138-148 | `++` and `--` statements end with their operator and a newline; a call statement ends with ";\n" |
| Render.ReturnShape | unparse.cpp:196-205 | a return opens with `tabs return ` and ends with ";\n"; a space follows `return ` exactly when there is an expression, and without one nothing else is printed |
| Render.BlockStmtCloses | unparse.cpp:150-194 | if, if-else and while statements are closed by their indentation and "}", with no newline after it |
| Render.IfElseExtendsIf | unparse.cpp:150-181 | an if-else prints as the if with the same condition and then-branch, less one space after "(", then "else{", the else-branch one level deeper and the closing brace |
| Render.BlockBodyAt | unparse.cpp:150-194 | in an if or while statement's text, the k-th body statement sits right after the header and the statements before it, and starts with one more level of indentation than the block |
| Render.IfElseThenAt | unparse.cpp:163-172 | in an if-else statement's text, the k-th then-branch statement sits right after the header `if (cond){` and the statements before it, one level deeper |
| Render.IfElseElseAt | unparse.cpp:163-180 | in an if-else statement's text, the k-th else-branch statement sits right after the then-branch, `tabs}else{` and the else statements before it, one level deeper |
| Render.StmtInList | unparse.cpp:155-158 | wherever a statement list is printed, its k-th statement sits right after the statements before it and starts with the list's indentation |
| Unparse.DoIndent | unparse.cpp:9-11 | the loop appends one tab per level and nothing else |
| Unparse.OutStream.Write | unparse.cpp:117 | writing to the stream appends the text and changes nothing else |
| Unparse.UnparseId | unparse.cpp:115-118 | appends the identifier's text, as rendered, to the stream |
| Unparse.UnparseType | unparse.cpp:83-106 | appends the type's text, recursing into array element types |
| Unparse.UnparseAssignExp | unparse.cpp:111-113 | appends the assignment expression's text (its indentation) |
| Unparse.UnparseLVal | unparse.cpp:115-118 | appends an l-value's text; for indexing, the text of the undefined method |
| Unparse.UnparseExp | unparse.cpp:111-118 | appends an expression's text, dispatching on its kind |
| Unparse.UnparseStmt | unparse.cpp:123-211 | the virtual call on a statement appends exactly that statement's text |
| Unparse.UnparseAssignStmt | unparse.cpp:123-126 | appends the assignment statement's text |
| Unparse.UnparseReadStmt | unparse.cpp:128-131 | appends the read statement's text |
| Unparse.UnparseWriteStmt | unparse.cpp:133-136 | appends the write statement's text |
| Unparse.UnparsePostDecStmt | unparse.cpp:138-142 | appends the decrement statement's text |
| Unparse.UnparsePostIncStmt | unparse.cpp:144-148 | appends the increment statement's text |
| Unparse.UnparseStmtList | unparse.cpp:155-158 | the loop over a body appends every statement's text in order, at the given level |
| Unparse.UnparseBlock | unparse.cpp:150-161 | a keyword, condition and body append the block's text: header, body one level deeper, closing brace |
| Unparse.UnparseIfStmt | unparse.cpp:150-161 | appends the if statement's text |
| Unparse.UnparseIfElseStmt | unparse.cpp:163-181 | appends the if-else statement's text, both branches one level deeper |
| Unparse.UnparseWhileStmt | unparse.cpp:183-194 | appends the while statement's text |
| Unparse.UnparseReturnStmt | unparse.cpp:196-205 | appends the return statement's text, with or without an expression |
| Unparse.UnparseCallStmt | unparse.cpp:207-211 | appends the call statement's text |
| Unparse.UnparseVarDecl | unparse.cpp:43-49 | appends the variable declaration's text |
| Unparse.UnparseFormal | unparse.cpp:51-56 | appends the formal's text |
| Unparse.UnparseFormalList | unparse.cpp:64-67 | the loop over the formals appends each formal after ", ", in order |
| Unparse.UnparseFnDecl | unparse.cpp:58-78 | appends the function declaration's text: signature, parameter list, body one level deeper, closing brace |
| Unparse.UnparseDecl | unparse.cpp:43-78 | the virtual call on a declaration appends exactly that declaration's text |
| Unparse.UnparseProgram | unparse.cpp:25-41 | the loop over the globals appends every declaration's text in order, at the program's level |
| Unparse.UnparseToNewStream | main.cpp:66-79 | unparsing a program at level 0 into a fresh stream yields exactly the program's text |

## Left out

- The lexer, the parser and the command-line driver are not part of this model. Opening the output file and reporting a bad output path in `main.cpp` are I/O and are left out. `Unparse.UnparseToNewStream` stands for writing to a fresh stream.
- The round trip (parsing the unparsed text gives back the same tree) is not modelled: there is no parser here. As the code is written it could not hold, since identifiers print without their names.
- The `unparse` methods that are declared but not defined (calls, literals, `true`, `false`, `havoc`, unary and binary operators, indexing) are parameters (`Render.Stubs`), not modelled output.
- Line and column are `size_t`, modelled as unbounded naturals; wrap-around is not modelled. An integer literal's value is a 32-bit `Int32`.
- The indentation level is an `int` in the source and `indent + 1` is passed to nested bodies; the model uses an unbounded `int`, so the overflow that 2^31 levels of nesting would cause is not modelled.
- Lists of nodes behind raw pointers become sequences, and a missing return expression (a null pointer) becomes `Option`. Aliasing, sharing and null children are not modelled.
- The identifier token's text, and the array size the parser reads, are never stored by the nodes, so they are not in the model.
- Stream errors and formatting state of `std::ostream` are left out: a write always appends its text.
- `Unparse.UnparseIfStmt`, `Unparse.UnparseWhileStmt`: the two methods share `Unparse.UnparseBlock`, which performs the same writes as both (they differ only in the keyword); the first half of `Unparse.UnparseIfElseStmt` uses it too.
