/**
  The part of a Python syntax tree that the code analyzer distinguishes.
  Every other construct is `Other`, holding its child nodes in the order
  `ast.NodeVisitor.generic_visit` visits them (field order).
 */
module PythonAst {
  import opened Wrappers

  datatype Tree =
    /** `def name(...)`: the arguments, body, decorators and return annotation. */
    | FunctionDef(name: string, children: seq<Tree>)
    /** `async def name(...)`: the analyzer has no visitor for it. */
    | AsyncFunctionDef(name: string, children: seq<Tree>)
    /** `class name(...)`: the bases, keywords, body and decorators. */
    | ClassDef(name: string, children: seq<Tree>)
    /** `import a, b.c as d`: the imported module names. */
    | Import(names: seq<string>)
    /** `from module import ...`; `None` for `from . import x`. */
    | ImportFrom(moduleName: Option<string>)
    /** A call: the called expression, then the positional and keyword argument values. */
    | Call(func: Tree, args: seq<Tree>)
    /** A bare identifier. */
    | Name(id: string)
    /** Any other statement or expression (a module is `Other` of its body). */
    | Other(children: seq<Tree>)
}
