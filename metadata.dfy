/** The abstract metadata of one loaded module, as the patch rules see it.
    Types, methods and fields are identified by their position in the module's
    tables; their names are the unreliable, obfuscated attribute that the rules
    fix, so a name is never used as an identity. A method body is a sequence of
    instruction records in macro-free form (every short opcode already expanded). */
module Metadata {

  datatype Option<+T> = None | Some(value: T)

  /** Member access as the rules test it: `IsPublic`, `IsPrivate`, or any other
      access level (family, assembly, ...). */
  datatype Visibility = Public | Private | Restricted

  /** What a type reference points to: a type defined in this module, by its
      position in the type table, or a type of another assembly, known only by
      its namespace and simple name. */
  datatype TypeHead = Local(id: nat) | Foreign(ns: string, name: string)

  /** A type reference; `args` holds the generic arguments of a generic
      instance and is empty for any other reference. */
  datatype TypeRef = TypeRef(head: TypeHead, args: seq<TypeHead>)

  datatype Param = Param(name: string, paramType: TypeRef)

  /** The opcodes the scans tell apart; every other opcode is `OtherCode`. */
  datatype OpCode = Ldfld | Call | Ldstr | OtherCode(code: nat)

  datatype Operand =
    | FieldDef(field: nat)      // a field defined in this module
    | MethodDef(target: nat)    // a method defined in this module
    | Str(value: string)        // a string literal
    | OtherOperand              // a reference into another module, a number, a branch target, or none

  datatype Instr = Instr(op: OpCode, operand: Operand)

  /** The fixed part of a type. Its name is kept apart, because rules rename it. */
  datatype TypeDecl = TypeDecl(ns: string, baseType: Option<TypeHead>, methods: seq<nat>, fields: seq<nat>)

  /** The fixed part of a method. `codeSize` is the size of the encoded body. */
  datatype MethodDecl = MethodDecl(
    isConstructor: bool,
    isVirtual: bool,
    params: seq<Param>,
    returnType: TypeRef,
    body: seq<Instr>,
    codeSize: nat)

  datatype FieldDecl = FieldDecl(fieldType: TypeRef)

  /** A method or a field as a predicate sees it: its fixed part with its
      current name and visibility. */
  datatype MethodInfo = MethodInfo(decl: MethodDecl, name: string, vis: Visibility)
  datatype FieldInfo = FieldInfo(decl: FieldDecl, name: string, vis: Visibility)

  /** The type table as a predicate sees it: fixed parts and current names. */
  datatype TypeEnv = TypeEnv(decls: seq<TypeDecl>, names: seq<string>)

  /** Severity of a message the rules write to the log. */
  datatype Level = Info | Warning | Error

  datatype Diagnostic =
    | NoMatch(rule: string)                      // warning: a rule matched nothing
    | AmbiguousMatch(rule: string)               // error: a rule matched more than one element
    | Message(level: Level, text: string)        // a message a rule writes itself
    | BaseFor(baseType: nat, derivedName: string) // info: a type derives from a renamed command type

  function Qualify(ns: string, name: string): string
  {
    if ns == "" then name else ns + "." + name
  }

  function Namespace(h: TypeHead, env: TypeEnv): string
  {
    match h
    case Local(id) => if id < |env.decls| then env.decls[id].ns else ""
    case Foreign(ns, _) => ns
  }

  /** The `Name` of a reference: the simple name, without namespace. */
  function SimpleName(h: TypeHead, env: TypeEnv): string
  {
    match h
    case Local(id) => if id < |env.names| then env.names[id] else ""
    case Foreign(_, name) => name
  }

  function FullName(h: TypeHead, env: TypeEnv): string
  {
    Qualify(Namespace(h, env), SimpleName(h, env))
  }

  /** `HasType`: the reference's full name is the given one. */
  predicate HasType(t: TypeRef, env: TypeEnv, name: string)
  {
    FullName(t.head, env) == name
  }

  /** `HasGenericParams`: the generic arguments have exactly the given full names, in order. */
  predicate HasGenericParams(t: TypeRef, env: TypeEnv, names: seq<string>)
  {
    |t.args| == |names| && forall i :: 0 <= i < |t.args| ==> FullName(t.args[i], env) == names[i]
  }

  /** `Resolve()`: the definition a reference stands for, when it is a type of this module. */
  function Resolve(t: TypeRef, env: TypeEnv): (r: Option<nat>)
    ensures r.Some? <==> t.head.Local? && t.head.id < |env.decls|
    ensures r.Some? ==> r.value == t.head.id
  {
    match t.head
    case Local(id) => if id < |env.decls| then Some(id) else None
    case Foreign(_, _) => None
  }

  /** Every member list and every instruction operand refers into the tables. */
  predicate WellFormed(types: seq<TypeDecl>, methods: seq<MethodDecl>, fields: seq<FieldDecl>)
  {
    && (forall t, k :: 0 <= t < |types| && 0 <= k < |types[t].methods| ==> types[t].methods[k] < |methods|)
    && (forall t, k :: 0 <= t < |types| && 0 <= k < |types[t].fields| ==> types[t].fields[k] < |fields|)
    && (forall m, i :: 0 <= m < |methods| && 0 <= i < |methods[m].body| ==> OperandInRange(methods[m].body[i], |methods|, |fields|))
  }

  predicate OperandInRange(ins: Instr, methodCount: nat, fieldCount: nat)
  {
    match ins.operand
    case FieldDef(f) => f < fieldCount
    case MethodDef(g) => g < methodCount
    case _ => true
  }

  function MethodInfos(decls: seq<MethodDecl>, names: seq<string>, vis: seq<Visibility>): (r: seq<MethodInfo>)
    requires |names| == |decls| && |vis| == |decls|
    ensures |r| == |decls|
    ensures forall k :: 0 <= k < |decls| ==> r[k] == MethodInfo(decls[k], names[k], vis[k])
  {
    seq(|decls|, k requires 0 <= k < |decls| => MethodInfo(decls[k], names[k], vis[k]))
  }

  function FieldInfos(decls: seq<FieldDecl>, names: seq<string>, vis: seq<Visibility>): (r: seq<FieldInfo>)
    requires |names| == |decls| && |vis| == |decls|
    ensures |r| == |decls|
    ensures forall k :: 0 <= k < |decls| ==> r[k] == FieldInfo(decls[k], names[k], vis[k])
  {
    seq(|decls|, k requires 0 <= k < |decls| => FieldInfo(decls[k], names[k], vis[k]))
  }
}
