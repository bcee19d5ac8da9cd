/** The predicates of the patch rules for the console, its commands, and the two
    instruction-scan rules. Each is a conjunction over a method's or field's
    signature; none looks at the element's own name unless the rule names it. */
module Rules {
  import opened Metadata

  const VoidType := "System.Void"
  const BooleanType := "System.Boolean"
  const Int32Type := "System.Int32"
  const StringType := "System.String"
  const StringArrayType := "System.String[]"
  const ListType := "System.Collections.Generic.List"

  /** A public, non-constructor method with exactly `arity` parameters. */
  predicate PublicWithArity(m: MethodInfo, arity: nat)
  {
    !m.decl.isConstructor && m.vis == Public && |m.decl.params| == arity
  }

  predicate ParamHasType(m: MethodInfo, i: nat, env: TypeEnv, name: string)
  {
    i < |m.decl.params| && HasType(m.decl.params[i].paramType, env, name)
  }

  predicate ParamNamed(m: MethodInfo, i: nat, name: string)
  {
    i < |m.decl.params| && m.decl.params[i].name == name
  }

  predicate Returns(m: MethodInfo, env: TypeEnv, name: string)
  {
    HasType(m.decl.returnType, env, name)
  }

  // ---------------------------------------------------------------------------
  // The two scan rules

  predicate IsGetPosition(m: MethodInfo)
  {
    PublicWithArity(m, 0) && m.name == "GetPosition"
  }

  predicate IsGetMapColors(m: MethodInfo)
  {
    PublicWithArity(m, 0) && m.name == "GetMapColors"
  }

  // ---------------------------------------------------------------------------
  // Console rules

  predicate IsSetConsole(m: MethodInfo, env: TypeEnv)
  {
    !m.decl.isConstructor && m.name == "SetConsole" && m.vis == Public &&
    |m.decl.params| == 1 && Returns(m, env, VoidType)
  }

  /** The console type the `SetConsole` rule captures: its parameter's type, when
      that is a type of this module. */
  function ConsoleOf(m: MethodInfo, env: TypeEnv): Option<nat>
  {
    if |m.decl.params| == 0 then None else Resolve(m.decl.params[0].paramType, env)
  }

  predicate IsConsoleField(f: FieldInfo, env: TypeEnv, consoleName: string)
  {
    HasType(f.decl.fieldType, env, consoleName)
  }

  predicate IsTelnetServerField(f: FieldInfo, env: TypeEnv)
  {
    HasType(f.decl.fieldType, env, "NetTelnetServer")
  }

  predicate IsExecuteCmdFromClient(m: MethodInfo, env: TypeEnv)
  {
    PublicWithArity(m, 4) &&
    ParamHasType(m, 0, env, Int32Type) && ParamHasType(m, 1, env, StringType) &&
    ParamHasType(m, 2, env, StringType) && ParamHasType(m, 3, env, StringType) &&
    Returns(m, env, VoidType)
  }

  predicate IsConsoleRun(m: MethodInfo, env: TypeEnv)
  {
    PublicWithArity(m, 0) && m.decl.isVirtual && Returns(m, env, VoidType) && m.decl.codeSize > 20
  }

  predicate IsSendResult(m: MethodInfo, env: TypeEnv)
  {
    PublicWithArity(m, 1) && ParamHasType(m, 0, env, StringType) && ParamNamed(m, 0, "_line") &&
    Returns(m, env, VoidType)
  }

  predicate IsExecuteRemoteCmdInternal(m: MethodInfo, env: TypeEnv)
  {
    !m.decl.isConstructor && m.vis == Private && |m.decl.params| == 2 &&
    ParamHasType(m, 0, env, StringType) && ParamHasType(m, 1, env, BooleanType) &&
    Returns(m, env, VoidType)
  }

  predicate IsGetCommand(m: MethodInfo, env: TypeEnv)
  {
    PublicWithArity(m, 1) && ParamHasType(m, 0, env, StringType) && ParamNamed(m, 0, "_command") &&
    Namespace(m.decl.returnType.head, env) == ""
  }

  predicate IsAddCommand(m: MethodInfo, env: TypeEnv, commandName: string)
  {
    PublicWithArity(m, 1) && ParamHasType(m, 0, env, commandName) && Returns(m, env, VoidType)
  }

  predicate IsCommandsField(f: FieldInfo, env: TypeEnv, commandName: string)
  {
    HasType(f.decl.fieldType, env, ListType) && HasGenericParams(f.decl.fieldType, env, [commandName])
  }

  // ---------------------------------------------------------------------------
  // The five rules applied to the command base type and to every command type

  predicate IsHelp(m: MethodInfo, env: TypeEnv, consoleName: string)
  {
    PublicWithArity(m, 1) && ParamHasType(m, 0, env, consoleName) && Returns(m, env, VoidType)
  }

  predicate IsRepeatInterval(m: MethodInfo, env: TypeEnv)
  {
    PublicWithArity(m, 0) && Returns(m, env, Int32Type)
  }

  /** Used twice: to find the method whose literals name a command, and as the
      rule that renames it `Names`. */
  predicate IsNames(m: MethodInfo, env: TypeEnv)
  {
    PublicWithArity(m, 0) && Returns(m, env, StringArrayType)
  }

  predicate IsCommandRun(m: MethodInfo, env: TypeEnv)
  {
    PublicWithArity(m, 1) && ParamHasType(m, 0, env, StringArrayType) && Returns(m, env, VoidType)
  }

  predicate IsDescription(m: MethodInfo, env: TypeEnv)
  {
    PublicWithArity(m, 0) && Returns(m, env, StringType)
  }

  /** The five command rules, in the order they run. */
  datatype CommandRule = Help | RepeatInterval | Names | Run | Description

  const CommandRules: seq<CommandRule> := [Help, RepeatInterval, Names, Run, Description]

  predicate CommandRuleHolds(r: CommandRule, m: MethodInfo, env: TypeEnv, consoleName: string)
  {
    match r
    case Help => IsHelp(m, env, consoleName)
    case RepeatInterval => IsRepeatInterval(m, env)
    case Names => IsNames(m, env)
    case Run => IsCommandRun(m, env)
    case Description => IsDescription(m, env)
  }

  /** The name a command rule gives the method it matches. */
  function TargetName(r: CommandRule): string
  {
    match r
    case Help => "Help"
    case RepeatInterval => "RepeatInterval"
    case Names => "Names"
    case Run => "Run"
    case Description => "Description"
  }

  function Suffix(r: CommandRule): string
  {
    "." + TargetName(r) + "()"
  }

  /** The diagnostic label of command rule `r` for the type labelled `typeName`. */
  function RuleLabel(typeName: string, r: CommandRule): string
  {
    typeName + Suffix(r)
  }

  /** The rule labels of one type are pairwise distinct and all begin with the
      type's label, so every diagnostic names its type and its rule. */
  lemma RuleLabelsDistinct(typeName: string, r1: CommandRule, r2: CommandRule)
    ensures RuleLabel(typeName, r1)[..|typeName|] == typeName
    ensures r1 != r2 ==> RuleLabel(typeName, r1) != RuleLabel(typeName, r2)
  {
    if r1 != r2 {
      assert |TargetName(r1)| != |TargetName(r2)|;
      assert |RuleLabel(typeName, r1)| != |RuleLabel(typeName, r2)|;
    }
  }

  /** No method satisfies two command rules, as long as the console type is not
      called `System.String[]` (the only way `Help` and `Run` could overlap). So
      the five rules never rename the same method twice. */
  lemma CommandRulesDisjoint(m: MethodInfo, env: TypeEnv, consoleName: string, r1: CommandRule, r2: CommandRule)
    requires consoleName != StringArrayType
    requires CommandRuleHolds(r1, m, env, consoleName) && CommandRuleHolds(r2, m, env, consoleName)
    ensures r1 == r2
  {
    assert |VoidType| != |StringArrayType| && |Int32Type| != |StringArrayType|;
    assert |StringType| != |StringArrayType| && |Int32Type| != |StringType|;
  }

  /** None of the command rules looks at the method's own name. */
  lemma CommandRulesIgnoreName(r: CommandRule, m: MethodInfo, env: TypeEnv, consoleName: string, n: string)
    ensures CommandRuleHolds(r, m.(name := n), env, consoleName) == CommandRuleHolds(r, m, env, consoleName)
  {
  }

  /** The label of the sub-pipeline of one command type: `Command_` and its name,
      or `UnknownCommand` when no name was found. */
  function CommandLabel(name: string): string
  {
    if |name| > 0 then "Command_" + name else "UnknownCommand"
  }

  predicate HasCommandPrefix(s: string)
  {
    |s| >= 8 && s[..8] == "Command_"
  }

  /** A renamed command type never takes the name of the command base type, so
      renaming one command cannot make another type look like a command. */
  lemma CommandLabelNotBase(name: string)
    requires |name| > 0
    ensures HasCommandPrefix(CommandLabel(name))
    ensures CommandLabel(name) != "ConsoleCommand"
  {
    assert CommandLabel(name)[2] == 'm';
  }
}
