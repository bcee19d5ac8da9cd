/** The patch rules run against one module: the two instruction-scan rules, the
    staged console rules, the command base type's rules, and the fan-out over
    every command type. The module is an element table whose names and
    visibilities the rules change in place; a rule that matches nothing, or more
    than one element, is logged and skipped, and the run goes on. */
module Patches {
  import opened Metadata
  import opened Resolution
  import opened Scans
  import opened Rules

  const GetPositionLabel := "EntityPlayer.base.base.getPosition()"
  const MapColorsLabel := "Chunk.GetMapColors()"
  const SetConsoleLabel := "NetTelnetServer.SetConsole()"
  const ConsoleFieldLabel := "NetTelnetServer.console"
  const TelnetServerLabel := "ConsoleSdtd.telnetServer"
  const ExecuteCmdFromClientLabel := "ConsoleSdtd.ExecuteCmdFromClient()"
  const ConsoleRunLabel := "ConsoleSdtd.Run()"
  const SendResultLabel := "ConsoleSdtd.SendResult()"
  const ExecuteRemoteCmdInternalLabel := "ConsoleSdtd.ExecuteRemoteCmdInternal()"
  const GetCommandLabel := "ConsoleSdtd.getCommand()"
  const AddCommandLabel := "ConsoleSdtd.AddCommand()"
  const CommandsLabel := "ConsoleSdtd.commands"
  const NamesLabel := "Command.Names()"

  /** The names the console rules give the console type's methods, besides `AddCommand`. */
  const ConsoleMethodNames: set<string> := {"ExecuteCmdFromClient", "Run", "SendResult", "ExecuteRemoteCmdInternal", "getCommand"}

  const LdfldMessage := "A Ldfld instruction has no FieldDefinition"
  const CallMessage := " (Chunk.GetMapColors()): A Call instruction has no MethodDefinition operand!"
  const LdstrMessage := "A Ldstr instruction has no string operand!"
  const NoNameMessage := "No name for command found"
  const NoNamesMethodMessage := "No Names() method for command found"

  /** A log that only grows keeps every earlier log as a prefix. */
  lemma PrefixTrans<T>(a: seq<T>, b: seq<T>, c: seq<T>)
    requires a <= b && b <= c
    ensures a <= c
  {
    assert c[..|b|] == b;
    assert c[..|a|] == b[..|a|];
  }

  lemma RepeatStep(d: Diagnostic, n: nat)
    ensures Repeat(d, n) + [d] == Repeat(d, n + 1)
  {
  }

  lemma AppendAssoc<T>(a: seq<T>, b: seq<T>, c: seq<T>)
    ensures (a + b) + c == a + (b + c)
  {
  }

  function Repeat(d: Diagnostic, n: nat): (r: seq<Diagnostic>)
    ensures |r| == n && forall i :: 0 <= i < n ==> r[i] == d
  {
    seq(n, _ => d)
  }

  // ---------------------------------------------------------------------------
  // Rule predicates as values, for Find

  function SetConsolePred(env: TypeEnv): MethodInfo -> bool { m => IsSetConsole(m, env) }
  function ConsoleFieldPred(env: TypeEnv, consoleName: string): FieldInfo -> bool { f => IsConsoleField(f, env, consoleName) }
  function TelnetServerFieldPred(env: TypeEnv): FieldInfo -> bool { f => IsTelnetServerField(f, env) }
  function ExecuteCmdFromClientPred(env: TypeEnv): MethodInfo -> bool { m => IsExecuteCmdFromClient(m, env) }
  function ConsoleRunPred(env: TypeEnv): MethodInfo -> bool { m => IsConsoleRun(m, env) }
  function SendResultPred(env: TypeEnv): MethodInfo -> bool { m => IsSendResult(m, env) }
  function ExecuteRemoteCmdInternalPred(env: TypeEnv): MethodInfo -> bool { m => IsExecuteRemoteCmdInternal(m, env) }
  function GetCommandPred(env: TypeEnv): MethodInfo -> bool { m => IsGetCommand(m, env) }
  function AddCommandPred(env: TypeEnv, commandName: string): MethodInfo -> bool { m => IsAddCommand(m, env, commandName) }
  function CommandsFieldPred(env: TypeEnv, commandName: string): FieldInfo -> bool { f => IsCommandsField(f, env, commandName) }
  function NamesPred(env: TypeEnv): MethodInfo -> bool { m => IsNames(m, env) }
  function CommandPred(r: CommandRule, env: TypeEnv, consoleName: string): MethodInfo -> bool
  {
    m => CommandRuleHolds(r, m, env, consoleName)
  }

  // ---------------------------------------------------------------------------
  // The five command rules, as a whole

  /** The verdict of each command rule on the methods `ids`, in rule order. */
  function CommandMatches(ids: seq<nat>, infos: seq<MethodInfo>, env: TypeEnv, consoleName: string): (r: seq<Match>)
    ensures |r| == |CommandRules|
  {
    seq(|CommandRules|, k requires 0 <= k < |CommandRules| =>
      Classify(ids, infos, CommandPred(CommandRules[k], env, consoleName)))
  }

  function RenameMatch(names: seq<string>, m: Match, newName: string): seq<string>
  {
    if m.Unique? && m.id < |names| then names[m.id := newName] else names
  }

  /** The visibilities after a rule that makes its unique match public. */
  function PublishMatch(vis: seq<Visibility>, m: Match): seq<Visibility>
  {
    if m.Unique? && m.id < |vis| then vis[m.id := Public] else vis
  }

  /** The names after each rule, in order, renamed its unique match. */
  function RenameMatches(names: seq<string>, rules: seq<CommandRule>, found: seq<Match>): (r: seq<string>)
    requires |rules| == |found|
    ensures |r| == |names|
    decreases |rules|
  {
    if rules == [] then names
    else RenameMatches(RenameMatch(names, found[0], TargetName(rules[0])), rules[1..], found[1..])
  }

  /** What the rules report, in order. */
  function ReportMatches(typeName: string, rules: seq<CommandRule>, found: seq<Match>): seq<Diagnostic>
    requires |rules| == |found|
    decreases |rules|
  {
    if rules == [] then []
    else Report(RuleLabel(typeName, rules[0]), found[0]) + ReportMatches(typeName, rules[1..], found[1..])
  }

  /** When no two rules uniquely match the same method, a method ends with the
      name of the rule that matched it, and keeps its name when none did. */
  lemma {:induction false} RenameMatchesAt(names: seq<string>, rules: seq<CommandRule>, found: seq<Match>, g: nat)
    requires |rules| == |found| && g < |names|
    requires forall k1, k2 :: 0 <= k1 < |found| && 0 <= k2 < |found| && found[k1] == Unique(g) && found[k2] == Unique(g) ==> k1 == k2
    ensures |RenameMatches(names, rules, found)| == |names|
    ensures (forall k :: 0 <= k < |found| ==> found[k] != Unique(g)) ==> RenameMatches(names, rules, found)[g] == names[g]
    ensures forall k :: 0 <= k < |found| && found[k] == Unique(g) ==> RenameMatches(names, rules, found)[g] == TargetName(rules[k])
    decreases |rules|
  {
    if rules != [] {
      var next := RenameMatch(names, found[0], TargetName(rules[0]));
      forall k1, k2 | 0 <= k1 < |found[1..]| && 0 <= k2 < |found[1..]| && found[1..][k1] == Unique(g) && found[1..][k2] == Unique(g)
        ensures k1 == k2
      {
        assert found[k1 + 1] == Unique(g) && found[k2 + 1] == Unique(g);
      }
      RenameMatchesAt(next, rules[1..], found[1..], g);
      if found[0] == Unique(g) {
        forall k | 0 <= k < |found[1..]|
          ensures found[1..][k] != Unique(g)
        {
          assert found[1..][k] == found[k + 1];
        }
      }
      forall k | 0 <= k < |found| && found[k] == Unique(g) && k > 0
        ensures RenameMatches(names, rules, found)[g] == TargetName(rules[k])
      {
        assert found[1..][k - 1] == Unique(g);
      }
      if forall k :: 0 <= k < |found| ==> found[k] != Unique(g) {
        forall k | 0 <= k < |found[1..]|
          ensures found[1..][k] != Unique(g)
        {
          assert found[k + 1] != Unique(g);
        }
      }
    }
  }

  lemma CommandRulesInjective(k1: nat, k2: nat)
    requires k1 < |CommandRules| && k2 < |CommandRules| && CommandRules[k1] == CommandRules[k2]
    ensures k1 == k2
  {
  }

  /** The command rules never rename the same method twice, and each method
      ends with the name of the one rule that matched it uniquely, or keeps its
      name. The one exception would be a console type called `System.String[]`. */
  lemma CommandRenamesExact(ids: seq<nat>, infos: seq<MethodInfo>, env: TypeEnv, consoleName: string, names: seq<string>, g: nat)
    requires consoleName != StringArrayType && |names| == |infos| && g < |names|
    ensures var found := CommandMatches(ids, infos, env, consoleName);
      var renamed := RenameMatches(names, CommandRules, found);
      && |renamed| == |names|
      && ((forall k :: 0 <= k < |found| ==> found[k] != Unique(g)) ==> renamed[g] == names[g])
      && (forall k :: 0 <= k < |found| && found[k] == Unique(g) ==>
            g in ids && CommandRuleHolds(CommandRules[k], infos[g], env, consoleName) && renamed[g] == TargetName(CommandRules[k]))
  {
    var found := CommandMatches(ids, infos, env, consoleName);
    forall k | 0 <= k < |found| && found[k] == Unique(g)
      ensures g in ids && g < |infos| && CommandRuleHolds(CommandRules[k], infos[g], env, consoleName)
    {
      UniqueIsTheOnlyMatch(ids, infos, CommandPred(CommandRules[k], env, consoleName), g);
    }
    forall k1, k2 | 0 <= k1 < |found| && 0 <= k2 < |found| && found[k1] == Unique(g) && found[k2] == Unique(g)
      ensures k1 == k2
    {
      CommandRulesDisjoint(infos[g], env, consoleName, CommandRules[k1], CommandRules[k2]);
      CommandRulesInjective(k1, k2);
    }
    RenameMatchesAt(names, CommandRules, found, g);
  }

  /** The command rules do not look at names, so renaming methods leaves their verdicts as they were. */
  lemma CommandMatchIgnoresNames(ids: seq<nat>, decls: seq<MethodDecl>, names1: seq<string>, names2: seq<string>,
                                 vis: seq<Visibility>, r: CommandRule, env: TypeEnv, consoleName: string)
    requires |names1| == |decls| && |names2| == |decls| && |vis| == |decls|
    ensures Classify(ids, MethodInfos(decls, names1, vis), CommandPred(r, env, consoleName)) ==
            Classify(ids, MethodInfos(decls, names2, vis), CommandPred(r, env, consoleName))
  {
    var t1, t2 := MethodInfos(decls, names1, vis), MethodInfos(decls, names2, vis);
    var p := CommandPred(r, env, consoleName);
    forall id | id in ids
      ensures Holds(id, t1, p) <==> Holds(id, t2, p)
    {
      if id < |decls| {
        assert t2[id] == t1[id].(name := names2[id]);
        CommandRulesIgnoreName(r, t1[id], env, consoleName, names2[id]);
      }
    }
    ClassifySameVerdicts(ids, t1, t2, p, p);
  }

  /** A command type whose rules all ran keeps the names of the methods it does
      not declare: a rule only ever renames one of the type's own methods. */
  lemma CommandRenamesInside(ids: seq<nat>, infos: seq<MethodInfo>, env: TypeEnv, consoleName: string, names: seq<string>, g: nat)
    requires g !in ids && g < |names|
    ensures var renamed := RenameMatches(names, CommandRules, CommandMatches(ids, infos, env, consoleName));
      |renamed| == |names| && renamed[g] == names[g]
  {
    var found := CommandMatches(ids, infos, env, consoleName);
    assert forall k :: 0 <= k < |found| ==> found[k] != Unique(g);
    RenameMatchesAt(names, CommandRules, found, g);
  }

  /** The `telnetServer` rule looks only at a field's type, so renaming fields
      leaves its verdict as it was. */
  lemma TelnetServerFieldIgnoresNames(ids: seq<nat>, decls: seq<FieldDecl>, names1: seq<string>, names2: seq<string>,
                                      vis: seq<Visibility>, env: TypeEnv)
    requires |names1| == |decls| && |names2| == |decls| && |vis| == |decls|
    ensures Classify(ids, FieldInfos(decls, names1, vis), TelnetServerFieldPred(env)) ==
            Classify(ids, FieldInfos(decls, names2, vis), TelnetServerFieldPred(env))
  {
    var t1, t2 := FieldInfos(decls, names1, vis), FieldInfos(decls, names2, vis);
    forall id | id in ids
      ensures Holds(id, t1, TelnetServerFieldPred(env)) <==> Holds(id, t2, TelnetServerFieldPred(env))
    {
      if id < |decls| {
        assert t1[id].decl == t2[id].decl;
      }
    }
    ClassifySameVerdicts(ids, t1, t2, TelnetServerFieldPred(env), TelnetServerFieldPred(env));
  }

  /** The console method rules after the first look only at signatures and
      visibilities, so renaming methods leaves their verdicts as they were. */
  lemma ConsoleRulesIgnoreNames(ids: seq<nat>, decls: seq<MethodDecl>, names1: seq<string>, names2: seq<string>,
                                vis: seq<Visibility>, env: TypeEnv)
    requires |names1| == |decls| && |names2| == |decls| && |vis| == |decls|
    ensures var t1, t2 := MethodInfos(decls, names1, vis), MethodInfos(decls, names2, vis);
      && Classify(ids, t1, ConsoleRunPred(env)) == Classify(ids, t2, ConsoleRunPred(env))
      && Classify(ids, t1, SendResultPred(env)) == Classify(ids, t2, SendResultPred(env))
      && Classify(ids, t1, ExecuteRemoteCmdInternalPred(env)) == Classify(ids, t2, ExecuteRemoteCmdInternalPred(env))
      && Classify(ids, t1, GetCommandPred(env)) == Classify(ids, t2, GetCommandPred(env))
  {
    MethodVerdictsAgree(ids, decls, names1, vis, names2, vis, ConsoleRunPred(env));
    MethodVerdictsAgree(ids, decls, names1, vis, names2, vis, SendResultPred(env));
    MethodVerdictsAgree(ids, decls, names1, vis, names2, vis, ExecuteRemoteCmdInternalPred(env));
    MethodVerdictsAgree(ids, decls, names1, vis, names2, vis, GetCommandPred(env));
  }

  /** Making a two-parameter method public cannot make it a `getCommand`, which
      takes one parameter, so the verdict of that rule stays as it was. */
  lemma GetCommandIgnoresPublishing(ids: seq<nat>, decls: seq<MethodDecl>, names: seq<string>, vis: seq<Visibility>,
                                    x: nat, env: TypeEnv)
    requires |names| == |decls| && |vis| == |decls|
    requires x < |decls| && |decls[x].params| == 2
    ensures Classify(ids, MethodInfos(decls, names, vis), GetCommandPred(env)) ==
            Classify(ids, MethodInfos(decls, names, vis[x := Public]), GetCommandPred(env))
  {
    forall id | id in ids && id < |decls|
      ensures IsGetCommand(MethodInfo(decls[id], names[id], vis[id]), env) <==>
              IsGetCommand(MethodInfo(decls[id], names[id], vis[x := Public][id]), env)
    {
      if id != x {
        assert vis[x := Public][id] == vis[id];
      }
    }
    MethodVerdictsAgree(ids, decls, names, vis, names, vis[x := Public], GetCommandPred(env));
  }

  /** The verdicts of the five console method rules, each taken on the same table. */
  datatype ConsoleVerdicts = ConsoleVerdicts(fromClient: Match, run: Match, send: Match, remote: Match, get: Match)

  function ConsoleVerdictsOf(ids: seq<nat>, t: seq<MethodInfo>, env: TypeEnv): ConsoleVerdicts
  {
    ConsoleVerdicts(Classify(ids, t, ExecuteCmdFromClientPred(env)), Classify(ids, t, ConsoleRunPred(env)),
                    Classify(ids, t, SendResultPred(env)), Classify(ids, t, ExecuteRemoteCmdInternalPred(env)),
                    Classify(ids, t, GetCommandPred(env)))
  }

  /** The method names after the five console rules renamed their unique matches, in order. */
  function ConsoleRenames(names: seq<string>, v: ConsoleVerdicts): seq<string>
  {
    var handlers := RenameMatch(RenameMatch(RenameMatch(names, v.fromClient, "ExecuteCmdFromClient"), v.run, "Run"), v.send, "SendResult");
    RenameMatch(RenameMatch(handlers, v.remote, "ExecuteRemoteCmdInternal"), v.get, "getCommand")
  }

  /** The diagnostics of the five console rules, in order. */
  function ConsoleReports(v: ConsoleVerdicts): seq<Diagnostic>
  {
    Report(ExecuteCmdFromClientLabel, v.fromClient) + Report(ConsoleRunLabel, v.run) + Report(SendResultLabel, v.send) +
    Report(ExecuteRemoteCmdInternalLabel, v.remote) + Report(GetCommandLabel, v.get)
  }

  /** A method rule that gives every candidate the same verdict before and after
      some renaming (or publishing) classifies the candidates alike. */
  lemma MethodVerdictsAgree(ids: seq<nat>, decls: seq<MethodDecl>, names1: seq<string>, vis1: seq<Visibility>,
                            names2: seq<string>, vis2: seq<Visibility>, p: MethodInfo -> bool)
    requires |names1| == |decls| && |vis1| == |decls| && |names2| == |decls| && |vis2| == |decls|
    requires forall id :: id in ids && id < |decls| ==>
      (p(MethodInfo(decls[id], names1[id], vis1[id])) <==> p(MethodInfo(decls[id], names2[id], vis2[id])))
    ensures Classify(ids, MethodInfos(decls, names1, vis1), p) == Classify(ids, MethodInfos(decls, names2, vis2), p)
  {
    var t1, t2 := MethodInfos(decls, names1, vis1), MethodInfos(decls, names2, vis2);
    ClassifySameVerdicts(ids, t1, t2, p, p);
  }

  /** The five command rules one after the other: the first, then the other four. */
  lemma CommandRulesSplit()
    ensures CommandRules[0] == Help && CommandRules[1..] == [RepeatInterval, Names, Run, Description]
    ensures CommandRules[1..][1..] == [Names, Run, Description]
    ensures CommandRules[1..][1..][1..] == [Run, Description]
    ensures CommandRules[1..][1..][1..][1..] == [Description]
    ensures CommandRules[1..][1..][1..][1..][1..] == []
  {
  }

  lemma RenameMatchesFive(names: seq<string>, found: seq<Match>)
    requires |found| == |CommandRules|
    ensures RenameMatches(names, CommandRules, found) ==
      RenameMatch(RenameMatch(RenameMatch(RenameMatch(RenameMatch(names,
        found[0], "Help"), found[1], "RepeatInterval"), found[2], "Names"), found[3], "Run"), found[4], "Description")
  {
    CommandRulesSplit();
    var f1 := found[1..];
    var f2 := f1[1..];
    var f3 := f2[1..];
    var f4 := f3[1..];
    assert f1[0] == found[1] && f2[0] == found[2] && f3[0] == found[3] && f4[0] == found[4];
    var n1 := RenameMatch(names, found[0], "Help");
    var n2 := RenameMatch(n1, found[1], "RepeatInterval");
    var n3 := RenameMatch(n2, found[2], "Names");
    var n4 := RenameMatch(n3, found[3], "Run");
    assert RenameMatches(names, CommandRules, found) == RenameMatches(n1, CommandRules[1..], f1);
    assert RenameMatches(n1, CommandRules[1..], f1) == RenameMatches(n2, CommandRules[1..][1..], f2);
    assert RenameMatches(n2, CommandRules[1..][1..], f2) == RenameMatches(n3, CommandRules[1..][1..][1..], f3);
    assert RenameMatches(n3, CommandRules[1..][1..][1..], f3) == RenameMatches(n4, CommandRules[1..][1..][1..][1..], f4);
  }

  /** What the five command rules report, written left to right as they log it. */
  lemma ReportMatchesFive(typeName: string, found: seq<Match>)
    requires |found| == |CommandRules|
    ensures ReportMatches(typeName, CommandRules, found) ==
      Report(RuleLabel(typeName, Help), found[0]) + Report(RuleLabel(typeName, RepeatInterval), found[1]) +
      Report(RuleLabel(typeName, Names), found[2]) + Report(RuleLabel(typeName, Run), found[3]) +
      Report(RuleLabel(typeName, Description), found[4])
  {
    CommandRulesSplit();
    var f1 := found[1..];
    var f2 := f1[1..];
    var f3 := f2[1..];
    var f4 := f3[1..];
    assert f1[0] == found[1] && f2[0] == found[2] && f3[0] == found[3] && f4[0] == found[4];
    var a, b, c, d, e := Report(RuleLabel(typeName, Help), found[0]), Report(RuleLabel(typeName, RepeatInterval), found[1]),
      Report(RuleLabel(typeName, Names), found[2]), Report(RuleLabel(typeName, Run), found[3]),
      Report(RuleLabel(typeName, Description), found[4]);
    assert ReportMatches(typeName, CommandRules[1..][1..][1..][1..], f4) == e;
    assert ReportMatches(typeName, CommandRules[1..][1..][1..], f3) == d + e;
    assert ReportMatches(typeName, CommandRules[1..][1..], f2) == c + (d + e);
    assert ReportMatches(typeName, CommandRules[1..], f1) == b + (c + (d + e));
    assert ReportMatches(typeName, CommandRules, found) == a + (b + (c + (d + e)));
    AppendAssoc(a + b + c, d, e);
    AppendAssoc(a + b, c, d + e);
    AppendAssoc(a, b, c + (d + e));
  }

  // ---------------------------------------------------------------------------
  // Types derived from a named type

  /** Type `k` has a base type, and that base type's simple name is `name`. */
  predicate DerivesFrom(env: TypeEnv, k: nat, name: string)
  {
    k < |env.decls| && env.decls[k].baseType.Some? && SimpleName(env.decls[k].baseType.value, env) == name
  }

  /** The types among the first `n` that derive from `name`, in module order. */
  function Subclasses(env: TypeEnv, name: string, n: nat): seq<nat>
  {
    if n == 0 then [] else Subclasses(env, name, n - 1) + (if DerivesFrom(env, n - 1, name) then [n - 1] else [])
  }

  lemma {:induction false} SubclassesExact(env: TypeEnv, name: string, n: nat)
    ensures forall k: nat :: k in Subclasses(env, name, n) <==> k < n && DerivesFrom(env, k, name)
    ensures forall i, j :: 0 <= i < j < |Subclasses(env, name, n)| ==> Subclasses(env, name, n)[i] < Subclasses(env, name, n)[j]
  {
    if n > 0 {
      SubclassesExact(env, name, n - 1);
      var prev := Subclasses(env, name, n - 1);
      var s := Subclasses(env, name, n);
      assert s == prev + (if DerivesFrom(env, n - 1, name) then [n - 1] else []);
      forall i, j | 0 <= i < j < |s|
        ensures s[i] < s[j]
      {
        if j >= |prev| {
          assert s[j] == n - 1;
          assert prev[i] in prev;
        }
      }
    }
  }

  /** The messages naming every type that derives from type `base`, in module order. */
  function DerivedLog(env: TypeEnv, base: nat, n: nat): seq<Diagnostic>
  {
    if n == 0 then []
    else
      DerivedLog(env, base, n - 1) +
      (if base < |env.names| && n - 1 < |env.names| && DerivesFrom(env, n - 1, env.names[base])
       then [BaseFor(base, env.names[n - 1])] else [])
  }

  /** The type and method names the fan-out has reached, what it has logged
      since it began, and the types it has patched, in order. */
  datatype FanOutState = FanOutState(typeNames: seq<string>, methodNames: seq<string>, log: seq<Diagnostic>, visited: seq<nat>)

  /** A fan-out step from type names, method names and a type position: the
      names it leaves, its log segment, and that position as the one visited. */
  ghost predicate StepShape(step: (seq<string>, seq<string>, nat) -> FanOutState, typeCount: nat, methodCount: nat)
  {
    forall names: seq<string>, mnames: seq<string>, td: nat
      | |names| == typeCount && |mnames| == methodCount && td < typeCount ::
        && |step(names, mnames, td).typeNames| == typeCount
        && |step(names, mnames, td).methodNames| == methodCount
        && step(names, mnames, td).visited == [td]
  }

  /** A step renames at most its own type, and only to a command name. */
  ghost predicate StepRenamesOwn(typeCount: nat, step: (seq<string>, seq<string>, nat) -> FanOutState)
  {
    forall names: seq<string>, mnames: seq<string>, td: nat, k: nat
      | |names| == typeCount && td < typeCount && k < typeCount && |step(names, mnames, td).typeNames| == typeCount ::
        step(names, mnames, td).typeNames[k] == names[k] || (k == td && HasCommandPrefix(step(names, mnames, td).typeNames[k]))
  }

  /** A step renames only methods of its own type. */
  ghost predicate StepMethodsOwn(decls: seq<TypeDecl>, step: (seq<string>, seq<string>, nat) -> FanOutState)
  {
    forall names: seq<string>, mnames: seq<string>, td: nat, g: nat
      | |names| == |decls| && td < |decls| && g < |mnames| && |step(names, mnames, td).methodNames| == |mnames| ::
        step(names, mnames, td).methodNames[g] == mnames[g] || g in decls[td].methods
  }

  /** The fan-out over the first `n` types, in module order: a type is visited
      when its base type's simple name is the command base type's name as the
      earlier steps have left it; the logs of the steps follow one another. */
  function FanOutWith(decls: seq<TypeDecl>, step: (seq<string>, seq<string>, nat) -> FanOutState,
                      names: seq<string>, mnames: seq<string>, command: nat, n: nat): (r: FanOutState)
    requires |names| == |decls| && command < |decls| && n <= |decls| && StepShape(step, |decls|, |mnames|)
    ensures |r.typeNames| == |decls| && |r.methodNames| == |mnames|
  {
    if n == 0 then FanOutState(names, mnames, [], [])
    else
      var s := FanOutWith(decls, step, names, mnames, command, n - 1);
      if DerivesFrom(TypeEnv(decls, s.typeNames), n - 1, s.typeNames[command]) then
        var e := step(s.typeNames, s.methodNames, n - 1);
        FanOutState(e.typeNames, e.methodNames, s.log + e.log, s.visited + e.visited)
      else s
  }

  /** The fan-out visits types in increasing module order. */
  lemma {:induction false} FanOutOrder(decls: seq<TypeDecl>, step: (seq<string>, seq<string>, nat) -> FanOutState,
                                       names: seq<string>, mnames: seq<string>, command: nat, n: nat)
    requires |names| == |decls| && command < |decls| && n <= |decls| && StepShape(step, |decls|, |mnames|)
    ensures IncreasingBelow(FanOutWith(decls, step, names, mnames, command, n).visited, n)
  {
    if n > 0 {
      FanOutOrder(decls, step, names, mnames, command, n - 1);
      var s := FanOutWith(decls, step, names, mnames, command, n - 1);
      if DerivesFrom(TypeEnv(decls, s.typeNames), n - 1, s.typeNames[command]) {
        assert step(s.typeNames, s.methodNames, n - 1).visited == [n - 1];
        AppendIncreasing(s.visited, n - 1);
      }
    }
  }

  /** A type the fan-out has not visited keeps its name; one it has visited
      keeps its name or takes a command name. */
  lemma {:induction false} FanOutTypeName(decls: seq<TypeDecl>, step: (seq<string>, seq<string>, nat) -> FanOutState,
                                          names: seq<string>, mnames: seq<string>, command: nat, n: nat, k: nat)
    requires |names| == |decls| && command < |decls| && n <= |decls| && StepShape(step, |decls|, |mnames|)
    requires StepRenamesOwn(|decls|, step) && k < |decls|
    ensures FanOutWith(decls, step, names, mnames, command, n).typeNames[k] == names[k] ||
      (k in FanOutWith(decls, step, names, mnames, command, n).visited &&
       HasCommandPrefix(FanOutWith(decls, step, names, mnames, command, n).typeNames[k]))
  {
    if n > 0 {
      FanOutTypeName(decls, step, names, mnames, command, n - 1, k);
      var s := FanOutWith(decls, step, names, mnames, command, n - 1);
      if DerivesFrom(TypeEnv(decls, s.typeNames), n - 1, s.typeNames[command]) {
        var e := step(s.typeNames, s.methodNames, n - 1);
        assert e.visited == [n - 1];
        assert e.typeNames[k] == s.typeNames[k] || (k == n - 1 && HasCommandPrefix(e.typeNames[k]));
        assert k in s.visited ==> k in s.visited + e.visited;
      }
    }
  }

  /** `FanOutTypeName` for every type at once. */
  lemma FanOutTypeNames(decls: seq<TypeDecl>, step: (seq<string>, seq<string>, nat) -> FanOutState,
                        names: seq<string>, mnames: seq<string>, command: nat, n: nat)
    requires |names| == |decls| && command < |decls| && n <= |decls| && StepShape(step, |decls|, |mnames|)
    requires StepRenamesOwn(|decls|, step)
    ensures forall j :: 0 <= j < |decls| && j !in FanOutWith(decls, step, names, mnames, command, n).visited ==>
      FanOutWith(decls, step, names, mnames, command, n).typeNames[j] == names[j]
    ensures forall j :: 0 <= j < |decls| && j in FanOutWith(decls, step, names, mnames, command, n).visited ==>
      FanOutWith(decls, step, names, mnames, command, n).typeNames[j] == names[j] ||
      HasCommandPrefix(FanOutWith(decls, step, names, mnames, command, n).typeNames[j])
  {
    forall j | 0 <= j < |decls| {
      FanOutTypeName(decls, step, names, mnames, command, n, j);
    }
  }

  /** A method keeps its name unless it belongs to a type the fan-out has visited. */
  lemma {:induction false} FanOutMethodName(decls: seq<TypeDecl>, step: (seq<string>, seq<string>, nat) -> FanOutState,
                                            names: seq<string>, mnames: seq<string>, command: nat, n: nat, g: nat)
    requires |names| == |decls| && command < |decls| && n <= |decls| && StepShape(step, |decls|, |mnames|)
    requires StepMethodsOwn(decls, step) && g < |mnames|
    ensures FanOutWith(decls, step, names, mnames, command, n).methodNames[g] == mnames[g] ||
      exists k :: k in FanOutWith(decls, step, names, mnames, command, n).visited && k < |decls| && g in decls[k].methods
  {
    if n > 0 {
      FanOutMethodName(decls, step, names, mnames, command, n - 1, g);
      var s := FanOutWith(decls, step, names, mnames, command, n - 1);
      if DerivesFrom(TypeEnv(decls, s.typeNames), n - 1, s.typeNames[command]) {
        var e := step(s.typeNames, s.methodNames, n - 1);
        assert e.visited == [n - 1];
        if e.methodNames[g] != s.methodNames[g] {
          assert n - 1 in s.visited + e.visited;
        } else if s.methodNames[g] != mnames[g] {
          var k :| k in s.visited && k < |decls| && g in decls[k].methods;
          assert k in s.visited + e.visited;
        }
      }
    }
  }

  /** `FanOutMethodName` for every method at once. */
  lemma FanOutMethodNames(decls: seq<TypeDecl>, step: (seq<string>, seq<string>, nat) -> FanOutState,
                          names: seq<string>, mnames: seq<string>, command: nat, n: nat)
    requires |names| == |decls| && command < |decls| && n <= |decls| && StepShape(step, |decls|, |mnames|)
    requires StepMethodsOwn(decls, step)
    ensures forall g :: 0 <= g < |mnames| && (forall k :: k in FanOutWith(decls, step, names, mnames, command, n).visited && k < |decls| ==> g !in decls[k].methods) ==>
      FanOutWith(decls, step, names, mnames, command, n).methodNames[g] == mnames[g]
  {
    forall g | 0 <= g < |mnames| && (forall k :: k in FanOutWith(decls, step, names, mnames, command, n).visited && k < |decls| ==> g !in decls[k].methods)
      ensures FanOutWith(decls, step, names, mnames, command, n).methodNames[g] == mnames[g]
    {
      FanOutMethodName(decls, step, names, mnames, command, n, g);
    }
  }

  /** On an isolated command base type the fan-out visits exactly the
      subclasses as they were before it began, and never the base type itself. */
  lemma {:induction false} FanOutVisitsSubclasses(decls: seq<TypeDecl>, step: (seq<string>, seq<string>, nat) -> FanOutState,
                                                  names: seq<string>, mnames: seq<string>, command: nat, n: nat)
    requires |names| == |decls| && command < |decls| && n <= |decls| && StepShape(step, |decls|, |mnames|)
    requires StepRenamesOwn(|decls|, step) && Isolated(TypeEnv(decls, names), command)
    ensures FanOutWith(decls, step, names, mnames, command, n).visited == Subclasses(TypeEnv(decls, names), names[command], n)
    ensures command !in FanOutWith(decls, step, names, mnames, command, n).visited
  {
    if n > 0 {
      FanOutVisitsSubclasses(decls, step, names, mnames, command, n - 1);
      var s := FanOutWith(decls, step, names, mnames, command, n - 1);
      FanOutTypeNames(decls, step, names, mnames, command, n - 1);
      var env := TypeEnv(decls, s.typeNames);
      var derives := DerivesFrom(env, n - 1, s.typeNames[command]);
      FanOutStep(TypeEnv(decls, names), env, command, s.visited, n - 1, derives);
      if derives {
        assert step(s.typeNames, s.methodNames, n - 1).visited == [n - 1];
      }
      assert FanOutWith(decls, step, names, mnames, command, n).visited == if derives then s.visited + [n - 1] else s.visited;
    }
  }

  /** The fan-out sees every command type as it was before the fan-out began when
      the command base type's name is carried by no other type, does not begin
      with `Command_`, and is not the name of its own base type. */
  predicate Isolated(env: TypeEnv, command: nat)
  {
    && command < |env.names|
    && !HasCommandPrefix(env.names[command])
    && !DerivesFrom(env, command, env.names[command])
    && forall k :: 0 <= k < |env.names| && k != command ==> env.names[k] != env.names[command]
  }

  /** The messages of the base-type report name exactly the subclasses, one
      each, in module order. */
  lemma {:induction false} DerivedLogNamesSubclasses(env: TypeEnv, base: nat, n: nat)
    requires |env.names| == |env.decls| && base < |env.names|
    ensures var dl, sc := DerivedLog(env, base, n), Subclasses(env, env.names[base], n);
      && |dl| == |sc|
      && forall i :: 0 <= i < |dl| ==> sc[i] < |env.names| && dl[i] == BaseFor(base, env.names[sc[i]])
  {
    if n > 0 {
      DerivedLogNamesSubclasses(env, base, n - 1);
      var dl, sc := DerivedLog(env, base, n), Subclasses(env, env.names[base], n);
      var dl0, sc0 := DerivedLog(env, base, n - 1), Subclasses(env, env.names[base], n - 1);
      if DerivesFrom(env, n - 1, env.names[base]) {
        assert dl == dl0 + [BaseFor(base, env.names[n - 1])] && sc == sc0 + [n - 1];
      } else {
        assert dl == dl0 && sc == sc0;
      }
    }
  }

  /** `visited` is strictly increasing and below `n`. */
  predicate IncreasingBelow(visited: seq<nat>, n: nat)
  {
    && (forall a, b :: 0 <= a < b < |visited| ==> visited[a] < visited[b])
    && (forall a :: 0 <= a < |visited| ==> visited[a] < n)
  }

  /** Appending a larger position keeps a list of positions strictly increasing. */
  lemma AppendIncreasing(s: seq<nat>, i: nat)
    requires IncreasingBelow(s, i)
    ensures IncreasingBelow(s + [i], i + 1)
  {
    forall a, b | 0 <= a < b < |s + [i]|
      ensures (s + [i])[a] < (s + [i])[b]
    {
      if b == |s| {
        assert (s + [i])[a] == s[a];
      }
    }
  }

  /** While the fan-out runs, the types it has visited either kept their names
      or took a `Command_` name, and the command base type kept its name; on an
      isolated base type the fan-out's test then answers as it would have before
      the fan-out began. */
  lemma DerivesFromStable(env0: TypeEnv, env: TypeEnv, command: nat, visited: seq<nat>, k: nat)
    requires Isolated(env0, command) && |env0.names| == |env0.decls|
    requires env.decls == env0.decls && |env.names| == |env0.names|
    requires command !in visited && env.names[command] == env0.names[command]
    requires forall j :: 0 <= j < |env.names| && j !in visited ==> env.names[j] == env0.names[j]
    requires forall j :: 0 <= j < |env.names| && j in visited ==> env.names[j] == env0.names[j] || HasCommandPrefix(env.names[j])
    ensures DerivesFrom(env, k, env.names[command]) <==> DerivesFrom(env0, k, env0.names[command])
  {
    if k < |env.decls| && env.decls[k].baseType.Some? && env.decls[k].baseType.value.Local? {
      var t := env.decls[k].baseType.value.id;
      if t < |env.names| && t in visited && env.names[t] != env0.names[t] {
        assert env.names[t] != env.names[command];
        assert env0.names[t] != env0.names[command];
      }
    }
  }

  /** One step of the fan-out: on an isolated base type, the visited list grows
      exactly as the list of subclasses does, and never takes in the base type. */
  lemma FanOutStep(env0: TypeEnv, env: TypeEnv, command: nat, visited: seq<nat>, i: nat, derives: bool)
    requires |env0.names| == |env0.decls| && env.decls == env0.decls && |env.names| == |env0.names|
    requires command < |env.names| && derives == DerivesFrom(env, i, env.names[command])
    requires Isolated(env0, command) ==> visited == Subclasses(env0, env0.names[command], i) && command !in visited
    requires forall j :: 0 <= j < |env.names| && j !in visited ==> env.names[j] == env0.names[j]
    requires forall j :: 0 <= j < |env.names| && j in visited ==> env.names[j] == env0.names[j] || HasCommandPrefix(env.names[j])
    ensures Isolated(env0, command) ==>
      && (if derives then visited + [i] else visited) == Subclasses(env0, env0.names[command], i + 1)
      && command !in (if derives then visited + [i] else visited)
  {
    if Isolated(env0, command) {
      DerivesFromStable(env0, env, command, visited, i);
    }
  }

  /** Every position where `after` differs from `before` is one of `ids`, and
      holds one of the `allowed` values. */
  ghost predicate ChangedWithin<T>(before: seq<T>, after: seq<T>, ids: seq<nat>, allowed: set<T>)
  {
    |after| == |before| && forall g :: 0 <= g < |after| && after[g] != before[g] ==> g in ids && after[g] in allowed
  }

  lemma ChangedWithinUpdate<T>(before: seq<T>, after: seq<T>, ids: seq<nat>, allowed: set<T>, x: nat, v: T)
    requires ChangedWithin(before, after, ids, allowed) && x < |after| && x in ids && v in allowed
    ensures ChangedWithin(before, after[x := v], ids, allowed)
  {
  }

  /** The five console rules rename only candidates, and only to console method names. */
  lemma ConsoleRenamesWithin(names: seq<string>, v: ConsoleVerdicts, ids: seq<nat>)
    requires v.fromClient.Unique? ==> v.fromClient.id in ids
    requires v.run.Unique? ==> v.run.id in ids
    requires v.send.Unique? ==> v.send.id in ids
    requires v.remote.Unique? ==> v.remote.id in ids
    requires v.get.Unique? ==> v.get.id in ids
    ensures ChangedWithin(names, ConsoleRenames(names, v), ids, ConsoleMethodNames)
  {
    var n1 := RenameMatch(names, v.fromClient, "ExecuteCmdFromClient");
    var n2 := RenameMatch(n1, v.run, "Run");
    var n3 := RenameMatch(n2, v.send, "SendResult");
    var n4 := RenameMatch(n3, v.remote, "ExecuteRemoteCmdInternal");
    RenameMatchWithin(names, names, v.fromClient, "ExecuteCmdFromClient", ids, ConsoleMethodNames);
    RenameMatchWithin(names, n1, v.run, "Run", ids, ConsoleMethodNames);
    RenameMatchWithin(names, n2, v.send, "SendResult", ids, ConsoleMethodNames);
    RenameMatchWithin(names, n3, v.remote, "ExecuteRemoteCmdInternal", ids, ConsoleMethodNames);
    RenameMatchWithin(names, n4, v.get, "getCommand", ids, ConsoleMethodNames);
  }

  lemma RenameMatchWithin(before: seq<string>, names: seq<string>, m: Match, newName: string, ids: seq<nat>, allowed: set<string>)
    requires ChangedWithin(before, names, ids, allowed) && newName in allowed
    requires m.Unique? ==> m.id in ids
    ensures ChangedWithin(before, RenameMatch(names, m, newName), ids, allowed)
  {
    if m.Unique? && m.id < |names| {
      ChangedWithinUpdate(before, names, ids, allowed, m.id, newName);
    }
  }

  lemma PublishMatchWithin(vis: seq<Visibility>, m: Match, ids: seq<nat>)
    requires m.Unique? ==> m.id in ids
    ensures ChangedWithin(vis, PublishMatch(vis, m), ids, {Public})
  {
    if m.Unique? && m.id < |vis| {
      ChangedWithinUpdate(vis, vis, ids, {Public}, m.id, Public);
    }
  }

  /** `after` is `before` with every position in `targets` set to `v`. */
  ghost predicate SetAt<T>(before: seq<T>, after: seq<T>, targets: set<nat>, v: T)
  {
    |after| == |before| && forall g :: 0 <= g < |after| ==> after[g] == if g in targets then v else before[g]
  }

  lemma SetAtStep<T>(before: seq<T>, after: seq<T>, targets: set<nat>, v: T, x: nat)
    requires SetAt(before, after, targets, v) && x < |after|
    ensures SetAt(before, after[x := v], targets + {x}, v)
  {
  }

  // ---------------------------------------------------------------------------
  // The module

  class ModuleDef {
    const typeDecls: seq<TypeDecl>
    const methodDecls: seq<MethodDecl>
    const fieldDecls: seq<FieldDecl>
    var typeNames: seq<string>
    var methodNames: seq<string>
    var methodVis: seq<Visibility>
    var fieldNames: seq<string>
    var fieldVis: seq<Visibility>
    var log: seq<Diagnostic>

    ghost predicate Valid()
      reads this
    {
      && |typeNames| == |typeDecls|
      && |methodNames| == |methodDecls| && |methodVis| == |methodDecls|
      && |fieldNames| == |fieldDecls| && |fieldVis| == |fieldDecls|
      && WellFormed(typeDecls, methodDecls, fieldDecls)
    }

    function Env(): TypeEnv
      reads this
    {
      TypeEnv(typeDecls, typeNames)
    }

    function Methods(): seq<MethodInfo>
      reads this
      requires Valid()
    {
      MethodInfos(methodDecls, methodNames, methodVis)
    }

    function Fields(): seq<FieldInfo>
      reads this
      requires Valid()
    {
      FieldInfos(fieldDecls, fieldNames, fieldVis)
    }

    constructor (types: seq<TypeDecl>, tnames: seq<string>,
                 methods: seq<MethodDecl>, mnames: seq<string>, mvis: seq<Visibility>,
                 fields: seq<FieldDecl>, fnames: seq<string>, fvis: seq<Visibility>)
      requires |tnames| == |types| && |mnames| == |methods| && |mvis| == |methods|
      requires |fnames| == |fields| && |fvis| == |fields|
      requires WellFormed(types, methods, fields)
      ensures Valid() && log == []
      ensures typeDecls == types && methodDecls == methods && fieldDecls == fields
      ensures typeNames == tnames && methodNames == mnames && methodVis == mvis
      ensures fieldNames == fnames && fieldVis == fvis
    {
      typeDecls, methodDecls, fieldDecls := types, methods, fields;
      typeNames, methodNames, methodVis := tnames, mnames, mvis;
      fieldNames, fieldVis := fnames, fvis;
      log := [];
    }

    // -------------------------------------------------------------------------
    // Actions and single-match rules

    /** `OnElement` over methods: find the single match of `p` among `ids`; make it
        public when asked, then rename it. Nothing else changes. */
    method OnMethod(rule: string, ids: seq<nat>, p: MethodInfo -> bool, makePublic: bool, newName: string)
      returns (r: Option<nat>)
      requires Valid()
      modifies this`methodNames, this`methodVis, this`log
      ensures Valid()
      ensures r == ToOption(Classify(ids, old(Methods()), p))
      ensures r.Some? ==> r.value in ids && r.value < |methodDecls| && p(old(Methods())[r.value])
      ensures methodNames == if r.Some? then old(methodNames)[r.value := newName] else old(methodNames)
      ensures methodVis == if r.Some? && makePublic then old(methodVis)[r.value := Public] else old(methodVis)
      ensures log == old(log) + Report(rule, Classify(ids, old(Methods()), p))
      ensures methodNames == RenameMatch(old(methodNames), Classify(ids, old(Methods()), p), newName)
      ensures methodVis == if makePublic then PublishMatch(old(methodVis), Classify(ids, old(Methods()), p)) else old(methodVis)
      ensures old(log) <= log
    {
      var found := Classify(ids, Methods(), p);
      r := ToOption(found);
      log := log + Report(rule, found);
      if r.Some? {
        UniqueIsTheOnlyMatch(ids, Methods(), p, r.value);
        if makePublic {
          methodVis := methodVis[r.value := Public];
        }
        methodNames := methodNames[r.value := newName];
      }
    }

    /** `Find` over methods: the single match of `p` among `ids`, with nothing renamed. */
    method FindMethod(rule: string, ids: seq<nat>, p: MethodInfo -> bool) returns (r: Option<nat>)
      requires Valid()
      modifies this`log
      ensures Valid()
      ensures r == ToOption(Classify(ids, Methods(), p))
      ensures r.Some? ==> r.value in ids && r.value < |methodDecls| && p(Methods()[r.value])
      ensures log == old(log) + Report(rule, Classify(ids, Methods(), p))
      ensures old(log) <= log
    {
      var found := Classify(ids, Methods(), p);
      r := ToOption(found);
      log := log + Report(rule, found);
      if r.Some? {
        UniqueIsTheOnlyMatch(ids, Methods(), p, r.value);
      }
    }

    /** `OnElement` over fields: find the single match of `p` among `ids`; make it
        public when asked, then rename it. */
    method OnField(rule: string, ids: seq<nat>, p: FieldInfo -> bool, makePublic: bool, newName: string)
      returns (r: Option<nat>)
      requires Valid()
      modifies this`fieldNames, this`fieldVis, this`log
      ensures Valid()
      ensures r == ToOption(Classify(ids, old(Fields()), p))
      ensures r.Some? ==> r.value in ids && r.value < |fieldDecls|
      ensures fieldNames == if r.Some? then old(fieldNames)[r.value := newName] else old(fieldNames)
      ensures fieldVis == if r.Some? && makePublic then old(fieldVis)[r.value := Public] else old(fieldVis)
      ensures log == old(log) + Report(rule, Classify(ids, old(Fields()), p))
      ensures old(log) <= log
    {
      var found := Classify(ids, Fields(), p);
      r := ToOption(found);
      log := log + Report(rule, found);
      if r.Some? {
        UniqueIsTheOnlyMatch(ids, Fields(), p, r.value);
        if makePublic {
          fieldVis := fieldVis[r.value := Public];
        }
        fieldNames := fieldNames[r.value := newName];
      }
    }

    /** `RenameAction` on a type. Renaming a type to the name it has changes nothing. */
    method RenameType(t: nat, newName: string)
      requires Valid() && t < |typeDecls|
      modifies this`typeNames
      ensures Valid()
      ensures typeNames == old(typeNames)[t := newName]
      ensures old(typeNames[t]) == newName ==> typeNames == old(typeNames)
    {
      typeNames := typeNames[t := newName];
    }

    // -------------------------------------------------------------------------
    // The instruction scans

    /** The action of rule `EntityPlayer.base.base.getPosition()`: every field that
        a `Ldfld` of the body loads as a field definition is renamed `position`,
        from index 0; a `Ldfld` with any other operand is logged as an error. */
    method RenameLoadedFields(m: nat)
      requires Valid() && m < |methodDecls|
      modifies this`fieldNames, this`log
      ensures Valid()
      ensures forall f :: 0 <= f < |fieldNames| ==>
        fieldNames[f] == if f in LoadedFields(methodDecls[m].body) then "position" else old(fieldNames[f])
      ensures log == old(log) + Repeat(Message(Error, LdfldMessage), Unresolved(methodDecls[m].body, Ldfld))
    {
      var body := methodDecls[m].body;
      ghost var loaded: set<nat> := {};
      var names, errors := fieldNames, [];
      var i := 0;
      while i < |body|
        modifies {}
        invariant 0 <= i <= |body|
        invariant loaded == LoadedFields(body[..i])
        invariant SetAt(fieldNames, names, loaded, "position")
        invariant errors == Repeat(Message(Error, LdfldMessage), Unresolved(body[..i], Ldfld))
      {
        var ins := body[i];
        assert OperandInRange(methodDecls[m].body[i], |methodDecls|, |fieldDecls|);
        ScanStep(body, i);
        if ins.op == Ldfld {
          if ins.operand.FieldDef? {
            SetAtStep(fieldNames, names, loaded, "position", ins.operand.field);
            names := names[ins.operand.field := "position"];
            loaded := loaded + {ins.operand.field};
          } else {
            RepeatStep(Message(Error, LdfldMessage), Unresolved(body[..i], Ldfld));
            errors := errors + [Message(Error, LdfldMessage)];
          }
        }
        i := i + 1;
      }
      assert body[..i] == body;
      fieldNames, log := names, log + errors;
    }

    /** The block that renames the map-colour method: when `Chunk.GetMapColors()`
        is found among the methods of type `chunk`, every method that a `Call` at
        index 1 or later calls as a method definition is renamed `CalcMapColors`
        and made public; a `Call` with any other operand is logged as a warning. */
    method RenameCalledMethods(m: nat)
      requires Valid() && m < |methodDecls|
      modifies this`methodNames, this`methodVis, this`log
      ensures Valid()
      ensures var targets := CalledMethods(From(methodDecls[m].body, MapColorsScanStart));
        && (forall g :: 0 <= g < |methodNames| ==>
              methodNames[g] == if g in targets then "CalcMapColors" else old(methodNames[g]))
        && (forall g :: 0 <= g < |methodVis| ==>
              methodVis[g] == if g in targets then Public else old(methodVis[g]))
      ensures log == old(log) + Repeat(Message(Warning, CallMessage), Unresolved(From(methodDecls[m].body, MapColorsScanStart), Call))
    {
      var body := methodDecls[m].body;
      ghost var s := From(body, MapColorsScanStart);
      ghost var called: set<nat> := {};
      var names, vis, warnings := methodNames, methodVis, [];
      var i := MapColorsScanStart;
      ghost var k := 0;
      while i < |body|
        modifies {}
        invariant i == MapColorsScanStart + k && k <= |s|
        invariant called == CalledMethods(s[..k])
        invariant SetAt(methodNames, names, called, "CalcMapColors")
        invariant SetAt(methodVis, vis, called, Public)
        invariant warnings == Repeat(Message(Warning, CallMessage), Unresolved(s[..k], Call))
      {
        var ins := body[i];
        assert ins == s[k];
        assert OperandInRange(methodDecls[m].body[i], |methodDecls|, |fieldDecls|);
        ScanStep(s, k);
        if ins.op == Call {
          if ins.operand.MethodDef? {
            var md := ins.operand.target;
            SetAtStep(methodNames, names, called, "CalcMapColors", md);
            SetAtStep(methodVis, vis, called, Public, md);
            names := names[md := "CalcMapColors"];
            vis := vis[md := Public];
            called := called + {md};
          } else {
            RepeatStep(Message(Warning, CallMessage), Unresolved(s[..k], Call));
            warnings := warnings + [Message(Warning, CallMessage)];
          }
        }
        i, k := i + 1, k + 1;
      }
      assert s[..k] == s;
      methodNames, methodVis, log := names, vis, log + warnings;
    }

    /** Rule `EntityPlayer.base.base.getPosition()` over the given candidate methods. */
    method PatchGetPosition(candidates: seq<nat>)
      requires Valid()
      modifies this`fieldNames, this`log
      ensures Valid()
      ensures var found := Classify(candidates, Methods(), IsGetPosition);
        var loaded := if found.Unique? && found.id < |methodDecls| then LoadedFields(methodDecls[found.id].body) else {};
        && (forall f :: 0 <= f < |fieldNames| ==> fieldNames[f] == if f in loaded then "position" else old(fieldNames[f]))
        && log == old(log) + Report(GetPositionLabel, found) +
             (if found.Unique? && found.id < |methodDecls|
              then Repeat(Message(Error, LdfldMessage), Unresolved(methodDecls[found.id].body, Ldfld)) else [])
    {
      var m := FindMethod(GetPositionLabel, candidates, IsGetPosition);
      if m.Some? {
        RenameLoadedFields(m.value);
      }
    }

    /** The block at the map-colour method, on the methods of type `chunk`. */
    method PatchMapColors(chunk: nat)
      requires Valid() && chunk < |typeDecls|
      modifies this`methodNames, this`methodVis, this`log
      ensures Valid()
      ensures var found := Classify(typeDecls[chunk].methods, old(Methods()), IsGetMapColors);
        var body := if found.Unique? && found.id < |methodDecls| then methodDecls[found.id].body else [];
        var targets := if found.Unique? then CalledMethods(From(body, MapColorsScanStart)) else {};
        && (forall g :: 0 <= g < |methodNames| ==>
              methodNames[g] == if g in targets then "CalcMapColors" else old(methodNames[g]))
        && (forall g :: 0 <= g < |methodVis| ==>
              methodVis[g] == if g in targets then Public else old(methodVis[g]))
        && log == old(log) + Report(MapColorsLabel, found) +
             (if found.Unique? then Repeat(Message(Warning, CallMessage), Unresolved(From(body, MapColorsScanStart), Call)) else [])
    {
      var mapColors := FindMethod(MapColorsLabel, typeDecls[chunk].methods, IsGetMapColors);
      if mapColors.Some? {
        RenameCalledMethods(mapColors.value);
      }
    }

    // -------------------------------------------------------------------------
    // Commands

    /** One command rule on the methods `ids`: `OnElement` renaming the single
        match to the rule's target name. */
    method OnCommandRule(ids: seq<nat>, env: TypeEnv, consoleName: string, typeName: string, r: CommandRule)
      returns (found: Match)
      requires Valid()
      modifies this`methodNames, this`methodVis, this`log
      ensures Valid()
      ensures found == Classify(ids, old(Methods()), CommandPred(r, env, consoleName))
      ensures methodNames == RenameMatch(old(methodNames), found, TargetName(r))
      ensures methodVis == old(methodVis)
      ensures log == old(log) + Report(RuleLabel(typeName, r), found)
    {
      found := Classify(ids, Methods(), CommandPred(r, env, consoleName));
      var m := OnMethod(RuleLabel(typeName, r), ids, CommandPred(r, env, consoleName), false, TargetName(r));
    }

    /** The five command rules on the methods of type `td`, labelled with
        `typeName`; `Help` looks for a parameter of the console type under the
        console's current name. */
    method PatchConsoleCommandMethods(td: nat, console: nat, typeName: string)
      requires Valid() && td < |typeDecls| && console < |typeDecls|
      modifies this`methodNames, this`methodVis, this`log
      ensures Valid()
      ensures var found := CommandMatches(typeDecls[td].methods, old(Methods()), Env(), typeNames[console]);
        && methodNames == RenameMatches(old(methodNames), CommandRules, found)
        && methodVis == old(methodVis)
        && log == old(log) + ReportMatches(typeName, CommandRules, found)
    {
      var ids, env, cn := typeDecls[td].methods, Env(), typeNames[console];
      ghost var names0, log0 := methodNames, log;
      ghost var found := CommandMatches(ids, Methods(), env, cn);
      CommandRulesSplit();
      var f0 := OnCommandRule(ids, env, cn, typeName, Help);
      ghost var acc := Report(RuleLabel(typeName, Help), f0);
      CommandMatchIgnoresNames(ids, methodDecls, names0, methodNames, methodVis, RepeatInterval, env, cn);
      var f1 := OnCommandRule(ids, env, cn, typeName, RepeatInterval);
      AppendAssoc(log0, acc, Report(RuleLabel(typeName, RepeatInterval), f1));
      acc := acc + Report(RuleLabel(typeName, RepeatInterval), f1);
      CommandMatchIgnoresNames(ids, methodDecls, names0, methodNames, methodVis, Names, env, cn);
      var f2 := OnCommandRule(ids, env, cn, typeName, Names);
      AppendAssoc(log0, acc, Report(RuleLabel(typeName, Names), f2));
      acc := acc + Report(RuleLabel(typeName, Names), f2);
      CommandMatchIgnoresNames(ids, methodDecls, names0, methodNames, methodVis, Run, env, cn);
      var f3 := OnCommandRule(ids, env, cn, typeName, Run);
      AppendAssoc(log0, acc, Report(RuleLabel(typeName, Run), f3));
      acc := acc + Report(RuleLabel(typeName, Run), f3);
      CommandMatchIgnoresNames(ids, methodDecls, names0, methodNames, methodVis, Description, env, cn);
      var f4 := OnCommandRule(ids, env, cn, typeName, Description);
      AppendAssoc(log0, acc, Report(RuleLabel(typeName, Description), f4));
      assert found[0] == f0 && found[1] == f1 && found[2] == f2 && found[3] == f3 && found[4] == f4;
      RenameMatchesFive(names0, found);
      ReportMatchesFive(typeName, found);
    }

    /** The name the literals of a command's `Names()` method give it, or the
        empty string when that method was not found. */
    function NameOf(namesMethod: Match): string
    {
      if namesMethod.Unique? && namesMethod.id < |methodDecls| then CommandName(methodDecls[namesMethod.id].body) else ""
    }

    /** What naming a command type logs besides the `Command.Names()` rule's own report. */
    function NamesScanLog(namesMethod: Match): seq<Diagnostic>
    {
      if namesMethod.Unique? && namesMethod.id < |methodDecls| then
        Repeat(Message(Warning, LdstrMessage), Unresolved(From(methodDecls[namesMethod.id].body, NamesScanStart), Ldstr)) +
        (if NameOf(namesMethod) == "" then [Message(Warning, NoNameMessage)] else [])
      else
        [Message(Warning, NoNamesMethodMessage)]
    }

    /** Patching command type `td` from the given type and method names: the
        names it leaves, its own log segment, and `td` as the one type visited.
        The `Names()` rule is judged before the type is renamed, the five command
        rules and the base-type report after. */
    function CommandTypeEffect(names: seq<string>, mnames: seq<string>, vis: seq<Visibility>, td: nat, console: nat): (r: FanOutState)
      requires |names| == |typeDecls| && |mnames| == |methodDecls| && |vis| == |methodDecls|
      requires td < |typeDecls| && console < |typeDecls|
      ensures |r.typeNames| == |typeDecls| && |r.methodNames| == |methodDecls| && r.visited == [td]
    {
      var infos := MethodInfos(methodDecls, mnames, vis);
      var namesMethod := Classify(typeDecls[td].methods, infos, NamesPred(TypeEnv(typeDecls, names)));
      var name := NameOf(namesMethod);
      var names1 := if name != "" then names[td := "Command_" + name] else names;
      var found := CommandMatches(typeDecls[td].methods, infos, TypeEnv(typeDecls, names1), names1[console]);
      FanOutState(names1, RenameMatches(mnames, CommandRules, found),
                  Report(NamesLabel, namesMethod) + NamesScanLog(namesMethod) +
                  ReportMatches(CommandLabel(name), CommandRules, found) + DerivedLog(TypeEnv(typeDecls, names1), td, |typeDecls|),
                  [td])
    }

    /** Patching one command type renames at most that type, and only to a
        command name, and renames only that type's own methods. */
    lemma CommandTypeEffectFrame(names: seq<string>, mnames: seq<string>, vis: seq<Visibility>, td: nat, console: nat)
      requires |names| == |typeDecls| && |mnames| == |methodDecls| && |vis| == |methodDecls|
      requires td < |typeDecls| && console < |typeDecls|
      ensures var e := CommandTypeEffect(names, mnames, vis, td, console);
        && (forall k :: 0 <= k < |names| && k != td ==> e.typeNames[k] == names[k])
        && (e.typeNames[td] == names[td] || HasCommandPrefix(e.typeNames[td]))
        && (forall g :: 0 <= g < |mnames| && g !in typeDecls[td].methods ==> e.methodNames[g] == mnames[g])
    {
      var infos := MethodInfos(methodDecls, mnames, vis);
      var name := NameOf(Classify(typeDecls[td].methods, infos, NamesPred(TypeEnv(typeDecls, names))));
      if name != "" {
        CommandLabelNotBase(name);
      }
      var names1 := if name != "" then names[td := "Command_" + name] else names;
      forall g | 0 <= g < |mnames| && g !in typeDecls[td].methods
        ensures CommandTypeEffect(names, mnames, vis, td, console).methodNames[g] == mnames[g]
      {
        CommandRenamesInside(typeDecls[td].methods, infos, TypeEnv(typeDecls, names1), names1[console], mnames, g);
      }
    }

    /** The fan-out's step: patch command type `td` from the given names. */
    function CommandStep(vis: seq<Visibility>, console: nat): (seq<string>, seq<string>, nat) -> FanOutState
      requires |vis| == |methodDecls| && console < |typeDecls|
    {
      (names: seq<string>, mnames: seq<string>, td: nat) =>
        if |names| == |typeDecls| && |mnames| == |methodDecls| && td < |typeDecls|
        then CommandTypeEffect(names, mnames, vis, td, console)
        else FanOutState(names, mnames, [], [td])
    }

    lemma CommandStepFacts(vis: seq<Visibility>, console: nat)
      requires |vis| == |methodDecls| && console < |typeDecls|
      ensures StepShape(CommandStep(vis, console), |typeDecls|, |methodDecls|)
      ensures StepRenamesOwn(|typeDecls|, CommandStep(vis, console))
      ensures StepMethodsOwn(typeDecls, CommandStep(vis, console))
    {
      var step := CommandStep(vis, console);
      forall names: seq<string>, mnames: seq<string>, td: nat, k: nat
        | |names| == |typeDecls| && td < |typeDecls| && k < |typeDecls| && |step(names, mnames, td).typeNames| == |typeDecls|
        ensures step(names, mnames, td).typeNames[k] == names[k] || (k == td && HasCommandPrefix(step(names, mnames, td).typeNames[k]))
      {
        if |mnames| == |methodDecls| {
          CommandTypeEffectFrame(names, mnames, vis, td, console);
        }
      }
      forall names: seq<string>, mnames: seq<string>, td: nat, g: nat
        | |names| == |typeDecls| && td < |typeDecls| && g < |mnames| && |step(names, mnames, td).methodNames| == |mnames|
        ensures step(names, mnames, td).methodNames[g] == mnames[g] || g in typeDecls[td].methods
      {
        if |mnames| == |methodDecls| {
          CommandTypeEffectFrame(names, mnames, vis, td, console);
        }
      }
    }

    /** The fan-out over the first `n` types of this module. */
    function FanOut(names: seq<string>, mnames: seq<string>, vis: seq<Visibility>, command: nat, console: nat, n: nat): FanOutState
      requires |names| == |typeDecls| && |mnames| == |methodDecls| && |vis| == |methodDecls|
      requires command < |typeDecls| && console < |typeDecls| && n <= |typeDecls|
    {
      CommandStepFacts(vis, console);
      FanOutWith(typeDecls, CommandStep(vis, console), names, mnames, command, n)
    }

    /** What the whole fan-out promises: it visits types in module order, renames
        only the types it visits, and only to command names, renames only their
        methods, and on an isolated command base type visits exactly its
        subclasses as they were before it began. */
    lemma FanOutFacts(names: seq<string>, mnames: seq<string>, vis: seq<Visibility>, command: nat, console: nat)
      returns (r: FanOutState)
      requires |names| == |typeDecls| && |mnames| == |methodDecls| && |vis| == |methodDecls|
      requires command < |typeDecls| && console < |typeDecls|
      ensures r == FanOut(names, mnames, vis, command, console, |typeDecls|)
      ensures forall a, b :: 0 <= a < b < |r.visited| ==> r.visited[a] < r.visited[b]
      ensures forall k :: k in r.visited ==> k < |typeDecls|
      ensures Isolated(TypeEnv(typeDecls, names), command) ==> r.visited == Subclasses(TypeEnv(typeDecls, names), names[command], |typeDecls|)
      ensures forall k :: 0 <= k < |names| && k !in r.visited ==> r.typeNames[k] == names[k]
      ensures forall k :: 0 <= k < |names| && k in r.visited ==> r.typeNames[k] == names[k] || HasCommandPrefix(r.typeNames[k])
      ensures forall g :: 0 <= g < |mnames| && (forall k :: k in r.visited && k < |typeDecls| ==> g !in typeDecls[k].methods) ==>
        r.methodNames[g] == mnames[g]
    {
      CommandStepFacts(vis, console);
      var step := CommandStep(vis, console);
      r := FanOutWith(typeDecls, step, names, mnames, command, |typeDecls|);
      FanOutOrder(typeDecls, step, names, mnames, command, |typeDecls|);
      FanOutTypeNames(typeDecls, step, names, mnames, command, |typeDecls|);
      FanOutMethodNames(typeDecls, step, names, mnames, command, |typeDecls|);
      if Isolated(TypeEnv(typeDecls, names), command) {
        FanOutVisitsSubclasses(typeDecls, step, names, mnames, command, |typeDecls|);
      }
    }

    /** Names the base-type report of type `td`: one message per type whose base
        type's simple name is `td`'s current name, in module order. */
    method LogDerivedTypes(td: nat)
      requires Valid() && td < |typeDecls|
      modifies this`log
      ensures Valid()
      ensures log == old(log) + DerivedLog(Env(), td, |typeDecls|)
    {
      var k := 0;
      while k < |typeDecls|
        invariant 0 <= k <= |typeDecls| && Valid()
        invariant log == old(log) + DerivedLog(Env(), td, k)
      {
        var b := typeDecls[k].baseType;
        if b.Some? && SimpleName(b.value, Env()) == typeNames[td] {
          log := log + [BaseFor(td, typeNames[k])];
        }
        k := k + 1;
      }
    }

    /** Naming a command type: find its `Names()` method and, when the longest
        literal from index 1 on is not empty, rename the type `Command_` and that
        literal. Returns the literal. */
    method NameCommandType(td: nat) returns (name: string)
      requires Valid() && td < |typeDecls|
      modifies this`typeNames, this`log
      ensures Valid()
      ensures var namesMethod := Classify(typeDecls[td].methods, Methods(), NamesPred(old(Env())));
        && name == NameOf(namesMethod)
        && typeNames == (if name != "" then old(typeNames)[td := "Command_" + name] else old(typeNames))
        && log == old(log) + Report(NamesLabel, namesMethod) + NamesScanLog(namesMethod)
    {
      ghost var nm := Classify(typeDecls[td].methods, Methods(), NamesPred(Env()));
      ghost var log0 := log;
      var namesMethod := FindMethod(NamesLabel, typeDecls[td].methods, NamesPred(Env()));
      name := "";
      if namesMethod.Some? {
        var unresolved;
        name, unresolved := ScanCommandName(methodDecls[namesMethod.value].body);
        var scanned := Repeat(Message(Warning, LdstrMessage), unresolved);
        log := log + scanned;
        if |name| > 0 {
          RenameType(td, "Command_" + name);
          assert NamesScanLog(nm) == scanned + [];
        } else {
          log := log + [Message(Warning, NoNameMessage)];
          AppendAssoc(log0 + Report(NamesLabel, nm), scanned, [Message(Warning, NoNameMessage)]);
        }
      } else {
        log := log + [Message(Warning, NoNamesMethodMessage)];
      }
    }

    /** One command type of the fan-out: name it from its `Names()` method, run
        the five command rules labelled with that name (or `UnknownCommand`), and
        report the types derived from it. */
    method PatchCommandType(td: nat, console: nat)
      requires Valid() && td < |typeDecls| && console < |typeDecls|
      modifies this`typeNames, this`methodNames, this`methodVis, this`log
      ensures Valid()
      ensures var namesMethod := Classify(typeDecls[td].methods, old(Methods()), NamesPred(old(Env())));
        var name := NameOf(namesMethod);
        var found := CommandMatches(typeDecls[td].methods, old(Methods()), Env(), typeNames[console]);
        && typeNames == (if name != "" then old(typeNames)[td := "Command_" + name] else old(typeNames))
        && methodNames == RenameMatches(old(methodNames), CommandRules, found)
        && methodVis == old(methodVis)
        && log == old(log) + Report(NamesLabel, namesMethod) + NamesScanLog(namesMethod) +
             ReportMatches(CommandLabel(name), CommandRules, found) + DerivedLog(Env(), td, |typeDecls|)
      ensures forall g :: 0 <= g < |methodNames| && g !in typeDecls[td].methods ==> methodNames[g] == old(methodNames[g])
      ensures forall k :: 0 <= k < |typeNames| && k != td ==> typeNames[k] == old(typeNames[k])
      ensures typeNames[td] == old(typeNames[td]) || HasCommandPrefix(typeNames[td])
      ensures old(log) <= log
    {
      ghost var infos0, names0 := Methods(), methodNames;
      var name := NameCommandType(td);
      if name != "" {
        CommandLabelNotBase(name);
      }
      ghost var log1 := log;
      PatchConsoleCommandMethods(td, console, CommandLabel(name));
      ghost var log2 := log;
      LogDerivedTypes(td);
      PrefixTrans(old(log), log1, log2);
      PrefixTrans(old(log), log2, log);
      forall g | 0 <= g < |methodNames| && g !in typeDecls[td].methods
        ensures methodNames[g] == old(methodNames[g])
      {
        CommandRenamesInside(typeDecls[td].methods, infos0, Env(), typeNames[console], names0, g);
      }
    }

    /** `PatchCommandType` as one step of the fan-out: from the state the fan-out
        has reached before type `td`, it reaches the state after it. (This
        wrapper has no counterpart in the program; it restates the contract in
        the form the fan-out's proof consumes.) */
    method VisitCommandType(ghost names0: seq<string>, ghost mnames0: seq<string>, ghost log0: seq<Diagnostic>,
                            command: nat, console: nat, td: nat)
      requires Valid() && command < |typeDecls| && console < |typeDecls| && td < |typeDecls|
      requires |names0| == |typeDecls| && |mnames0| == |methodDecls|
      requires var s := FanOut(names0, mnames0, methodVis, command, console, td);
        typeNames == s.typeNames && methodNames == s.methodNames && log == log0 + s.log
      requires DerivesFrom(Env(), td, typeNames[command])
      modifies this`typeNames, this`methodNames, this`methodVis, this`log
      ensures Valid()
      ensures methodVis == old(methodVis)
      ensures var s := FanOut(names0, mnames0, methodVis, command, console, td + 1);
        typeNames == s.typeNames && methodNames == s.methodNames && log == log0 + s.log
    {
      ghost var s := FanOut(names0, mnames0, methodVis, command, console, td);
      ghost var e := CommandTypeEffect(s.typeNames, s.methodNames, methodVis, td, console);
      assert CommandStep(methodVis, console)(s.typeNames, s.methodNames, td) == e;
      assert FanOut(names0, mnames0, methodVis, command, console, td + 1) ==
        FanOutState(e.typeNames, e.methodNames, s.log + e.log, s.visited + [td]);
      PatchCommandType(td, console);
      ghost var namesMethod := Classify(typeDecls[td].methods, old(Methods()), NamesPred(old(Env())));
      ghost var name := NameOf(namesMethod);
      ghost var found := CommandMatches(typeDecls[td].methods, old(Methods()), Env(), typeNames[console]);
      ghost var a, b := Report(NamesLabel, namesMethod), NamesScanLog(namesMethod);
      ghost var c, d := ReportMatches(CommandLabel(name), CommandRules, found), DerivedLog(Env(), td, |typeDecls|);
      AppendAssoc(old(log), a, b);
      AppendAssoc(old(log), a + b, c);
      AppendAssoc(old(log), a + b + c, d);
      assert log == old(log) + e.log;
      AppendAssoc(log0, s.log, e.log);
    }

    /** A type that does not derive from the command base type leaves the fan-out's state as it was. */
    lemma FanOutSkip(names0: seq<string>, mnames0: seq<string>, vis: seq<Visibility>, command: nat, console: nat, td: nat)
      requires |names0| == |typeDecls| && |mnames0| == |methodDecls| && |vis| == |methodDecls|
      requires command < |typeDecls| && console < |typeDecls| && td < |typeDecls|
      requires var s := FanOut(names0, mnames0, vis, command, console, td);
        !DerivesFrom(TypeEnv(typeDecls, s.typeNames), td, s.typeNames[command])
      ensures FanOut(names0, mnames0, vis, command, console, td + 1) == FanOut(names0, mnames0, vis, command, console, td)
    {
    }

    /** The fan-out: every type of the module whose base type's simple name is
        the command base type's current name is patched as a command, in module
        order. Returns the types it patched. */
    method PatchCommandTypes(command: nat, console: nat) returns (visited: seq<nat>)
      requires Valid() && command < |typeDecls| && console < |typeDecls|
      modifies this`typeNames, this`methodNames, this`methodVis, this`log
      ensures Valid()
      ensures methodVis == old(methodVis)
      ensures var s := FanOut(old(typeNames), old(methodNames), methodVis, command, console, |typeDecls|);
        typeNames == s.typeNames && methodNames == s.methodNames && log == old(log) + s.log && visited == s.visited
    {
      visited := [];
      var i: nat := 0;
      while i < |typeDecls|
        invariant 0 <= i <= |typeDecls| && Valid()
        invariant methodVis == old(methodVis)
        invariant var s := FanOut(old(typeNames), old(methodNames), methodVis, command, console, i);
          typeNames == s.typeNames && methodNames == s.methodNames && log == old(log) + s.log && visited == s.visited
      {
        var derives := typeDecls[i].baseType.Some? && SimpleName(typeDecls[i].baseType.value, Env()) == typeNames[command];
        assert derives == DerivesFrom(Env(), i, typeNames[command]);
        if derives {
          VisitCommandType(old(typeNames), old(methodNames), old(log), command, console, i);
          visited := visited + [i];
        } else {
          FanOutSkip(old(typeNames), old(methodNames), methodVis, command, console, i);
        }
        i := i + 1;
      }
    }

    // -------------------------------------------------------------------------
    // Console and command base type

    /** The two field rules of the console: the field of `NetTelnetServer` holding
        the console (found by the console type's current name), and the console's
        own `telnetServer` field, which is also made public. */
    method PatchConsoleFields(telnet: nat, console: nat)
      requires Valid() && telnet < |typeDecls| && console < |typeDecls|
      modifies this`fieldNames, this`fieldVis, this`log
      ensures Valid()
      ensures var consoleField := Classify(typeDecls[telnet].fields, old(Fields()), ConsoleFieldPred(Env(), typeNames[console]));
        var telnetField := Classify(typeDecls[console].fields, old(Fields()), TelnetServerFieldPred(Env()));
        && fieldNames == RenameMatch(RenameMatch(old(fieldNames), consoleField, "console"), telnetField, "telnetServer")
        && fieldVis == PublishMatch(old(fieldVis), telnetField)
        && log == old(log) + Report(ConsoleFieldLabel, consoleField) + Report(TelnetServerLabel, telnetField)
    {
      ghost var names0 := fieldNames;
      var r := OnField(ConsoleFieldLabel, typeDecls[telnet].fields, ConsoleFieldPred(Env(), typeNames[console]), false, "console");
      TelnetServerFieldIgnoresNames(typeDecls[console].fields, fieldDecls, names0, fieldNames, fieldVis, Env());
      r := OnField(TelnetServerLabel, typeDecls[console].fields, TelnetServerFieldPred(Env()), true, "telnetServer");
    }

    /** The first three console rules, none of which changes a visibility. */
    method PatchConsoleHandlers(ids: seq<nat>)
      requires Valid()
      modifies this`methodNames, this`methodVis, this`log
      ensures Valid() && methodVis == old(methodVis)
      ensures var v := ConsoleVerdictsOf(ids, old(Methods()), Env());
        && methodNames == RenameMatch(RenameMatch(RenameMatch(old(methodNames), v.fromClient, "ExecuteCmdFromClient"), v.run, "Run"), v.send, "SendResult")
        && log == old(log) + (Report(ExecuteCmdFromClientLabel, v.fromClient) + Report(ConsoleRunLabel, v.run) + Report(SendResultLabel, v.send))
    {
      ghost var env := Env();
      ghost var names0, vis0, log0 := methodNames, methodVis, log;
      var r := OnMethod(ExecuteCmdFromClientLabel, ids, ExecuteCmdFromClientPred(Env()), false, "ExecuteCmdFromClient");
      ghost var log1 := log;
      ConsoleRulesIgnoreNames(ids, methodDecls, names0, methodNames, vis0, env);
      r := OnMethod(ConsoleRunLabel, ids, ConsoleRunPred(Env()), false, "Run");
      ghost var log2 := log;
      ConsoleRulesIgnoreNames(ids, methodDecls, names0, methodNames, vis0, env);
      r := OnMethod(SendResultLabel, ids, SendResultPred(Env()), false, "SendResult");
      AppendAssoc(log0, log1[|log0|..], log2[|log1|..]);
      AppendAssoc(log0, log1[|log0|..] + log2[|log1|..], log[|log2|..]);
    }

    /** The five method rules of the console, the last of which captures the
        command base type from the return type of `getCommand`; only
        `ExecuteRemoteCmdInternal` is made public. Although each rule runs on the
        names and visibilities its predecessors left, every verdict is the one
        the rule gives on the table as it was before the first of them. */
    method PatchConsoleMethods(console: nat) returns (command: Option<nat>)
      requires Valid() && console < |typeDecls|
      modifies this`methodNames, this`methodVis, this`log
      ensures Valid()
      ensures var v := ConsoleVerdictsOf(typeDecls[console].methods, old(Methods()), Env());
        && methodNames == ConsoleRenames(old(methodNames), v)
        && methodVis == PublishMatch(old(methodVis), v.remote)
        && log == old(log) + ConsoleReports(v)
        && command == (if v.get.Unique? && v.get.id < |methodDecls| then Resolve(methodDecls[v.get.id].returnType, Env()) else None)
      ensures command.Some? ==> command.value < |typeDecls|
      ensures ChangedWithin(old(methodNames), methodNames, typeDecls[console].methods, ConsoleMethodNames)
      ensures ChangedWithin(old(methodVis), methodVis, typeDecls[console].methods, {Public})
      ensures old(log) <= log
    {
      var ids := typeDecls[console].methods;
      ghost var env := Env();
      ghost var names0, vis0, log0 := methodNames, methodVis, log;
      ghost var v := ConsoleVerdictsOf(ids, Methods(), env);
      PatchConsoleHandlers(ids);
      ghost var log3 := log;
      ConsoleRulesIgnoreNames(ids, methodDecls, names0, methodNames, vis0, env);
      var r := OnMethod(ExecuteRemoteCmdInternalLabel, ids, ExecuteRemoteCmdInternalPred(Env()), true, "ExecuteRemoteCmdInternal");
      ConsoleRulesIgnoreNames(ids, methodDecls, names0, methodNames, vis0, env);
      if r.Some? {
        // the method just made public takes two parameters, so it is no `getCommand`
        GetCommandIgnoresPublishing(ids, methodDecls, methodNames, vis0, r.value, env);
      }
      r := OnMethod(GetCommandLabel, ids, GetCommandPred(Env()), false, "getCommand");
      command := if r.Some? then Resolve(methodDecls[r.value].returnType, Env()) else None;
      ghost var handlers := log3[|log0|..];
      AppendAssoc(log0, handlers, Report(ExecuteRemoteCmdInternalLabel, v.remote));
      AppendAssoc(log0, handlers + Report(ExecuteRemoteCmdInternalLabel, v.remote), Report(GetCommandLabel, v.get));
      ConsoleRenamesWithin(names0, v, ids);
      PublishMatchWithin(vis0, v.remote, ids);
    }

    /** The two rules that need the command base type: `AddCommand`, found by its
        parameter's type, and the `commands` list field, also made public. */
    method PatchCommandMembers(console: nat, command: nat)
      requires Valid() && console < |typeDecls| && command < |typeDecls|
      modifies this`methodNames, this`methodVis, this`fieldNames, this`fieldVis, this`log
      ensures Valid()
      ensures methodVis == old(methodVis)
      ensures var addCommand := Classify(typeDecls[console].methods, old(Methods()), AddCommandPred(Env(), typeNames[command]));
        var commands := Classify(typeDecls[console].fields, old(Fields()), CommandsFieldPred(Env(), typeNames[command]));
        && methodNames == RenameMatch(old(methodNames), addCommand, "AddCommand")
        && fieldNames == RenameMatch(old(fieldNames), commands, "commands")
        && fieldVis == PublishMatch(old(fieldVis), commands)
        && log == old(log) + Report(AddCommandLabel, addCommand) + Report(CommandsLabel, commands)
    {
      var commandName := typeNames[command];
      var r := OnMethod(AddCommandLabel, typeDecls[console].methods, AddCommandPred(Env(), commandName), false, "AddCommand");
      r := OnField(CommandsLabel, typeDecls[console].fields, CommandsFieldPred(Env(), commandName), true, "commands");
    }

    /** The console rules that need no command base type: rename the console
        `ConsoleSdtd`, run its two field rules and its five method rules, and
        capture the command base type from `getCommand()`. */
    method PatchConsoleRules(telnet: nat, console: nat) returns (command: Option<nat>)
      requires Valid() && telnet < |typeDecls| && console < |typeDecls|
      modifies this`typeNames, this`methodNames, this`methodVis, this`fieldNames, this`fieldVis, this`log
      ensures Valid()
      ensures var env := TypeEnv(typeDecls, old(typeNames)[console := "ConsoleSdtd"]);
        var consoleField := Classify(typeDecls[telnet].fields, old(Fields()), ConsoleFieldPred(env, "ConsoleSdtd"));
        var telnetField := Classify(typeDecls[console].fields, old(Fields()), TelnetServerFieldPred(env));
        var v := ConsoleVerdictsOf(typeDecls[console].methods, old(Methods()), env);
        && typeNames == old(typeNames)[console := "ConsoleSdtd"]
        && fieldNames == RenameMatch(RenameMatch(old(fieldNames), consoleField, "console"), telnetField, "telnetServer")
        && fieldVis == PublishMatch(old(fieldVis), telnetField)
        && methodNames == ConsoleRenames(old(methodNames), v)
        && methodVis == PublishMatch(old(methodVis), v.remote)
        && log == old(log) + Report(ConsoleFieldLabel, consoleField) + Report(TelnetServerLabel, telnetField) + ConsoleReports(v)
        && command == (if v.get.Unique? && v.get.id < |methodDecls| then Resolve(methodDecls[v.get.id].returnType, env) else None)
      ensures command.Some? ==> command.value < |typeDecls|
      ensures ChangedWithin(old(methodNames), methodNames, typeDecls[console].methods, ConsoleMethodNames)
    {
      RenameType(console, "ConsoleSdtd");
      PatchConsoleFields(telnet, console);
      command := PatchConsoleMethods(console);
    }

    /** The console and command rules once the console type is known: the
        console rules and, when they captured a command base type, the two rules
        that need it, its renaming to `ConsoleCommand`, the command rules on it,
        and the fan-out over the types derived from it. */
    method PatchConsoleType(telnet: nat, console: nat) returns (command: Option<nat>, commandTypes: seq<nat>)
      requires Valid() && telnet < |typeDecls| && console < |typeDecls|
      modifies this`typeNames, this`methodNames, this`methodVis, this`fieldNames, this`fieldVis, this`log
      ensures Valid()
      ensures command.Some? ==> command.value < |typeDecls|
      ensures var env := TypeEnv(typeDecls, old(typeNames)[console := "ConsoleSdtd"]);
        var v := ConsoleVerdictsOf(typeDecls[console].methods, old(Methods()), env);
        command == (if v.get.Unique? && v.get.id < |methodDecls| then Resolve(methodDecls[v.get.id].returnType, env) else None)
      ensures command.None? ==>
        var env := TypeEnv(typeDecls, old(typeNames)[console := "ConsoleSdtd"]);
        var consoleField := Classify(typeDecls[telnet].fields, old(Fields()), ConsoleFieldPred(env, "ConsoleSdtd"));
        var telnetField := Classify(typeDecls[console].fields, old(Fields()), TelnetServerFieldPred(env));
        var v := ConsoleVerdictsOf(typeDecls[console].methods, old(Methods()), env);
        && commandTypes == [] && typeNames == old(typeNames)[console := "ConsoleSdtd"]
        && fieldNames == RenameMatch(RenameMatch(old(fieldNames), consoleField, "console"), telnetField, "telnetServer")
        && fieldVis == PublishMatch(old(fieldVis), telnetField)
        && methodNames == ConsoleRenames(old(methodNames), v)
        && methodVis == PublishMatch(old(methodVis), v.remote)
        && log == old(log) + Report(ConsoleFieldLabel, consoleField) + Report(TelnetServerLabel, telnetField) + ConsoleReports(v)
        && ChangedWithin(old(methodNames), methodNames, typeDecls[console].methods, ConsoleMethodNames)
      ensures forall k :: k in commandTypes ==> k < |typeDecls|
      ensures forall k :: 0 <= k < |typeNames| && k != console && Some(k) != command && k !in commandTypes ==>
        typeNames[k] == old(typeNames[k])
      ensures old(log) <= log
    {
      commandTypes := [];
      command := PatchConsoleRules(telnet, console);
      if command.Some? {
        ghost var log2 := log;
        commandTypes := PatchCommandBase(console, command.value);
        PrefixTrans(old(log), log2, log);
      }
    }

    /** The rules that follow from the command base type: its two console
        members, its own name and five methods, and every command type. */
    method PatchCommandBase(console: nat, command: nat) returns (commandTypes: seq<nat>)
      requires Valid() && console < |typeDecls| && command < |typeDecls|
      modifies this`typeNames, this`methodNames, this`methodVis, this`fieldNames, this`fieldVis, this`log
      ensures Valid()
      ensures forall k :: k in commandTypes ==> k < |typeDecls|
      ensures forall k :: 0 <= k < |typeNames| && k != command && k !in commandTypes ==> typeNames[k] == old(typeNames[k])
      ensures old(log) <= log
    {
      PatchCommandMembers(console, command);
      ghost var log1 := log;
      RenameType(command, "ConsoleCommand");
      ghost var log2 := log;
      PatchConsoleCommandMethods(command, console, "ConsoleCommand");
      PrefixTrans(old(log), log2, log);
      ghost var log3, names3, mnames3 := log, typeNames, methodNames;
      commandTypes := PatchCommandTypes(command, console);
      ghost var r := FanOutFacts(names3, mnames3, methodVis, command, console);
      assert log == log3 + r.log;
      PrefixTrans(old(log), log3, log);
    }

    /** The console and command rules: capture the console type from
        `NetTelnetServer.SetConsole()`, and when there is one, run the rules that
        follow from it. Returns the console type, the command base type and the
        command types visited. */
    method PatchConsole(telnet: nat) returns (console: Option<nat>, command: Option<nat>, commandTypes: seq<nat>)
      requires Valid() && telnet < |typeDecls|
      modifies this`typeNames, this`methodNames, this`methodVis, this`fieldNames, this`fieldVis, this`log
      ensures Valid()
      ensures var setConsole := Classify(typeDecls[telnet].methods, old(Methods()), SetConsolePred(old(Env())));
        && console == (if setConsole.Unique? then ConsoleOf(old(Methods())[setConsole.id], old(Env())) else None)
        && (console.None? ==>
              && typeNames == old(typeNames) && methodNames == old(methodNames) && methodVis == old(methodVis)
              && fieldNames == old(fieldNames) && fieldVis == old(fieldVis)
              && log == old(log) + Report(SetConsoleLabel, setConsole))
      ensures console.Some? ==> console.value < |typeDecls|
      ensures command.Some? ==> console.Some? && command.value < |typeDecls|
      ensures command.None? ==> commandTypes == []
      ensures forall k :: k in commandTypes ==> k < |typeDecls|
      ensures forall k :: 0 <= k < |typeNames| && Some(k) != console && Some(k) != command && k !in commandTypes ==>
        typeNames[k] == old(typeNames[k])
      ensures old(log) <= log
    {
      commandTypes := [];
      command := None;
      var setConsole := FindMethod(SetConsoleLabel, typeDecls[telnet].methods, SetConsolePred(Env()));
      console := if setConsole.Some? then ConsoleOf(Methods()[setConsole.value], Env()) else None;
      if console.Some? {
        ghost var log1 := log;
        command, commandTypes := PatchConsoleType(telnet, console.value);
        PrefixTrans(old(log), log1, log);
      }
    }

    /** The modelled part of the whole patch run, in the order the rules run:
        `getPosition` over the given candidates, the map-colour block on type
        `chunk`, then the console and command rules from type `telnet`. Every
        rule only adds to the log. */
    method ApplyManualPatches(candidates: seq<nat>, chunk: nat, telnet: nat)
      returns (console: Option<nat>, command: Option<nat>, commandTypes: seq<nat>)
      requires Valid() && chunk < |typeDecls| && telnet < |typeDecls|
      modifies this`typeNames, this`methodNames, this`methodVis, this`fieldNames, this`fieldVis, this`log
      ensures Valid()
      ensures command.Some? ==> console.Some?
      ensures forall k :: 0 <= k < |typeNames| && Some(k) != console && Some(k) != command && k !in commandTypes ==>
        typeNames[k] == old(typeNames[k])
      ensures old(log) <= log
    {
      PatchGetPosition(candidates);
      ghost var log1 := log;
      PatchMapColors(chunk);
      PrefixTrans(old(log), log1, log);
      ghost var log2 := log;
      console, command, commandTypes := PatchConsole(telnet);
      PrefixTrans(old(log), log2, log);
    }
  }
}
