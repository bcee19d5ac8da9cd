# Manual patches of the 7 Days to Die deobfuscator, modelled in Dafny

The deobfuscator loads the game's obfuscated assembly and renames types,
methods and fields back to readable names. `ManualPatches.applyManualPatches`
does this with a catalog of rules. Each rule names a collection of candidate
elements and a predicate over their signatures. It proceeds only when exactly
one candidate matches, and then renames the match and may make it public.

This project models the decision logic of that file:

- the two instruction scans: the `GetPosition()` scan renames fields loaded by
  `Ldfld`, from index 0; the `GetMapColors()` scan renames and publishes methods
  called by `Call`, from index 1;
- the staged console rules: the console type is captured from
  `NetTelnetServer.SetConsole()`, the command base type from
  `ConsoleSdtd.getCommand()`, and every later block runs only when its capture
  succeeded;
- the fan-out over every type whose base type carries the command base type's
  name: each such type is named `Command_` plus the longest string literal of
  its `Names()` method, scanned from index 1, when that literal is non-empty;
- the five structural rules of `PatchConsoleCommandMethods` and their labels.

The module is a `Patches.ModuleDef` object. Its type, method and field tables
are fixed sequences of declarations. Names, visibilities and the diagnostic log
are fields that the rules reassign in place. Elements are identified by their
position in a table, never by name. A type reference to a type of the module
holds that type's position, so renaming a type is seen by every reference to
it, as with a shared definition object in the original.

Files:

- `metadata.dfy` (module `Metadata`): types, methods, fields, instructions, type
  references, diagnostics, and the `HasType`, `HasGenericParams` and `Resolve`
  queries.
- `resolution.dfy` (module `Resolution`): the single-match search behind `Find`
  and `OnElement`, with a reference definition (the list of all matches) and
  what each outcome logs.
- `scans.dfy` (module `Scans`): the three scans as folds over a prefix of the
  body, their characterisations, and the imperative `Names()` scan.
- `rules.dfy` (module `Rules`): the rule predicates, the five command rules,
  their target names and their labels.
- `patches.dfy` (module `Patches`): the command rules as a whole, the fan-out's
  specification, and the class `ModuleDef` with the rules as methods.

## Model

| member | source | states |
|---|---|---|
| Resolution.Classify | ManualDeobfuscator/ManualPatches.cs:223-225 | a unique match is one of the candidates and satisfies the rule's predicate |
| Resolution.ClassifyCounts | ManualDeobfuscator/ManualPatches.cs:223-225 | the search reports no match, the single match, or ambiguity exactly as the list of all satisfying candidates has zero, one, or more elements |
| Resolution.UniqueIsTheOnlyMatch | ManualDeobfuscator/ManualPatches.cs:223-225 | a unique match is the only candidate satisfying the predicate |
| Resolution.ReportCounts | ManualDeobfuscator/ManualPatches.cs:271-276 | a rule logs nothing iff exactly one candidate satisfies its predicate, a no-match warning under its label iff none does, and an ambiguity error under its label iff two or more do |
| Scans.LongestIsFirstLongest | ManualDeobfuscator/ManualPatches.cs:229-236 | the literal the strictly-longer scan keeps is the first string literal of greatest length, or empty when there is none |
| Scans.FirstLongestUnique | ManualDeobfuscator/ManualPatches.cs:229-236 | the first-longest description picks at most one string |
| Scans.LongestCharacterized | ManualDeobfuscator/ManualPatches.cs:229-236 | a string is what the scan keeps iff it is the first literal of greatest length |
| Scans.CommandNameFacts | ManualDeobfuscator/ManualPatches.cs:222-236 | the command name is at least as long as every literal at index 1 or later, and is empty or the earliest such literal of its length |
| Scans.CommandNameEmpty | ManualDeobfuscator/ManualPatches.cs:234-236 | the name is empty iff every literal at index 1 or later is empty, so an empty literal is never chosen |
| Scans.FirstInstructionIgnored | ManualDeobfuscator/ManualPatches.cs:229 | two bodies that differ only at index 0 give the same command name |
| Scans.LongestExample | ManualDeobfuscator/ManualPatches.cs:229-236 | literals "a", "ab", "longname", "z" after a first instruction give "longname" |
| Scans.ScanCommandName | ManualDeobfuscator/ManualPatches.cs:222-240 | the indexed loop from 1 returns the command name and the number of `Ldstr` instructions without a string operand |
| Scans.LoadedFieldsExact | ManualDeobfuscator/ManualPatches.cs:33-41 | a field is a `GetPosition` target iff some instruction of the body is a `Ldfld` of that field definition |
| Scans.CalledMethodsExact | ManualDeobfuscator/ManualPatches.cs:56-66 | a method is a call target of a sequence iff some instruction in it is a `Call` of that method definition |
| Scans.MapColorsTargets | ManualDeobfuscator/ManualPatches.cs:56-61 | a method is a `GetMapColors` target iff a `Call` of it sits at index 1 or later |
| Scans.LoadedFieldsInRange | ManualDeobfuscator/ManualPatches.cs:35-37 | every field the `GetPosition` scan renames lies in the field table |
| Scans.CalledMethodsInRange | ManualDeobfuscator/ManualPatches.cs:58-62 | every method the `GetMapColors` scan renames lies in the method table |
| Rules.RuleLabelsDistinct | ManualDeobfuscator/ManualPatches.cs:271-297 | every command rule label begins with the type label, and the five labels of one type are distinct |
| Rules.CommandRulesDisjoint | ManualDeobfuscator/ManualPatches.cs:271-301 | no method satisfies two of the five command rules unless the console type is named `System.String[]` |
| Rules.CommandRulesIgnoreName | ManualDeobfuscator/ManualPatches.cs:271-301 | no command rule looks at the method's own name |
| Rules.CommandLabelNotBase | ManualDeobfuscator/ManualPatches.cs:241-242 | a renamed command type's name begins with `Command_` and is never `ConsoleCommand` |
| Patches.RenameMatchesAt | ManualDeobfuscator/ManualPatches.cs:271-301 | when no two rules uniquely match the same method, running the rules in order leaves a method with the target name of the rule that matched it, or its old name |
| Patches.CommandRenamesExact | ManualDeobfuscator/ManualPatches.cs:269-303 | after the five command rules, a method uniquely matched by a rule is one of the type's methods, satisfies that rule, and bears that rule's name; an unmatched method keeps its name |
| Patches.CommandMatchIgnoresNames | ManualDeobfuscator/ManualPatches.cs:269-303 | renaming methods does not change any command rule's verdict, so later rules see what earlier ones saw |
| Patches.CommandRenamesInside | ManualDeobfuscator/ManualPatches.cs:271-301 | the command rules never rename a method outside the type's own method list |
| Patches.RenameMatchesFive | ManualDeobfuscator/ManualPatches.cs:271-301 | the five command rules rename in the order Help, RepeatInterval, Names, Run, Description |
| Patches.ReportMatchesFive | ManualDeobfuscator/ManualPatches.cs:271-301 | the five command rules log in that same order, each under its own label |
| Patches.SubclassesExact | ManualDeobfuscator/ManualPatches.cs:220-221 | the fan-out's specification holds exactly the types with a base type whose simple name is the given name, in increasing module order |
| Patches.DerivesFromStable | ManualDeobfuscator/ManualPatches.cs:220-242 | on an isolated command base type, renaming already visited types to `Command_` names does not change which later types the fan-out test selects |
| Patches.FanOutOrder | ManualDeobfuscator/ManualPatches.cs:220-221 | the fan-out's specification visits types in strictly increasing module order, each below the bound |
| Patches.FanOutTypeNames | ManualDeobfuscator/ManualPatches.cs:220-258 | in the fan-out's specification, a type it does not visit keeps its name, and a visited type keeps its name or gets a `Command_` name, whenever each step renames only its own type |
| Patches.FanOutMethodNames | ManualDeobfuscator/ManualPatches.cs:220-258 | in the fan-out's specification, a method that belongs to no visited type keeps its name, whenever each step renames only its own type's methods |
| Patches.FanOutVisitsSubclasses | ManualDeobfuscator/ManualPatches.cs:220-258 | on an isolated command base type, the fan-out's specification visits exactly the subclasses as they were before it began, and never the base type itself |
| Patches.DerivedLogNamesSubclasses | ManualDeobfuscator/ManualPatches.cs:252-256 | the base-type report of a type has one message per type derived from it, in module order, naming that type |
| Patches.ModuleDef.OnMethod | ManualDeobfuscator/ManualPatches.cs:176-183 | a method rule renames the unique match (publishing it first when asked), changes nothing else, and logs its outcome |
| Patches.ModuleDef.FindMethod | ManualDeobfuscator/ManualPatches.cs:223-225 | `Find` returns the unique match, logs its outcome and renames nothing |
| Patches.ModuleDef.OnField | ManualDeobfuscator/ManualPatches.cs:143-145 | a field rule renames the unique match (publishing it first when asked), changes nothing else, and logs its outcome |
| Patches.ModuleDef.RenameType | ManualDeobfuscator/ManualPatches.cs:135 | renaming a type changes that type's name only; renaming it to its own name changes nothing |
| Patches.ModuleDef.RenameLoadedFields | ManualDeobfuscator/ManualPatches.cs:31-44 | after the scan from index 0, exactly the fields loaded by a `Ldfld` of a field definition are named `position`; one error is logged per `Ldfld` with another operand |
| Patches.ModuleDef.RenameCalledMethods | ManualDeobfuscator/ManualPatches.cs:54-67 | after the scan from index 1, exactly the methods called there as method definitions are named `CalcMapColors` and public; one warning is logged per `Call` with another operand |
| Patches.ModuleDef.PatchGetPosition | ManualDeobfuscator/ManualPatches.cs:28-46 | the `getPosition` rule renames fields only when the method was found uniquely, and logs the rule's outcome then the scan's errors |
| Patches.ModuleDef.PatchMapColors | ManualDeobfuscator/ManualPatches.cs:49-69 | the map-colour block renames and publishes methods only when `GetMapColors` was found, and logs the outcome then the scan's warnings |
| Patches.ModuleDef.OnCommandRule | ManualDeobfuscator/ManualPatches.cs:271-276 | one command rule renames its unique match to the rule's name, leaves visibility alone, and logs under `typeName` plus the rule's suffix |
| Patches.ModuleDef.PatchConsoleCommandMethods | ManualDeobfuscator/ManualPatches.cs:269-303 | the new method names and the log are those of the five rules judged on the methods as they were before the first rule ran |
| Patches.ModuleDef.NameCommandType | ManualDeobfuscator/ManualPatches.cs:222-249 | a command type is renamed `Command_` plus the command name iff that name is non-empty; the log holds the rule outcome, the scan's warnings and the no-name or no-method warning |
| Patches.ModuleDef.LogDerivedTypes | ManualDeobfuscator/ManualPatches.cs:252-256 | the base-type report appends one message per derived type, in module order |
| Patches.ModuleDef.PatchCommandType | ManualDeobfuscator/ManualPatches.cs:221-257 | one command type's names and log are exactly naming, then the five rules under `Command_<name>` or `UnknownCommand`, then the base-type report; only that type and its own methods change |
| Patches.ModuleDef.CommandTypeEffectFrame | ManualDeobfuscator/ManualPatches.cs:221-257 | patching one command type renames no other type, renames it only to a `Command_` name, and renames only its own methods |
| Patches.ModuleDef.PatchCommandTypes | ManualDeobfuscator/ManualPatches.cs:220-259 | the new type names, method names and log, and the list of types patched, are exactly those of `FanOut`: in module order, each type whose base type's simple name is the command base type's current name gets the whole effect of `PatchCommandType` (its `Command_` name when the literal is non-empty, the five command renames, its log segment appended), judged on the state the previous types left |
| Patches.ModuleDef.FanOutFacts | ManualDeobfuscator/ManualPatches.cs:220-259 | the whole fan-out visits types of the module in increasing order; on an isolated base type it visits exactly the subclasses as they were before it began; unvisited types keep their names, visited types keep theirs or get a `Command_` name, and methods of no visited type keep their names |
| Patches.TelnetServerFieldIgnoresNames | ManualDeobfuscator/ManualPatches.cs:143-145 | renaming fields never changes the verdict of the `telnetServer` rule, which looks only at field types |
| Patches.ModuleDef.PatchConsoleFields | ManualDeobfuscator/ManualPatches.cs:138-145 | the unique field of `NetTelnetServer` typed by the console becomes `console`; the unique console field typed `NetTelnetServer` becomes `telnetServer` and public, judged as before the first rename; the log holds both outcomes in order |
| Patches.ConsoleRulesIgnoreNames | ManualDeobfuscator/ManualPatches.cs:159-192 | renaming methods never changes the verdict of the `Run`, `SendResult`, `ExecuteRemoteCmdInternal` or `getCommand` rule |
| Patches.GetCommandIgnoresPublishing | ManualDeobfuscator/ManualPatches.cs:176-192 | publishing a two-parameter method never changes the verdict of the `getCommand` rule |
| Patches.ConsoleRenamesWithin | ManualDeobfuscator/ManualPatches.cs:148-194 | the five console method rules rename only console methods, and only to the five console method names |
| Patches.ModuleDef.PatchConsoleHandlers | ManualDeobfuscator/ManualPatches.cs:148-173 | the `ExecuteCmdFromClient`, `Run` and `SendResult` rules rename their unique matches as judged before the first of them, change no visibility, and log in that order |
| Patches.ModuleDef.PatchConsoleMethods | ManualDeobfuscator/ManualPatches.cs:148-194 | the five console method rules rename exactly their unique matches as judged on the methods before the first rule ran, only the `ExecuteRemoteCmdInternal` match becomes public, the log holds the five outcomes in order, and the captured command type is the resolved return type of the unique `getCommand` match; names change only to console method names |
| Patches.ModuleDef.PatchCommandMembers | ManualDeobfuscator/ManualPatches.cs:197-209 | the unique console method taking the command type becomes `AddCommand`; the unique console field of type `List<command type>` becomes `commands` and public; no method visibility changes; the log holds both outcomes in order |
| Patches.ModuleDef.PatchCommandBase | ManualDeobfuscator/ManualPatches.cs:196-260 | with a command type captured, only the command type and the visited types are renamed, every visited type lies in the module, and the log only grows |
| Patches.ModuleDef.PatchConsoleRules | ManualDeobfuscator/ManualPatches.cs:133-192 | the console becomes `ConsoleSdtd` and is the only type renamed; the two field rules and the five console method rules rename and publish exactly their unique matches, judged on the tables as they were before the first rule ran; the log holds the seven outcomes in order; the captured command type is the resolved return type of the unique `getCommand` match |
| Patches.ModuleDef.PatchConsoleType | ManualDeobfuscator/ManualPatches.cs:133-261 | the captured command type is the one `getCommand` gives; with none captured, no type is visited and the names, visibilities and log are exactly those of the console rules, so no command rule runs; otherwise only the console, the command type and the visited types are renamed, and the log only grows |
| Patches.ModuleDef.PatchConsole | ManualDeobfuscator/ManualPatches.cs:123-265 | the console is what `SetConsole` captures; without one nothing but the rule's report changes; a command type is only captured after a console |
| Patches.ModuleDef.ApplyManualPatches | ManualDeobfuscator/ManualPatches.cs:28-265 | over the whole run, a command type is only captured with a console, only the console, the command type and the visited types are renamed, and the log only grows |

## Left out

- The one-off rules at ManualDeobfuscator/ManualPatches.cs:12-26 and 71-118 (`StaticDirectories`, `DamageSource`, `DisconnectClient`, `ItemBase`, `World`, `PersistentPlayerList`, `PlayerDataFile`, `ConnectionManager`): each is a single catalog entry of the same shape as the modelled rules.
- Loading and writing the assembly, `SimplifyMacros` and `OptimizeMacros`: bodies are given already in macro-free form, as sequences of instruction records.
- `Body.CodeSize` is a given attribute of each method declaration.
- `PatchHelpers` is not part of this model. `Find` and `OnElement` are modelled as a search of the whole candidate list that proceeds on exactly one match and logs a warning or an error under the rule's label otherwise; `HasType` as equality of full names; `HasGenericParams` as equality of the arguments' full names; `RenameAction` and the make-public actions as updates of the name and visibility columns.
- `mainModule.GetType(...)` and `BaseType.Resolve()` chains that choose a candidate collection become parameters: a type position or a list of method positions.
- A `GetType` lookup that returns null, which would throw in the original, is not modelled: the type positions passed in are required to exist.
- `Resolve()` yields a type only for references into this module; types of other assemblies resolve to nothing.
- Nested types are not part of the type table.
- The logger is an append-only list of diagnostics. The base-type message of ManualDeobfuscator/ManualPatches.cs:254 carries the base type's position where the program prints the type's entry in `clnamestomod`. That dictionary belongs to `PatchHelpers`, so what it holds for a type, and whether a missing key throws, is not modelled.
- Resolution.Classify: the searching behaviour of `Find` is assumed, not derived from its source.
- Patches.ModuleDef.FanOutFacts: the visited list is shown to equal the subclasses only when the base type is isolated: its name is carried by no other type, does not begin with `Command_`, and is not the name of its own base type. Otherwise a rename during the fan-out can change what later iterations select; `FanOut` still fixes the exact result step by step, but no closed description of the visited list is given.
- Patches.ModuleDef.PatchCommandBase: states the type-name frame and log growth of the whole block; the exact effects of its three parts are stated separately by PatchCommandMembers, PatchConsoleCommandMethods and PatchCommandTypes (the latter through `FanOut`).
- Patches.ModuleDef.PatchConsoleType: when a command type is captured, only the type-name frame and log growth are stated, not the exact names.
- Patches.ModuleDef.PatchConsole: beyond the capture and the no-console case, only the type-name frame and log growth are stated.
- Patches.ModuleDef.ApplyManualPatches: states the type-name frame and log growth of the whole run, not the order of the rules; the exact effects are stated by the members it calls.
- Scans.Keep: a literal's length is its number of Unicode scalar values, while the program compares UTF-16 lengths (ManualDeobfuscator/ManualPatches.cs:234). A literal with a character outside the Basic Multilingual Plane can therefore change the choice: after a first instruction, the literals `"\U{1F600}"` then `"ab"` give `"ab"` here, where the program keeps the first, which is two code units long.
- Methods without a body (abstract or extern): the program reads `Body` at ManualDeobfuscator/ManualPatches.cs:31-32, 54-55, 162 and 227-228 and stops with an exception for such a method. Every method declaration here carries a body, possibly empty, and a code size, so the model goes on where the program stops.
