/** Linear scans over a macro-free method body. Each scan inspects the
    instructions of one opcode and expects an operand of one kind; an
    instruction of that opcode with an operand of another kind is counted as
    unresolved and skipped. Every definition here folds over a prefix of the
    instructions, in the order the source's indexed loops visit them. */
module Scans {
  import opened Metadata

  /** The operand kind each inspected opcode must carry. */
  predicate ExpectedOperand(ins: Instr)
  {
    match ins.op
    case Ldfld => ins.operand.FieldDef?
    case Call => ins.operand.MethodDef?
    case Ldstr => ins.operand.Str?
    case OtherCode(_) => true
  }

  predicate IsLiteral(ins: Instr)
  {
    ins.op == Ldstr && ins.operand.Str?
  }

  /** The instructions a scan starting at index `start` inspects. */
  function From(body: seq<Instr>, start: nat): (r: seq<Instr>)
    ensures |r| == if start <= |body| then |body| - start else 0
    ensures forall i :: 0 <= i < |r| ==> r[i] == body[start + i]
  {
    if start <= |body| then body[start..] else []
  }

  /** How many instructions with opcode `op` carry an operand of the wrong kind. */
  function Unresolved(s: seq<Instr>, op: OpCode): nat
  {
    if s == [] then 0
    else Unresolved(s[..|s| - 1], op) + (if s[|s| - 1].op == op && !ExpectedOperand(s[|s| - 1]) then 1 else 0)
  }

  // ---------------------------------------------------------------------------
  // Longest string literal: the name of a console command

  /** The accumulator step: a literal replaces the best so far only when it is
      strictly longer. */
  function Keep(best: string, ins: Instr): string
  {
    if IsLiteral(ins) && |ins.operand.value| > |best| then ins.operand.value else best
  }

  /** The literal a left-to-right scan keeps, starting from the empty string. */
  function Longest(s: seq<Instr>): string
  {
    if s == [] then "" else Keep(Longest(s[..|s| - 1]), s[|s| - 1])
  }

  /** `Names()` is scanned from index 1: the instruction at index 0 is never inspected. */
  const NamesScanStart: nat := 1

  /** The command name chosen from the body of a `Names()` method. */
  function CommandName(body: seq<Instr>): string
  {
    Longest(From(body, NamesScanStart))
  }

  /** An independent description of the kept literal: no literal is longer; and
      unless it is empty, it is the literal at some position before which every
      literal is strictly shorter (the first literal of greatest length). */
  ghost predicate FirstLongest(s: seq<Instr>, r: string)
  {
    && (forall j :: 0 <= j < |s| && IsLiteral(s[j]) ==> |s[j].operand.value| <= |r|)
    && (r == "" ||
        exists i :: 0 <= i < |s| && IsLiteral(s[i]) && s[i].operand.value == r &&
          forall j :: 0 <= j < i && IsLiteral(s[j]) ==> |s[j].operand.value| < |r|)
  }

  lemma {:induction false} LongestIsFirstLongest(s: seq<Instr>)
    ensures FirstLongest(s, Longest(s))
  {
    if s != [] {
      var init, last := s[..|s| - 1], s[|s| - 1];
      LongestIsFirstLongest(init);
      var best := Longest(init);
      assert forall j :: 0 <= j < |init| ==> s[j] == init[j];
      if IsLiteral(last) && |last.operand.value| > |best| {
        var r := last.operand.value;
        assert forall j :: 0 <= j < |s| - 1 && IsLiteral(s[j]) ==> |s[j].operand.value| <= |best| < |r|;
        assert IsLiteral(s[|s| - 1]) && s[|s| - 1].operand.value == r;
      } else if best != "" {
        var i :| 0 <= i < |init| && IsLiteral(init[i]) && init[i].operand.value == best &&
          forall j :: 0 <= j < i && IsLiteral(init[j]) ==> |init[j].operand.value| < |best|;
        assert IsLiteral(s[i]) && s[i].operand.value == best;
      }
    }
  }

  /** The description fixes the literal: at most one string satisfies it. */
  lemma FirstLongestUnique(s: seq<Instr>, r1: string, r2: string)
    requires FirstLongest(s, r1) && FirstLongest(s, r2)
    ensures r1 == r2
  {
    if r1 != "" && r2 != "" {
      var i1 :| 0 <= i1 < |s| && IsLiteral(s[i1]) && s[i1].operand.value == r1 &&
        forall j :: 0 <= j < i1 && IsLiteral(s[j]) ==> |s[j].operand.value| < |r1|;
      var i2 :| 0 <= i2 < |s| && IsLiteral(s[i2]) && s[i2].operand.value == r2 &&
        forall j :: 0 <= j < i2 && IsLiteral(s[j]) ==> |s[j].operand.value| < |r2|;
      assert |r1| <= |r2| && |r2| <= |r1|;
      assert i1 == i2;
    }
  }

  /** Whatever satisfies the description is the literal the scan keeps. */
  lemma LongestCharacterized(s: seq<Instr>, r: string)
    ensures FirstLongest(s, r) <==> r == Longest(s)
  {
    LongestIsFirstLongest(s);
    if FirstLongest(s, r) {
      FirstLongestUnique(s, r, Longest(s));
    }
  }

  /** The command name is empty or a literal loaded at index 1 or later; no
      literal loaded at index 1 or later is longer; and on a tie in length the
      earliest such literal is the one kept. */
  lemma CommandNameFacts(body: seq<Instr>)
    ensures var name := CommandName(body);
      && (forall j :: 1 <= j < |body| && IsLiteral(body[j]) ==> |body[j].operand.value| <= |name|)
      && (name == "" ||
          exists i :: 1 <= i < |body| && body[i] == Instr(Ldstr, Str(name)) &&
            forall j :: 1 <= j < i && IsLiteral(body[j]) ==> |body[j].operand.value| < |name|)
  {
    var s := From(body, NamesScanStart);
    var name := CommandName(body);
    LongestIsFirstLongest(s);
    forall j | 1 <= j < |body| && IsLiteral(body[j])
      ensures |body[j].operand.value| <= |name|
    {
      assert s[j - 1] == body[j];
    }
    if name != "" {
      var i :| 0 <= i < |s| && IsLiteral(s[i]) && s[i].operand.value == name &&
        forall j :: 0 <= j < i && IsLiteral(s[j]) ==> |s[j].operand.value| < |name|;
      assert body[i + 1] == s[i];
      forall j | 1 <= j < i + 1 && IsLiteral(body[j])
        ensures |body[j].operand.value| < |name|
      {
        assert s[j - 1] == body[j];
      }
    }
  }

  /** An empty literal is never chosen: the name is empty exactly when every
      literal loaded at index 1 or later is empty. */
  lemma CommandNameEmpty(body: seq<Instr>)
    ensures CommandName(body) == "" <==>
      forall j :: 1 <= j < |body| && IsLiteral(body[j]) ==> body[j].operand.value == ""
  {
    CommandNameFacts(body);
  }

  /** The instruction at index 0 plays no part in the command name. */
  lemma FirstInstructionIgnored(b1: seq<Instr>, b2: seq<Instr>)
    requires |b1| == |b2| && forall i :: 1 <= i < |b1| ==> b1[i] == b2[i]
    ensures CommandName(b1) == CommandName(b2)
  {
    assert From(b1, NamesScanStart) == From(b2, NamesScanStart);
  }

  /** The scan of a `Names()` body: the kept literal, and how many `Ldstr`
      instructions carried no string (each is reported by the caller). */
  method ScanCommandName(body: seq<Instr>) returns (name: string, unresolved: nat)
    ensures name == CommandName(body)
    ensures unresolved == Unresolved(From(body, NamesScanStart), Ldstr)
  {
    name, unresolved := "", 0;
    ghost var s := From(body, NamesScanStart);
    var i := NamesScanStart;
    while i < |body|
      invariant NamesScanStart <= i && i - NamesScanStart <= |s|
      invariant name == Longest(s[..i - NamesScanStart])
      invariant unresolved == Unresolved(s[..i - NamesScanStart], Ldstr)
    {
      var ins := body[i];
      assert ins == s[i - NamesScanStart];
      if ins.op == Ldstr {
        if ins.operand.Str? {
          if |ins.operand.value| > |name| {
            name := ins.operand.value;
          }
        } else {
          unresolved := unresolved + 1;
        }
      }
      assert s[..i + 1 - NamesScanStart][..i - NamesScanStart] == s[..i - NamesScanStart];
      i := i + 1;
    }
    assert s[..i - NamesScanStart] == s;
  }

  /** The longest literal wins over shorter ones before and after it: literals
      "a", "ab", "longname", "z" pushed in that order after a first instruction
      give "longname". */
  lemma LongestExample()
    ensures CommandName([Instr(OtherCode(0), OtherOperand),
                         Instr(Ldstr, Str("a")), Instr(Ldstr, Str("ab")),
                         Instr(Ldstr, Str("longname")), Instr(Ldstr, Str("z"))]) == "longname"
  {
    var body := [Instr(OtherCode(0), OtherOperand),
                 Instr(Ldstr, Str("a")), Instr(Ldstr, Str("ab")),
                 Instr(Ldstr, Str("longname")), Instr(Ldstr, Str("z"))];
    var s := From(body, NamesScanStart);
    assert s[..0] == [];
    assert s[..1][..0] == s[..0];
    assert s[..2][..1] == s[..1];
    assert s[..3][..2] == s[..2];
    assert s[..4][..3] == s[..3];
    assert Longest(s[..1]) == "a";
    assert Longest(s[..2]) == "ab";
    assert Longest(s[..3]) == "longname";
    assert s[..4] == s;
  }

  // ---------------------------------------------------------------------------
  // Operand-driven scans: fields loaded by Ldfld, methods called by Call

  /** The fields that `Ldfld` instructions of `s` load, as field definitions. */
  function LoadedFields(s: seq<Instr>): set<nat>
  {
    if s == [] then {}
    else
      var ins := s[|s| - 1];
      LoadedFields(s[..|s| - 1]) + (if ins.op == Ldfld && ins.operand.FieldDef? then {ins.operand.field} else {})
  }

  /** The methods that `Call` instructions of `s` call, as method definitions. */
  function CalledMethods(s: seq<Instr>): set<nat>
  {
    if s == [] then {}
    else
      var ins := s[|s| - 1];
      CalledMethods(s[..|s| - 1]) + (if ins.op == Call && ins.operand.MethodDef? then {ins.operand.target} else {})
  }

  /** One more instruction scanned: how each fold over a prefix grows. */
  lemma ScanStep(s: seq<Instr>, k: nat)
    requires k < |s|
    ensures var ins := s[k];
      && LoadedFields(s[..k + 1]) == LoadedFields(s[..k]) + (if ins.op == Ldfld && ins.operand.FieldDef? then {ins.operand.field} else {})
      && CalledMethods(s[..k + 1]) == CalledMethods(s[..k]) + (if ins.op == Call && ins.operand.MethodDef? then {ins.operand.target} else {})
      && forall op :: Unresolved(s[..k + 1], op) == Unresolved(s[..k], op) + (if ins.op == op && !ExpectedOperand(ins) then 1 else 0)
  {
    assert s[..k + 1][..k] == s[..k];
  }

  lemma {:induction false} LoadedFieldsExact(s: seq<Instr>, f: nat)
    ensures f in LoadedFields(s) <==> exists i :: 0 <= i < |s| && s[i] == Instr(Ldfld, FieldDef(f))
  {
    if s != [] {
      var init := s[..|s| - 1];
      LoadedFieldsExact(init, f);
      assert forall i :: 0 <= i < |init| ==> init[i] == s[i];
      if exists i :: 0 <= i < |s| && s[i] == Instr(Ldfld, FieldDef(f)) {
        var i :| 0 <= i < |s| && s[i] == Instr(Ldfld, FieldDef(f));
        if i < |init| {
          assert init[i] == Instr(Ldfld, FieldDef(f));
        }
      }
    }
  }

  lemma {:induction false} CalledMethodsExact(s: seq<Instr>, g: nat)
    ensures g in CalledMethods(s) <==> exists i :: 0 <= i < |s| && s[i] == Instr(Call, MethodDef(g))
  {
    if s != [] {
      var init := s[..|s| - 1];
      CalledMethodsExact(init, g);
      assert forall i :: 0 <= i < |init| ==> init[i] == s[i];
      if exists i :: 0 <= i < |s| && s[i] == Instr(Call, MethodDef(g)) {
        var i :| 0 <= i < |s| && s[i] == Instr(Call, MethodDef(g));
        if i < |init| {
          assert init[i] == Instr(Call, MethodDef(g));
        }
      }
    }
  }

  /** `GetMapColors()` is scanned from index 1. */
  const MapColorsScanStart: nat := 1

  /** A call at index 0 of `GetMapColors()` is never a rename target; a call at
      any later index is. */
  lemma MapColorsTargets(body: seq<Instr>, g: nat)
    ensures g in CalledMethods(From(body, MapColorsScanStart)) <==>
      exists i :: 1 <= i < |body| && body[i] == Instr(Call, MethodDef(g))
  {
    var s := From(body, MapColorsScanStart);
    CalledMethodsExact(s, g);
    if exists i :: 1 <= i < |body| && body[i] == Instr(Call, MethodDef(g)) {
      var i :| 1 <= i < |body| && body[i] == Instr(Call, MethodDef(g));
      assert s[i - 1] == body[i];
    }
  }

  /** Every field the `GetPosition()` scan renames lies within the field table
      of a well-formed module. */
  lemma {:induction false} LoadedFieldsInRange(s: seq<Instr>, methodCount: nat, fieldCount: nat)
    requires forall i :: 0 <= i < |s| ==> OperandInRange(s[i], methodCount, fieldCount)
    ensures forall f :: f in LoadedFields(s) ==> f < fieldCount
  {
    if s != [] {
      LoadedFieldsInRange(s[..|s| - 1], methodCount, fieldCount);
    }
  }

  lemma {:induction false} CalledMethodsInRange(s: seq<Instr>, methodCount: nat, fieldCount: nat)
    requires forall i :: 0 <= i < |s| ==> OperandInRange(s[i], methodCount, fieldCount)
    ensures forall g :: g in CalledMethods(s) ==> g < methodCount
  {
    if s != [] {
      CalledMethodsInRange(s[..|s| - 1], methodCount, fieldCount);
    }
  }
}
