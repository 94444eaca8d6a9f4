/** The transpiler as the source runs it, with the two destructuring slips of
    `common.ts` corrected (see `TranspileSpec.AssigneeEntry`): methods over the one mutable `Env`, with the
    loops of `transpile.ts`, `common.ts`, `safe.ts` and `unbounded.ts` updating their
    accumulators in place. Every method is proved to produce exactly what its
    specification function in `TranspileSpec` computes from the state it started in,
    and to leave the environment in the state that function ends in; what those
    functions promise (`TranspileProps`, `WriterProps`) therefore holds of these methods. */
module Transpile {
  import opened Wrappers
  import opened Strings
  import opened Types
  import opened TranspileFragments
  import opened Environment
  import opened Common
  import opened Safe
  import opened Unbounded
  import opened TranspileSpec
  import WriterProps

  /** The parts of a compilation that do not change while it runs. */
  function CtxOf(env: Env): Ctx
  {
    Ctx(env.replMode, env.host)
  }

  /** `transpileExpression` (and `transpileStatement`): the JavaScript of `f`. */
  method TranspileExpression(env: Env, f: Form) returns (r: Result<JsModule, TranspileError>)
    requires env.Valid()
    modifies env
    ensures env.Valid() && Run(r, env.State()) == Expr(CtxOf(env), old(env.State()), f)
    decreases Size(f), 3
  {
    var e := TranspileExpressionWithNextCall(env, f);
    if e.Err? {
      return Err(e.error);
    }
    return Ok(e.value.src);
  }

  /** `transpileExpressionWithNextCall`: the JavaScript of `f` and, for a name, what it
      resolved to. */
  method TranspileExpressionWithNextCall(env: Env, f: Form) returns (r: Result<Emitted, TranspileError>)
    requires env.Valid()
    modifies env
    ensures env.Valid() && Run(r, env.State()) == ExprWithNext(CtxOf(env), old(env.State()), f)
    decreases Size(f), 2
  {
    ghost var st := env.State();
    ghost var c := CtxOf(env);
    if f.CuArray? {
      assert ExprWithNext(c, st, f) == CallForm(c, st, f.items);
      r := TranspileCall(env, f.items);
    } else if f.CuSymbol? || f.PropertyAccess? {
      assert ExprWithNext(c, st, f) == SymbolSrc(c, st, f);
      r := TranspileName(env, f);
    } else if f.LiteralArray? {
      assert ExprWithNext(c, st, f) == ArraySrc(c, st, f.elements);
      r := TranspileLiteralArray(env, f.elements);
    } else if f.KeyValues? {
      assert ExprWithNext(c, st, f) == ObjectSrc(c, st, f.entries);
      r := TranspileObject(env, f.entries);
    } else {
      assert ExprWithNext(c, st, f) == AtomEmitted(st, f);
      r := Ok(Emitted(AtomSrc(f), None));
    }
  }

  /** A literal array: its elements joined with commas, in brackets. */
  method TranspileLiteralArray(env: Env, elements: seq<Form>) returns (r: Result<Emitted, TranspileError>)
    requires env.Valid()
    modifies env
    ensures env.Valid() && Run(r, env.State()) == ArraySrc(CtxOf(env), old(env.State()), elements)
    decreases SizeAll(elements) + 1, 1
  {
    var elementsSrc := TranspileJoinWithComma(env, elements);
    if elementsSrc.Err? {
      return Err(elementsSrc.error);
    }
    r := Ok(Emitted(Concat([OfBody("["), elementsSrc.value, OfBody("]")]), None));
  }

  /** A key-values form: its entries in braces. */
  method TranspileObject(env: Env, entries: seq<KeyValue>) returns (r: Result<Emitted, TranspileError>)
    requires env.Valid()
    modifies env
    ensures env.Valid() && Run(r, env.State()) == ObjectSrc(CtxOf(env), old(env.State()), entries)
    decreases SizeEntries(entries) + 1, 1
  {
    var kvSrc := TranspileKeyValues(env, entries);
    if kvSrc.Err? {
      return Err(kvSrc.error);
    }
    r := Ok(Emitted(ExtendBody(kvSrc.value, "{", "}"), None));
  }

  /** A symbol or a property access: referred to, then read through the pseudo-global
      when what it names lives at the REPL's top level. */
  method TranspileName(env: Env, f: Form) returns (r: Result<Emitted, TranspileError>)
    requires env.Valid() && (f.CuSymbol? || f.PropertyAccess?)
    modifies env
    ensures env.Valid() && Run(r, env.State()) == SymbolSrc(CtxOf(env), old(env.State()), f)
  {
    var res;
    if f.CuSymbol? {
      res := env.ReferTo(f.v);
    } else {
      res := env.ReferToAccess(f.segments);
    }
    if res.Err? {
      return Err(res.error);
    }
    var body;
    if AtReplTopLevel(env.State(), env.replMode, res.value.scope) {
      body := if f.CuSymbol? then env.host.pseudoTopLevelReference(f.v)
              else env.host.pseudoTopLevelReferenceToPropertyAccess(f.segments);
    } else {
      body := if f.CuSymbol? then f.v else Join(f.segments, ".");
    }
    r := Ok(Emitted(OfBody(body), Some(NextCall(res.value.writer, ShowSymbolAccess(f)))));
  }

  /** A call form: its head first, then the call dispatched on what the head is. */
  method TranspileCall(env: Env, items: seq<Form>) returns (r: Result<Emitted, TranspileError>)
    requires env.Valid()
    modifies env
    ensures env.Valid() && Run(r, env.State()) == CallForm(CtxOf(env), old(env.State()), items)
    decreases SizeAll(items) + 1, 1
  {
    if items == [] {
      return Err(TranspileError(EmptyCallMessage));
    }
    SizeAllElement(items, 0);
    var head := TranspileExpressionWithNextCall(env, items[0]);
    if head.Err? {
      return Err(head.error);
    }
    var call := TranspileCallOf(env, head.value, items[1..]);
    if call.Err? {
      return Err(call.error);
    }
    r := Ok(Emitted(call.value, None));
  }

  /** The dispatch on the head of a call: keywords and namespaces are refused, a direct
      writer is applied to the argument forms, anything else is called with its
      arguments transpiled. */
  method TranspileCallOf(env: Env, head: Emitted, args: seq<Form>) returns (r: Result<JsModule, TranspileError>)
    requires env.Valid()
    modifies env
    ensures env.Valid() && Run(r, env.State()) == CallOf(CtxOf(env), old(env.State()), head, args)
    decreases SizeAll(args) + 1, 9
  {
    if head.next.Some? && head.next.value.writer.ContextualKeyword? {
      return Err(TranspileError(ContextualKeywordMessage(head.next.value.shown, head.next.value.writer.companion)));
    }
    if head.next.Some? && head.next.value.writer.Namespace? {
      return Err(TranspileError(NamespaceMessage(head.next.value.shown)));
    }
    if head.next.Some? && head.next.value.writer.DirectWriter? {
      r := InvokeDirectWriter(env, head.next.value.writer.kind, args);
      return;
    }
    var a := TranspileJoinWithComma(env, args);
    if a.Err? {
      return Err(a.error);
    }
    r := Ok(Concat([CallOpen(CtxOf(env), head), a.value, OfBody(")")]));
  }

  /** `transpileJoinWithComma`: every form transpiled in order, a comma after each but
      the last. */
  method TranspileJoinWithComma(env: Env, xs: seq<Form>) returns (r: Result<JsModule, TranspileError>)
    requires env.Valid()
    modifies env
    ensures env.Valid() && Run(r, env.State()) == JoinWithCommaFrom(CtxOf(env), old(env.State()), xs, EmptyModule())
    decreases SizeAll(xs), 4
  {
    ghost var st0 := env.State();
    var result := EmptyModule();
    var i := 0;
    while i < |xs|
      invariant 0 <= i <= |xs| && env.Valid()
      invariant JoinWithCommaFrom(CtxOf(env), st0, xs, EmptyModule())
             == JoinWithCommaFrom(CtxOf(env), env.State(), xs[i..], result)
    {
      SizeAllElement(xs, i);
      assert xs[i..][0] == xs[i] && xs[i..][1..] == xs[i + 1..];
      var x := TranspileExpression(env, xs[i]);
      if x.Err? {
        return Err(x.error);
      }
      if i == |xs| - 1 {
        result := Concat([result, x.value]);
      } else {
        result := Concat([result, x.value, OfBody(",")]);
      }
      i := i + 1;
    }
    r := Ok(result);
  }

  /** `transpileKeyValues`: every entry followed by a comma, in braces. The braces are
      added by the caller. */
  method TranspileKeyValues(env: Env, entries: seq<KeyValue>) returns (r: Result<JsModule, TranspileError>)
    requires env.Valid()
    modifies env
    ensures env.Valid() && Run(r, env.State()) == KeyValuesFrom(CtxOf(env), old(env.State()), entries, EmptyModule())
    decreases SizeEntries(entries), 4
  {
    ghost var st0 := env.State();
    var objectContents := EmptyModule();
    var i := 0;
    while i < |entries|
      invariant 0 <= i <= |entries| && env.Valid()
      invariant KeyValuesFrom(CtxOf(env), st0, entries, EmptyModule())
             == KeyValuesFrom(CtxOf(env), env.State(), entries[i..], objectContents)
    {
      SizeEntryBound(entries, i);
      KeyValuesStep(CtxOf(env), env.State(), entries, i, objectContents);
      var kv := TranspileEntry(env, entries[i]);
      if kv.Err? {
        return Err(kv.error);
      }
      objectContents := Concat([objectContents, kv.value, OfBody(",")]);
      i := i + 1;
    }
    r := Ok(objectContents);
  }

  lemma KeyValuesStep(c: Ctx, st: EnvState, entries: seq<KeyValue>, i: nat, acc: JsModule)
    requires Wf(st) && i < |entries|
    ensures var e := EntrySrc(c, st, entries[i]);
      KeyValuesFrom(c, st, entries[i..], acc)
      == if e.r.Err? then Run(Err(e.r.error), e.st)
         else KeyValuesFrom(c, e.st, entries[i + 1..], Concat([acc, e.r.value, OfBody(",")]))
  {
    assert entries[i..][0] == entries[i] && entries[i..][1..] == entries[i + 1..];
  }

  /** One entry of a key-values form. */
  method TranspileEntry(env: Env, kv: KeyValue) returns (r: Result<JsModule, TranspileError>)
    requires env.Valid()
    modifies env
    ensures env.Valid() && Run(r, env.State()) == EntrySrc(CtxOf(env), old(env.State()), kv)
    decreases SizeEntry(kv), 3
  {
    match kv
    case Shorthand(s) =>
      var f := env.ReferTo(s);
      if f.Err? {
        return Err(f.error);
      }
      if AtReplTopLevel(env.State(), env.replMode, f.value.scope) {
        r := Ok(OfBody(s + ": " + env.host.pseudoTopLevelReference(s)));
      } else {
        r := Ok(OfBody(s));
      }
    case Pair(k, v) =>
      var kSrc;
      if k.CuSymbol? {
        kSrc := Ok(OfBody(k.v));
      } else {
        kSrc := TranspileExpression(env, k);
      }
      if kSrc.Err? {
        return Err(kSrc.error);
      }
      var vSrc := TranspileExpression(env, v);
      if vSrc.Err? {
        return Err(vSrc.error);
      }
      r := Ok(Concat([kSrc.value, OfBody(": "), vSrc.value]));
  }

  /** `transpileBlock`: every statement followed by `;\n`. */
  method TranspileBlock(env: Env, forms: seq<Form>) returns (r: Result<JsModule, TranspileError>)
    requires env.Valid()
    modifies env
    ensures env.Valid() && Run(r, env.State()) == BlockFrom(CtxOf(env), old(env.State()), forms, EmptyModule())
    decreases SizeAll(forms), 4
  {
    ghost var st0 := env.State();
    var jsSrc := EmptyModule();
    var i := 0;
    while i < |forms|
      invariant 0 <= i <= |forms| && env.Valid()
      invariant BlockFrom(CtxOf(env), st0, forms, EmptyModule())
             == BlockFrom(CtxOf(env), env.State(), forms[i..], jsSrc)
    {
      SizeAllElement(forms, i);
      BlockStep(CtxOf(env), env.State(), forms, i, jsSrc);
      var s := TranspileExpression(env, forms[i]);
      if s.Err? {
        return Err(s.error);
      }
      jsSrc := AppendStatement(jsSrc, s.value);
      i := i + 1;
    }
    r := Ok(jsSrc);
  }

  lemma BlockStep(c: Ctx, st: EnvState, forms: seq<Form>, i: nat, acc: JsModule)
    requires Wf(st) && i < |forms|
    ensures var s := Expr(c, st, forms[i]);
      BlockFrom(c, st, forms[i..], acc)
      == if s.r.Err? then Run(Err(s.r.error), s.st) else BlockFrom(c, s.st, forms[i + 1..], AppendStatement(acc, s.r.value))
  {
    assert forms[i..][0] == forms[i] && forms[i..][1..] == forms[i + 1..];
  }

  /** `mapAE(forms, transpileExpression)`: the forms transpiled in order. */
  method TranspileEach(env: Env, forms: seq<Form>) returns (r: Result<seq<JsModule>, TranspileError>)
    requires env.Valid()
    modifies env
    ensures env.Valid() && Run(r, env.State()) == MapFrom(CtxOf(env), old(env.State()), forms, [])
    decreases SizeAll(forms), 4
  {
    ghost var st0 := env.State();
    var srcs: seq<JsModule> := [];
    var i := 0;
    while i < |forms|
      invariant 0 <= i <= |forms| && env.Valid()
      invariant MapFrom(CtxOf(env), st0, forms, []) == MapFrom(CtxOf(env), env.State(), forms[i..], srcs)
    {
      SizeAllElement(forms, i);
      MapStep(CtxOf(env), env.State(), forms, i, srcs);
      var s := TranspileExpression(env, forms[i]);
      if s.Err? {
        return Err(s.error);
      }
      srcs := srcs + [s.value];
      i := i + 1;
    }
    r := Ok(srcs);
  }

  lemma MapStep(c: Ctx, st: EnvState, forms: seq<Form>, i: nat, done: seq<JsModule>)
    requires Wf(st) && i < |forms|
    ensures var e := Expr(c, st, forms[i]);
      MapFrom(c, st, forms[i..], done)
      == if e.r.Err? then Run(Err(e.r.error), e.st) else MapFrom(c, e.st, forms[i + 1..], done + [e.r.value])
  {
    assert forms[i..][0] == forms[i] && forms[i..][1..] == forms[i + 1..];
  }

  /** A direct writer applied to the unevaluated argument forms of a call. */
  method InvokeDirectWriter(env: Env, kind: DirectKind, args: seq<Form>) returns (r: Result<JsModule, TranspileError>)
    requires env.Valid()
    modifies env
    ensures env.Valid() && Run(r, env.State()) == InvokeDirect(CtxOf(env), old(env.State()), kind, args)
    decreases SizeAll(args) + 1, 8
  {
    match kind
    case ConstDecl =>
      r := TranspilingForVariableDeclaration(env, "const", Const, args);
    case LetDecl =>
      r := TranspilingForVariableDeclaration(env, "let", Var, args);
    case Assign =>
      r := WriteAssign(env, args);
    case Return =>
      r := WriteReturn(env, args);
    case When =>
      r := WriteWhen(env, args);
    case Mutation(formId, whenTopRepl, otherwise) =>
      r := TranspilingForVariableMutation(env, formId, whenTopRepl, otherwise, args);
    case Unary(unaryId, template) =>
      r := Transpiling1(env, unaryId, template, args);
    case Binary(op) =>
      r := Transpiling2(env, op, args);
    case If =>
      r := WriteIf(env, args);
    case Scope =>
      r := WriteScope(env, args);
    case BuiltScope(prefix, scopeId, isAsync) =>
      r := BuildScope(env, prefix, scopeId, isAsync, args);
    case Fn =>
      RestSize(args, 1);
      r := BuildFn(env, ",", "fn", Arg(args, 0), Rest(args, 1), false);
    case Procedure =>
      RestSize(args, 1);
      r := BuildProcedure(env, "procedure", Arg(args, 0), Rest(args, 1), false);
    case ArrayLiteral =>
      r := WriteArray(env, args);
    case While =>
      r := WriteWhile(env, args);
    case For =>
      r := WriteFor(env, args);
    case ForEach =>
      r := WriteForEach(env, args);
    case Recursive =>
      r := WriteRecursive(env, args);
    case External(name) =>
      r := env.host.external(name, args);
  }

  /** `tryToSet` of `transpilingForVariableDeclaration`: a name already defined in the
      innermost scope is refused, then `set` binds it. */
  method TryToSetName(env: Env, id: Id, w: Writer) returns (r: Result<(), TranspileError>)
    requires env.Valid()
    modifies env
    ensures env.Valid() && Run(r, env.State()) == TryToSet(old(env.State()), id, w)
  {
    var defined := env.IsDefinedInThisScope(id);
    if defined {
      return Err(TranspileError(AlreadyDefinedMessage(id)));
    }
    var o := env.Set(id, w);
    if o.Fail? {
      return Err(o.error);
    }
    r := Ok(());
  }

  /** The `const` and `let` writers (`transpilingForAssignment` with the declaring
      continuation of `transpilingForVariableDeclaration`). */
  method TranspilingForVariableDeclaration(env: Env, keyword: Id, w: Writer, args: seq<Form>)
    returns (r: Result<JsModule, TranspileError>)
    requires env.Valid()
    modifies env
    ensures env.Valid() && Run(r, env.State()) == Declaration(CtxOf(env), old(env.State()), keyword, w, args)
    decreases SizeAll(args) + 1, 7
  {
    if |args| >= 3 && args[2] != Undefined {
      return Err(TranspileError(ArgumentCountMessage(keyword)));
    }
    var id := Arg(args, 0);
    if !id.CuSymbol? && !id.KeyValues? {
      return Err(TranspileError(NotAssignableMessage(id)));
    }
    ArgSize(args, 0);
    ArgSize(args, 1);
    var exp := TranspileExpression(env, Arg(args, 1));
    if exp.Err? {
      return Err(exp.error);
    }
    r := DeclareVariable(env, keyword, w, id, exp.value);
  }

  /** The declaration once its value `exp` is transpiled: through the pseudo-global at the
      REPL's top level, as `keyword assignee = exp` elsewhere. */
  method DeclareVariable(env: Env, keyword: Id, w: Writer, id: Form, exp: JsModule)
    returns (r: Result<JsModule, TranspileError>)
    requires env.Valid() && (id.CuSymbol? || id.KeyValues?)
    modifies env
    ensures env.Valid() && Run(r, env.State()) == Declare(CtxOf(env), old(env.State()), keyword, w, id, exp)
    decreases Size(id), 7
  {
    if AtReplTopLevel(env.State(), env.replMode, 0) {
      r := DeclareAtReplTopLevel(env, keyword, w, id, exp);
    } else {
      r := DeclareLocally(env, keyword, w, id, exp);
    }
  }

  /** The declaration anywhere but the REPL's top level. */
  method DeclareLocally(env: Env, keyword: Id, w: Writer, id: Form, exp: JsModule)
    returns (r: Result<JsModule, TranspileError>)
    requires env.Valid()
    modifies env
    ensures env.Valid() && Run(r, env.State()) == LocalDeclare(CtxOf(env), old(env.State()), keyword, w, id, exp)
    decreases Size(id), 6
  {
    var assignee := TranspileAssignee(env, keyword, w, id);
    if assignee.Err? {
      return Err(assignee.error);
    }
    r := Ok(Concat([OfBody(keyword + " "), assignee.value, OfBody(" = "), exp]));
  }

  /** The declaration at the REPL's top level. */
  method DeclareAtReplTopLevel(env: Env, keyword: Id, w: Writer, id: Form, exp: JsModule)
    returns (r: Result<JsModule, TranspileError>)
    requires env.Valid() && (id.CuSymbol? || id.KeyValues?)
    modifies env
    ensures env.Valid() && Run(r, env.State()) == ReplDeclare(CtxOf(env), old(env.State()), keyword, w, id, exp)
    decreases Size(id), 5
  {
    if id.CuSymbol? {
      var t := TryToSetName(env, id.v, w);
      if t.Err? {
        return Err(t.error);
      }
      return Ok(env.host.pseudoTopLevelAssignment(id.v, exp));
    }
    var tmp := env.host.tmpVarOf(exp);
    r := DestructureAtReplTopLevel(env, keyword, w, tmp.0, id.entries, tmp.1);
  }

  /** The destructuring loop at the REPL's top level: each name is declared and assigned
      its member of `tmpVar` through the pseudo-global, after `statement`. */
  method DestructureAtReplTopLevel(env: Env, formId: Id, w: Writer, tmpVar: Id, entries: seq<KeyValue>, statement: JsModule)
    returns (r: Result<JsModule, TranspileError>)
    requires env.Valid()
    modifies env
    ensures env.Valid()
    ensures Run(r, env.State()) == ReplDestructureFrom(CtxOf(env), old(env.State()), formId, w, tmpVar, entries, 0, statement)
    decreases SizeEntries(entries), 4
  {
    ghost var goal := ReplDestructureFrom(CtxOf(env), env.State(), formId, w, tmpVar, entries, 0, statement);
    var src := statement;
    var i := 0;
    while i < |entries|
      invariant 0 <= i <= |entries| && env.Valid()
      invariant goal == ReplDestructureFrom(CtxOf(env), env.State(), formId, w, tmpVar, entries, i, src)
    {
      SizeEntryBound(entries, i);
      ghost var before := env.State();
      var next := DestructureEntryAtReplTopLevel(env, formId, w, tmpVar, entries[i], src);
      ReplDestructureStep(CtxOf(env), before, formId, w, tmpVar, entries, i, src, Run(next, env.State()));
      if next.Err? {
        return Err(next.error);
      }
      src := next.value;
      i := i + 1;
    }
    r := Ok(src);
  }


  lemma ReplDestructureStep(c: Ctx, st: EnvState, formId: Id, w: Writer, tmpVar: Id, entries: seq<KeyValue>, i: nat,
                            src: JsModule, e: Run<JsModule>)
    requires Wf(st) && i < |entries| && e == ReplDestructureEntry(c, st, formId, w, tmpVar, entries[i], src)
    ensures Wf(e.st)
    ensures ReplDestructureFrom(c, st, formId, w, tmpVar, entries, i, src)
      == if e.r.Err? then Run(Err(e.r.error), e.st) else ReplDestructureFrom(c, e.st, formId, w, tmpVar, entries, i + 1, e.r.value)
  {
  }

  /** One entry of that loop. */
  method DestructureEntryAtReplTopLevel(env: Env, formId: Id, w: Writer, tmpVar: Id, kvOrSym: KeyValue, src: JsModule)
    returns (r: Result<JsModule, TranspileError>)
    requires env.Valid()
    modifies env
    ensures env.Valid()
    ensures Run(r, env.State()) == ReplDestructureEntry(CtxOf(env), old(env.State()), formId, w, tmpVar, kvOrSym, src)
    decreases SizeEntry(kvOrSym), 3
  {
    if kvOrSym.Shorthand? {
      var t := TryToSetName(env, kvOrSym.sym, w);
      if t.Err? {
        return Err(t.error);
      }
      var expDotId := tmpVar + "." + kvOrSym.sym;
      return Ok(Concat([src, OfBody("\n"), env.host.pseudoTopLevelAssignment(kvOrSym.sym, OfBody(expDotId)), OfBody(";")]));
    }
    var v := kvOrSym.value;
    var expDotId := MemberAtReplTopLevel(env, tmpVar, kvOrSym.key);
    if expDotId.Err? {
      return Err(expDotId.error);
    }
    if !v.CuSymbol? {
      return Err(TranspileError(AssigneeMessage(formId, v)));
    }
    var t := TryToSetName(env, v.v, w);
    if t.Err? {
      return Err(t.error);
    }
    r := Ok(Concat([src, OfBody("\n"), env.host.pseudoTopLevelAssignment(v.v, expDotId.value)]));
  }

  /** The member of `tmpVar` a pair's key selects. */
  method MemberAtReplTopLevel(env: Env, tmpVar: Id, k: Form) returns (r: Result<JsModule, TranspileError>)
    requires env.Valid()
    modifies env
    ensures env.Valid() && Run(r, env.State()) == ReplMember(CtxOf(env), old(env.State()), tmpVar, k)
    decreases Size(k), 4
  {
    if k.CuSymbol? {
      return Ok(OfBody(tmpVar + "." + k.v));
    }
    var kSrc := TranspileExpression(env, k);
    if kSrc.Err? {
      return Err(kSrc.error);
    }
    r := Ok(ExtendBody(kSrc.value, tmpVar, ""));
  }

  /** Refuses an assignee that is neither a symbol nor key values. */
  method RefuseAssignee(env: Env, id: Form) returns (r: Result<JsModule, TranspileError>)
    requires env.Valid()
    ensures env.Valid() && Run(r, env.State()) == Refuse(env.State(), NotAssignableMessage(id))
  {
    r := Err(TranspileError(NotAssignableMessage(id)));
  }

  /** Declares a symbol assignee in the innermost scope. */
  method AssignName(env: Env, name: Id, w: Writer) returns (r: Result<JsModule, TranspileError>)
    requires env.Valid()
    modifies env
    ensures env.Valid() && Run(r, env.State()) == NamedAssignee(old(env.State()), name, w)
  {
    var t := TryToSetName(env, name, w);
    if t.Err? {
      return Err(t.error);
    }
    r := Ok(OfBody(name));
  }

  /** The assignee of a declaration outside the REPL's top level (`transpileAssignee`). */
  method TranspileAssignee(env: Env, formId: Id, w: Writer, id: Form) returns (r: Result<JsModule, TranspileError>)
    requires env.Valid()
    modifies env
    ensures env.Valid() && Run(r, env.State()) == Assignee(CtxOf(env), old(env.State()), formId, w, id)
    decreases Size(id), 5
  {
    if id.CuSymbol? {
      r := AssignName(env, id.v, w);
    } else if id.KeyValues? {
      r := DestructureAssignee(env, formId, w, id.entries);
    } else {
      r := RefuseAssignee(env, id);
    }
  }


  /** The destructuring loop outside the REPL's top level. */
  method DestructureAssignee(env: Env, formId: Id, w: Writer, entries: seq<KeyValue>)
    returns (r: Result<JsModule, TranspileError>)
    requires env.Valid()
    modifies env
    ensures env.Valid()
    ensures Run(r, env.State()) == DestructuringPattern(CtxOf(env), old(env.State()), formId, w, entries)
    decreases SizeEntries(entries), 4, |entries| + 2
  {
    var assignee := DestructureEntries(env, formId, w, entries);
    if assignee.Err? {
      return Err(assignee.error);
    }
    r := Ok(ExtendBody(assignee.value, "", "}"));
  }

  /** The loop over the entries, after the opening brace. */
  method DestructureEntries(env: Env, formId: Id, w: Writer, entries: seq<KeyValue>)
    returns (r: Result<JsModule, TranspileError>)
    requires env.Valid()
    modifies env
    ensures env.Valid()
    ensures Run(r, env.State()) == AssigneeFrom(CtxOf(env), old(env.State()), formId, w, entries, 0, OfBody("{"))
    decreases SizeEntries(entries), 4, |entries| + 1
  {
    ghost var goal := AssigneeFrom(CtxOf(env), env.State(), formId, w, entries, 0, OfBody("{"));
    var assignee := OfBody("{");
    var i := 0;
    while i < |entries|
      invariant 0 <= i <= |entries| && env.Valid()
      invariant goal == AssigneeFrom(CtxOf(env), env.State(), formId, w, entries, i, assignee)
    {
      ghost var before := env.State();
      SizeEntryBound(entries, i);
      var next := DestructureEntry(env, formId, w, entries[i], assignee);
      AssigneeStep(CtxOf(env), before, formId, w, entries, i, assignee, Run(next, env.State()));
      if next.Err? {
        return Err(next.error);
      }
      assignee := next.value;
      i := i + 1;
    }
    r := Ok(assignee);
  }


  lemma AssigneeStep(c: Ctx, st: EnvState, formId: Id, w: Writer, all: seq<KeyValue>, i: nat, acc: JsModule, e: Run<JsModule>)
    requires Wf(st) && i < |all| && e == AssigneeEntry(c, st, formId, w, all[i], acc)
    ensures Wf(e.st)
    ensures AssigneeFrom(c, st, formId, w, all, i, acc)
      == if e.r.Err? then Run(Err(e.r.error), e.st) else AssigneeFrom(c, e.st, formId, w, all, i + 1, e.r.value)
  {
  }

  /** One entry of that loop: a shorthand is declared and listed after the pattern, a
      pair's key is transpiled and its value declared. */
  method DestructureEntry(env: Env, formId: Id, w: Writer, kvOrSym: KeyValue, assignee: JsModule)
    returns (r: Result<JsModule, TranspileError>)
    requires env.Valid()
    modifies env
    ensures env.Valid()
    ensures Run(r, env.State()) == AssigneeEntry(CtxOf(env), old(env.State()), formId, w, kvOrSym, assignee)
    decreases SizeEntry(kvOrSym), 3
  {
    if kvOrSym.Shorthand? {
      var t := TryToSetName(env, kvOrSym.sym, w);
      if t.Err? {
        return Err(t.error);
      }
      return Ok(AddShorthand(assignee, kvOrSym.sym));
    }
    var v := kvOrSym.value;
    var kSrc := TranspileExpression(env, kvOrSym.key);
    if kSrc.Err? {
      return Err(kSrc.error);
    }
    if !v.CuSymbol? {
      return Err(TranspileError(AssigneeMessage(formId, v)));
    }
    var t := TryToSetName(env, v.v, w);
    if t.Err? {
      return Err(t.error);
    }
    r := Ok(Concat([assignee, kSrc.value, OfBody(":" + v.v + ",")]));
  }

  /** The `assign` writer. */
  method WriteAssign(env: Env, args: seq<Form>) returns (r: Result<JsModule, TranspileError>)
    requires env.Valid()
    modifies env
    ensures env.Valid() && Run(r, env.State()) == AssignOf(CtxOf(env), old(env.State()), args)
    decreases SizeAll(args) + 1, 7
  {
    if |args| >= 3 && args[2] != Undefined {
      return Err(TranspileError(ArgumentCountMessage("assign")));
    }
    var id := Arg(args, 0);
    if !id.CuSymbol? && !id.KeyValues? {
      return Err(TranspileError(NotAssignableMessage(id)));
    }
    ArgSize(args, 1);
    var exp := TranspileExpression(env, Arg(args, 1));
    if exp.Err? {
      return Err(exp.error);
    }
    if id.CuSymbol? {
      var found := env.Find(id.v);
      if found == Some(Const) {
        return Err(TranspileError(NotLetMessage(id.v)));
      }
    }
    var target := if id.CuSymbol? then id.v else EntriesText(id.entries);
    r := Ok(Concat([OfBody(target + " = "), exp.value]));
  }

  /** The `return` writer. */
  method WriteReturn(env: Env, args: seq<Form>) returns (r: Result<JsModule, TranspileError>)
    requires env.Valid()
    modifies env
    ensures env.Valid() && Run(r, env.State()) == ReturnOf(CtxOf(env), old(env.State()), args)
    decreases SizeAll(args) + 1, 7
  {
    if |args| == 0 {
      return Ok(OfBody("return"));
    }
    if |args| > 1 {
      return Err(TranspileError(ReturnArityMessage));
    }
    SizeAllElement(args, 0);
    var exp := TranspileExpression(env, args[0]);
    if exp.Err? {
      return Err(exp.error);
    }
    r := Ok(Concat([OfBody("return "), exp.value]));
  }

  /** The `when` writer. */
  method WriteWhen(env: Env, args: seq<Form>) returns (r: Result<JsModule, TranspileError>)
    requires env.Valid()
    modifies env
    ensures env.Valid() && Run(r, env.State()) == WhenOf(CtxOf(env), old(env.State()), args)
    decreases SizeAll(args) + 1, 7
  {
    if Arg(args, 0) == Undefined {
      return Err(TranspileError(NoWhenConditionMessage));
    }
    if |args| < 2 {
      return Err(TranspileError(NoWhenStatementsMessage));
    }
    SizeAllElement(args, 0);
    RestSize(args, 1);
    var boolSrc := TranspileExpression(env, args[0]);
    if boolSrc.Err? {
      return Err(boolSrc.error);
    }
    var statementsSrc := TranspileBlock(env, args[1..]);
    if statementsSrc.Err? {
      return Err(statementsSrc.error);
    }
    r := Ok(Concat([OfBody("if("), boolSrc.value, OfBody("){\n"), statementsSrc.value, OfBody("\n}")]));
  }

  /** `transpilingForVariableMutation`: `incrementF` and its kin, on a variable declared
      by `let`. It only looks names up. */
  method TranspilingForVariableMutation(env: Env, formId: Id, whenTopRepl: Template, otherwise: Template, args: seq<Form>)
    returns (r: Result<JsModule, TranspileError>)
    requires env.Valid()
    ensures r == MutationOf(CtxOf(env), env.State(), formId, whenTopRepl, otherwise, args)
  {
    if |args| >= 2 && args[1] != Undefined {
      return Err(TranspileError(OnlyOneSymbolMessage(formId)));
    }
    var id := Arg(args, 0);
    if !id.CuSymbol? {
      return Err(TranspileError(NotVariableNameMessage(formId)));
    }
    var found := env.FindWithIsAtTopLevel(id.v);
    if found.None? || !IsVar(found.value.writer) {
      return Err(TranspileError(NotLetVariableMessage(formId)));
    }
    if AtReplTopLevel(env.State(), env.replMode, found.value.scope) {
      var target := env.host.pseudoTopLevelReference(id.v);
      return Ok(env.host.pseudoTopLevelAssignment(id.v, OfBody(whenTopRepl.before + target + whenTopRepl.after)));
    }
    r := Ok(OfBody(otherwise.before + id.v + otherwise.after));
  }

  /** `transpiling1(formId, template)`. */
  method Transpiling1(env: Env, formId: Id, template: Template, args: seq<Form>) returns (r: Result<JsModule, TranspileError>)
    requires env.Valid()
    modifies env
    ensures env.Valid() && Run(r, env.State()) == Transpiling1Of(CtxOf(env), old(env.State()), formId, template, args)
    decreases SizeAll(args) + 1, 7
  {
    ArgSize(args, 0);
    var ra := TranspileExpression(env, Arg(args, 0));
    if ra.Err? {
      return Err(ra.error);
    }
    if |args| > 1 {
      return Err(TranspileError(ExactlyOneMessage(formId)));
    }
    r := Ok(ExtendBody(ra.value, template.before, template.after));
  }

  /** `transpiling2` with the operator template `(a op b)`. */
  method Transpiling2(env: Env, op: JsSrc, args: seq<Form>) returns (r: Result<JsModule, TranspileError>)
    requires env.Valid()
    modifies env
    ensures env.Valid() && Run(r, env.State()) == Transpiling2Of(CtxOf(env), old(env.State()), op, args)
    decreases SizeAll(args) + 1, 7
  {
    ArgSize(args, 0);
    ArgSize(args, 1);
    var ra := TranspileExpression(env, Arg(args, 0));
    if ra.Err? {
      return Err(ra.error);
    }
    var rb := TranspileExpression(env, Arg(args, 1));
    if rb.Err? {
      return Err(rb.error);
    }
    r := Ok(Concat([OfBody("("), ra.value, OfBody(" " + op + " "), rb.value, OfBody(")")]));
  }

  /** The partition loop of the `if` writer, with its `elseIsFound` flag. It only looks
      names up. */
  method PartitionAtElse(env: Env, rest: seq<Form>) returns (r: Result<Branches, TranspileError>)
    requires env.Valid()
    ensures r == PartitionElse(env.State(), rest)
  {
    var trueForms: seq<Form> := [];
    var falseForms: seq<Form> := [];
    var elseIsFound := false;
    ghost var at := 0;
    var i := 0;
    while i < |rest|
      invariant 0 <= i <= |rest|
      invariant !elseIsFound ==> trueForms == rest[..i] && falseForms == []
      invariant !elseIsFound ==> forall j :: 0 <= j < i ==> !IsElse(env.State(), rest[j])
      invariant elseIsFound ==> at < i && IsElse(env.State(), rest[at])
      invariant elseIsFound ==> trueForms == rest[..at] && falseForms == rest[at + 1..i]
      invariant elseIsFound ==> forall j :: 0 <= j < i && j != at ==> !IsElse(env.State(), rest[j])
    {
      var form := rest[i];
      var isElse := false;
      if form.CuSymbol? {
        var found := env.Find(form.v);
        isElse := found == Some(ElseWriter);
      }
      if isElse {
        if elseIsFound {
          ElseTwice(env.State(), rest, at, i);
          return Err(TranspileError(ElseTwiceMessage));
        }
        elseIsFound := true;
        at := i;
      } else if elseIsFound {
        falseForms := falseForms + [form];
      } else {
        trueForms := trueForms + [form];
      }
      i := i + 1;
    }
    assert rest[..i] == rest;
    PartitionFound(env.State(), rest, elseIsFound, at);
    r := Ok(Branches(trueForms, falseForms, elseIsFound));
  }

  /** Two `else`s make the partition fail. */
  lemma ElseTwice(st: EnvState, rest: seq<Form>, a: nat, b: nat)
    requires a < b < |rest| && IsElse(st, rest[a]) && IsElse(st, rest[b])
    ensures PartitionElse(st, rest) == Err(TranspileError(ElseTwiceMessage))
  {
    var k := ElseIndex(st, rest).value;
    assert k <= a;
    assert rest[k + 1..][b - k - 1] == rest[b];
  }

  /** A partition with at most one `else`, at `at` when one is found. */
  lemma PartitionFound(st: EnvState, rest: seq<Form>, found: bool, at: nat)
    requires found ==> at < |rest| && IsElse(st, rest[at])
    requires forall j :: 0 <= j < |rest| && (!found || j != at) ==> !IsElse(st, rest[j])
    ensures PartitionElse(st, rest)
         == if found then Ok(Branches(rest[..at], rest[at + 1..], true)) else Ok(Branches(rest, [], false))
  {
    if found {
      assert ElseIndex(st, rest) == Some(at);
      var tail := rest[at + 1..];
      assert forall j :: 0 <= j < |tail| ==> tail[j] == rest[at + 1 + j];
      assert ElseIndex(st, tail).None?;
    }
  }

  /** The `if` writer: the condition, then the partition at `else`, then the branches. */
  method WriteIf(env: Env, args: seq<Form>) returns (r: Result<JsModule, TranspileError>)
    requires env.Valid()
    modifies env
    ensures env.Valid() && Run(r, env.State()) == IfOf(CtxOf(env), old(env.State()), args)
    decreases SizeAll(args) + 1, 7
  {
    ghost var st := env.State();
    ArgSize(args, 0);
    var boolSrc := TranspileExpression(env, Arg(args, 0));
    if boolSrc.Err? {
      return Err(boolSrc.error);
    }
    var br := PartitionAtElse(env, Rest(args, 1));
    if br.Err? {
      return Err(br.error);
    }
    if |br.value.trues| < 1 {
      if br.value.elseFound {
        return Err(TranspileError(NothingBeforeElseMessage));
      }
      return Err(TranspileError(NoIfExpressionsMessage));
    }
    if |br.value.falses| < 1 {
      if br.value.elseFound {
        return Err(TranspileError(NothingAfterElseMessage));
      }
      return Err(TranspileError(ElseMissingMessage));
    }
    r := WriteIfBranches(env, st, boolSrc.value, args, br.value);
  }

  /** The branches of an `if` whose condition is `cond`. */
  method WriteIfBranches(env: Env, ghost st: EnvState, cond: JsModule, args: seq<Form>, br: Branches)
    returns (r: Result<JsModule, TranspileError>)
    requires env.Valid() && Wf(st) && Progress(st, env.State()) && |env.State().scopes| == |st.scopes|
    requires PartitionElse(env.State(), Rest(args, 1)) == Ok(br) && |br.trues| >= 1 && |br.falses| >= 1
    modifies env
    ensures env.Valid() && Run(r, env.State()) == IfBranches(CtxOf(env), st, old(env.State()), cond, args, br)
    decreases SizeAll(args) + 1, 6
  {
    RestSize(args, 1);
    var ifTrueSrcs := TranspileEach(env, br.trues);
    if ifTrueSrcs.Err? {
      return Err(ifTrueSrcs.error);
    }
    var ifTrueSrc := if |ifTrueSrcs.value| > 1 then ExtendBody(Joined(ifTrueSrcs.value, ", "), "(", ")")
                     else ifTrueSrcs.value[0];
    var ifFalseSrcs := TranspileEach(env, br.falses);
    if ifFalseSrcs.Err? {
      return Err(ifFalseSrcs.error);
    }
    r := Ok(Concat([OfBody("("), cond, OfBody(" ? "), ifTrueSrc, OfBody(" : "),
                    Joined(ifFalseSrcs.value, ", "), OfBody(")")]));
  }

  /** The safe library's `scope` writer. */
  method WriteScope(env: Env, args: seq<Form>) returns (r: Result<JsModule, TranspileError>)
    requires env.Valid()
    modifies env
    ensures env.Valid() && Run(r, env.State()) == ScopeOf(CtxOf(env), old(env.State()), args)
    decreases SizeAll(args) + 1, 7
  {
    ghost var st := env.State();
    env.Push();
    PushProgress(st, false);
    var funcSrc := BuildFn(env, ",", "scope", CuArray([]), args, false);
    if funcSrc.Err? {
      return Err(funcSrc.error);
    }
    env.Pop();
    r := Ok(ExtendBody(funcSrc.value, "(\n", ")()"));
  }

  /** `buildScope(prefix, id, isAsync)`. */
  method BuildScope(env: Env, prefix: JsSrc, scopeId: Id, isAsync: bool, args: seq<Form>) returns (r: Result<JsModule, TranspileError>)
    requires env.Valid()
    modifies env
    ensures env.Valid() && Run(r, env.State()) == BuiltScopeOf(CtxOf(env), old(env.State()), prefix, scopeId, isAsync, args)
    decreases SizeAll(args) + 1, 7
  {
    var funcSrc := BuildFn(env, ".", scopeId, CuArray([]), args, isAsync);
    if funcSrc.Err? {
      return Err(funcSrc.error);
    }
    r := Ok(ExtendBody(funcSrc.value, "(" + prefix, ")()"));
  }

  /** `functionPrelude`: a scope is pushed, inherited when `isAsync` is set, and every
      parameter is bound as a `Var`. */
  method FunctionPrelude(env: Env, formId: Id, params: Form, block: seq<Form>, isAsync: bool) returns (r: Result<JsModule, TranspileError>)
    requires env.Valid()
    modifies env
    ensures env.Valid() && Run(r, env.State()) == Prelude(old(env.State()), formId, params, block, isAsync)
  {
    if !params.CuArray? {
      return Err(TranspileError(ArgumentsMessage(params)));
    }
    if |block| < 1 {
      return Err(TranspileError(NoBodyMessage(formId)));
    }
    ghost var st := env.State();
    PreludeAfterChecks(st, formId, params, block, isAsync);
    if isAsync {
      env.PushInherited();
    } else {
      env.Push();
    }
    var argNames := BindParameters(env, params);
    if argNames.Err? {
      return Err(argNames.error);
    }
    r := Ok(OfBody("(" + Join(argNames.value, ", ") + ") => {\n"));
  }

  /** The parameter loop of `functionPrelude`: each parameter must be a symbol, and is `set`
      as a `Var`; the names are collected in order. */
  method BindParameters(env: Env, params: Form) returns (r: Result<seq<Id>, TranspileError>)
    requires env.Valid() && params.CuArray?
    modifies env
    ensures env.Valid() && Run(r, env.State()) == BindParams(old(env.State()), params, params.items, [])
  {
    ghost var goal := BindParams(env.State(), params, params.items, []);
    var argNames: seq<Id> := [];
    var i := 0;
    while i < |params.items|
      invariant 0 <= i <= |params.items| && env.Valid()
      invariant goal == BindParams(env.State(), params, params.items[i..], argNames)
    {
      var arg := params.items[i];
      BindParamsStep(env.State(), params, params.items, i, argNames);
      if !arg.CuSymbol? {
        return Err(TranspileError(ArgumentsMessage(params)));
      }
      var o := env.Set(arg.v, Var);
      if o.Fail? {
        return Err(o.error);
      }
      argNames := argNames + [arg.v];
      i := i + 1;
    }
    assert params.items[i..] == [];
    r := Ok(argNames);
  }

  /** Past its argument checks, `functionPrelude` is the parameter loop in a pushed scope. */
  lemma PreludeAfterChecks(st: EnvState, formId: Id, params: Form, block: seq<Form>, isAsync: bool)
    requires Wf(st) && params.CuArray? && |block| >= 1
    ensures var bound := BindParams(PushOf(st, isAsync), params, params.items, []);
      Prelude(st, formId, params, block, isAsync)
        == if bound.r.Err? then Run(Err(bound.r.error), bound.st)
           else Run(Ok(OfBody("(" + Join(bound.r.value, ", ") + ") => {\n")), bound.st)
  { }

  lemma BindParamsStep(st: EnvState, whole: Form, params: seq<Form>, i: nat, names: seq<Id>)
    requires Wf(st) && i < |params|
    ensures BindParams(st, whole, params[i..], names)
      == if !params[i].CuSymbol? then Run(Err(TranspileError(ArgumentsMessage(whole))), st)
         else if SetOutcome(st, params[i].v, Var).Fail? then Run(Err(SetOutcome(st, params[i].v, Var).error), st)
         else BindParams(SetOf(st, params[i].v, Var), whole, params[i + 1..], names + [params[i].v])
  {
    assert params[i..][0] == params[i] && params[i..][1..] == params[i + 1..];
  }

  /** `buildFn`: the prelude, every statement but the last, then the last one returned;
      it must be an expression. */
  method BuildFn(env: Env, sep: string, formId: Id, params: Form, block: seq<Form>, isAsync: bool) returns (r: Result<JsModule, TranspileError>)
    requires env.Valid()
    modifies env
    ensures env.Valid() && Run(r, env.State()) == FnOf(CtxOf(env), old(env.State()), sep, formId, params, block, isAsync)
    decreases SizeAll(block), 6
  {
    ghost var st := env.State();
    FnOfPrelude(CtxOf(env), st, sep, formId, params, block, isAsync);
    var prelude := FunctionPrelude(env, formId, params, block, isAsync);
    if prelude.Err? {
      return Err(prelude.error);
    }
    r := BuildFnBody(env, st, sep, formId, prelude.value, block);
  }

  /** `buildFn` and `buildProcedure` start with the prelude and stop at its error. */
  lemma FnOfPrelude(c: Ctx, st: EnvState, sep: string, formId: Id, params: Form, block: seq<Form>, isAsync: bool)
    requires Wf(st)
    ensures var p := Prelude(st, formId, params, block, isAsync);
      && (p.r.Err? ==>
            && FnOf(c, st, sep, formId, params, block, isAsync) == Run(Err(p.r.error), p.st)
            && ProcedureOf(c, st, formId, params, block, isAsync) == Run(Err(p.r.error), p.st))
      && (p.r.Ok? ==>
            && Progress(st, p.st) && |p.st.scopes| == |st.scopes| + 1 && |block| >= 1
            && FnOf(c, st, sep, formId, params, block, isAsync) == FnBody(c, st, p.st, sep, formId, p.r.value, block)
            && ProcedureOf(c, st, formId, params, block, isAsync) == ProcedureBody(c, st, p.st, p.r.value, block))
  { }

  /** The statements of `buildFn` after the prelude `head`. */
  method BuildFnBody(env: Env, ghost st: EnvState, sep: string, formId: Id, head: JsModule, block: seq<Form>)
    returns (r: Result<JsModule, TranspileError>)
    requires env.Valid() && Wf(st) && Progress(st, env.State()) && |env.State().scopes| == |st.scopes| + 1
    requires |block| >= 1
    modifies env
    ensures env.Valid() && Run(r, env.State()) == FnBody(CtxOf(env), st, old(env.State()), sep, formId, head, block)
    decreases SizeAll(block), 5
  {
    ghost var at := env.State();
    var lastI := |block| - 1;
    SizeAllDropLast(block);
    var body := TranspileIndented(env, block[..lastI], head);
    ProgressTrans(st, at, env.State());
    if body.Err? {
      return Err(body.error);
    }
    r := FunctionReturn(env, st, sep, formId, body.value, block[lastI]);
  }

  /** The last statement of `buildFn`, returned, and the function's scope popped. */
  method FunctionReturn(env: Env, ghost st: EnvState, sep: string, formId: Id, result: JsModule, last: Form)
    returns (r: Result<JsModule, TranspileError>)
    requires env.Valid() && Wf(st) && Progress(st, env.State()) && |env.State().scopes| == |st.scopes| + 1
    modifies env
    ensures env.Valid() && Run(r, env.State()) == FnReturn(CtxOf(env), st, old(env.State()), sep, formId, result, last)
    decreases Size(last), 4, 1
  {
    if IsNonExpressionCall(env.State(), last) {
      NonExpressionCallHead(env.State(), last);
      return Err(TranspileError(LastStatementMessage(formId, ShowHead(last.items[0], sep))));
    }
    r := ReturnLast(env, st, result, last);
  }

  /** Transpiles the last statement of a function as its `return` and pops its scope. */
  method ReturnLast(env: Env, ghost st: EnvState, result: JsModule, last: Form)
    returns (r: Result<JsModule, TranspileError>)
    requires env.Valid() && Wf(st) && Progress(st, env.State()) && |env.State().scopes| == |st.scopes| + 1
    modifies env
    ensures env.Valid() && Run(r, env.State()) == LastReturn(CtxOf(env), st, old(env.State()), result, last)
    decreases Size(last), 4, 0
  {
    ghost var at := env.State();
    var lastSrc := TranspileExpression(env, last);
    WriterProps.LastReturnText(CtxOf(env), st, at, result, last);
    WriterProps.LastReturnAborts(CtxOf(env), st, at, result, last);
    if lastSrc.Err? {
      return Err(lastSrc.error);
    }
    env.Pop();
    r := Ok(ExtendBody(Concat([result, OfBody("  return "), lastSrc.value, OfBody(";\n")]), "", "}"));
  }

  /** The statement loop of `buildFn` and `buildProcedure`, after `result`. */
  method TranspileIndented(env: Env, forms: seq<Form>, result: JsModule) returns (r: Result<JsModule, TranspileError>)
    requires env.Valid()
    modifies env
    ensures env.Valid() && Run(r, env.State()) == IndentedFrom(CtxOf(env), old(env.State()), forms, result)
    decreases SizeAll(forms), 4
  {
    ghost var goal := IndentedFrom(CtxOf(env), env.State(), forms, result);
    var acc := result;
    var i := 0;
    while i < |forms|
      invariant 0 <= i <= |forms| && env.Valid()
      invariant goal == IndentedFrom(CtxOf(env), env.State(), forms[i..], acc)
    {
      SizeAllElement(forms, i);
      IndentedStep(CtxOf(env), env.State(), forms, i, acc);
      var src := TranspileExpression(env, forms[i]);
      if src.Err? {
        return Err(src.error);
      }
      acc := Concat([acc, OfBody("  "), src.value, OfBody(";\n")]);
      i := i + 1;
    }
    r := Ok(acc);
  }

  lemma IndentedStep(c: Ctx, st: EnvState, forms: seq<Form>, i: nat, acc: JsModule)
    requires Wf(st) && i < |forms|
    ensures var s := Expr(c, st, forms[i]);
      IndentedFrom(c, st, forms[i..], acc)
      == if s.r.Err? then Run(Err(s.r.error), s.st)
         else IndentedFrom(c, s.st, forms[i + 1..], Concat([acc, OfBody("  "), s.r.value, OfBody(";\n")]))
  {
    assert forms[i..][0] == forms[i] && forms[i..][1..] == forms[i + 1..];
  }

  /** `buildProcedure`: the prelude and every statement, without a `return`. */
  method BuildProcedure(env: Env, formId: Id, params: Form, block: seq<Form>, isAsync: bool) returns (r: Result<JsModule, TranspileError>)
    requires env.Valid()
    modifies env
    ensures env.Valid() && Run(r, env.State()) == ProcedureOf(CtxOf(env), old(env.State()), formId, params, block, isAsync)
    decreases SizeAll(block), 6
  {
    ghost var st := env.State();
    FnOfPrelude(CtxOf(env), st, "", formId, params, block, isAsync);
    var prelude := FunctionPrelude(env, formId, params, block, isAsync);
    if prelude.Err? {
      return Err(prelude.error);
    }
    r := BuildProcedureBody(env, st, prelude.value, block);
  }

  /** The statements of `buildProcedure` after the prelude `head`, and the scope popped. */
  method BuildProcedureBody(env: Env, ghost st: EnvState, head: JsModule, block: seq<Form>)
    returns (r: Result<JsModule, TranspileError>)
    requires env.Valid() && Wf(st) && Progress(st, env.State()) && |env.State().scopes| == |st.scopes| + 1
    modifies env
    ensures env.Valid() && Run(r, env.State()) == ProcedureBody(CtxOf(env), st, old(env.State()), head, block)
    decreases SizeAll(block), 5
  {
    ghost var at := env.State();
    var body := TranspileIndented(env, block, head);
    ProgressTrans(st, at, env.State());
    if body.Err? {
      return Err(body.error);
    }
    env.Pop();
    r := Ok(ExtendBody(body.value, "", "}"));
  }

  /** The `array` writer. */
  method WriteArray(env: Env, args: seq<Form>) returns (r: Result<JsModule, TranspileError>)
    requires env.Valid()
    modifies env
    ensures env.Valid() && Run(r, env.State()) == ArrayOf(CtxOf(env), old(env.State()), args)
    decreases SizeAll(args) + 1, 7
  {
    var elements := TranspileEach(env, args);
    if elements.Err? {
      return Err(elements.error);
    }
    r := Ok(ExtendBody(Joined(elements.value, ","), "[", "]"));
  }

  /** The body of a loop in the inherited scope its writer pushed: the statements after
      `header` in braces, and the scope popped. */
  method TranspileLoopBody(env: Env, ghost st: EnvState, header: JsModule, forms: seq<Form>)
    returns (r: Result<JsModule, TranspileError>)
    requires env.Valid() && Wf(st) && Progress(st, env.State()) && |env.State().scopes| == |st.scopes| + 1
    modifies env
    ensures env.Valid() && Run(r, env.State()) == LoopBody(CtxOf(env), st, old(env.State()), header, forms)
    decreases SizeAll(forms), 5
  {
    var statementsSrc := TranspileBlock(env, forms);
    if statementsSrc.Err? {
      return Err(statementsSrc.error);
    }
    env.Pop();
    r := Ok(Concat([header, OfBody("{"), statementsSrc.value, OfBody("}")]));
  }

  /** The `while` writer. */
  method WriteWhile(env: Env, args: seq<Form>) returns (r: Result<JsModule, TranspileError>)
    requires env.Valid()
    modifies env
    ensures env.Valid() && Run(r, env.State()) == WhileOf(CtxOf(env), old(env.State()), args)
    decreases SizeAll(args) + 1, 7
  {
    ghost var st := env.State();
    if Arg(args, 0) == Undefined {
      return Err(TranspileError(NoWhileConditionMessage));
    }
    if IsNonExpressionCall(env.State(), args[0]) {
      NonExpressionCallHead(env.State(), args[0]);
      return Err(TranspileError(ConditionStatementMessage(ShowSymbolAccess(args[0].items[0]))));
    }
    SizeAllElement(args, 0);
    RestSize(args, 1);
    var boolSrc := TranspileExpression(env, args[0]);
    if boolSrc.Err? {
      return Err(boolSrc.error);
    }
    PushedAfter(st, env.State(), true);
    env.PushInherited();
    r := TranspileLoopBody(env, st, Concat([OfBody("while("), boolSrc.value, OfBody(")")]), Rest(args, 1));
  }

  /** The `for` writer: the inherited scope is pushed before anything is checked. */
  method WriteFor(env: Env, args: seq<Form>) returns (r: Result<JsModule, TranspileError>)
    requires env.Valid()
    modifies env
    ensures env.Valid() && Run(r, env.State()) == ForOf(CtxOf(env), old(env.State()), args)
    decreases SizeAll(args) + 1, 7
  {
    ghost var st := env.State();
    env.PushInherited();
    PushProgress(st, true);
    if Arg(args, 0) == Undefined {
      return Err(TranspileError(NoForInitMessage));
    }
    if Arg(args, 1) == Undefined {
      return Err(TranspileError(NoForConditionMessage));
    }
    if Arg(args, 2) == Undefined {
      return Err(TranspileError(NoForFinalMessage));
    }
    if IsNonExpressionCall(env.State(), args[1]) {
      NonExpressionCallHead(env.State(), args[1]);
      return Err(TranspileError(ConditionStatementMessage(ShowSymbolAccess(args[1].items[0]))));
    }
    r := WriteForHeader(env, st, args);
  }

  /** The initialisation of a `for`, transpiled in the scope it pushed. */
  method WriteForHeader(env: Env, ghost st: EnvState, args: seq<Form>) returns (r: Result<JsModule, TranspileError>)
    requires env.Valid() && Wf(st) && Progress(st, env.State()) && |env.State().scopes| == |st.scopes| + 1 && |args| >= 3
    modifies env
    ensures env.Valid() && Run(r, env.State()) == ForHeader(CtxOf(env), st, old(env.State()), args)
    decreases SizeAll(args) + 1, 6
  {
    ghost var pushed := env.State();
    SizeAllElement(args, 0);
    var initialStatementSrc := TranspileExpression(env, args[0]);
    ProgressTrans(st, pushed, env.State());
    if initialStatementSrc.Err? {
      return Err(initialStatementSrc.error);
    }
    r := WriteForCondition(env, st, Concat([OfBody("for("), initialStatementSrc.value, OfBody(";")]), args);
  }

  /** The condition of a `for` after its `header`. */
  method WriteForCondition(env: Env, ghost st: EnvState, header: JsModule, args: seq<Form>) returns (r: Result<JsModule, TranspileError>)
    requires env.Valid() && Wf(st) && Progress(st, env.State()) && |env.State().scopes| == |st.scopes| + 1 && |args| >= 3
    modifies env
    ensures env.Valid() && Run(r, env.State()) == ForCondition(CtxOf(env), st, old(env.State()), header, args)
    decreases SizeAll(args) + 1, 5
  {
    ghost var at := env.State();
    SizeAllElement(args, 1);
    var boolSrc := TranspileExpression(env, args[1]);
    ProgressTrans(st, at, env.State());
    if boolSrc.Err? {
      return Err(boolSrc.error);
    }
    r := WriteForFinal(env, st, Concat([header, boolSrc.value, OfBody(";")]), args);
  }

  /** The final expression of a `for` after its `header`, then its body. */
  method WriteForFinal(env: Env, ghost st: EnvState, header: JsModule, args: seq<Form>) returns (r: Result<JsModule, TranspileError>)
    requires env.Valid() && Wf(st) && Progress(st, env.State()) && |env.State().scopes| == |st.scopes| + 1 && |args| >= 3
    modifies env
    ensures env.Valid() && Run(r, env.State()) == ForFinal(CtxOf(env), st, old(env.State()), header, args)
    decreases SizeAll(args) + 1, 4
  {
    ghost var at := env.State();
    SizeAllElement(args, 2);
    RestSize(args, 3);
    var finalSrc := TranspileExpression(env, args[2]);
    ProgressTrans(st, at, env.State());
    if finalSrc.Err? {
      return Err(finalSrc.error);
    }
    r := TranspileLoopBody(env, st, Concat([header, finalSrc.value, OfBody(")")]), Rest(args, 3));
  }

  /** The `forEach` writer. */
  method WriteForEach(env: Env, args: seq<Form>) returns (r: Result<JsModule, TranspileError>)
    requires env.Valid()
    modifies env
    ensures env.Valid() && Run(r, env.State()) == ForEachOf(CtxOf(env), old(env.State()), args)
    decreases SizeAll(args) + 1, 7
  {
    ghost var st := env.State();
    env.PushInherited();
    PushProgress(st, true);
    if Arg(args, 0) == Undefined {
      return Err(TranspileError(NoForEachVariableMessage));
    }
    r := WriteForEachVariable(env, st, args);
  }

  /** The loop variable of a `forEach`, declared in the scope it pushed, then the rest. */
  method WriteForEachVariable(env: Env, ghost st: EnvState, args: seq<Form>) returns (r: Result<JsModule, TranspileError>)
    requires env.Valid() && Wf(st) && Progress(st, env.State()) && |env.State().scopes| == |st.scopes| + 1
    requires Arg(args, 0) != Undefined
    modifies env
    ensures env.Valid() && Run(r, env.State()) == ForEachVariable(CtxOf(env), st, old(env.State()), args)
    decreases SizeAll(args) + 1, 6
  {
    ArgSize(args, 0);
    ghost var pushed := env.State();
    var assignee := TranspileAssignee(env, "forEach", Const, args[0]);
    ProgressTrans(st, pushed, env.State());
    if assignee.Err? {
      return Err(assignee.error);
    }
    if Arg(args, 1) == Undefined {
      return Err(TranspileError(NoIterableMessage));
    }
    r := WriteForEachRest(env, st, assignee.value, args);
  }


  /** The iterable of a `forEach` whose variable `assignee` is declared, then its body. */
  method WriteForEachRest(env: Env, ghost st: EnvState, assignee: JsModule, args: seq<Form>) returns (r: Result<JsModule, TranspileError>)
    requires env.Valid() && Wf(st) && Progress(st, env.State()) && |env.State().scopes| == |st.scopes| + 1 && |args| >= 2
    modifies env
    ensures env.Valid() && Run(r, env.State()) == ForEachRest(CtxOf(env), st, old(env.State()), assignee, args)
    decreases SizeAll(args) + 1, 5
  {
    ghost var at := env.State();
    SizeAllElement(args, 1);
    RestSize(args, 2);
    var iterableSrc := TranspileExpression(env, args[1]);
    ProgressTrans(st, at, env.State());
    if iterableSrc.Err? {
      return Err(iterableSrc.error);
    }
    r := TranspileLoopBody(env, st, Concat([OfBody("for(const "), assignee, OfBody(" of "), iterableSrc.value, OfBody(")")]),
                           Rest(args, 2));
  }

  /** The `recursive` writer: every member's name is registered as a `RecursiveConst`
      before any member is transpiled. */
  method WriteRecursive(env: Env, consts: seq<Form>) returns (r: Result<JsModule, TranspileError>)
    requires env.Valid()
    modifies env
    ensures env.Valid() && Run(r, env.State()) == RecursiveOf(CtxOf(env), old(env.State()), consts)
    decreases SizeAll(consts) + 1, 7
  {
    if |consts| < 1 {
      return Err(TranspileError(NoRecursiveMessage));
    }
    var registered := RegisterRecursive(env, consts);
    if registered.Err? {
      return Err(registered.error);
    }
    r := TranspileBlock(env, consts);
  }

  /** The registration loop of `recursive`. */
  method RegisterRecursive(env: Env, consts: seq<Form>) returns (r: Result<(), TranspileError>)
    requires env.Valid()
    modifies env
    ensures env.Valid() && Run(r, env.State()) == RegisterFrom(old(env.State()), consts)
  {
    ghost var goal := RegisterFrom(env.State(), consts);
    var i := 0;
    while i < |consts|
      invariant 0 <= i <= |consts| && env.Valid()
      invariant goal == RegisterFrom(env.State(), consts[i..])
    {
      var statement := consts[i];
      RegisterStep(env.State(), consts, i);
      var call := AsCall(statement);
      if call.None? {
        return Err(TranspileError(NotDeclarationMessage));
      }
      var declName := env.Find(call.value.0);
      if declName != Some(DirectWriter(ConstDecl)) {
        return Err(TranspileError(NotConstMessage));
      }
      var id := Arg(call.value.1, 0);
      if !id.CuSymbol? {
        return Err(TranspileError(NotSymbolMessage(id)));
      }
      var o := env.Set(id.v, RecursiveConst);
      if o.Fail? {
        return Err(o.error);
      }
      i := i + 1;
    }
    r := Ok(());
  }

  lemma RegisterStep(st: EnvState, consts: seq<Form>, i: nat)
    requires Wf(st) && i < |consts|
    ensures var n := RecursiveName(st, consts[i]);
      RegisterFrom(st, consts[i..])
      == if n.Err? then Run(Err(n.error), st)
         else if SetOutcome(st, n.value, RecursiveConst).Fail? then Run(Err(SetOutcome(st, n.value, RecursiveConst).error), st)
         else RegisterFrom(SetOf(st, n.value, RecursiveConst), consts[i + 1..])
  {
    assert consts[i..][0] == consts[i] && consts[i..][1..] == consts[i + 1..];
  }
}
