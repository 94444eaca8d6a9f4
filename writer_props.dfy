/** What `transpileExpressionWithNextCall` and the direct writers promise: the JavaScript
    each emits in terms of its transpiled parts (`Expr`, `MapFrom`, `EntriesFrom`), the
    errors each raises and in which order, and what each binds in the environment. */
module WriterProps {
  import opened Wrappers
  import opened Strings
  import opened Types
  import opened TranspileFragments
  import opened Environment
  import opened Common
  import opened Safe
  import opened Unbounded
  import opened TranspileSpec
  import opened TranspileProps

  // ---- Expressions

  /** An empty call form is refused before anything else happens. */
  lemma EmptyCallRefused(c: Ctx, st: EnvState, f: Form)
    requires Wf(st) && f.CuArray? && |f.items| == 0
    ensures ExprWithNext(c, st, f) == Run(Err(TranspileError(EmptyCallMessage)), st)
  {
  }

  /** Atoms other than names render as literals and touch nothing. */
  lemma AtomRendered(c: Ctx, st: EnvState, f: Form)
    requires Wf(st) && !f.CuArray? && !f.CuSymbol? && !f.PropertyAccess? && !f.LiteralArray? && !f.KeyValues?
    ensures ExprWithNext(c, st, f) == Run(Ok(Emitted(AtomSrc(f), None)), st)
  {
  }

  /** A symbol is referred to once; it is an error exactly when it is not defined, it
      reads the pseudo-global exactly at the REPL's top level, and the call it may head
      is dispatched on the writer it found. */
  lemma SymbolRendered(c: Ctx, st: EnvState, name: Id)
    requires Wf(st)
    ensures var out := ExprWithNext(c, st, CuSymbol(name));
      && out.st == ReferState(st, name)
      && (out.r.Ok? <==> FindOf(st, name).Some?)
      && (out.r.Err? ==> out.r.error == ReferResult(st, name).error)
      && (out.r.Ok? ==>
            var res := FindResolvedOf(st, name).value;
            && out.r.value.next == Some(NextCall(res.writer, name))
            && out.r.value.src == OfBody(if AtReplTopLevel(out.st, c.replMode, res.scope)
                                         then c.host.pseudoTopLevelReference(name) else name))
  {
  }

  /** A property access outside the REPL's top level is its segments joined by `.`. */
  lemma PropertyAccessRendered(c: Ctx, st: EnvState, segments: Segments)
    requires Wf(st)
    ensures var out := ExprWithNext(c, st, PropertyAccess(segments));
      && out.st == ReferState(st, segments[0])
      && (out.r.Ok? <==> ReferAccessResult(st, segments).Ok?)
      && (out.r.Ok? ==>
            var res := ReferAccessResult(st, segments).value;
            && out.r.value.next == Some(NextCall(res.writer, Join(segments, ".")))
            && out.r.value.src == OfBody(if AtReplTopLevel(out.st, c.replMode, res.scope)
                                         then c.host.pseudoTopLevelReferenceToPropertyAccess(segments)
                                         else Join(segments, ".")))
  {
  }

  /** A literal array is its elements, transpiled in order, joined by `,` in brackets. */
  lemma LiteralArrayRendered(c: Ctx, st: EnvState, elements: seq<Form>)
    requires Wf(st)
    ensures var m := MapFrom(c, st, elements, []);
      var out := ExprWithNext(c, st, LiteralArray(elements));
      Follows(out, m)
      && (m.r.Ok? ==> out.r.value == Emitted(Concat([OfBody("["), Joined(m.r.value, ","), OfBody("]")]), None))
  {
    var j := JoinWithCommaFrom(c, st, elements, EmptyModule());
    assert Terminated([], ",") == EmptyModule();
    JoinWithCommaJoined(c, st, elements, []);
    var a := ArraySrc(c, st, elements);
    assert a == if j.r.Err? then Run(Err(j.r.error), j.st)
                else Run(Ok(Emitted(Concat([OfBody("["), j.r.value, OfBody("]")]), None)), j.st);
    LiteralArrayIsArraySrc(c, st, elements);
  }

  lemma LiteralArrayIsArraySrc(c: Ctx, st: EnvState, elements: seq<Form>)
    requires Wf(st)
    ensures ExprWithNext(c, st, LiteralArray(elements)) == ArraySrc(c, st, elements)
  {
  }

  /** A key-values form is every entry followed by `,`, in braces. */
  lemma KeyValuesRendered(c: Ctx, st: EnvState, entries: seq<KeyValue>)
    requires Wf(st)
    ensures var m := EntriesFrom(c, st, entries, []);
      var out := ExprWithNext(c, st, KeyValues(entries));
      Follows(out, m) && (m.r.Ok? ==> out.r.value == Emitted(ObjectOf(m.r.value), None))
  {
    assert ExprWithNext(c, st, KeyValues(entries)) == ObjectSrc(c, st, entries);
    assert Terminated([], ",") == EmptyModule();
    KeyValuesTerminated(c, st, entries, []);
  }

  /** A shorthand entry names the variable, or reads the pseudo-global at the REPL's top
      level. */
  lemma ShorthandEntry(c: Ctx, st: EnvState, s: Id)
    requires Wf(st)
    ensures var out := EntrySrc(c, st, Shorthand(s));
      && out.st == ReferState(st, s)
      && (out.r.Ok? <==> FindOf(st, s).Some?)
      && (out.r.Ok? ==>
            out.r.value == OfBody(if AtReplTopLevel(out.st, c.replMode, FindResolvedOf(st, s).value.scope)
                                  then s + ": " + c.host.pseudoTopLevelReference(s) else s))
  {
  }

  // ---- Calls

  /** The arguments of a call are transpiled in order and joined by `,` between the
      opening and `)`; the first error aborts the call. */
  lemma ArgsCallJoined(c: Ctx, st: EnvState, open: JsModule, args: seq<Form>)
    requires Wf(st)
    ensures var m := MapFrom(c, st, args, []);
      var out := ArgsCall(c, st, open, args);
      Follows(out, m) && (m.r.Ok? ==> out.r.value == Concat([open, Joined(m.r.value, ","), OfBody(")")]))
  {
    assert Terminated([], ",") == EmptyModule();
    JoinWithCommaJoined(c, st, args, []);
  }

  /** A call whose head is neither refused nor a direct writer transpiles its arguments
      in order and joins them by `,` between the head's opening (`CallOpen`) and `)`. */
  lemma CallOfJoined(c: Ctx, st: EnvState, head: Emitted, args: seq<Form>)
    requires Wf(st)
    requires head.next.Some? ==> !head.next.value.writer.ContextualKeyword? && !head.next.value.writer.Namespace?
    requires head.next.Some? ==> !head.next.value.writer.DirectWriter?
    ensures var m := MapFrom(c, st, args, []);
      var out := CallOf(c, st, head, args);
      Follows(out, m) && (m.r.Ok? ==> out.r.value == Concat([CallOpen(c, head), Joined(m.r.value, ","), OfBody(")")]))
  {
    assert CallOf(c, st, head, args) == ArgsCall(c, st, CallOpen(c, head), args);
    ArgsCallJoined(c, st, CallOpen(c, head), args);
  }

  /** The opening of a call: `(head)(` when the head is not a name, `head.call(CU_ENV,`
      for a function that needs the environment, `head(` for a variable or a constant;
      the head's imports come first in every case. */
  lemma CallOpenShapes(c: Ctx, head: Emitted)
    ensures CallOpen(c, head).imports == head.src.imports
    ensures head.next.None? ==> CallOpen(c, head).body == "(" + head.src.body + ")("
    ensures head.next.Some? && head.next.value.writer.FunctionWithEnv? ==>
      CallOpen(c, head).body == head.src.body + ".call(" + c.host.cuEnv + ","
    ensures head.next.Some? && !head.next.value.writer.FunctionWithEnv? ==>
      CallOpen(c, head).body == head.src.body + "("
  {
    if head.next.None? {
      Concat3(OfBody("("), head.src, OfBody(")("));
      assert "" + head.src.imports + "" == head.src.imports;
    }
  }

  /** A contextual keyword or a namespace cannot be called; nothing is transpiled and the
      message names the keyword's companion. */
  lemma CallOfRefusedHead(c: Ctx, st: EnvState, head: Emitted, args: seq<Form>)
    requires Wf(st) && head.next.Some?
    requires head.next.value.writer.ContextualKeyword? || head.next.value.writer.Namespace?
    ensures var nc := head.next.value;
      CallOf(c, st, head, args) == Run(Err(TranspileError(
        if nc.writer.ContextualKeyword? then ContextualKeywordMessage(nc.shown, nc.writer.companion)
        else NamespaceMessage(nc.shown))), st)
  {
  }

  /** A direct writer receives the argument forms untranspiled, and its result is the
      call's. */
  lemma CallOfDirectWriter(c: Ctx, st: EnvState, head: Emitted, args: seq<Form>)
    requires Wf(st) && head.next.Some? && head.next.value.writer.DirectWriter?
    ensures CallOf(c, st, head, args) == InvokeDirect(c, st, head.next.value.writer.kind, args)
  {
  }

  // ---- Declarations and assignments

  /** `const` and `let` refuse a third argument, then an assignee that is neither a
      symbol nor a key-values form, before transpiling anything. */
  lemma DeclarationChecks(c: Ctx, st: EnvState, keyword: Id, w: Writer, args: seq<Form>)
    requires Wf(st)
    ensures |args| >= 3 && args[2] != Undefined ==>
      Declaration(c, st, keyword, w, args) == Run(Err(TranspileError(ArgumentCountMessage(keyword))), st)
    ensures !(|args| >= 3 && args[2] != Undefined) && !Arg(args, 0).CuSymbol? && !Arg(args, 0).KeyValues? ==>
      Declaration(c, st, keyword, w, args) == Run(Err(TranspileError(NotAssignableMessage(Arg(args, 0)))), st)
  {
  }

  /** The value of a declaration is transpiled before the name is bound, so it cannot
      see the name it defines; its error aborts the declaration. */
  lemma DeclarationValueFirst(c: Ctx, st: EnvState, keyword: Id, w: Writer, args: seq<Form>)
    requires Wf(st) && !(|args| >= 3 && args[2] != Undefined)
    requires Arg(args, 0).CuSymbol? || Arg(args, 0).KeyValues?
    ensures var e := Expr(c, st, Arg(args, 1));
      var out := Declaration(c, st, keyword, w, args);
      && (e.r.Err? ==> out == Run(Err(e.r.error), e.st))
      && (e.r.Ok? ==> out == Declare(c, e.st, keyword, w, Arg(args, 0), e.r.value))
  {
  }

  /** Outside the REPL's top level, `const x e` and `let x e` become `<keyword> x = e`
      and bind `x` to `w` in the innermost scope; the name must not already be defined
      there, and must not have been referred to from an inner function before. */
  lemma DeclareSymbol(c: Ctx, st: EnvState, keyword: Id, w: Writer, x: Id, exp: JsModule)
    requires Wf(st) && !AtReplTopLevel(st, c.replMode, 0)
    ensures var out := Declare(c, st, keyword, w, CuSymbol(x), exp);
      && (out.r.Ok? <==> !DefinedHere(st, x) && SetOutcome(st, x, w).Pass?)
      && (out.r.Ok? ==>
            && out.r.value == Concat([OfBody(keyword + " "), OfBody(x), OfBody(" = "), exp])
            && out.st.scopes[0] == st.scopes[0][x := w])
  {
    assert Declare(c, st, keyword, w, CuSymbol(x), exp) == LocalDeclare(c, st, keyword, w, CuSymbol(x), exp);
    LocalDeclareSymbol(c, st, keyword, w, x, exp);
  }

  /** A refused declaration outside the REPL's top level leaves the scopes as they were;
      a name already defined in the innermost scope is the first refusal. */
  lemma DeclareSymbolRefused(c: Ctx, st: EnvState, keyword: Id, w: Writer, x: Id, exp: JsModule)
    requires Wf(st) && !AtReplTopLevel(st, c.replMode, 0)
    ensures var out := Declare(c, st, keyword, w, CuSymbol(x), exp);
      && (DefinedHere(st, x) ==> out == Run(Err(TranspileError(AlreadyDefinedMessage(x))), st))
      && (out.r.Err? ==> out.st == st)
  {
    assert Declare(c, st, keyword, w, CuSymbol(x), exp) == LocalDeclare(c, st, keyword, w, CuSymbol(x), exp);
    LocalDeclareSymbol(c, st, keyword, w, x, exp);
  }

  /** The declaration of a symbol outside the REPL's top level, once its assignee is
      declared. */
  lemma LocalDeclareSymbol(c: Ctx, st: EnvState, keyword: Id, w: Writer, x: Id, exp: JsModule)
    requires Wf(st)
    ensures var a := NamedAssignee(st, x, w);
      var out := LocalDeclare(c, st, keyword, w, CuSymbol(x), exp);
      && (a.r.Err? ==> out == Run(Err(a.r.error), a.st))
      && (a.r.Ok? ==> out == Run(Ok(Concat([OfBody(keyword + " "), OfBody(x), OfBody(" = "), exp])), a.st))
    ensures var out := LocalDeclare(c, st, keyword, w, CuSymbol(x), exp);
      && (out.r.Ok? <==> !DefinedHere(st, x) && SetOutcome(st, x, w).Pass?)
      && (out.r.Ok? ==>
            && out.r.value == Concat([OfBody(keyword + " "), OfBody(x), OfBody(" = "), exp])
            && out.st.scopes[0] == st.scopes[0][x := w])
  {
    assert Assignee(c, st, keyword, w, CuSymbol(x)) == NamedAssignee(st, x, w);
  }

  /** At the REPL's top level a declared name is assigned through the pseudo-global
      instead, and bound all the same. */
  lemma DeclareSymbolAtRepl(c: Ctx, st: EnvState, keyword: Id, w: Writer, x: Id, exp: JsModule)
    requires Wf(st) && AtReplTopLevel(st, c.replMode, 0)
    ensures var out := Declare(c, st, keyword, w, CuSymbol(x), exp);
      && (out.r.Ok? <==> !DefinedHere(st, x) && SetOutcome(st, x, w).Pass?)
      && (DefinedHere(st, x) ==> out == Run(Err(TranspileError(AlreadyDefinedMessage(x))), st))
      && (out.r.Ok? ==>
            && out.r.value == c.host.pseudoTopLevelAssignment(x, exp)
            && out.st.scopes[0] == st.scopes[0][x := w])
  {
  }

  /** `assign` refuses a name bound as a `Const` once the value is transpiled; otherwise
      it emits `x = e` and binds nothing. */
  lemma AssignSymbol(c: Ctx, st: EnvState, x: Id, args: seq<Form>)
    requires Wf(st) && |args| >= 1 && args[0] == CuSymbol(x) && !(|args| >= 3 && args[2] != Undefined)
    ensures var e := Expr(c, st, Arg(args, 1));
      var out := AssignOf(c, st, args);
      && (e.r.Err? ==> out == Run(Err(e.r.error), e.st))
      && (e.r.Ok? && FindOf(e.st, x) == Some(Const) ==> out == Run(Err(TranspileError(NotLetMessage(x))), e.st))
      && (e.r.Ok? && FindOf(e.st, x) != Some(Const) ==> out == Run(Ok(Concat([OfBody(x + " = "), e.r.value])), e.st))
  {
  }

  /** `assign` has the same argument checks as the declarations. */
  lemma AssignChecks(c: Ctx, st: EnvState, args: seq<Form>)
    requires Wf(st)
    ensures |args| >= 3 && args[2] != Undefined ==>
      AssignOf(c, st, args) == Run(Err(TranspileError(ArgumentCountMessage("assign"))), st)
    ensures !(|args| >= 3 && args[2] != Undefined) && !Arg(args, 0).CuSymbol? && !Arg(args, 0).KeyValues? ==>
      AssignOf(c, st, args) == Run(Err(TranspileError(NotAssignableMessage(Arg(args, 0)))), st)
  {
  }

  // ---- Statements and operators

  /** `return` with no argument, with one, and with more. */
  lemma ReturnShapes(c: Ctx, st: EnvState, args: seq<Form>)
    requires Wf(st)
    ensures |args| == 0 ==> ReturnOf(c, st, args) == Run(Ok(OfBody("return")), st)
    ensures |args| == 1 ==>
      var e := Expr(c, st, args[0]);
      var out := ReturnOf(c, st, args);
      Follows(out, e) && (e.r.Ok? ==> out.r.value == Concat([OfBody("return "), e.r.value]))
    ensures |args| > 1 ==> ReturnOf(c, st, args) == Run(Err(TranspileError(ReturnArityMessage)), st)
  {
  }

  /** `when` needs a condition and at least one statement; it emits `if(b){` and the
      statements, each followed by `;\n`, then `}`. */
  lemma WhenShape(c: Ctx, st: EnvState, args: seq<Form>)
    requires Wf(st)
    ensures Arg(args, 0) == Undefined ==> WhenOf(c, st, args) == Run(Err(TranspileError(NoWhenConditionMessage)), st)
    ensures Arg(args, 0) != Undefined && |args| < 2 ==>
      WhenOf(c, st, args) == Run(Err(TranspileError(NoWhenStatementsMessage)), st)
    ensures Arg(args, 0) != Undefined && |args| >= 2 ==>
      var b := Expr(c, st, args[0]);
      var out := WhenOf(c, st, args);
      && (b.r.Err? ==> out == Run(Err(b.r.error), b.st))
      && (b.r.Ok? ==>
            var m := MapFrom(c, b.st, args[1..], []);
            Follows(out, m)
            && (m.r.Ok? ==> out.r.value == Concat([OfBody("if("), b.r.value, OfBody("){\n"), Statements(m.r.value), OfBody("\n}")])))
  {
    if Arg(args, 0) != Undefined && |args| >= 2 {
      var b := Expr(c, st, args[0]);
      if b.r.Ok? {
        BlockStatements(c, b.st, args[1..], []);
      }
    }
  }

  /** A unary operator transpiles its argument before it refuses extra ones, and wraps
      the result in its template. */
  lemma Transpiling1Order(c: Ctx, st: EnvState, formId: Id, template: Template, args: seq<Form>)
    requires Wf(st)
    ensures var a := Expr(c, st, Arg(args, 0));
      var out := Transpiling1Of(c, st, formId, template, args);
      && Follows(out, a) == (a.r.Err? || |args| <= 1)
      && (a.r.Ok? && |args| > 1 ==> out == Run(Err(TranspileError(ExactlyOneMessage(formId))), a.st))
      && (a.r.Ok? && |args| <= 1 ==> out.r.value.imports == a.r.value.imports
                                     && out.r.value.body == template.before + a.r.value.body + template.after)
  {
  }

  /** The text of `(a op b)`: the operands' imports in order, and the body wrapped. */
  lemma BinaryText(a: JsModule, op: JsSrc, b: JsModule)
    ensures var m := Concat([OfBody("("), a, OfBody(" " + op + " "), b, OfBody(")")]);
      m.body == "(" + a.body + " " + op + " " + b.body + ")" && m.imports == a.imports + b.imports
  {
    Concat5(OfBody("("), a, OfBody(" " + op + " "), b, OfBody(")"));
  }

  /** A binary operator transpiles its operands left to right: `(a op b)`. */
  lemma Transpiling2Shape(c: Ctx, st: EnvState, op: JsSrc, args: seq<Form>)
    requires Wf(st)
    ensures var a := Expr(c, st, Arg(args, 0));
      var out := Transpiling2Of(c, st, op, args);
      && (a.r.Err? ==> out == Run(Err(a.r.error), a.st))
      && (a.r.Ok? ==>
            var b := Expr(c, a.st, Arg(args, 1));
            Follows(out, b)
            && (b.r.Ok? ==>
                  && out.r.value.body == "(" + a.r.value.body + " " + op + " " + b.r.value.body + ")"
                  && out.r.value.imports == a.r.value.imports + b.r.value.imports))
  {
    var a := Expr(c, st, Arg(args, 0));
    if a.r.Ok? {
      var b := Expr(c, a.st, Arg(args, 1));
      if b.r.Ok? {
        assert Transpiling2Of(c, st, op, args).r.value
            == Concat([OfBody("("), a.r.value, OfBody(" " + op + " "), b.r.value, OfBody(")")]);
        BinaryText(a.r.value, op, b.r.value);
      }
    }
  }

  /** The `array` writer emits what a literal array of the same forms does. */
  lemma ArrayIsLiteral(c: Ctx, st: EnvState, args: seq<Form>)
    requires Wf(st)
    ensures var out := ArrayOf(c, st, args);
      var lit := ExprWithNext(c, st, LiteralArray(args));
      && out.st == lit.st && (out.r.Ok? <==> lit.r.Ok?)
      && (out.r.Err? ==> out.r.error == lit.r.error)
      && (out.r.Ok? ==> out.r.value == lit.r.value.src)
  {
    LiteralArrayRendered(c, st, args);
    var m := MapFrom(c, st, args, []);
    if m.r.Ok? {
      Concat3(OfBody("["), Joined(m.r.value, ","), OfBody("]"));
    }
  }

  // ---- Conditionals

  /** The text of a conditional expression: several true expressions become a
      parenthesised comma expression, the false ones a comma expression. */
  function ConditionalText(cond: JsSrc, trues: seq<JsSrc>, falses: seq<JsSrc>): JsSrc
    requires |trues| >= 1
  {
    "(" + cond + " ? " + (if |trues| > 1 then "(" + Join(trues, ", ") + ")" else trues[0])
    + " : " + Join(falses, ", ") + ")"
  }

  /** `if` transpiles its condition first, then partitions the rest at `else`: two
      `else`s, then an empty branch, are refused in that order, in the state after the
      condition. */
  lemma IfChecks(c: Ctx, st: EnvState, args: seq<Form>)
    requires Wf(st)
    ensures var b := Expr(c, st, Arg(args, 0));
      var out := IfOf(c, st, args);
      && (b.r.Err? ==> out == Run(Err(b.r.error), b.st))
      && (b.r.Ok? && (exists i, j :: 0 <= i < j < |Rest(args, 1)| && IsElse(b.st, Rest(args, 1)[i]) && IsElse(b.st, Rest(args, 1)[j])) ==>
            out == Run(Err(TranspileError(ElseTwiceMessage)), b.st))
      && (b.r.Ok? && PartitionElse(b.st, Rest(args, 1)).Ok? ==>
            var br := PartitionElse(b.st, Rest(args, 1)).value;
            && (|br.trues| < 1 || |br.falses| < 1 ==> out == Run(Err(TranspileError(BranchesMessage(br))), b.st))
            && (|br.trues| >= 1 && |br.falses| >= 1 ==> out == IfBranches(c, st, b.st, b.r.value, args, br)))
  {
    var b := Expr(c, st, Arg(args, 0));
    if b.r.Ok? {
      PartitionElseSplits(b.st, Rest(args, 1));
    }
  }

  /** The branches of an `if` are transpiled true branch first; the result is the
      conditional expression of their texts. */
  lemma IfBranchesText(c: Ctx, st: EnvState, at: EnvState, cond: JsModule, args: seq<Form>, br: Branches)
    requires Wf(st) && Progress(st, at) && |at.scopes| == |st.scopes|
    requires PartitionElse(at, Rest(args, 1)) == Ok(br) && |br.trues| >= 1 && |br.falses| >= 1
    ensures var t := MapFrom(c, at, br.trues, []);
      var out := IfBranches(c, st, at, cond, args, br);
      && (t.r.Err? ==> out == Run(Err(t.r.error), t.st))
      && (t.r.Ok? ==>
            var f := MapFrom(c, t.st, br.falses, []);
            Follows(out, f)
            && (f.r.Ok? ==> out.r.value.body == ConditionalText(cond.body, BodyList(t.r.value), BodyList(f.r.value))))
  {
    var t := MapFrom(c, at, br.trues, []);
    if t.r.Ok? {
      var f := MapFrom(c, t.st, br.falses, []);
      if f.r.Ok? {
        var ifTrue := if |t.r.value| > 1 then ExtendBody(Joined(t.r.value, ", "), "(", ")") else t.r.value[0];
        var m := Concat([OfBody("("), cond, OfBody(" ? "), ifTrue, OfBody(" : "), Joined(f.r.value, ", "), OfBody(")")]);
        assert IfBranches(c, st, at, cond, args, br).r.value == m;
        ConditionalTextOf(cond, t.r.value, f.r.value);
      }
    }
  }

  /** The fragments of a conditional expression spell `ConditionalText`. */
  lemma ConditionalTextOf(cond: JsModule, ts: seq<JsModule>, fs: seq<JsModule>)
    requires |ts| >= 1
    ensures var ifTrue := if |ts| > 1 then ExtendBody(Joined(ts, ", "), "(", ")") else ts[0];
      Concat([OfBody("("), cond, OfBody(" ? "), ifTrue, OfBody(" : "), Joined(fs, ", "), OfBody(")")]).body
      == ConditionalText(cond.body, BodyList(ts), BodyList(fs))
  {
    var ifTrue := if |ts| > 1 then ExtendBody(Joined(ts, ", "), "(", ")") else ts[0];
    Concat7(OfBody("("), cond, OfBody(" ? "), ifTrue, OfBody(" : "), Joined(fs, ", "), OfBody(")"));
    JoinedShape(ts, ", ");
    JoinedShape(fs, ", ");
  }

  // ---- Functions

  /** `buildFn` runs its prelude, then every statement but the last, then returns the
      last one; each step's error aborts the function. */
  lemma BuildFnSteps(c: Ctx, st: EnvState, sep: string, formId: Id, params: Form, block: seq<Form>, isAsync: bool)
    requires Wf(st)
    ensures var p := Prelude(st, formId, params, block, isAsync);
      var out := FnOf(c, st, sep, formId, params, block, isAsync);
      && (p.r.Err? ==> out == Run(Err(p.r.error), p.st))
      && (p.r.Ok? ==>
            var m := MapFrom(c, p.st, block[..|block| - 1], []);
            && (m.r.Err? ==> out == Run(Err(m.r.error), m.st))
            && (m.r.Ok? ==>
                  && Progress(st, m.st) && |m.st.scopes| == |st.scopes| + 1
                  && out == FnReturn(c, st, m.st, sep, formId, Plus(p.r.value, Indented(m.r.value)), block[|block| - 1])))
  {
    var p := Prelude(st, formId, params, block, isAsync);
    if p.r.Ok? {
      EmptyNeutral(p.r.value, "", "");
      IndentedStatements(c, p.st, block[..|block| - 1], p.r.value, []);
      var m := MapFrom(c, p.st, block[..|block| - 1], []);
      ProgressTrans(st, p.st, m.st);
    }
  }

  /** The last statement of a function must be an expression: a call of a writer that
      only makes statements is refused, naming its head. */
  lemma FnReturnRefused(c: Ctx, st: EnvState, at: EnvState, sep: string, formId: Id, body: JsModule, last: Form)
    requires Wf(st) && Progress(st, at) && |at.scopes| == |st.scopes| + 1 && IsNonExpressionCall(at, last)
    ensures last.CuArray? && |last.items| >= 1 && (last.items[0].CuSymbol? || last.items[0].PropertyAccess?)
    ensures FnReturn(c, st, at, sep, formId, body, last)
         == Run(Err(TranspileError(LastStatementMessage(formId, ShowHead(last.items[0], sep)))), at)
  {
    NonExpressionCallHead(at, last);
  }

  /** Otherwise the last statement is returned, the body closed by `}`, and the
      function's scope popped. */
  lemma FnReturnText(c: Ctx, st: EnvState, at: EnvState, sep: string, formId: Id, body: JsModule, last: Form)
    requires Wf(st) && Progress(st, at) && |at.scopes| == |st.scopes| + 1 && !IsNonExpressionCall(at, last)
    ensures var e := Expr(c, at, last);
      var out := FnReturn(c, st, at, sep, formId, body, last);
      e.r.Ok? ==>
        && |e.st.scopes| > 1 && out.st == PopOf(e.st)
        && out.r == Ok(ExtendBody(Concat([body, OfBody("  return "), e.r.value, OfBody(";\n")]), "", "}"))
  {
    assert FnReturn(c, st, at, sep, formId, body, last) == LastReturn(c, st, at, body, last);
    LastReturnText(c, st, at, body, last);
  }

  /** An error in the last statement aborts the function with its scope still pushed. */
  lemma FnReturnAborts(c: Ctx, st: EnvState, at: EnvState, sep: string, formId: Id, body: JsModule, last: Form)
    requires Wf(st) && Progress(st, at) && |at.scopes| == |st.scopes| + 1 && !IsNonExpressionCall(at, last)
    ensures var e := Expr(c, at, last);
      e.r.Err? ==> FnReturn(c, st, at, sep, formId, body, last) == Run(Err(e.r.error), e.st)
  {
    LastReturnAborts(c, st, at, body, last);
  }

  /** Once its last statement `e` is transpiled, a function returns `e` and pops its
      scope. */
  lemma LastReturnText(c: Ctx, st: EnvState, at: EnvState, body: JsModule, last: Form)
    requires Wf(st) && Progress(st, at) && |at.scopes| == |st.scopes| + 1
    ensures var e := Expr(c, at, last);
      var out := LastReturn(c, st, at, body, last);
      e.r.Ok? ==>
        && |e.st.scopes| > 1 && out.st == PopOf(e.st)
        && out.r == Ok(ExtendBody(Concat([body, OfBody("  return "), e.r.value, OfBody(";\n")]), "", "}"))
  {
  }

  /** An error in the last statement aborts the function with its scope still pushed. */
  lemma LastReturnAborts(c: Ctx, st: EnvState, at: EnvState, body: JsModule, last: Form)
    requires Wf(st) && Progress(st, at) && |at.scopes| == |st.scopes| + 1
    ensures var e := Expr(c, at, last);
      e.r.Err? ==> LastReturn(c, st, at, body, last) == Run(Err(e.r.error), e.st)
  {
  }

  /** The text of a function body that returns `e`: `  return e;` and the closing `}`. */
  lemma ReturnText(body: JsModule, e: JsModule)
    ensures var m := ExtendBody(Concat([body, OfBody("  return "), e, OfBody(";\n")]), "", "}");
      m.body == body.body + "  return " + e.body + ";\n}" && m.imports == body.imports + e.imports
  {
    Concat4(body, OfBody("  return "), e, OfBody(";\n"));
  }

  /** `buildProcedure` runs its prelude and every statement, with no `return`, then
      closes the body and pops the function's scope. */
  lemma BuildProcedureSteps(c: Ctx, st: EnvState, formId: Id, params: Form, block: seq<Form>, isAsync: bool)
    requires Wf(st)
    ensures var p := Prelude(st, formId, params, block, isAsync);
      var out := ProcedureOf(c, st, formId, params, block, isAsync);
      && (p.r.Err? ==> out == Run(Err(p.r.error), p.st))
      && (p.r.Ok? ==>
            var m := MapFrom(c, p.st, block, []);
            && (m.r.Err? ==> out == Run(Err(m.r.error), m.st))
            && (m.r.Ok? ==>
                  && |m.st.scopes| == |st.scopes| + 1
                  && out == Run(Ok(ExtendBody(Plus(p.r.value, Indented(m.r.value)), "", "}")), PopOf(m.st))))
  {
    var p := Prelude(st, formId, params, block, isAsync);
    if p.r.Ok? {
      ProcedureBodyText(c, st, p.st, p.r.value, block);
    }
  }

  /** After the prelude `head`, a procedure's statements are indented after it and
      closed with `}`, and its scope is popped. */
  lemma ProcedureBodyText(c: Ctx, st: EnvState, at: EnvState, head: JsModule, block: seq<Form>)
    requires Wf(st) && Progress(st, at) && |at.scopes| == |st.scopes| + 1
    ensures var m := MapFrom(c, at, block, []);
      var out := ProcedureBody(c, st, at, head, block);
      && (m.r.Err? ==> out == Run(Err(m.r.error), m.st))
      && (m.r.Ok? ==>
            && |m.st.scopes| == |st.scopes| + 1
            && out == Run(Ok(ExtendBody(Plus(head, Indented(m.r.value)), "", "}")), PopOf(m.st)))
  {
    EmptyNeutral(head, "", "");
    IndentedStatements(c, at, block, head, []);
    var body := IndentedFrom(c, at, block, head);
    ProgressTrans(st, at, body.st);
  }

  // ---- Loops

  /** A loop body: the statements in the scope the loop pushed, each followed by `;\n`,
      in braces after the header; the scope is popped afterwards. */
  lemma LoopBodyText(c: Ctx, st: EnvState, at: EnvState, header: JsModule, forms: seq<Form>)
    requires Wf(st) && Progress(st, at) && |at.scopes| == |st.scopes| + 1
    ensures var m := MapFrom(c, at, forms, []);
      var out := LoopBody(c, st, at, header, forms);
      && (m.r.Err? ==> out == Run(Err(m.r.error), m.st))
      && (m.r.Ok? ==>
            && |m.st.scopes| == |st.scopes| + 1 && out.st == PopOf(m.st)
            && out.r.value == Concat([header, OfBody("{"), Statements(m.r.value), OfBody("}")]))
  {
    BlockStatements(c, at, forms, []);
  }

  /** `while` refuses a missing condition and a condition that is a statement, without
      touching the environment. */
  lemma WhileChecks(c: Ctx, st: EnvState, args: seq<Form>)
    requires Wf(st)
    ensures var out := WhileOf(c, st, args);
      && (Arg(args, 0) == Undefined ==> out == Run(Err(TranspileError(NoWhileConditionMessage)), st))
      && (Arg(args, 0) != Undefined ==>
            && |args| >= 1
            && (IsNonExpressionCall(st, args[0]) ==>
                  && args[0].CuArray? && |args[0].items| >= 1
                  && (args[0].items[0].CuSymbol? || args[0].items[0].PropertyAccess?)
                  && out == Run(Err(TranspileError(ConditionStatementMessage(ShowSymbolAccess(args[0].items[0])))), st))
            && (!IsNonExpressionCall(st, args[0]) ==> out == WhileLoop(c, st, args)))
  {
    if Arg(args, 0) != Undefined && IsNonExpressionCall(st, args[0]) {
      NonExpressionCallHead(st, args[0]);
    }
  }

  /** The condition of a `while` is transpiled before the body's inherited scope is
      pushed, and heads the loop as `while(b)`. */
  lemma WhileLoopText(c: Ctx, st: EnvState, args: seq<Form>)
    requires Wf(st) && |args| >= 1
    ensures var b := Expr(c, st, args[0]);
      var out := WhileLoop(c, st, args);
      && (b.r.Err? ==> out == Run(Err(b.r.error), b.st))
      && (b.r.Ok? ==>
            && Progress(st, PushOf(b.st, true)) && |PushOf(b.st, true).scopes| == |st.scopes| + 1
            && out == LoopBody(c, st, PushOf(b.st, true), Concat([OfBody("while("), b.r.value, OfBody(")")]), Rest(args, 1)))
  {
    var b := Expr(c, st, args[0]);
    if b.r.Ok? {
      PushedAfter(st, b.st, true);
    }
  }

  /** `for` pushes the inherited scope first and keeps it on every refusal: a missing
      initialisation, condition or final expression, then a condition that is a
      statement. */
  lemma ForChecks(c: Ctx, st: EnvState, args: seq<Form>)
    requires Wf(st)
    ensures var out := ForOf(c, st, args);
      var pushed := PushOf(st, true);
      && (Arg(args, 0) == Undefined ==> out == Run(Err(TranspileError(NoForInitMessage)), pushed))
      && (Arg(args, 0) != Undefined && Arg(args, 1) == Undefined ==>
            out == Run(Err(TranspileError(NoForConditionMessage)), pushed))
      && (Arg(args, 0) != Undefined && Arg(args, 1) != Undefined && Arg(args, 2) == Undefined ==>
            out == Run(Err(TranspileError(NoForFinalMessage)), pushed))
      && (Arg(args, 0) != Undefined && Arg(args, 1) != Undefined && Arg(args, 2) != Undefined ==>
            && |args| >= 3 && Progress(st, pushed) && |pushed.scopes| == |st.scopes| + 1
            && (IsNonExpressionCall(pushed, args[1]) ==>
                  && args[1].CuArray? && |args[1].items| >= 1
                  && (args[1].items[0].CuSymbol? || args[1].items[0].PropertyAccess?)
                  && out == Run(Err(TranspileError(ConditionStatementMessage(ShowSymbolAccess(args[1].items[0])))), pushed))
            && (!IsNonExpressionCall(pushed, args[1]) ==> out == ForHeader(c, st, pushed, args)))
  {
    var pushed := PushOf(st, true);
    PushProgress(st, true);
    if Arg(args, 0) != Undefined && Arg(args, 1) != Undefined && Arg(args, 2) != Undefined && IsNonExpressionCall(pushed, args[1]) {
      NonExpressionCallHead(pushed, args[1]);
    }
  }

  /** The initialisation of a `for` is transpiled first, in the pushed scope, and opens
      the header `for(init;`. */
  lemma ForHeaderText(c: Ctx, st: EnvState, pushed: EnvState, args: seq<Form>)
    requires Wf(st) && Progress(st, pushed) && |pushed.scopes| == |st.scopes| + 1 && |args| >= 3
    ensures var i := Expr(c, pushed, args[0]);
      var out := ForHeader(c, st, pushed, args);
      && (i.r.Err? ==> out == Run(Err(i.r.error), i.st))
      && (i.r.Ok? ==>
            && Progress(st, i.st) && |i.st.scopes| == |st.scopes| + 1
            && out == ForCondition(c, st, i.st, Concat([OfBody("for("), i.r.value, OfBody(";")]), args))
  {
    var i := Expr(c, pushed, args[0]);
    ProgressTrans(st, pushed, i.st);
  }

  /** The condition of a `for` comes next, followed by `;`. */
  lemma ForConditionText(c: Ctx, st: EnvState, at: EnvState, header: JsModule, args: seq<Form>)
    requires Wf(st) && Progress(st, at) && |at.scopes| == |st.scopes| + 1 && |args| >= 3
    ensures var b := Expr(c, at, args[1]);
      var out := ForCondition(c, st, at, header, args);
      && (b.r.Err? ==> out == Run(Err(b.r.error), b.st))
      && (b.r.Ok? ==>
            && Progress(st, b.st) && |b.st.scopes| == |st.scopes| + 1
            && out == ForFinal(c, st, b.st, Concat([header, b.r.value, OfBody(";")]), args))
  {
    var b := Expr(c, at, args[1]);
    ProgressTrans(st, at, b.st);
  }

  /** The final expression of a `for` closes its header, and the body follows. */
  lemma ForFinalText(c: Ctx, st: EnvState, at: EnvState, header: JsModule, args: seq<Form>)
    requires Wf(st) && Progress(st, at) && |at.scopes| == |st.scopes| + 1 && |args| >= 3
    ensures var f := Expr(c, at, args[2]);
      var out := ForFinal(c, st, at, header, args);
      && (f.r.Err? ==> out == Run(Err(f.r.error), f.st))
      && (f.r.Ok? ==>
            && Progress(st, f.st) && |f.st.scopes| == |st.scopes| + 1
            && out == LoopBody(c, st, f.st, Concat([header, f.r.value, OfBody(")")]), Rest(args, 3)))
  {
    var f := Expr(c, at, args[2]);
    ProgressTrans(st, at, f.st);
  }

  /** A symbol assignee is declared in the innermost scope and named as it is. */
  lemma AssigneeSymbol(c: Ctx, st: EnvState, formId: Id, w: Writer, x: Id)
    requires Wf(st)
    ensures var a := Assignee(c, st, formId, w, CuSymbol(x));
      && (a.r.Ok? <==> !DefinedHere(st, x) && SetOutcome(st, x, w).Pass?)
      && (a.r.Ok? ==> a.st.scopes[0] == st.scopes[0][x := w] && a.r.value == OfBody(x))
      && (a.r.Err? ==> a.st == st)
  {
  }

  /** A pair `key: x` of a destructuring pattern transpiles its key, then declares `x`
      in the innermost scope and adds `key:x,` to the pattern; a failing key stops it. */
  lemma PairEntryDeclaresValue(c: Ctx, st: EnvState, formId: Id, w: Writer, key: Form, x: Id, acc: JsModule)
    requires Wf(st)
    ensures var k := Expr(c, st, key);
      var out := AssigneeEntry(c, st, formId, w, Pair(key, CuSymbol(x)), acc);
      && (k.r.Err? ==> out == Run(Err(k.r.error), k.st))
      && (k.r.Ok? ==> Wf(k.st) && (out.r.Ok? <==> !DefinedHere(k.st, x) && SetOutcome(k.st, x, w).Pass?))
      && (out.r.Ok? ==> out.r.value == Concat([acc, k.r.value, OfBody(":" + x + ",")])
                        && out.st.scopes[0] == k.st.scopes[0][x := w])
  {
    var k := Expr(c, st, key);
    if k.r.Err? {
      PairEntryKeyFails(c, st, formId, w, key, x, acc);
    } else {
      PairEntryStep(c, st, formId, w, key, x, acc);
      var t := TryToSet(k.st, x, w);
      assert t.r.Ok? <==> !DefinedHere(k.st, x) && SetOutcome(k.st, x, w).Pass?;
    }
  }

  /** The pair step stops at a key that fails to transpile. */
  lemma PairEntryKeyFails(c: Ctx, st: EnvState, formId: Id, w: Writer, key: Form, x: Id, acc: JsModule)
    requires Wf(st) && Expr(c, st, key).r.Err?
    ensures var k := Expr(c, st, key);
      AssigneeEntry(c, st, formId, w, Pair(key, CuSymbol(x)), acc) == Run(Err(k.r.error), k.st)
  {
  }

  /** The pair step once its key is transpiled: declaring the value, then adding both. */
  lemma PairEntryStep(c: Ctx, st: EnvState, formId: Id, w: Writer, key: Form, x: Id, acc: JsModule)
    requires Wf(st) && Expr(c, st, key).r.Ok?
    ensures var k := Expr(c, st, key);
      var t := TryToSet(k.st, x, w);
      var out := AssigneeEntry(c, st, formId, w, Pair(key, CuSymbol(x)), acc);
      && Wf(k.st)
      && (t.r.Err? ==> out == Run(Err(t.r.error), t.st))
      && (t.r.Ok? ==> out == Run(Ok(Concat([acc, k.r.value, OfBody(":" + x + ",")])), t.st))
  {
  }

  /** As written, the pair step of the one-pair pattern `{key: x}` reads the missing
      second entry of the form as its value, so it refuses every such pattern: with the
      key's error, or else with the message that `undefined` is not a symbol. */
  lemma PairEntryAsWrittenRefusesOnePair(c: Ctx, st: EnvState, formId: Id, w: Writer, key: Form, x: Id, acc: JsModule)
    requires Wf(st)
    ensures var k := Expr(c, st, CuArray([key, CuSymbol(x)]));
      var out := PairEntryAsWritten(c, st, formId, w, [Pair(key, CuSymbol(x))], acc);
      && out.r.Err?
      && (k.r.Ok? ==> out.r.error == TranspileError(AssigneeMessage(formId, Undefined)))
  {
    var all := [Pair(key, CuSymbol(x))];
    assert EntryForm(all[0]) == CuArray([key, CuSymbol(x)]);
    var k := Expr(c, st, CuArray([key, CuSymbol(x)]));
    assert PairEntryAsWritten(c, st, formId, w, all, acc)
      == if k.r.Err? then Run(Err(k.r.error), k.st)
         else Run(Err(TranspileError(AssigneeMessage(formId, Undefined))), k.st);
  }

  /** `forEach` declares its variable as a `Const` in the fresh inherited scope it
      pushed, so it may shadow any outer name. */
  lemma ForEachBindsConst(c: Ctx, st: EnvState, x: Id)
    requires Wf(st)
    ensures var pushed := PushOf(st, true);
      var a := Assignee(c, pushed, "forEach", Const, CuSymbol(x));
      && (a.r.Ok? <==> SetOutcome(pushed, x, Const).Pass?)
      && (a.r.Ok? ==> a.st.scopes[0] == map[x := Const] && a.r.value == OfBody(x))
  {
    var pushed := PushOf(st, true);
    assert pushed.scopes[0] == map[];
    AssigneeSymbol(c, pushed, "forEach", Const, x);
  }

  /** `forEach` refuses a missing variable, then (once the variable is declared) a
      missing iterable, with its scope still pushed. */
  lemma ForEachChecks(c: Ctx, st: EnvState, args: seq<Form>)
    requires Wf(st)
    ensures var pushed := PushOf(st, true);
      var out := ForEachOf(c, st, args);
      && (Arg(args, 0) == Undefined ==> out == Run(Err(TranspileError(NoForEachVariableMessage)), pushed))
      && (Arg(args, 0) != Undefined ==>
            var a := Assignee(c, pushed, "forEach", Const, Arg(args, 0));
            && (a.r.Err? ==> out == Run(Err(a.r.error), a.st))
            && (a.r.Ok? && Arg(args, 1) == Undefined ==> out == Run(Err(TranspileError(NoIterableMessage)), a.st))
            && (a.r.Ok? && Arg(args, 1) != Undefined ==>
                  && |args| >= 2 && Progress(st, a.st) && |a.st.scopes| == |st.scopes| + 1
                  && out == ForEachRest(c, st, a.st, a.r.value, args)))
  {
    var pushed := PushOf(st, true);
    PushProgress(st, true);
    if Arg(args, 0) != Undefined {
      var a := Assignee(c, pushed, "forEach", Const, Arg(args, 0));
      ProgressTrans(st, pushed, a.st);
    }
  }

  /** The header of a `forEach` is `for(const x of it)`, the iterable transpiled in the
      scope holding the loop variable. */
  lemma ForEachRestText(c: Ctx, st: EnvState, at: EnvState, assignee: JsModule, args: seq<Form>)
    requires Wf(st) && Progress(st, at) && |at.scopes| == |st.scopes| + 1 && |args| >= 2
    ensures var it := Expr(c, at, args[1]);
      var out := ForEachRest(c, st, at, assignee, args);
      && (it.r.Err? ==> out == Run(Err(it.r.error), it.st))
      && (it.r.Ok? ==>
            && Progress(st, it.st) && |it.st.scopes| == |st.scopes| + 1
            && out == LoopBody(c, st, it.st, Concat([OfBody("for(const "), assignee, OfBody(" of "), it.r.value, OfBody(")")]),
                               Rest(args, 2)))
  {
    var it := Expr(c, at, args[1]);
    ProgressTrans(st, at, it.st);
  }

  /** `recursive` needs at least one member; it registers every member's name as a
      `RecursiveConst` before it transpiles any of them, so each member can refer to
      all the others. */
  lemma RecursiveRegistersFirst(c: Ctx, st: EnvState, args: seq<Form>)
    requires Wf(st)
    ensures |args| < 1 ==> RecursiveOf(c, st, args) == Run(Err(TranspileError(NoRecursiveMessage)), st)
    ensures |args| >= 1 ==>
      var reg := RegisterFrom(st, args);
      var out := RecursiveOf(c, st, args);
      && (reg.r.Err? ==> out == Run(Err(reg.r.error), reg.st))
      && (reg.r.Ok? ==>
            && (forall k :: 0 <= k < |args| ==>
                  args[k].CuArray? && |args[k].items| >= 2 && args[k].items[1].CuSymbol?
                  && !ReferredAsOuter(st, args[k].items[1].v)
                  && args[k].items[1].v in reg.st.scopes[0] && reg.st.scopes[0][args[k].items[1].v] == RecursiveConst)
            && var m := MapFrom(c, reg.st, args, []);
               Follows(out, m) && (m.r.Ok? ==> out.r.value == Statements(m.r.value)))
  {
    if |args| >= 1 {
      var reg := RegisterFrom(st, args);
      if reg.r.Ok? {
        RegisteredNames(st, args);
        BlockStatements(c, reg.st, args, []);
      }
    }
  }

  /** `recursive` aborts before transpiling anything when `set` refuses the name of its
      first member: a name this scope, or one inside it, already referred to as a binding
      of an enclosing scope. */
  lemma RecursiveRefusesOuterName(c: Ctx, st: EnvState, args: seq<Form>)
    requires Wf(st) && |args| >= 1 && RecursiveName(st, args[0]).Ok?
    requires ReferredAsOuter(st, RecursiveName(st, args[0]).value)
    ensures RecursiveOf(c, st, args)
      == Run(Err(TranspileError(RecursiveHintMessage(RecursiveName(st, args[0]).value))), st)
  {
  }

  /** In `(const g 1) (scope (g) (recursive (const g 5) …))` the reference to the outer
      `g` inside the scope makes `recursive` refuse to register `g`. */
  lemma RecursiveAfterOuterReference(c: Ctx, builtins: map<Id, Writer>, g: Id, args: seq<Form>)
    requires |args| >= 1 && RecursiveName(ReferState(PushOf(SetOf(Init(builtins), g, Const), false), g), args[0]) == Ok(g)
    ensures var inner := ReferState(PushOf(SetOf(Init(builtins), g, Const), false), g);
      RecursiveOf(c, inner, args) == Run(Err(TranspileError(RecursiveHintMessage(g))), inner)
  {
    var root := SetOf(Init(builtins), g, Const);
    InitInvariants(builtins);
    SetUnreferencedPasses(Init(builtins), g, Const);
    var pushed := PushOf(root, false);
    PushShiftsLookup(root, false, g);
    SetAfterOuterReferenceFails(pushed, g, RecursiveConst);
    RecursiveRefusesOuterName(c, ReferState(pushed, g), args);
  }

  // ---- incrementF / decrementF

  /** The mutation writers refuse, in this order: a second argument, an argument that is
      not a symbol, and a name whose nearest definition is not a `let` variable; they
      succeed in every other case. */
  lemma MutationErrors(c: Ctx, st: EnvState, formId: Id, whenTopRepl: Template, otherwise: Template, args: seq<Form>)
    requires Wf(st)
    ensures var r := MutationOf(c, st, formId, whenTopRepl, otherwise, args);
      var extra := |args| >= 2 && args[1] != Undefined;
      var id := Arg(args, 0);
      && (extra ==> r == Err(TranspileError(OnlyOneSymbolMessage(formId))))
      && (!extra && !id.CuSymbol? ==> r == Err(TranspileError(NotVariableNameMessage(formId))))
      && (!extra && id.CuSymbol? && FindOf(st, id.v) != Some(Var) ==>
            r == Err(TranspileError(NotLetVariableMessage(formId))))
      && (r.Ok? <==> !extra && id.CuSymbol? && FindOf(st, id.v) == Some(Var))
  {
  }

  /** A `let` variable `x` is updated through the pseudo-global when its definition is at
      the REPL's top level, and by name everywhere else: `before + x + after`. */
  lemma MutationText(c: Ctx, st: EnvState, formId: Id, whenTopRepl: Template, otherwise: Template, args: seq<Form>, x: Id)
    requires Wf(st) && |args| >= 1 && args[0] == CuSymbol(x) && (|args| == 1 || args[1] == Undefined)
    requires FindOf(st, x) == Some(Var)
    ensures LookupFrom(st.scopes, x, 0).Some?
    ensures var i := LookupFrom(st.scopes, x, 0).value;
      var r := MutationOf(c, st, formId, whenTopRepl, otherwise, args);
      && (AtReplTopLevel(st, c.replMode, i) ==>
            r == Ok(c.host.pseudoTopLevelAssignment(x,
                      OfBody(whenTopRepl.before + c.host.pseudoTopLevelReference(x) + whenTopRepl.after))))
      && (!AtReplTopLevel(st, c.replMode, i) ==> r == Ok(OfBody(otherwise.before + x + otherwise.after)))
  {
  }

  /** `(incrementF x)` on a `let` variable outside the REPL's top level emits `x++`, with
      no imports, and leaves the environment as it was. */
  lemma IncrementLetVariable(c: Ctx, st: EnvState, x: Id)
    requires Wf(st) && FindOf(st, x) == Some(Var)
    requires LookupFrom(st.scopes, x, 0).Some? && !AtReplTopLevel(st, c.replMode, LookupFrom(st.scopes, x, 0).value)
    ensures InvokeDirect(c, st, IncrementF.kind, [CuSymbol(x)]) == Run(Ok(OfBody(x + "++")), st)
  {
    var op := Template("", "++");
    assert IncrementF.kind == Mutation("incrementF", op, op);
    MutationText(c, st, "incrementF", op, op, [CuSymbol(x)], x);
    assert op.before + x + op.after == x + "++";
    assert InvokeDirect(c, st, IncrementF.kind, [CuSymbol(x)])
      == Run(MutationOf(c, st, "incrementF", op, op, [CuSymbol(x)]), st);
  }
}
