/** What the transpiler's loops build and what its writers promise, proved about the
    specification functions of `TranspileSpec`. The loops are related to reference
    definitions that transpile the forms first (`MapFrom`, `EntriesFrom`) and assemble the
    fragments afterwards (`Joined`, `Terminated`, `Statements`, `Indented`). */
module TranspileProps {
  import opened Wrappers
  import opened Strings
  import opened Types
  import opened TranspileFragments
  import opened Environment
  import opened Common
  import opened Safe
  import opened Unbounded
  import opened TranspileSpec

  /** The entries of a key-values form transpiled in order after `done`; the first error
      aborts. */
  function EntriesFrom(c: Ctx, st: EnvState, entries: seq<KeyValue>, done: seq<JsModule>): (out: Run<seq<JsModule>>)
    requires Wf(st)
    ensures Kept(st, out)
    ensures out.r.Ok? ==> |out.r.value| == |done| + |entries|
    decreases |entries|
  {
    if entries == [] then
      ProgressRefl(st);
      Run(Ok(done), st)
    else
      var e := EntrySrc(c, st, entries[0]);
      if e.r.Err? then Run(Err(e.r.error), e.st)
      else
        var rest := EntriesFrom(c, e.st, entries[1..], done + [e.r.value]);
        ProgressTrans(st, e.st, rest.st);
        rest
  }

  /** The statements of a function body, each indented by two spaces and ended by `;\n`. */
  function Indented(ms: seq<JsModule>): JsModule
  {
    if ms == [] then EmptyModule()
    else Concat([Indented(ms[..|ms| - 1]), OfBody("  "), ms[|ms| - 1], OfBody(";\n")])
  }

  /** `a` ends like `m` does on success, carrying `m`'s error otherwise, in `m`'s state. */
  predicate Follows<T, U>(a: Run<T>, m: Run<U>)
  {
    a.st == m.st && (a.r.Ok? <==> m.r.Ok?) && (m.r.Err? ==> a.r.error == m.r.error)
  }

  /** One more fragment followed by `sep`, and one more fragment at the end of a join. */
  lemma SeparatedStep(done: seq<JsModule>, e: JsModule, sep: JsSrc)
    ensures Concat([Terminated(done, sep), e, OfBody(sep)]) == Terminated(done + [e], sep)
    ensures Concat([Terminated(done, sep), e]) == Joined(done + [e], sep)
  {
    var done' := done + [e];
    assert done'[..|done|] == done;
  }

  /** One more statement appended. */
  lemma StatementsStep(done: seq<JsModule>, e: JsModule)
    ensures AppendStatement(Statements(done), e) == Statements(done + [e])
  {
    var done' := done + [e];
    assert done'[..|done|] == done;
  }

  /** The last element of `transpileJoinWithComma` gets no comma after it. */
  lemma JoinWithCommaLast(c: Ctx, st: EnvState, xs: seq<Form>, done: seq<JsModule>)
    requires Wf(st) && |xs| == 1
    ensures var m := MapFrom(c, st, xs, done);
      var j := JoinWithCommaFrom(c, st, xs, Terminated(done, ","));
      Follows(j, m) && (m.r.Ok? ==> j.r.value == Joined(m.r.value, ","))
  {
    var e := Expr(c, st, xs[0]);
    var tail := xs[1..];
    assert tail == [];
    if e.r.Ok? {
      var done' := done + [e.r.value];
      SeparatedStep(done, e.r.value, ",");
      assert MapFrom(c, st, xs, done) == MapFrom(c, e.st, tail, done');
      assert JoinWithCommaFrom(c, st, xs, Terminated(done, ","))
          == JoinWithCommaFrom(c, e.st, tail, Concat([Terminated(done, ","), e.r.value]));
    }
  }

  /** `transpileJoinWithComma` transpiles every element in order and separates the
      results with `,`, with no comma after the last; the first error aborts. */
  lemma {:induction false} JoinWithCommaJoined(c: Ctx, st: EnvState, xs: seq<Form>, done: seq<JsModule>)
    requires Wf(st) && (xs != [] || done == [])
    ensures var m := MapFrom(c, st, xs, done);
      var j := JoinWithCommaFrom(c, st, xs, Terminated(done, ","));
      Follows(j, m) && (m.r.Ok? ==> j.r.value == Joined(m.r.value, ","))
    decreases |xs|
  {
    if |xs| == 1 {
      JoinWithCommaLast(c, st, xs, done);
    } else if xs != [] {
      var e := Expr(c, st, xs[0]);
      if e.r.Ok? {
        var done' := done + [e.r.value];
        SeparatedStep(done, e.r.value, ",");
        assert JoinWithCommaFrom(c, st, xs, Terminated(done, ","))
            == JoinWithCommaFrom(c, e.st, xs[1..], Terminated(done', ","));
        assert MapFrom(c, st, xs, done) == MapFrom(c, e.st, xs[1..], done');
        JoinWithCommaJoined(c, e.st, xs[1..], done');
      } else {
        assert MapFrom(c, st, xs, done) == Run(Err(e.r.error), e.st);
        assert JoinWithCommaFrom(c, st, xs, Terminated(done, ",")) == Run(Err(e.r.error), e.st);
      }
    }
  }

  /** `transpileKeyValues` puts a `,` after every entry. */
  lemma {:induction false} KeyValuesTerminated(c: Ctx, st: EnvState, entries: seq<KeyValue>, done: seq<JsModule>)
    requires Wf(st)
    ensures var m := EntriesFrom(c, st, entries, done);
      var k := KeyValuesFrom(c, st, entries, Terminated(done, ","));
      Follows(k, m) && (m.r.Ok? ==> k.r.value == Terminated(m.r.value, ","))
    decreases |entries|
  {
    if entries != [] {
      var e := EntrySrc(c, st, entries[0]);
      if e.r.Ok? {
        SeparatedStep(done, e.r.value, ",");
        KeyValuesTerminated(c, e.st, entries[1..], done + [e.r.value]);
      }
    }
  }

  /** `transpileBlock` appends every statement with `appendJsStatement`. */
  lemma {:induction false} BlockStatements(c: Ctx, st: EnvState, forms: seq<Form>, done: seq<JsModule>)
    requires Wf(st)
    ensures var m := MapFrom(c, st, forms, done);
      var b := BlockFrom(c, st, forms, Statements(done));
      Follows(b, m) && (m.r.Ok? ==> b.r.value == Statements(m.r.value))
    decreases |forms|
  {
    if forms != [] {
      var e := Expr(c, st, forms[0]);
      if e.r.Ok? {
        StatementsStep(done, e.r.value);
        BlockStatements(c, e.st, forms[1..], done + [e.r.value]);
      }
    }
  }

  /** One indented statement appended after a head `h`. */
  lemma IndentedStep(h: JsModule, done: seq<JsModule>, s: JsModule)
    ensures Concat([Plus(h, Indented(done)), OfBody("  "), s, OfBody(";\n")]) == Plus(h, Indented(done + [s]))
  {
    var done' := done + [s];
    assert done'[..|done|] == done;
    var ms := [Indented(done), OfBody("  "), s, OfBody(";\n")];
    var ms' := [Plus(h, Indented(done)), OfBody("  "), s, OfBody(";\n")];
    assert Imports(ms'[1..]) == Imports(ms[1..]) && Bodies(ms'[1..]) == Bodies(ms[1..]) by {
      assert ms'[1..] == ms[1..];
    }
  }

  /** The statement loops of `buildFn` and `buildProcedure` emit every statement as
      `  <statement>;\n` after the head `h`. */
  lemma {:induction false} IndentedStatements(c: Ctx, st: EnvState, forms: seq<Form>, h: JsModule, done: seq<JsModule>)
    requires Wf(st)
    ensures var m := MapFrom(c, st, forms, done);
      var b := IndentedFrom(c, st, forms, Plus(h, Indented(done)));
      Follows(b, m) && (m.r.Ok? ==> b.r.value == Plus(h, Indented(m.r.value)))
    decreases |forms|
  {
    if forms != [] {
      var e := Expr(c, st, forms[0]);
      if e.r.Ok? {
        IndentedStep(h, done, e.r.value);
        IndentedStatements(c, e.st, forms[1..], h, done + [e.r.value]);
      }
    }
  }
}
