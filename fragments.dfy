/** The algebra of JavaScript fragments the transpiler emits (`JsModule`): import
    statements and body text kept as two accumulators, glued together piecewise; plus the
    pure parts of the transpiler's dispatch (`asCall`, atom rendering). */
module TranspileFragments {
  import opened Wrappers
  import opened Strings
  import opened Types
  import Json

  /** A piece of generated JavaScript: its import statements and its body. */
  datatype JsModule = JsModule(imports: JsSrc, body: JsSrc)

  /** `emptyJsModule()`. */
  function EmptyModule(): JsModule
  {
    JsModule("", "")
  }

  /** `jsModuleOfBody(body)`: a fragment without imports. */
  function OfBody(body: JsSrc): JsModule
  {
    JsModule("", body)
  }

  /** `jsModuleOfImports(imports)`: a fragment without body text. */
  function OfImports(imports: JsSrc): JsModule
  {
    JsModule(imports, "")
  }

  /** The `plus` step of `concatJsModules`. */
  function Plus(x: JsModule, y: JsModule): JsModule
  {
    JsModule(x.imports + y.imports, x.body + y.body)
  }

  /** All import texts of `ms`, in order. */
  function Imports(ms: seq<JsModule>): JsSrc
  {
    if ms == [] then "" else ms[0].imports + Imports(ms[1..])
  }

  /** All body texts of `ms`, in order. */
  function Bodies(ms: seq<JsModule>): JsSrc
  {
    if ms == [] then "" else ms[0].body + Bodies(ms[1..])
  }

  /** One fragment in front of others. */
  lemma Cons(m: JsModule, ms: seq<JsModule>)
    ensures Imports([m] + ms) == m.imports + Imports(ms) && Bodies([m] + ms) == m.body + Bodies(ms)
  {
    assert ([m] + ms)[1..] == ms;
  }

  lemma {:induction false} ImportsSnoc(ms: seq<JsModule>, m: JsModule)
    ensures Imports(ms + [m]) == Imports(ms) + m.imports
    ensures Bodies(ms + [m]) == Bodies(ms) + m.body
  {
    if ms != [] {
      assert (ms + [m])[1..] == ms[1..] + [m];
      ImportsSnoc(ms[1..], m);
    }
  }

  /** `concatJsModules(a, b, ...left)`: the source folds `plus` from the left over at least
      two fragments; the result holds the imports and the bodies of the arguments, each
      concatenated separately in argument order. */
  function Concat(ms: seq<JsModule>): (m: JsModule)
    requires |ms| >= 2
    ensures m.imports == Imports(ms) && m.body == Bodies(ms)
    decreases |ms|
  {
    if |ms| == 2 then
      var rest := ms[1..];
      assert rest[0] == ms[1] && rest[1..] == [];
      assert Imports(rest) == ms[1].imports + Imports(rest[1..]);
      assert Bodies(rest) == ms[1].body + Bodies(rest[1..]);
      Plus(ms[0], ms[1])
    else
      var init := ms[..|ms| - 1];
      var m := Plus(Concat(init), ms[|ms| - 1]);
      ImportsSnoc(init, ms[|ms| - 1]);
      assert init + [ms[|ms| - 1]] == ms;
      m
  }

  /** Two fragments glued in order. */
  lemma Concat2(a: JsModule, b: JsModule)
    ensures Concat([a, b]) == JsModule(a.imports + b.imports, a.body + b.body)
  {
  }

  /** Three fragments glued in order. */
  lemma Concat3(a: JsModule, b: JsModule, c: JsModule)
    ensures Concat([a, b, c]) == JsModule(a.imports + b.imports + c.imports, a.body + b.body + c.body)
  {
    assert [a, b, c][..2] == [a, b];
  }

  /** Four fragments glued in order. */
  lemma Concat4(a: JsModule, b: JsModule, c: JsModule, d: JsModule)
    ensures Concat([a, b, c, d]) == JsModule(a.imports + b.imports + c.imports + d.imports,
                                             a.body + b.body + c.body + d.body)
  {
    Cons(d, []);
    Cons(c, [d]);
    Cons(b, [c, d]);
    Cons(a, [b, c, d]);
    assert [d] + [] == [d];
  }

  /** Five fragments glued in order. */
  lemma Concat5(a: JsModule, b: JsModule, c: JsModule, d: JsModule, e: JsModule)
    ensures Concat([a, b, c, d, e]) == JsModule(a.imports + b.imports + c.imports + d.imports + e.imports,
                                                a.body + b.body + c.body + d.body + e.body)
  {
    Cons(e, []);
    Cons(d, [e]);
    Cons(c, [d, e]);
    Cons(b, [c, d, e]);
    Cons(a, [b, c, d, e]);
    assert [e] + [] == [e];
  }

  /** Seven fragments glued in order. */
  lemma Concat7(a: JsModule, b: JsModule, c: JsModule, d: JsModule, e: JsModule, f: JsModule, g: JsModule)
    ensures Concat([a, b, c, d, e, f, g]).body == a.body + b.body + c.body + d.body + e.body + f.body + g.body
  {
    Cons(g, []);
    Cons(f, [g]);
    Cons(e, [f, g]);
    Cons(d, [e, f, g]);
    Cons(c, [d, e, f, g]);
    Cons(b, [c, d, e, f, g]);
    Cons(a, [b, c, d, e, f, g]);
    assert [g] + [] == [g];
  }

  /** `extendBody(m, prefix, suffix)`: the body is wrapped and the imports are kept. */
  function ExtendBody(m: JsModule, prefix: JsSrc, suffix: JsSrc): JsModule
  {
    m.(body := prefix + m.body + suffix)
  }

  /** `appendJsStatement(block, e)`: both accumulators receive `e` and a `;\n`. */
  function AppendStatement(block: JsModule, e: JsModule): JsModule
  {
    JsModule(block.imports + e.imports + ";\n", block.body + e.body + ";\n")
  }

  /** The loop of `transpileBlock` over already transpiled statements. */
  function Statements(ms: seq<JsModule>): JsModule
  {
    if ms == [] then EmptyModule() else AppendStatement(Statements(ms[..|ms| - 1]), ms[|ms| - 1])
  }

  /** Each fragment followed by `sep`, as the loops of `transpileKeyValues` and (for all
      but the last element) `transpileJoinWithComma` build them. */
  function Terminated(ms: seq<JsModule>, sep: JsSrc): JsModule
  {
    if ms == [] then EmptyModule() else Concat([Terminated(ms[..|ms| - 1], sep), ms[|ms| - 1], OfBody(sep)])
  }

  /** The fragments with `sep` between neighbours and nothing after the last one: the
      result of `transpileJoinWithComma` (with `sep == ","`) once every element has been
      transpiled. */
  function Joined(ms: seq<JsModule>, sep: JsSrc): JsModule
  {
    if ms == [] then EmptyModule() else Concat([Terminated(ms[..|ms| - 1], sep), ms[|ms| - 1]])
  }

  /** `transpileKeyValues` once every entry has been transpiled. */
  function ObjectOf(entries: seq<JsModule>): JsModule
  {
    ExtendBody(Terminated(entries, ","), "{", "}")
  }

  /** The body texts of a sequence of fragments. */
  function BodyList(ms: seq<JsModule>): (r: seq<JsSrc>)
    ensures |r| == |ms| && forall k :: 0 <= k < |ms| ==> r[k] == ms[k].body
  {
    if ms == [] then [] else [ms[0].body] + BodyList(ms[1..])
  }

  /** Fragments glued one after another compose associatively. */
  lemma ConcatAssociative(a: JsModule, b: JsModule, c: JsModule)
    ensures Plus(Plus(a, b), c) == Plus(a, Plus(b, c))
  {
    assert a.imports + b.imports + c.imports == a.imports + (b.imports + c.imports);
    assert a.body + b.body + c.body == a.body + (b.body + c.body);
  }

  /** The empty fragment is neutral, and fragments without imports glue like their bodies. */
  lemma EmptyNeutral(m: JsModule, x: JsSrc, y: JsSrc)
    ensures Plus(EmptyModule(), m) == m && Plus(m, EmptyModule()) == m
    ensures Plus(OfBody(x), OfBody(y)) == OfBody(x + y)
  {
    assert "" + m.imports == m.imports && m.imports + "" == m.imports;
    assert "" + m.body == m.body && m.body + "" == m.body;
    assert "" + "" == "";
  }

  /** `extendBody` never changes imports, and two extensions nest. */
  lemma ExtendBodyKeepsImports(m: JsModule, p1: JsSrc, s1: JsSrc, p2: JsSrc, s2: JsSrc)
    ensures ExtendBody(m, p1, s1).imports == m.imports
    ensures ExtendBody(ExtendBody(m, p1, s1), p2, s2) == ExtendBody(m, p2 + p1, s1 + s2)
  {
    assert p2 + (p1 + m.body + s1) + s2 == (p2 + p1) + m.body + (s1 + s2);
  }

  /** The body of a transpiled block is every statement's body followed by `;\n`, and so
      are its imports. */
  lemma {:induction false} StatementsShape(ms: seq<JsModule>)
    ensures Statements(ms).body == Bodies(Semicolons(ms))
    ensures Statements(ms).imports == Imports(Semicolons(ms))
  {
    if ms != [] {
      var init := ms[..|ms| - 1];
      var last := ms[|ms| - 1];
      StatementsShape(init);
      SemicolonsSnoc(init, last);
      assert init + [last] == ms;
      ImportsSnoc(Semicolons(init), JsModule(last.imports + ";\n", last.body + ";\n"));
    }
  }

  /** Each fragment with `;\n` appended to both of its parts. */
  function Semicolons(ms: seq<JsModule>): seq<JsModule>
  {
    if ms == [] then [] else [JsModule(ms[0].imports + ";\n", ms[0].body + ";\n")] + Semicolons(ms[1..])
  }

  lemma {:induction false} SemicolonsSnoc(ms: seq<JsModule>, m: JsModule)
    ensures Semicolons(ms + [m]) == Semicolons(ms) + [JsModule(m.imports + ";\n", m.body + ";\n")]
  {
    if ms != [] {
      assert (ms + [m])[1..] == ms[1..] + [m];
      SemicolonsSnoc(ms[1..], m);
    }
  }

  /** The joined body is `Strings.Join` of the bodies: separators only between neighbours,
      no trailing separator; the imports are the imports of the parts in order. */
  lemma {:induction false} JoinedShape(ms: seq<JsModule>, sep: JsSrc)
    ensures Joined(ms, sep).body == Join(BodyList(ms), sep)
    ensures Joined(ms, sep).imports == Imports(ms)
  {
    if |ms| >= 1 {
      JoinedBodyLeft(ms, sep);
    }
    JoinedImports(ms, sep);
  }

  lemma JoinedImports(ms: seq<JsModule>, sep: JsSrc)
    ensures Joined(ms, sep).imports == Imports(ms)
  {
    if |ms| >= 1 {
      var init, last := ms[..|ms| - 1], ms[|ms| - 1];
      calc {
        Joined(ms, sep).imports;
        Concat([Terminated(init, sep), last]).imports;
        { Concat2(Terminated(init, sep), last); }
        Terminated(init, sep).imports + last.imports;
        { TerminatedImports(init, sep); }
        Imports(init) + last.imports;
        { ImportsSnoc(init, last); }
        Imports(init + [last]);
        { assert init + [last] == ms; }
        Imports(ms);
      }
    }
  }

  lemma {:induction false} TerminatedImports(ms: seq<JsModule>, sep: JsSrc)
    ensures Terminated(ms, sep).imports == Imports(ms)
  {
    if ms != [] {
      TerminatedImports(ms[..|ms| - 1], sep);
      Concat3(Terminated(ms[..|ms| - 1], sep), ms[|ms| - 1], OfBody(sep));
      ImportsSnoc(ms[..|ms| - 1], ms[|ms| - 1]);
      assert ms[..|ms| - 1] + [ms[|ms| - 1]] == ms;
    }
  }

  /** `Join` read from the right: the last element after the rest and a separator. */
  lemma {:induction false} JoinSnoc(parts: seq<string>, x: string, sep: string)
    requires |parts| >= 1
    ensures Join(parts + [x], sep) == Join(parts, sep) + sep + x
  {
    if |parts| == 1 {
      assert (parts + [x])[1..] == [x];
    } else {
      assert (parts + [x])[1..] == parts[1..] + [x];
      JoinSnoc(parts[1..], x, sep);
    }
  }

  /** A terminated sequence is the joined one followed by one more separator. */
  lemma TerminatedJoined(ms: seq<JsModule>, sep: JsSrc)
    requires |ms| >= 1
    ensures Terminated(ms, sep).body == Joined(ms, sep).body + sep
  {
    Concat3(Terminated(ms[..|ms| - 1], sep), ms[|ms| - 1], OfBody(sep));
    Concat2(Terminated(ms[..|ms| - 1], sep), ms[|ms| - 1]);
  }

  lemma {:induction false} JoinedBodyLeft(ms: seq<JsModule>, sep: JsSrc)
    requires |ms| >= 1
    ensures Joined(ms, sep).body == Join(BodyList(ms), sep)
    decreases |ms|
  {
    var n := |ms|;
    var init := ms[..n - 1];
    Concat2(Terminated(init, sep), ms[n - 1]);
    if n == 1 {
      assert Terminated(init, sep) == EmptyModule();
      assert BodyList(ms) == [ms[0].body];
    } else {
      JoinedBodyLeft(init, sep);
      TerminatedJoined(init, sep);
      assert BodyList(ms) == BodyList(init) + [ms[n - 1].body];
      JoinSnoc(BodyList(init), ms[n - 1].body, sep);
    }
  }

  /** The function `asCall` computes: the head's name (a symbol's name or the first
      segment of a property access) and the remaining forms. */
  function AsCall(f: Form): (r: Option<(Id, seq<Form>)>)
    ensures r.Some? <==> f.CuArray? && |f.items| >= 1 && (f.items[0].CuSymbol? || f.items[0].PropertyAccess?)
    ensures r.Some? ==> r.value.1 == f.items[1..]
    ensures r.Some? && f.items[0].CuSymbol? ==> r.value.0 == f.items[0].v
    ensures r.Some? && f.items[0].PropertyAccess? ==> r.value.0 == f.items[0].segments[0]
  {
    if !f.CuArray? || |f.items| == 0 then None
    else
      match f.items[0]
      case CuSymbol(v) => Some((v, f.items[1..]))
      case PropertyAccess(segments) => Some((segments[0], f.items[1..]))
      case _ => None
  }

  /** The name `asCall` picks for a call head is where its printed name starts: the whole
      name of a symbol, the text before the first `.` of a property access. */
  lemma AsCallHeadName(f: Form)
    requires AsCall(f).Some?
    ensures ShowSymbolAccess(f.items[0]) == AsCall(f).value.0
         || ShowSymbolAccess(f.items[0]) == AsCall(f).value.0 + "." + Join(f.items[0].segments[1..], ".")
  {
  }

  /** How `transpileExpressionWithNextCall` renders an atom that is neither a symbol nor a
      property access nor a literal array or key-values form. */
  function AtomSrc(f: Form): (m: JsModule)
    requires !f.CuArray? && !f.CuSymbol? && !f.PropertyAccess? && !f.LiteralArray? && !f.KeyValues?
    ensures m.imports == ""
    ensures f.CuString? ==> m.body == Json.Quote(f.s)
    ensures f.Undefined? ==> m.body == "void 0"
    ensures f.Bool? ==> m.body == (if f.b then "!0" else "!1")
    ensures f.Integer32? ==> m.body == ShowInt(f.i)
    ensures f.Float64? ==> m.body == f.text
  {
    match f
    case CuString(s) => OfBody(Json.Quote(s))
    case Undefined => OfBody("void 0")
    case Float64(text) => OfBody(text)
    case Bool(b) => OfBody(if b then "!0" else "!1")
    case Integer32(i) => OfBody(ShowInt(i))
  }
}
