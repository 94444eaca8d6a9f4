/** The printer `prStr`: a form rendered as text. On atoms it is the inverse of the
    reader's token classification, which the round-trip lemmas below state. */
module Printer {
  import opened Wrappers
  import opened Strings
  import opened Types
  import Json
  import opened Grammar

  /** A form the printer renders without failing: it holds no literal array and no
      key-values literal at any depth. */
  predicate Printable(f: Form)
    decreases Size(f), 0
  {
    match f
    case CuArray(items) => AllPrintable(items)
    case LiteralArray(_) => false
    case KeyValues(_) => false
    case _ => true
  }

  predicate AllPrintable(fs: seq<Form>)
    decreases SizeAll(fs), 1
  {
    fs == [] || (Printable(fs[0]) && AllPrintable(fs[1..]))
  }

  /** `prStr`. A list prints as its printed elements, joined by `, ` and bracketed; a
      string as a JSON string literal; the reserved atoms as their words; a symbol as its
      name; a property access as its segments joined by `.`; a 32-bit integer as its
      decimal; a number as its decimal text. The two literal kinds are not implemented
      and fail with the source's message. */
  function PrStr(f: Form): (r: Result<string, string>)
    ensures r.Ok? <==> Printable(f)
    ensures r.Ok? && f.CuArray? ==> PrStrAll(f.items).Ok? && r.value == "[" + Join(PrStrAll(f.items).value, ", ") + "]"
    ensures f.Bool? ==> r == Ok(if f.b then "true" else "false")
    ensures f.Undefined? ==> r == Ok("undefined")
    ensures f.Float64? ==> r == Ok(f.text)
    ensures f.CuString? ==> r == Ok(Json.Quote(f.s))
    ensures f.Integer32? ==> r == Ok(ShowInt(f.i))
    ensures f.CuSymbol? ==> r == Ok(f.v)
    ensures f.PropertyAccess? ==> r == Ok(Join(f.segments, "."))
    ensures f.LiteralArray? ==> r == Err("LiteralArray not yet implemented")
    ensures f.KeyValues? ==> r == Err("LiteralObject not yet implemented")
    decreases Size(f), 0
  {
    match f
    case CuArray(items) =>
      var printed := PrStrAll(items);
      if printed.Err? then Err(printed.error) else Ok("[" + Join(printed.value, ", ") + "]")
    case Bool(b) => Ok(if b then "true" else "false")
    case Undefined => Ok("undefined")
    case Float64(text) => Ok(text)
    case CuString(s) => Ok(Json.Quote(s))
    case Integer32(i) => Ok(ShowInt(i))
    case CuSymbol(v) => Ok(v)
    case PropertyAccess(segments) => Ok(Join(segments, "."))
    case KeyValues(_) => Err("LiteralObject not yet implemented")
    case LiteralArray(_) => Err("LiteralArray not yet implemented")
  }

  /** `forms.map(prStr)`: the elements printed in order; the first failure is the
      result. */
  function PrStrAll(fs: seq<Form>): (r: Result<seq<string>, string>)
    ensures r.Ok? <==> AllPrintable(fs)
    ensures r.Ok? ==> |r.value| == |fs|
    decreases SizeAll(fs), 1
  {
    if fs == [] then Ok([])
    else
      var head := PrStr(fs[0]);
      if head.Err? then Err(head.error)
      else
        var rest := PrStrAll(fs[1..]);
        if rest.Err? then Err(rest.error)
        else Ok([head.value] + rest.value)
  }

  /** The elements of a printed list are the printed forms, in order. */
  lemma {:induction false} PrStrAllElements(fs: seq<Form>, k: nat)
    requires AllPrintable(fs) && k < |fs|
    ensures PrStr(fs[k]).Ok? && PrStrAll(fs).value[k] == PrStr(fs[k]).value
  {
    if k > 0 {
      PrStrAllElements(fs[1..], k - 1);
    }
  }

  /** The atoms whose printed text the reader classifies back into the same atom:
      integers, the reserved atoms, strings without control characters other than the
      newline, and names whose text is neither a numeral nor a reserved word nor holds a
      double quote. */
  predicate ReadsBack(f: Form)
  {
    match f
    case Integer32(_) => true
    case Bool(_) => true
    case Undefined => true
    case CuString(s) => forall k :: 0 <= k < |s| ==> !Json.IsControl(s[k]) || s[k] == '\n'
    case CuSymbol(v) => IsPlainName(v)
    case PropertyAccess(segments) =>
      (forall k :: 0 <= k < |segments| ==> '.' !in segments[k] && '"' !in segments[k])
      && !IsFractionNumeral(Join(segments, "."))
    case _ => false
  }

  /** A symbol name the reader does not take for anything else. */
  predicate IsPlainName(v: string)
  {
    v != "" && '"' !in v && '.' !in v && !IsIntegerNumeral(v)
    && v != "true" && v != "false" && v != "undefined"
  }

  /** Reading a printed atom gives the atom back. */
  lemma RoundTrip(f: Form)
    requires ReadsBack(f)
    ensures PrStr(f).Ok? && AtomOf(PrStr(f).value) == Ok(f)
  {
    match f
    case Integer32(i) => IntegerRoundTrip(i);
    case Bool(b) => ReservedRoundTrip(f);
    case Undefined => ReservedRoundTrip(f);
    case CuString(s) => StringRoundTrip(s);
    case CuSymbol(v) => SymbolRoundTrip(v);
    case PropertyAccess(segments) => PropertyAccessRoundTrip(segments);
  }

  /** A 32-bit integer prints as a numeral the reader reads back exactly. */
  lemma IntegerRoundTrip(i: Int32)
    ensures AtomOf(ShowInt(i)) == Ok(Integer32(i))
  {
    var t := ShowInt(i);
    var n: int := i;
    if n < 0 {
      assert Unsigned(t) == t[1..];
      assert t[1..] == ShowNat(-n);
      DecimalValueShowNat(-n);
    } else {
      assert t == ShowNat(n);
      assert t[0] != '-';
      DecimalValueShowNat(n);
    }
    assert IntegerNumeralValue(t) == i;
    NumeralsAreBare(t);
  }

  /** A string without control characters other than the newline prints as a JSON
      literal that the reader unescapes back to the string. */
  lemma StringRoundTrip(s: string)
    requires forall k :: 0 <= k < |s| ==> !Json.IsControl(s[k]) || s[k] == '\n'
    ensures AtomOf(Json.Quote(s)) == Ok(CuString(s))
  {
    var q := Json.Quote(s);
    assert q[0] == '"';
    QuotedBodyOfQuoted(Json.Escape(s));
    UnescapeEscape(s);
  }

  lemma {:induction false} UnescapeEscape(s: string)
    requires forall k :: 0 <= k < |s| ==> !Json.IsControl(s[k]) || s[k] == '\n'
    ensures Unescape(Json.Escape(s)) == s
  {
    if s != [] {
      var c := s[0];
      var rest := Json.Escape(s[1..]);
      UnescapeEscape(s[1..]);
      assert Json.Escape(s) == Json.EscapeChar(c) + rest;
      if c == '"' || c == '\\' || c == '\n' {
        var e := Json.EscapeChar(c) + rest;
        assert e[0] == '\\' && !IsLineTerminator(e[1]) && e[2..] == rest;
      } else {
        assert Json.EscapeChar(c) == [c];
        var e := [c] + rest;
        assert e[1..] == rest;
      }
      assert [c] + s[1..] == s;
    }
  }

  /** A plain name prints as itself and reads back as the symbol. */
  lemma SymbolRoundTrip(v: string)
    requires IsPlainName(v)
    ensures AtomOf(v) == Ok(CuSymbol(v))
  {
    FractionNumeralHasDot(v);
  }

  /** A numeral with a fractional part has a dot. */
  lemma FractionNumeralHasDot(t: string)
    ensures IsFractionNumeral(t) ==> '.' in t
  {
    var u := Unsigned(t);
    if IsFractionNumeral(t) {
      if '.' !in u {
        SplitNoSeparator(u, '.');
      }
      var k :| 0 <= k < |u| && u[k] == '.';
      assert t[|t| - |u| + k] == '.';
    }
  }

  /** Segments free of `.` and `"` print as a dotted name that reads back as the same
      property access, unless the text is a numeral with a fractional part. */
  lemma PropertyAccessRoundTrip(segments: Segments)
    requires forall k :: 0 <= k < |segments| ==> '.' !in segments[k] && '"' !in segments[k]
    requires !IsFractionNumeral(Join(segments, "."))
    ensures AtomOf(Join(segments, ".")) == Ok(PropertyAccess(segments))
  {
    var t := Join(segments, ".");
    JoinHasSeparator(segments, '.');
    JoinAvoids(segments, '.', '"');
    SplitJoin(segments, '.');
    DottedIsNotReserved(t);
    DottedNameIsPropertyAccess(t);
  }

  /** A text with a dot and no double quote that is not a numeral is a property access
      of its `.`-separated segments. */
  lemma DottedNameIsPropertyAccess(t: string)
    requires '"' !in t && '.' in t && !IsFractionNumeral(t)
    requires t != "true" && t != "false" && t != "undefined"
    ensures |Split(t, '.')| >= 2 && AtomOf(t) == Ok(PropertyAccess(Split(t, '.')))
  {
    NumeralsAreBare(t);
    SplitAtLeastTwo(t, '.');
  }

  /** No reserved word has a dot. */
  lemma DottedIsNotReserved(t: string)
    requires '.' in t
    ensures t != "true" && t != "false" && t != "undefined"
  {
    var k :| 0 <= k < |t| && t[k] == '.';
  }

  /** Joining two or more parts puts the separator in the text. */
  lemma JoinHasSeparator(parts: seq<string>, c: char)
    requires |parts| >= 2
    ensures c in Join(parts, [c])
  {
    assert Join(parts, [c]) == parts[0] + [c] + Join(parts[1..], [c]);
    assert Join(parts, [c])[|parts[0]|] == c;
  }

  /** A character other than the separator that no part holds is not in the joined text. */
  lemma {:induction false} JoinAvoids(parts: seq<string>, c: char, d: char)
    requires c != d
    requires forall k :: 0 <= k < |parts| ==> d !in parts[k]
    ensures d !in Join(parts, [c])
  {
    if |parts| >= 2 {
      JoinAvoids(parts[1..], c, d);
      assert Join(parts, [c]) == parts[0] + [c] + Join(parts[1..], [c]);
    }
  }

  /** The reader's reserved words and the printer's words for the reserved atoms agree. */
  lemma ReservedRoundTrip(f: Form)
    requires f.Bool? || f.Undefined?
    ensures PrStr(f) == Ok(if f == Bool(true) then "true" else if f == Bool(false) then "false" else "undefined")
    ensures AtomOf(PrStr(f).value) == Ok(f)
  {
    AtomOfLiterals(PrStr(f).value);
  }
}
