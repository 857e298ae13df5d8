/** The texts shown on the chart: the axis titles built from a variable's name,
    symbol and units, the fitted equation with its unit suffixes, and the
    variable metadata a header edit produces. Strings are sequences of
    characters; an empty string counts as false, as it does for `||` in the
    source. */
module Labels {

  datatype Axis = X | Y

  /** The axis id used as a key and as the fallback symbol. */
  function AxisId(a: Axis): string
  {
    match a
    case X => "x"
    case Y => "y"
  }

  /** The axis id in upper case, the fallback name. */
  function AxisUpper(a: Axis): string
  {
    match a
    case X => "X"
    case Y => "Y"
  }

  /** What the page knows about one variable. */
  datatype VariableMeta = VariableMeta(symbol: string, name: string, units: string)

  /** `s || fallback` on strings. */
  function OrElse(s: string, fallback: string): string
  {
    if s == "" then fallback else s
  }

  // ---------------------------------------------------------------------------
  // Axis titles

  /** " [units]", or nothing when there are no units. */
  function Bracket(units: string): string
  {
    if units == "" then "" else " [" + units + "]"
  }

  /** The axis title: "name (symbol)" or the symbol alone when the name is empty,
      the symbol falling back to the axis id, then " [units]" when units are set. */
  function AxisLabel(v: VariableMeta, a: Axis): string
  {
    var symbol := OrElse(v.symbol, AxisId(a));
    var head := if v.name != "" then v.name + " (" + symbol + ")" else symbol;
    head + Bracket(v.units)
  }

  /** A named variable's title starts with "name (", followed by its symbol or,
      without one, the axis id; an unnamed one starts with that symbol. Units
      come last, in brackets, exactly when they are set. */
  lemma AxisLabelShape(v: VariableMeta, a: Axis)
    ensures var symbol := if v.symbol == "" then AxisId(a) else v.symbol;
      var head := if v.name == "" then symbol else v.name + " (" + symbol + ")";
      AxisLabel(v, a) == head + Bracket(v.units)
      && (v.units == "" ==> AxisLabel(v, a) == head)
      && (v.units != "" ==> |AxisLabel(v, a)| == |head| + |v.units| + 3
                            && AxisLabel(v, a)[|head|..] == " [" + v.units + "]")
      && (v.name != "" ==> AxisLabel(v, a)[..|v.name| + 2] == v.name + " (")
  {
    var symbol := if v.symbol == "" then AxisId(a) else v.symbol;
    var head := if v.name == "" then symbol else v.name + " (" + symbol + ")";
    if v.name != "" {
      assert (v.name + " (" + symbol + ")" + Bracket(v.units))[..|v.name| + 2] == v.name + " (";
    }
  }

  /** An empty symbol reads exactly as the axis id would. */
  lemma AxisLabelSymbolFallback(v: VariableMeta, a: Axis)
    ensures AxisLabel(v.(symbol := ""), a) == AxisLabel(v.(symbol := AxisId(a)), a)
  {
  }

  // ---------------------------------------------------------------------------
  // The equation text

  /** Units of the slope: " (yu/xu)" with both units, " (yu)" with y units only,
      nothing otherwise. */
  function SlopeUnits(xUnits: string, yUnits: string): string
  {
    if xUnits != "" && yUnits != "" then " (" + yUnits + "/" + xUnits + ")"
    else if yUnits != "" then " (" + yUnits + ")"
    else ""
  }

  /** Units of the intercept: " (yu)" iff y has units. */
  function InterceptUnits(yUnits: string): string
  {
    if yUnits != "" then " (" + yUnits + ")" else ""
  }

  /** The slope carries a unit suffix exactly when y has units, and without x
      units it carries the intercept's suffix. */
  lemma SuffixRules(xUnits: string, yUnits: string)
    ensures SlopeUnits(xUnits, yUnits) == "" <==> yUnits == ""
    ensures InterceptUnits(yUnits) == "" <==> yUnits == ""
    ensures xUnits == "" ==> SlopeUnits(xUnits, yUnits) == InterceptUnits(yUnits)
    ensures xUnits != "" && yUnits != "" ==>
      |SlopeUnits(xUnits, yUnits)| == |InterceptUnits(yUnits)| + |xUnits| + 1
    ensures xUnits != "" && yUnits != "" ==> SlopeUnits(xUnits, yUnits) == " (" + yUnits + "/" + xUnits + ")"
    ensures yUnits != "" ==> InterceptUnits(yUnits) == " (" + yUnits + ")"
  {
  }

  /** "ys [yu] = m (units) xs [xu] + c (units)", where `format` stands for the
      four-decimal rendering of a number. */
  function EquationText(x: VariableMeta, y: VariableMeta, slope: real, intercept: real,
                        format: real -> string): string
  {
    OrElse(y.symbol, "y") + Bracket(y.units) + " = "
    + format(slope) + SlopeUnits(x.units, y.units) + " "
    + OrElse(x.symbol, "x") + Bracket(x.units)
    + " + " + format(intercept) + InterceptUnits(y.units)
  }

  /** The equation opens with the y axis title of the unnamed y variable,
      followed by " = ". */
  lemma EquationStartsWithYLabel(x: VariableMeta, y: VariableMeta, slope: real, intercept: real,
                                 format: real -> string)
    ensures var lhs := AxisLabel(y.(name := ""), Y) + " = ";
      |lhs| <= |EquationText(x, y, slope, intercept, format)|
      && EquationText(x, y, slope, intercept, format)[..|lhs|] == lhs
  {
    var lhs := AxisLabel(y.(name := ""), Y) + " = ";
    var rest := format(slope) + SlopeUnits(x.units, y.units) + " "
      + OrElse(x.symbol, "x") + Bracket(x.units)
      + " + " + format(intercept) + InterceptUnits(y.units);
    assert EquationText(x, y, slope, intercept, format) == lhs + rest;
  }

  /** A worked example: symbols t and v, y in m/s, x without units. */
  lemma EquationExample(format: real -> string)
    requires format(2.5) == "2.5000" && format(-1.333333) == "-1.3333"
    ensures EquationText(VariableMeta("t", "Time", ""), VariableMeta("v", "Speed", "m/s"), 2.5, -1.333333, format)
         == "v [m/s] = 2.5000 (m/s) t + -1.3333 (m/s)"
  {
  }

  // ---------------------------------------------------------------------------
  // String.prototype.trim

  /** The characters trim removes: white space and line terminators. */
  predicate IsSpace(c: char)
  {
    c == '\t' || c == '\n' || c == '\U{000B}' || c == '\U{000C}' || c == '\r' || c == ' '
    || c == '\U{00A0}' || c == '\U{1680}' || ('\U{2000}' <= c <= '\U{200A}')
    || c == '\U{2028}' || c == '\U{2029}' || c == '\U{202F}' || c == '\U{205F}'
    || c == '\U{3000}' || c == '\U{FEFF}'
  }

  /** Drops leading white space. */
  function TrimStart(s: string): string
  {
    if s != "" && IsSpace(s[0]) then TrimStart(s[1..]) else s
  }

  /** Drops trailing white space. */
  function TrimEnd(s: string): string
  {
    if s != "" && IsSpace(s[|s| - 1]) then TrimEnd(s[..|s| - 1]) else s
  }

  /** TrimStart yields a suffix of s, everything it drops is white space and
      what remains does not start with any. */
  lemma {:induction false} TrimStartSpec(s: string)
    ensures |TrimStart(s)| <= |s| && TrimStart(s) == s[|s| - |TrimStart(s)|..]
    ensures forall i :: 0 <= i < |s| - |TrimStart(s)| ==> IsSpace(s[i])
    ensures TrimStart(s) == "" || !IsSpace(TrimStart(s)[0])
  {
    if s != "" && IsSpace(s[0]) {
      var t := s[1..];
      TrimStartSpec(t);
      var r := TrimStart(t);
      assert TrimStart(s) == r;
      assert t[|t| - |r|..] == s[|s| - |r|..];
      forall i | 0 <= i < |s| - |r|
        ensures IsSpace(s[i])
      {
        if i > 0 {
          assert s[i] == t[i - 1];
        }
      }
    }
  }

  /** TrimEnd yields a prefix of s, everything it drops is white space and
      what remains does not end with any. */
  lemma {:induction false} TrimEndSpec(s: string)
    ensures |TrimEnd(s)| <= |s| && TrimEnd(s) == s[..|TrimEnd(s)|]
    ensures forall i :: |TrimEnd(s)| <= i < |s| ==> IsSpace(s[i])
    ensures TrimEnd(s) == "" || !IsSpace(TrimEnd(s)[|TrimEnd(s)| - 1])
  {
    if s != "" && IsSpace(s[|s| - 1]) {
      var t := s[..|s| - 1];
      TrimEndSpec(t);
      var r := TrimEnd(t);
      assert TrimEnd(s) == r;
      assert t[..|r|] == s[..|r|];
      forall i | |r| <= i < |s|
        ensures IsSpace(s[i])
      {
        if i < |t| {
          assert s[i] == t[i];
        }
      }
    }
  }

  /** Both ends trimmed. */
  function Trim(s: string): string
  {
    TrimEnd(TrimStart(s))
  }

  /** Trim leaves no white space at either end. */
  lemma TrimEnds(s: string)
    ensures Trim(s) == "" || (!IsSpace(Trim(s)[0]) && !IsSpace(Trim(s)[|Trim(s)| - 1]))
  {
    var t := TrimStart(s);
    var r := TrimEnd(t);
    TrimStartSpec(s);
    TrimEndSpec(t);
    if r != "" {
      assert r[0] == t[0];
    }
  }

  /** Every character of the trimmed string comes from s. */
  lemma TrimChars(s: string)
    ensures forall c :: c in Trim(s) ==> c in s
  {
    var t := TrimStart(s);
    var r := TrimEnd(t);
    TrimStartSpec(s);
    TrimEndSpec(t);
    var d := |s| - |t|;
    forall c | c in r ensures c in s {
      var i :| 0 <= i < |r| && r[i] == c;
      assert s[d + i] == c;
    }
  }

  /** Trim yields the empty string exactly when s is all white space. */
  lemma TrimEmptyIff(s: string)
    ensures Trim(s) == "" <==> forall i :: 0 <= i < |s| ==> IsSpace(s[i])
  {
    var t := TrimStart(s);
    TrimStartSpec(s);
    TrimEndSpec(t);
  }

  /** A string with no white space at its ends is left unchanged. */
  lemma TrimFixed(s: string)
    requires s == "" || (!IsSpace(s[0]) && !IsSpace(s[|s| - 1]))
    ensures Trim(s) == s
  {
  }

  /** Trimming twice is trimming once. */
  lemma TrimIdempotent(s: string)
    ensures Trim(Trim(s)) == Trim(s)
  {
    TrimEnds(s);
    TrimFixed(Trim(s));
  }

  // ---------------------------------------------------------------------------
  // The header form

  /** The three text fields of the header form, as typed. */
  datatype HeaderForm = HeaderForm(fullName: string, units: string, symbol: string)

  /** The form as it opens for a variable: the name and units as they are, the
      symbol falling back to the axis id. */
  function ModalFields(v: VariableMeta, a: Axis): HeaderForm
  {
    HeaderForm(v.name, v.units, OrElse(v.symbol, AxisId(a)))
  }

  /** The variable a submitted form produces: trimmed fields, a blank name
      becoming the upper-case axis id and a blank symbol the axis id. */
  function HeaderMeta(f: HeaderForm, a: Axis): (v: VariableMeta)
    ensures v.name != "" && v.symbol != ""
    ensures v.units == Trim(f.units)
    ensures Trim(f.fullName) != "" ==> v.name == Trim(f.fullName)
    ensures Trim(f.fullName) == "" ==> v.name == AxisUpper(a)
    ensures Trim(f.symbol) != "" ==> v.symbol == Trim(f.symbol)
    ensures Trim(f.symbol) == "" ==> v.symbol == AxisId(a)
  {
    VariableMeta(OrElse(Trim(f.symbol), AxisId(a)), OrElse(Trim(f.fullName), AxisUpper(a)), Trim(f.units))
  }

  /** The axis ids used as fallbacks have no white space to trim. */
  lemma TrimAxisNames(a: Axis)
    ensures Trim(AxisId(a)) == AxisId(a) && Trim(AxisUpper(a)) == AxisUpper(a)
  {
    var id, upper := AxisId(a), AxisUpper(a);
    assert |id| == 1 && !IsSpace(id[0]);
    assert |upper| == 1 && !IsSpace(upper[0]);
    TrimFixed(id);
    TrimFixed(upper);
  }

  /** Re-trimming a field that was trimmed, or replaced by a trimmed fallback,
      changes nothing. */
  lemma RetrimField(s: string, fallback: string)
    requires Trim(fallback) == fallback
    ensures OrElse(Trim(OrElse(Trim(s), fallback)), fallback) == OrElse(Trim(s), fallback)
  {
    if Trim(s) != "" {
      TrimIdempotent(s);
    }
  }

  /** Opening the form and submitting it unchanged gives back what the previous
      submission stored. */
  lemma ResubmitIsIdentity(f: HeaderForm, a: Axis)
    ensures HeaderMeta(ModalFields(HeaderMeta(f, a), a), a) == HeaderMeta(f, a)
  {
    var v := HeaderMeta(f, a);
    assert ModalFields(v, a) == HeaderForm(v.name, v.units, v.symbol);
    TrimIdempotent(f.units);
    TrimAxisNames(a);
    RetrimField(f.fullName, AxisUpper(a));
    RetrimField(f.symbol, AxisId(a));
  }

  /** After a header edit the axis title is always "name (symbol)" followed by
      the bracketed units, with a name and a symbol that are not empty. */
  lemma TitleAfterHeaderEdit(f: HeaderForm, a: Axis)
    ensures var v := HeaderMeta(f, a);
      v.name != "" && v.symbol != ""
      && AxisLabel(v, a) == v.name + " (" + v.symbol + ")" + Bracket(Trim(f.units))
  {
  }
}
