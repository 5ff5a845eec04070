/**
 * The parts of the main window that touch the model: the text lines "Type k --- ω ζ …" that
 * modes and schemes print and that `addType(QString)` reads back into the mode panel, the
 * `addType()` button that turns the panel into a new mode, the removal of the selected modes,
 * the scheme check, the input guard and sample choice of a fit, and the axis ranges that
 * scatterControlPoint gives the control-point plot. Numbers are printed and
 * read through a `NumberFormat` whose functions stand for QString::number and
 * QString::toDouble, so a line is modelled at the level of its space-separated tokens.
 */
module MainWindowModel {
  import opened RealMath
  import opened DampingModes
  import opened DampingCurves
  import opened Family
  import opened Wrappers
  import opened OptimizerTuning
  import opened Objective
  import opened FitSettingModel

  // ---------------------------------------------------------------- tokens

  /** QString::split(" "): the pieces between single spaces, empty pieces kept. */
  function Split(s: string): (fields: seq<string>)
    ensures |fields| >= 1
  {
    if |s| == 0 then [""]
    else
      var rest := Split(s[1..]);
      if s[0] == ' ' then [""] + rest else [[s[0]] + rest[0]] + rest[1..]
  }

  /** The fields joined with single spaces, as the `+ " " +` chains of the printers build them. */
  function Join(fields: seq<string>): string
    requires |fields| >= 1
  {
    if |fields| == 1 then fields[0] else fields[0] + " " + Join(fields[1..])
  }

  predicate Spaceless(fields: seq<string>) {
    forall k :: 0 <= k < |fields| ==> ' ' !in fields[k]
  }

  /** A piece without a space glues onto the first field of what follows it. */
  lemma {:induction false} SplitGlue(w: string, t: string)
    requires ' ' !in w
    ensures Split(w + t) == [w + Split(t)[0]] + Split(t)[1..]
    decreases |w|
  {
    if |w| > 0 {
      assert (w + t)[1..] == w[1..] + t;
      assert (w + t)[0] == w[0];
      SplitGlue(w[1..], t);
      assert [w[0]] + (w[1..] + Split(t)[0]) == w + Split(t)[0];
    } else {
      assert w + t == t;
      assert Split(t) == [Split(t)[0]] + Split(t)[1..];
      assert w + Split(t)[0] == Split(t)[0];
    }
  }

  /** Splitting a joined line gives back its fields, whenever no field holds a space. */
  lemma {:induction false} SplitJoin(fields: seq<string>)
    requires |fields| >= 1 && Spaceless(fields)
    ensures Split(Join(fields)) == fields
    decreases |fields|
  {
    if |fields| == 1 {
      SplitGlue(fields[0], "");
      assert fields[0] + "" == fields[0];
    } else {
      var rest := Join(fields[1..]);
      assert Spaceless(fields[1..]);
      SplitJoin(fields[1..]);
      assert fields[0] + " " + rest == fields[0] + (" " + rest);
      SplitGlue(fields[0], " " + rest);
      assert (" " + rest)[1..] == rest;
      assert Split(" " + rest) == [""] + fields[1..];
      assert fields[0] + "" == fields[0];
      assert fields == [fields[0]] + fields[1..];
    }
  }

  // ---------------------------------------------------------------- printing

  /**
   * QString::number in its default form, `number(x, 'e', 8)`, and QString::toDouble. Every
   * printed number is one token: it holds no space.
   */
  datatype NumberFormat = NumberFormat(number: real -> string, scientific: real -> string, toDouble: string -> real)

  ghost predicate Tokenizing(fmt: NumberFormat) {
    && (forall x :: ' ' !in fmt.number(x))
    && (forall x :: ' ' !in fmt.scientific(x))
  }

  /** The type digit after "Type". */
  function Digit(t: ModeType): (d: string)
    ensures d in {"0", "1", "2", "3", "4"}
  {
    match t
    case T0 => "0"
    case T1 => "1"
    case T2 => "2"
    case T3 => "3"
    case T4 => "4"
  }

  /** The tokens of a mode's `str()`: the header, ωp, ζp, then the parameters of its type. */
  function ModeFields(fmt: NumberFormat, t: ModeType, omegaP: real, zetaP: real, p: seq<real>): (f: seq<string>)
    requires |p| >= ParamCount(t)
    ensures |f| == 5 + ParamCount(t)
  {
    ["Type", Digit(t), "---", fmt.number(omegaP), fmt.number(zetaP)] + ParamFields(fmt, t, p)
  }

  /** The parameters a mode prints: p4 of type 4 and p0 of type 3 in scientific notation. */
  function ParamFields(fmt: NumberFormat, t: ModeType, p: seq<real>): (f: seq<string>)
    requires |p| >= ParamCount(t)
    ensures |f| == ParamCount(t)
  {
    var n := fmt.number;
    match t
    case T0 => []
    case T1 => [n(p[0])]
    case T2 => [n(p[0]), n(p[1])]
    case T3 => [fmt.scientific(p[0])]
    case T4 => [n(p[0]), n(p[1]), n(p[2]), n(p[3]), fmt.scientific(p[4])]
  }

  /** DampingMode::str(). */
  function ModeText(fmt: NumberFormat, m: DampingMode): string
    reads m
    requires |m.p| >= ParamCount(m.kind)
  {
    Join(ModeFields(fmt, m.kind, m.omegaP, m.zetaP, m.p))
  }

  /** The digit each scheme's getTypeList prints: the mode type the scheme fits. */
  function SchemeType(f: Scheme): (t: ModeType)
    ensures ParamCount(t) == NumPara(f) - 2
  {
    match f
    case ZeroDayScheme => T0
    case UnicornScheme => T1
    case TwoCitiesScheme => T2
    case ThreeWiseMenScheme => T3
  }

  /** One line of getTypeList: the header and the NumPara(f) entries of a result row. */
  function SchemeFields(fmt: NumberFormat, f: Scheme, row: seq<real>): (r: seq<string>)
    requires |row| >= NumPara(f)
    ensures |r| >= 1
  {
    ["Type", Digit(SchemeType(f)), "---"] + seq(NumPara(f), k requires 0 <= k < NumPara(f) => fmt.number(row[k]))
  }

  // ---------------------------------------------------------------- reading

  /** The inputs addType() reads: the type selector, ω, ζ and the five parameter boxes. */
  datatype Panel = Panel(typeIndex: int, omega: real, zeta: real, pa: real, pb: real, pc: real, pd: real, pe: real)

  /**
   * addType(QString) up to its call of addType(): the panel after the setter calls, or None
   * when the line is ignored.
   */
  function ParseLine(fmt: NumberFormat, line: string, panel: Panel): (r: Option<Panel>)
    ensures r.Some? ==> var fields := Split(line);
      && |fields| >= 5 && 0 <= r.value.typeIndex <= 4
      && r.value.omega == fmt.toDouble(fields[3]) && r.value.zeta == fmt.toDouble(fields[4])
    ensures r.Some? && r.value.typeIndex != 4 ==> r.value.pc == panel.pc && r.value.pd == panel.pd
    ensures r.Some? && r.value.typeIndex == 0 ==> r.value.(typeIndex := panel.typeIndex, omega := panel.omega, zeta := panel.zeta) == panel
  {
    var fields := Split(line);
    var v := fmt.toDouble;
    if |fields| < 2 then None
    else if fields[1] == "0" then
      if |fields| < 5 then None
      else Some(panel.(typeIndex := 0, omega := v(fields[3]), zeta := v(fields[4])))
    else if fields[1] == "1" then
      if |fields| < 6 then None
      else Some(panel.(typeIndex := 1, omega := v(fields[3]), zeta := v(fields[4]), pa := v(fields[5])))
    else if fields[1] == "2" then
      if |fields| < 7 then None
      else Some(panel.(typeIndex := 2, omega := v(fields[3]), zeta := v(fields[4]), pa := v(fields[5]), pb := v(fields[6])))
    else if fields[1] == "3" then
      if |fields| < 6 then None
      else Some(panel.(typeIndex := 3, omega := v(fields[3]), zeta := v(fields[4]), pe := v(fields[5])))
    else if fields[1] == "4" then
      if |fields| < 10 then None
      else Some(panel.(typeIndex := 4, omega := v(fields[3]), zeta := v(fields[4]), pa := v(fields[5]),
                       pb := v(fields[6]), pc := v(fields[7]), pd := v(fields[8]), pe := v(fields[9])))
    else None
  }

  /** The panel after one line is read, and whether addType() then adds a mode. */
  function LineStep(fmt: NumberFormat, line: string, panel: Panel): (r: (Panel, bool))
    ensures ParseLine(fmt, line, panel).None? ==> r == (panel, false)
    ensures ParseLine(fmt, line, panel).Some? ==>
      r.0 == ParseLine(fmt, line, panel).value && (r.1 <==> PanelMode(r.0).Some?)
  {
    match ParseLine(fmt, line, panel)
    case None => (panel, false)
    case Some(q) => (q, PanelMode(q).Some?)
  }

  /** The panel after the lines are read one after another. */
  function PanelAfter(fmt: NumberFormat, lines: seq<string>, panel: Panel): (r: Panel)
    ensures (r.typeIndex == panel.typeIndex && r.omega == panel.omega && r.zeta == panel.zeta)
      || exists k :: 0 <= k < |lines| && |Split(lines[k])| >= 5 && 0 <= r.typeIndex <= 4
           && r.omega == fmt.toDouble(Split(lines[k])[3]) && r.zeta == fmt.toDouble(Split(lines[k])[4])
  {
    if |lines| == 0 then panel else LineStep(fmt, lines[|lines| - 1], PanelAfter(fmt, lines[..|lines| - 1], panel)).0
  }

  /** How many of the lines add a mode when read one after another. */
  function AddedBy(fmt: NumberFormat, lines: seq<string>, panel: Panel): (n: nat)
    ensures n <= |lines|
  {
    if |lines| == 0 then 0
    else
      var step := LineStep(fmt, lines[|lines| - 1], PanelAfter(fmt, lines[..|lines| - 1], panel));
      AddedBy(fmt, lines[..|lines| - 1], panel) + if step.1 then 1 else 0
  }

  /** The type, ωp, ζp and p of a mode to construct. */
  datatype ModeSpec = ModeSpec(kind: ModeType, omegaP: real, zetaP: real, p: seq<real>)

  /** What addType() constructs from the panel: nothing when |ζ| < 1e-4 or no type is selected. */
  function PanelMode(panel: Panel): (r: Option<ModeSpec>)
    ensures r.Some? <==> Abs(panel.zeta) >= 0.0001 && 0 <= panel.typeIndex <= 4
    ensures r.Some? ==>
      && TypeIndex(r.value.kind) == panel.typeIndex && |r.value.p| == ParamCount(r.value.kind)
      && r.value.omegaP == panel.omega && r.value.zetaP == panel.zeta
  {
    if Abs(panel.zeta) < 0.0001 then None
    else match panel.typeIndex
      case 0 => Some(ModeSpec(T0, panel.omega, panel.zeta, []))
      case 1 => Some(ModeSpec(T1, panel.omega, panel.zeta, [panel.pa]))
      case 2 => Some(ModeSpec(T2, panel.omega, panel.zeta, [panel.pa, panel.pb]))
      case 3 => Some(ModeSpec(T3, panel.omega, panel.zeta, [panel.pe]))
      case 4 => Some(ModeSpec(T4, panel.omega, panel.zeta, [panel.pa, panel.pb, panel.pc, panel.pd, panel.pe]))
      case _ => None
  }

  /** The values read back from the fields after the fifth. */
  function ReadParams(fmt: NumberFormat, fields: seq<string>): (p: seq<real>)
    ensures |p| == if |fields| < 5 then 0 else |fields| - 5
  {
    if |fields| < 5 then [] else seq(|fields| - 5, k requires 0 <= k < |fields| - 5 => fmt.toDouble(fields[5 + k]))
  }

  /** The value of the type selector for each type. */
  function TypeIndex(t: ModeType): (k: int)
    ensures 0 <= k <= 4
  {
    match t
    case T0 => 0
    case T1 => 1
    case T2 => 2
    case T3 => 3
    case T4 => 4
  }

  /**
   * A line is accepted exactly when field 1 is a type digit and the line has at least five
   * fields plus the parameters of that type.
   */
  lemma ParseLineRule(fmt: NumberFormat, line: string, panel: Panel)
    ensures var fields := Split(line);
      ParseLine(fmt, line, panel).Some? <==>
        exists t: ModeType :: |fields| >= 2 && fields[1] == Digit(t) && |fields| >= 5 + ParamCount(t)
  {
    var fields := Split(line);
    if |fields| >= 2 {
      if fields[1] == "0" { assert fields[1] == Digit(T0); }
      else if fields[1] == "1" { assert fields[1] == Digit(T1); }
      else if fields[1] == "2" { assert fields[1] == Digit(T2); }
      else if fields[1] == "3" { assert fields[1] == Digit(T3); }
      else if fields[1] == "4" { assert fields[1] == Digit(T4); }
    }
  }

  /**
   * An accepted line of type t selects t, sets ω from field 3 and ζ from field 4, and gives
   * the parameter boxes of t fields 5, 6, … in order, so that addType() builds a mode of type
   * t with exactly those values, unless ζ is below 1e-4.
   */
  lemma ParseLineFields(fmt: NumberFormat, line: string, panel: Panel, t: ModeType)
    requires var fields := Split(line);
      |fields| >= 2 && fields[1] == Digit(t) && |fields| >= 5 + ParamCount(t)
    ensures var fields := Split(line);
      var q := ParseLine(fmt, line, panel);
      && q.Some?
      && q.value.typeIndex == TypeIndex(t)
      && q.value.omega == fmt.toDouble(fields[3]) && q.value.zeta == fmt.toDouble(fields[4])
      && PanelMode(q.value) ==
           if Abs(q.value.zeta) < 0.0001 then None
           else Some(ModeSpec(t, q.value.omega, q.value.zeta, ReadParams(fmt, fields[..5 + ParamCount(t)])))
  {
    var fields := Split(line);
    var r := ReadParams(fmt, fields[..5 + ParamCount(t)]);
    var v := fmt.toDouble;
    match t
    case T0 =>
      assert r == [];
    case T1 =>
      assert r == [v(fields[5])];
    case T2 =>
      assert r == [v(fields[5]), v(fields[6])];
    case T3 =>
      assert r == [v(fields[5])];
    case T4 =>
      assert r == [v(fields[5]), v(fields[6]), v(fields[7]), v(fields[8]), v(fields[9])];
  }

  /** No space in any field of a mode's line. */
  lemma ModeFieldsSpaceless(fmt: NumberFormat, t: ModeType, omegaP: real, zetaP: real, p: seq<real>)
    requires Tokenizing(fmt) && |p| >= ParamCount(t)
    ensures Spaceless(ModeFields(fmt, t, omegaP, zetaP, p))
  {
    var head := ["Type", Digit(t), "---", fmt.number(omegaP), fmt.number(zetaP)];
    var tail := ParamFields(fmt, t, p);
    assert ' ' !in head[1];
    assert Spaceless(head);
    assert Spaceless(tail) by {
      // the numbers as locals, so that Tokenizing applies to them
      var a, b, c, d := if |p| > 0 then p[0] else 0.0, if |p| > 1 then p[1] else 0.0,
                        if |p| > 2 then p[2] else 0.0, if |p| > 3 then p[3] else 0.0;
      var z := if |p| > 4 then p[4] else 0.0;
      assert ' ' !in fmt.number(a) && ' ' !in fmt.number(b) && ' ' !in fmt.number(c) && ' ' !in fmt.number(d);
      assert ' ' !in fmt.scientific(a) && ' ' !in fmt.scientific(z);
    }
    var fields := head + tail;
    forall k | 0 <= k < |fields|
      ensures ' ' !in fields[k]
    {
      if k >= 5 {
        assert fields[k] == tail[k - 5];
      }
    }
  }

  /**
   * The round trip of `str()`: reading a mode's line back selects the mode's type and gives
   * the panel the mode's numbers as printed and re-read, so addType() rebuilds the mode unless
   * the re-read ζ is below 1e-4.
   */
  lemma ModeLineRoundTrip(fmt: NumberFormat, t: ModeType, omegaP: real, zetaP: real, p: seq<real>, panel: Panel)
    requires Tokenizing(fmt) && |p| >= ParamCount(t)
    ensures var fields := ModeFields(fmt, t, omegaP, zetaP, p);
      var q := ParseLine(fmt, Join(fields), panel);
      var z := fmt.toDouble(fmt.number(zetaP));
      && |fields| == 5 + ParamCount(t)
      && q.Some?
      && PanelMode(q.value) ==
           if Abs(z) < 0.0001 then None
           else Some(ModeSpec(t, fmt.toDouble(fmt.number(omegaP)), z, ReadParams(fmt, fields)))
  {
    var fields := ModeFields(fmt, t, omegaP, zetaP, p);
    ModeFieldsSpaceless(fmt, t, omegaP, zetaP, p);
    SplitJoin(fields);
    assert fields[1] == Digit(t);
    ParseLineFields(fmt, Join(fields), panel, t);
    assert fields[..5 + ParamCount(t)] == fields;
  }

  /**
   * The round trip of getTypeList: every line a scheme prints for a result row is read back
   * as a mode of the type that scheme fits, with the row's entries as printed and re-read.
   */
  lemma SchemeLineRoundTrip(fmt: NumberFormat, f: Scheme, row: seq<real>, panel: Panel)
    requires Tokenizing(fmt) && |row| >= NumPara(f)
    ensures var fields := SchemeFields(fmt, f, row);
      var q := ParseLine(fmt, Join(fields), panel);
      var z := fmt.toDouble(fmt.number(row[1]));
      && |fields| == 5 + ParamCount(SchemeType(f))
      && q.Some?
      && PanelMode(q.value) ==
           if Abs(z) < 0.0001 then None
           else Some(ModeSpec(SchemeType(f), fmt.toDouble(fmt.number(row[0])), z, ReadParams(fmt, fields)))
  {
    var fields := SchemeFields(fmt, f, row);
    forall k | 0 <= k < |fields|
      ensures ' ' !in fields[k]
    {
      if k == 0 {
        assert fields[k] == "Type";
      } else if k == 1 {
        assert fields[k] == Digit(SchemeType(f));
      } else if k == 2 {
        assert fields[k] == "---";
      } else {
        var x := row[k - 3];
        assert fields[k] == fmt.number(x);
      }
    }
    SplitJoin(fields);
    var t := SchemeType(f);
    assert fields[1] == Digit(t);
    ParseLineFields(fmt, Join(fields), panel, t);
    assert fields[..5 + ParamCount(t)] == fields;
    assert fields[3] == fmt.number(row[0]) && fields[4] == fmt.number(row[1]);
  }

  // ---------------------------------------------------------------- removal

  /** s without the entries at the indices in S, in order. */
  function Without<T>(s: seq<T>, S: set<int>): (r: seq<T>)
    ensures |r| <= |s|
  {
    if |s| == 0 then []
    else Without(s[..|s| - 1], S) + if |s| - 1 in S then [] else [s[|s| - 1]]
  }

  /** Membership in the result: an entry survives exactly when some index outside S holds it. */
  lemma {:induction false} WithoutMembers<T>(s: seq<T>, S: set<int>, x: T)
    ensures x in Without(s, S) <==> exists k :: 0 <= k < |s| && k !in S && s[k] == x
    decreases |s|
  {
    if |s| > 0 {
      var t := s[..|s| - 1];
      WithoutMembers(t, S, x);
      if exists k :: 0 <= k < |t| && k !in S && t[k] == x {
        var k :| 0 <= k < |t| && k !in S && t[k] == x;
        assert s[k] == x;
      }
      if exists k :: 0 <= k < |s| && k !in S && s[k] == x {
        var k :| 0 <= k < |s| && k !in S && s[k] == x;
        if k < |t| { assert t[k] == x; }
      }
    }
  }

  /** No index of S falls inside s: nothing is removed. */
  lemma {:induction false} WithoutNone<T>(s: seq<T>, S: set<int>)
    requires forall x :: x in S ==> x < 0 || x >= |s|
    ensures Without(s, S) == s
    decreases |s|
  {
    if |s| > 0 {
      WithoutNone(s[..|s| - 1], S);
      assert s == s[..|s| - 1] + [s[|s| - 1]];
    }
  }

  /**
   * Removing row r, below every index already removed, is removeMode(r) on what is left: the
   * rows below r are all still in place.
   */
  lemma {:induction false} WithoutOneMore<T>(s: seq<T>, S: set<int>, r: nat)
    requires r < |s| && forall x :: x in S ==> x > r
    ensures |Without(s, S)| > r
    ensures Without(s, S + {r}) == RemoveTag(Without(s, S), r)
    decreases |s|
  {
    var t := s[..|s| - 1];
    if r == |s| - 1 {
      WithoutNone(s, S);
      WithoutNone(t, S + {r});
      assert Without(s, S + {r}) == t;
    } else {
      WithoutOneMore(t, S, r);
      var tail := if |s| - 1 in S then [] else [s[|s| - 1]];
      assert |s| - 1 in S + {r} <==> |s| - 1 in S;
      assert Without(s, S + {r}) == Without(t, S + {r}) + tail;
      assert Without(s, S) == Without(t, S) + tail;
      RemoveTagAppend(Without(t, S), tail, r);
    }
  }

  /** Removing an entry of the front part leaves the back part in place. */
  lemma RemoveTagAppend<T>(a: seq<T>, b: seq<T>, r: nat)
    requires r < |a|
    ensures RemoveTag(a + b, r) == RemoveTag(a, r) + b
  {
    assert (a + b)[..r] == a[..r];
    assert (a + b)[r + 1..] == a[r + 1..] + b;
  }

  /** std::sort of the selected rows. */
  function SortRows(rows: seq<nat>): (r: seq<nat>)
    ensures |r| == |rows| && multiset(r) == multiset(rows)
    ensures forall i, j :: 0 <= i < j < |r| ==> r[i] <= r[j]
  {
    if |rows| == 0 then []
    else
      assert rows == [rows[0]] + rows[1..];
      InsertRow(rows[0], SortRows(rows[1..]))
  }

  function InsertRow(x: nat, s: seq<nat>): (r: seq<nat>)
    requires forall i, j :: 0 <= i < j < |s| ==> s[i] <= s[j]
    ensures |r| == |s| + 1 && multiset(r) == multiset(s) + multiset{x}
    ensures r[0] == x || (|s| > 0 && r[0] == s[0])
    ensures forall i, j :: 0 <= i < j < |r| ==> r[i] <= r[j]
  {
    if |s| == 0 || x <= s[0] then [x] + s
    else
      var t := InsertRow(x, s[1..]);
      assert s == [s[0]] + s[1..];
      assert multiset(s) == multiset{s[0]} + multiset(s[1..]);
      var r := [s[0]] + t;
      assert multiset(r) == multiset{s[0]} + multiset(t);
      assert s[0] <= t[0];
      r
  }

  // ---------------------------------------------------------------- the fit gate

  /** The scheme names of the scheme selector. */
  function SchemeName(f: Scheme): string {
    match f
    case ZeroDayScheme => "Zero Day"
    case UnicornScheme => "Unicorn"
    case TwoCitiesScheme => "Two Cities"
    case ThreeWiseMenScheme => "Three Wise Men"
  }

  /** The scheme performFittingTask creates for the selected name. */
  function SchemeOfName(name: string): (r: Option<Scheme>)
    ensures r.Some? ==> SchemeName(r.value) == name
    ensures forall f :: SchemeName(f) == name ==> r == Some(f)
  {
    if name == "Zero Day" then Some(ZeroDayScheme)
    else if name == "Unicorn" then Some(UnicornScheme)
    else if name == "Two Cities" then Some(TwoCitiesScheme)
    else if name == "Three Wise Men" then Some(ThreeWiseMenScheme)
    else None
  }

  /** validateScheme: a positive lower plot bound, or a scheme other than the three listed. */
  function ValidateScheme(minX: real, name: string): (r: bool)
    ensures minX > 0.0 ==> r
    ensures !r ==> SchemeOfName(name).Some? && SchemeOfName(name) != Some(TwoCitiesScheme)
  {
    if minX > 0.0 then true
    else if name == "Zero Day" then false
    else if name == "Unicorn" then false
    else if name == "Three Wise Men" then false
    else true
  }

  /**
   * Of the four schemes only Two Cities passes the check with a lower bound that is not
   * positive; every other name passes.
   */
  lemma ValidateSchemeRule(minX: real, name: string)
    ensures ValidateScheme(minX, name) <==>
      minX > 0.0 || SchemeOfName(name).None? || SchemeOfName(name) == Some(TwoCitiesScheme)
  {
  }

  /** The fit is refused when the reference is empty or its first frequency is not positive. */
  predicate FitRefused(reference: seq<Sample>) {
    |reference| == 0 || reference[0].0 <= 0.0
  }

  /**
   * getSampling sorts the reference by frequency, so the guard on the first row decides all of
   * them: a reference that passes has only positive frequencies, and one that fails has a
   * frequency that is not positive or no rows.
   */
  lemma FitGuardRule(reference: seq<Sample>)
    requires SortedByFrequency(reference)
    ensures !FitRefused(reference) <==> |reference| > 0 && forall i :: 0 <= i < |reference| ==> reference[i].0 > 0.0
  {
    if |reference| > 0 && reference[0].0 > 0.0 {
      forall i | 0 <= i < |reference|
        ensures reference[i].0 > 0.0
      {
        if i > 0 { assert reference[0].0 <= reference[i].0; }
      }
    }
  }

  /** The frequency column of a reference, reference.col(0). */
  function Frequencies(reference: seq<Sample>): (w: seq<real>)
    ensures |w| == |reference| && forall i :: 0 <= i < |reference| ==> w[i] == reference[i].0
  {
    seq(|reference|, i requires 0 <= i < |reference| => reference[i].0)
  }

  /**
   * On a reference sorted by frequency, as getSampling hands it over, the smallest frequency
   * is the first row's and the largest the last row's.
   */
  lemma SortedFrequencyEnds(reference: seq<Sample>)
    requires |reference| > 0 && SortedByFrequency(reference)
    ensures MinOf(Frequencies(reference)) == reference[0].0
    ensures MaxOf(Frequencies(reference)) == reference[|reference| - 1].0
  {
    var w := Frequencies(reference);
    var i :| 0 <= i < |w| && w[i] == MinOf(w);
    var k :| 0 <= k < |w| && w[k] == MaxOf(w);
    assert w[0] <= w[i] && w[k] <= w[|w| - 1];
  }

  /**
   * The samples performFittingTask fits: a single-row reference as it is, otherwise `count`
   * frequencies logspace(log10 min, log10 max) over the reference's frequency range with the
   * interpolated damping ratios (interp1 is a library call, its result a parameter).
   */
  function FitSamples(e: Elementary, reference: seq<Sample>, count: nat, interpolated: seq<real>): (s: seq<Sample>)
    requires |reference| > 0 && count != 1 && |interpolated| == count
    ensures |reference| == 1 ==> s == reference
    ensures |reference| != 1 ==> |s| == count && forall i :: 0 <= i < count ==>
      s[i] == (LogGrid(e, MinOf(Frequencies(reference)), MaxOf(Frequencies(reference)), count)[i], interpolated[i])
  {
    if |reference| == 1 then reference
    else
      var w := LogGrid(e, MinOf(Frequencies(reference)), MaxOf(Frequencies(reference)), count);
      seq(count, i requires 0 <= i < count => (w[i], interpolated[i]))
  }

  /** Every frequency a fit starts from is positive once the guard has let the reference through. */
  lemma FitSamplesPositive(e: Elementary, reference: seq<Sample>, count: nat, interpolated: seq<real>)
    requires Sound(e) && SortedByFrequency(reference) && !FitRefused(reference)
    requires count != 1 && |interpolated| == count
    ensures forall i :: 0 <= i < |FitSamples(e, reference, count, interpolated)| ==>
      FitSamples(e, reference, count, interpolated)[i].0 > 0.0
  {
    FitGuardRule(reference);
    if |reference| != 1 && count >= 2 {
      LogGridShape(e, MinOf(Frequencies(reference)), MaxOf(Frequencies(reference)), count);
    }
  }

  /**
   * The OptimizerSetting performFittingTask builds, as written: the member initialisers with
   * the dialog's step size, tolerance, weight and iteration limit copied in. The dialog's max
   * order and batch size are never read.
   */
  function FitTaskSetting(dialog: OptimizerSetting): (s: OptimizerSetting)
    ensures s.stepSize == dialog.stepSize && s.tolerance == dialog.tolerance
    ensures s.weight == dialog.weight && s.maxIter == dialog.maxIter
    ensures s.maxOrder == 5 && s.batchSize == 32
  {
    DefaultSetting().(stepSize := dialog.stepSize, tolerance := dialog.tolerance,
                      weight := dialog.weight, maxIter := dialog.maxIter)
  }

  /** A max order of 3, which the dialog accepts, reaches the fit as 5. */
  lemma MaxOrderIgnored()
    ensures var dialog := DefaultSetting().(maxOrder := 3);
      Accepted(dialog) && FitTaskSetting(dialog).maxOrder != dialog.maxOrder
  {
  }

  /** The setting the fit is evidently meant to use: every value the dialog holds. */
  function FitTaskSettingCorrected(dialog: OptimizerSetting): (s: OptimizerSetting)
    ensures Accepted(dialog) ==> Accepted(s)
    ensures s.maxOrder == dialog.maxOrder && s.batchSize == dialog.batchSize
    ensures FitTaskSetting(dialog) == s.(maxOrder := 5, batchSize := 32)
  {
    dialog
  }

  /**
   * performFittingTask's call of run_optimizer with the corrected setting: the objective's
   * weight and max order are the dialog's, and every knob the optimizer takes comes from it.
   */
  method RunFit(dialog: FitSettingDialog, optimizer: Optimizer, f: ObjectiveFunction,
                draws: seq<real>, optimised: seq<real>)
    returns (start: seq<real>, result: seq<seq<real>>)
    requires f.Valid() && |draws| == NumPara(f.scheme) * f.numModes && |optimised| == |draws|
    modifies optimizer, f`weight, f`maxOrder
    ensures f.Valid() && f.weight == dialog.setting.weight && f.maxOrder == dialog.setting.maxOrder
    ensures optimizer.stepSize == if HonoursStepSize(optimizer.kind) then dialog.setting.stepSize else old(optimizer.stepSize)
    ensures optimizer.tolerance == if HonoursTolerance(optimizer.kind) then dialog.setting.tolerance else old(optimizer.tolerance)
    ensures optimizer.batchSize == if HonoursBatchSize(optimizer.kind) then dialog.setting.batchSize else old(optimizer.batchSize)
    ensures result == DecodeResult(f.e, f.scheme, f.BoundsOf(), optimised, f.numModes)
  {
    start, result := RunOptimizer(FitTaskSettingCorrected(dialog.setting), optimizer, f, draws, optimised);
  }

  // ---------------------------------------------------------------- the control-point plot

  /** Qt::CheckState of the curve-scale switch. */
  datatype CheckState = Unchecked | PartiallyChecked | Checked

  /** An axis range: (lower, upper). */
  type AxisRange = (real, real)

  /** The range holds every value in its closed interior [lower + m, upper − m] and meets both ends of it. */
  predicate SpansWithMargin(values: seq<real>, range: AxisRange, m: real) {
    && (range.0 + m) in values && (range.1 - m) in values
    && forall k :: 0 <= k < |values| ==> range.0 + m <= values[k] <= range.1 - m
  }

  /**
   * The x-axis of scatterControlPoint: with points on the canvas it spans their frequencies with
   * a margin of 1 on a linear scale, or from half the smallest to twice the largest on a log
   * scale; without points, or with the switch partially checked, the axis keeps its range.
   */
  function ScatterFrequencyRange(cp: ControlPoint, scale: CheckState, current: AxisRange): (range: AxisRange)
    reads cp
    ensures cp.Count() == 0 || scale == PartiallyChecked ==> range == current
    ensures cp.Count() > 0 && scale == Unchecked ==> SpansWithMargin(cp.omega, range, 1.0)
    ensures cp.Count() > 0 && scale == Checked ==>
      && (2.0 * range.0) in cp.omega && (range.1 / 2.0) in cp.omega
      && forall k :: 0 <= k < |cp.omega| ==> 2.0 * range.0 <= cp.omega[k] <= range.1 / 2.0
  {
    if cp.Count() == 0 then current
    else match scale
      case Unchecked => (cp.MinFrequency() - 1.0, cp.MaxFrequency() + 1.0)
      case Checked => (0.5 * cp.MinFrequency(), 2.0 * cp.MaxFrequency())
      case PartiallyChecked => current
  }

  /**
   * The y-axis of scatterControlPoint as written: the damping ratios with a margin of 0.1, taken
   * without the count() > 0 guard the x-axis has, so on an empty list it reads the undefined
   * minDampingRatio and maxDampingRatio (None).
   */
  function ScatterRatioRangeAsWritten(cp: ControlPoint): (range: Option<AxisRange>)
    reads cp
    ensures range.None? <==> |cp.zeta| == 0
    ensures range.Some? ==> SpansWithMargin(cp.zeta, range.value, 0.1)
  {
    var lo, hi := cp.MinDampingRatio(), cp.MaxDampingRatio();
    if lo.Some? && hi.Some? then Some((lo.value - 0.1, hi.value + 0.1)) else None
  }

  /**
   * Clearing every point (removePoint(−1) in clearAllControlPoints) or removing the only one
   * (removeSelectedControlPoint) leaves an empty list, and the scatterControlPoint that both
   * then call has no defined y-range.
   */
  lemma EmptiedPlotRatioRangeUndefined(cp: ControlPoint, before: seq<real>, tag: int)
    requires tag == -1 || (|before| == 1 && tag == 0)
    requires cp.zeta == RemoveTag(before, tag)
    ensures ScatterRatioRangeAsWritten(cp).None?
  {
  }

  /** The y-axis guarded as the x-axis is: with no points it keeps its range. */
  function ScatterRatioRange(cp: ControlPoint, current: AxisRange): (range: AxisRange)
    reads cp
    requires cp.Valid()
    ensures cp.Count() == 0 ==> range == current
    ensures cp.Count() > 0 ==> SpansWithMargin(cp.zeta, range, 0.1) && ScatterRatioRangeAsWritten(cp) == Some(range)
  {
    if cp.Count() > 0 then ScatterRatioRangeAsWritten(cp).value else current
  }

  /** With the guard, emptying the plot leaves the y-axis where it was. */
  lemma EmptiedPlotKeepsRatioRange(cp: ControlPoint, before: seq<real>, tag: int, current: AxisRange)
    requires cp.Valid() && (tag == -1 || (|before| == 1 && tag == 0))
    requires cp.zeta == RemoveTag(before, tag)
    ensures ScatterRatioRange(cp, current) == current
  {
  }

  // ---------------------------------------------------------------- the window

  class MainWindow {
    var panel: Panel
    const curve: DampingCurve

    constructor(c: DampingCurve, p: Panel)
      ensures curve == c && panel == p
    {
      curve, panel := c, p;
    }

    /** addType(): a new mode from the panel, appended to the curve, unless PanelMode says none. */
    method AddType()
      requires curve.Valid()
      modifies curve`modes
      ensures curve.Valid()
      ensures PanelMode(panel).None? ==> curve.modes == old(curve.modes)
      ensures PanelMode(panel).Some? ==>
        && |curve.modes| == |old(curve.modes)| + 1
        && curve.modes[..|old(curve.modes)|] == old(curve.modes)
        && var m := curve.modes[|old(curve.modes)|];
           fresh(m) && ModeSpec(m.kind, m.omegaP, m.zetaP, m.p) == PanelMode(panel).value
    {
      if Abs(panel.zeta) < 0.0001 {
        return;
      }
      var kind: ModeType;
      var p: seq<real>;
      match panel.typeIndex {
        case 0 => kind, p := T0, [];
        case 1 => kind, p := T1, [panel.pa];
        case 2 => kind, p := T2, [panel.pa, panel.pb];
        case 3 => kind, p := T3, [panel.pe];
        case 4 => kind, p := T4, [panel.pa, panel.pb, panel.pc, panel.pd, panel.pe];
        case _ => return;
      }
      var m := new DampingMode(panel.omega, panel.zeta, p, kind);
      curve.AddMode(m);
    }

    /** addType(QString): the setter calls of the matching branch, then addType(). */
    method AddTypeLine(fmt: NumberFormat, line: string)
      requires curve.Valid()
      modifies this`panel, curve`modes
      ensures curve.Valid()
      ensures ParseLine(fmt, line, old(panel)).None? ==> panel == old(panel) && curve.modes == old(curve.modes)
      ensures ParseLine(fmt, line, old(panel)).Some? ==> panel == ParseLine(fmt, line, old(panel)).value
      ensures PanelMode(panel).None? ==> curve.modes == old(curve.modes)
      ensures ParseLine(fmt, line, old(panel)).Some? && PanelMode(panel).Some? ==>
        && |curve.modes| == |old(curve.modes)| + 1
        && curve.modes[..|old(curve.modes)|] == old(curve.modes)
        && var m := curve.modes[|old(curve.modes)|];
           fresh(m) && ModeSpec(m.kind, m.omegaP, m.zetaP, m.p) == PanelMode(panel).value
    {
      var fields := Split(line);
      var v := fmt.toDouble;
      if |fields| < 2 {
        return;
      }
      if fields[1] == "0" {
        if |fields| < 5 {
          return;
        }
        panel := panel.(typeIndex := 0, omega := v(fields[3]), zeta := v(fields[4]));
      } else if fields[1] == "1" {
        if |fields| < 6 {
          return;
        }
        panel := panel.(typeIndex := 1, omega := v(fields[3]), zeta := v(fields[4]), pa := v(fields[5]));
      } else if fields[1] == "2" {
        if |fields| < 7 {
          return;
        }
        panel := panel.(typeIndex := 2, omega := v(fields[3]), zeta := v(fields[4]), pa := v(fields[5]), pb := v(fields[6]));
      } else if fields[1] == "3" {
        if |fields| < 6 {
          return;
        }
        panel := panel.(typeIndex := 3, omega := v(fields[3]), zeta := v(fields[4]), pe := v(fields[5]));
      } else if fields[1] == "4" {
        if |fields| < 10 {
          return;
        }
        panel := panel.(typeIndex := 4, omega := v(fields[3]), zeta := v(fields[4]), pa := v(fields[5]),
                        pb := v(fields[6]), pc := v(fields[7]), pd := v(fields[8]), pe := v(fields[9]));
      } else {
        return;
      }
      AddType();
    }

    /**
     * addType(QStringList): each line in turn. The list of modes grows by one for every line
     * that addType(QString) accepts with a ζ of at least 1e-4, and keeps the modes it had.
     */
    method AddTypeList(fmt: NumberFormat, lines: seq<string>)
      requires curve.Valid()
      modifies this`panel, curve`modes
      ensures curve.Valid()
      ensures panel == PanelAfter(fmt, lines, old(panel))
      ensures |curve.modes| == |old(curve.modes)| + AddedBy(fmt, lines, old(panel))
      ensures curve.modes[..|old(curve.modes)|] == old(curve.modes)
    {
      ghost var panel0, modes0 := panel, curve.modes;
      for i := 0 to |lines|
        invariant curve.Valid()
        invariant panel == PanelAfter(fmt, lines[..i], panel0)
        invariant |curve.modes| == |modes0| + AddedBy(fmt, lines[..i], panel0)
        invariant curve.modes[..|modes0|] == modes0
      {
        ghost var before := curve.modes;
        AddTypeLine(fmt, lines[i]);
        assert lines[..i + 1][..i] == lines[..i];
        assert curve.modes[..|modes0|] == before[..|modes0|];
      }
      assert lines[..|lines|] == lines;
    }

    /**
     * removeSelectedType: the selected rows sorted and removed from the highest down, so that
     * exactly the selected modes leave the list and the others keep their order.
     */
    method RemoveSelectedType(selected: seq<nat>)
      requires curve.Valid()
      requires forall i :: 0 <= i < |selected| ==> selected[i] < |curve.modes|
      requires forall i, j :: 0 <= i < j < |selected| ==> selected[i] != selected[j]
      modifies curve`modes
      ensures curve.Valid()
      ensures curve.modes == Without(old(curve.modes), RowSet(selected))
    {
      var rows := SortRows(selected);
      SortedSelection(selected, rows);
      RemoveRows(rows, curve.modes);
    }

    /** removeMode(row) for each row of the ascending list, the last one first. */
    method RemoveRows(rows: seq<nat>, ghost original: seq<DampingMode>)
      requires curve.Valid() && curve.modes == original
      requires forall i :: 0 <= i < |rows| ==> rows[i] < |original|
      requires forall i, j :: 0 <= i < j < |rows| ==> rows[i] < rows[j]
      modifies curve`modes
      ensures curve.Valid()
      ensures curve.modes == Without(original, RowSet(rows))
    {
      ghost var removed: set<int> := {};
      WithoutNone(original, {});
      var k := |rows|;
      while k > 0
        invariant 0 <= k <= |rows| && curve.Valid()
        invariant forall x :: x in removed <==> exists m :: k <= m < |rows| && rows[m] == x
        invariant curve.modes == Without(original, removed)
      {
        k := k - 1;
        RowsAbove(rows, k, removed);
        WithoutOneMore(original, removed, rows[k]);
        curve.RemoveMode(rows[k]);
        removed := removed + {rows[k] as int};
      }
      RowsAll(rows, removed);
    }

    /**
     * performFitting up to the start of the task: nothing happens when validateScheme fails;
     * otherwise all modes are cleared and the task starts exactly when the reference passes
     * the guard.
     */
    method PerformFitting(minX: real, schemeName: string, reference: seq<Sample>) returns (started: bool)
      requires curve.Valid()
      modifies curve`modes
      ensures curve.Valid()
      ensures !ValidateScheme(minX, schemeName) ==> !started && curve.modes == old(curve.modes)
      ensures ValidateScheme(minX, schemeName) ==> curve.modes == [] && (started <==> !FitRefused(reference))
    {
      if !ValidateScheme(minX, schemeName) {
        return false;
      }
      curve.RemoveMode(-1);
      if |reference| == 0 || reference[0].0 <= 0.0 {
        return false;
      }
      return true;
    }
  }

  /** Every row taken from positions after k of an ascending list lies above the row at k. */
  lemma RowsAbove(rows: seq<nat>, k: nat, removed: set<int>)
    requires k < |rows|
    requires forall i, j :: 0 <= i < j < |rows| ==> rows[i] < rows[j]
    requires forall x :: x in removed <==> exists m :: k + 1 <= m < |rows| && rows[m] == x
    ensures forall x :: x in removed ==> x > rows[k]
  {
    forall x | x in removed
      ensures x > rows[k]
    {
      var m :| k + 1 <= m < |rows| && rows[m] == x;
    }
  }

  /** The rows taken from every position of the list are the selection's row set. */
  lemma RowsAll(rows: seq<nat>, removed: set<int>)
    requires forall x :: x in removed <==> exists m :: 0 <= m < |rows| && rows[m] == x
    ensures removed == RowSet(rows)
  {
    assert forall x :: x in removed <==> x in RowSet(rows);
  }

  /** The rows of a selection, as a set of indices. */
  function RowSet(rows: seq<nat>): (S: set<int>)
    ensures forall x :: x in S <==> exists m :: 0 <= m < |rows| && rows[m] == x
  {
    set m | 0 <= m < |rows| :: rows[m] as int
  }

  /** A row that two positions of a list hold is counted twice by the list's multiset. */
  lemma CountTwice(s: seq<nat>, i: nat, j: nat)
    requires i < j < |s| && s[i] == s[j]
    ensures multiset(s)[s[i]] >= 2
  {
    assert s == s[..j] + [s[j]] + s[j + 1..];
    assert s[..j][i] == s[i];
    assert multiset(s[..j])[s[i]] >= 1;
  }

  /** Sorting distinct rows gives them in strictly ascending order, as the same set. */
  lemma SortedSelection(selected: seq<nat>, rows: seq<nat>)
    requires forall i, j :: 0 <= i < j < |selected| ==> selected[i] != selected[j]
    requires multiset(rows) == multiset(selected)
    requires forall i, j :: 0 <= i < j < |rows| ==> rows[i] <= rows[j]
    ensures forall i, j :: 0 <= i < j < |rows| ==> rows[i] < rows[j]
    ensures RowSet(rows) == RowSet(selected)
    ensures forall m :: 0 <= m < |rows| ==> exists i :: 0 <= i < |selected| && selected[i] == rows[m]
  {
    forall i, j | 0 <= i < j < |rows|
      ensures rows[i] < rows[j]
    {
      if rows[i] == rows[j] {
        CountTwice(rows, i, j);
        DistinctCount(selected, rows[i]);
      }
    }
    forall m | 0 <= m < |rows|
      ensures exists i :: 0 <= i < |selected| && selected[i] == rows[m]
    {
      assert rows[m] in multiset(rows);
      assert rows[m] in selected;
    }
    forall i | 0 <= i < |selected|
      ensures exists m :: 0 <= m < |rows| && rows[m] == selected[i]
    {
      assert selected[i] in multiset(selected);
      assert selected[i] in rows;
    }
  }

  /** A row listed once in a list of distinct rows occurs once in it. */
  lemma {:induction false} DistinctCount(s: seq<nat>, x: nat)
    requires forall i, j :: 0 <= i < j < |s| ==> s[i] != s[j]
    ensures multiset(s)[x] <= 1
    decreases |s|
  {
    if |s| > 0 {
      assert s == [s[0]] + s[1..];
      DistinctCount(s[1..], x);
      if s[0] == x {
        assert x !in s[1..];
      }
    }
  }
}
