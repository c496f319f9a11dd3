/**
 * The editable text form of a `PlaneSpec` used by the design editor: every
 * number becomes a string, every list of numbers a comma-separated string,
 * and converting back parses each field, turning parse failures into 0.0.
 *
 * Printing and parsing numbers is foreign code (`f32::to_string` and
 * `str::parse::<f32>`); both are parameters, collected in `NumberFormat`.
 */
module SpecModels {
  import opened Vectors
  import opened PlaneSpecs

  datatype Option<T> = None | Some(value: T)

  datatype NumberFormat = NumberFormat(toString: real -> string, parse: string -> Option<real>)

  /**
   * `x` reads back as itself from its printed form. Only the values the
   * number type can represent do; the round trips below ask it of exactly
   * the values they carry.
   */
  predicate ReadsBack(fmt: NumberFormat, x: real) {
    fmt.parse(fmt.toString(x)) == Some(x)
  }

  /** `x` prints as a single list field: its text holds no separator. */
  predicate PrintsAsField(fmt: NumberFormat, x: real) {
    ',' !in fmt.toString(x)
  }

  /** Every value of a list prints as a field and reads back as itself. */
  predicate ListReadsBack(fmt: NumberFormat, values: seq<real>) {
    forall i :: 0 <= i < |values| ==> PrintsAsField(fmt, values[i]) && ReadsBack(fmt, values[i])
  }

  predicate VecReadsBack(fmt: NumberFormat, v: Vec3) {
    ReadsBack(fmt, v.x) && ReadsBack(fmt, v.y) && ReadsBack(fmt, v.z)
  }

  /** Every number of a wing, in its size and its two lists, survives printing. */
  predicate WingReadsBack(fmt: NumberFormat, w: WingSpec) {
    VecReadsBack(fmt, w.size)
    && ListReadsBack(fmt, w.liftCoefficientElements) && ListReadsBack(fmt, w.liftCoefficientKnots)
  }

  /** `s.parse().unwrap_or_default()`: a field that fails to parse reads as 0.0. */
  function ParseOrDefault(fmt: NumberFormat, s: string): (r: real)
    ensures fmt.parse(s).None? ==> r == 0.0
    ensures fmt.parse(s).Some? ==> r == fmt.parse(s).value
  {
    match fmt.parse(s)
    case Some(x) => x
    case None => 0.0
  }

  function CountCommas(s: string): nat {
    if |s| == 0 then 0 else (if s[0] == ',' then 1 else 0) + CountCommas(s[1..])
  }

  /** `parts.join(",")`. */
  function Join(parts: seq<string>): string {
    if |parts| == 0 then ""
    else if |parts| == 1 then parts[0]
    else parts[0] + "," + Join(parts[1..])
  }

  /** `s.split(",")`: the pieces between commas; there is always at least one. */
  function Split(s: string): (parts: seq<string>)
    ensures |parts| >= 1
  {
    if |s| == 0 then [""]
    else
      var rest := Split(s[1..]);
      if s[0] == ',' then [""] + rest else [[s[0]] + rest[0]] + rest[1..]
  }

  /** `vec_to_string`. */
  function VecToString(fmt: NumberFormat, values: seq<real>): string {
    Join(seq(|values|, i requires 0 <= i < |values| => fmt.toString(values[i])))
  }

  /** `string_to_vec`: one value per comma-separated field. */
  function StringToVec(fmt: NumberFormat, s: string): (r: seq<real>)
    ensures |r| == |Split(s)|
    ensures forall i :: 0 <= i < |r| ==>
      r[i] == (if fmt.parse(Split(s)[i]).Some? then fmt.parse(Split(s)[i]).value else 0.0)
  {
    var parts := Split(s);
    seq(|parts|, i requires 0 <= i < |parts| => ParseOrDefault(fmt, parts[i]))
  }

  /** `Vec3Model`: the three coordinates as editable strings. */
  datatype Vec3Model = Vec3Model(x: string, y: string, z: string)

  /** `Vec3Model::new`. */
  function Vec3ModelNew(fmt: NumberFormat, v: Vec3): Vec3Model {
    Vec3Model(fmt.toString(v.x), fmt.toString(v.y), fmt.toString(v.z))
  }

  /** `vec3(m.x.parse().unwrap_or_default(), ...)`, as written out in each `to_spec`. */
  function Vec3ModelToVec3(fmt: NumberFormat, m: Vec3Model): Vec3 {
    Vec3(ParseOrDefault(fmt, m.x), ParseOrDefault(fmt, m.y), ParseOrDefault(fmt, m.z))
  }

  datatype WingModel = WingModel(size: Vec3Model, elements: string, knots: string)

  /** `WingModel::new`. */
  function WingModelNew(fmt: NumberFormat, w: WingSpec): WingModel {
    WingModel(
      Vec3ModelNew(fmt, w.size),
      VecToString(fmt, w.liftCoefficientElements),
      VecToString(fmt, w.liftCoefficientKnots))
  }

  /** `WingModel::to_spec`. */
  function WingModelToSpec(fmt: NumberFormat, m: WingModel): (w: WingSpec)
    ensures |w.liftCoefficientElements| == CountCommas(m.elements) + 1
    ensures |w.liftCoefficientKnots| == CountCommas(m.knots) + 1
  {
    SplitLength(m.elements);
    SplitLength(m.knots);
    WingSpec(
      Vec3ModelToVec3(fmt, m.size),
      StringToVec(fmt, m.elements),
      StringToVec(fmt, m.knots))
  }

  datatype PlaneSpecModel = PlaneSpecModel(
    fuselage: Vec3Model,
    wings: WingModel,
    tail: Vec3Model,
    tailHorizontal: WingModel,
    tailVertical: WingModel)

  /** `PlaneSpecModel::new`: the name and thrust are not editable. */
  function PlaneSpecModelNew(fmt: NumberFormat, spec: PlaneSpec): PlaneSpecModel {
    PlaneSpecModel(
      Vec3ModelNew(fmt, spec.fuselage.size),
      WingModelNew(fmt, spec.wings),
      Vec3ModelNew(fmt, spec.tail.size),
      WingModelNew(fmt, spec.tail.horizontal),
      WingModelNew(fmt, spec.tail.vertical))
  }

  /**
   * `PlaneSpecModel::to_spec`. Fields without an editable counterpart are
   * taken from `PlaneSpec::default()`, so the name and the thrust always come
   * back as the defaults, whatever spec the model was made from.
   */
  function PlaneSpecModelToSpec(fmt: NumberFormat, m: PlaneSpecModel): (s: PlaneSpec)
    ensures s.name == DefaultName && s.thrust == DefaultThrust
  {
    Default().(
      fuselage := FuselageSpec(Vec3ModelToVec3(fmt, m.fuselage)),
      wings := WingModelToSpec(fmt, m.wings),
      tail := TailSpec(
        Vec3ModelToVec3(fmt, m.tail),
        WingModelToSpec(fmt, m.tailVertical),
        WingModelToSpec(fmt, m.tailHorizontal)))
  }

  // ---------------------------------------------------------------------
  // Properties
  // ---------------------------------------------------------------------

  /** `split` yields one more piece than there are commas. */
  lemma {:induction false} SplitLength(s: string)
    ensures |Split(s)| == CountCommas(s) + 1
  {
    if |s| > 0 {
      SplitLength(s[1..]);
    }
  }

  /** `string_to_vec` returns one more value than its input has commas. */
  lemma StringToVecLength(fmt: NumberFormat, s: string)
    ensures |StringToVec(fmt, s)| == CountCommas(s) + 1
  {
    SplitLength(s);
  }

  lemma {:induction false} CountCommasAppend(a: string, b: string)
    ensures CountCommas(a + b) == CountCommas(a) + CountCommas(b)
  {
    if |a| > 0 {
      assert (a + b)[1..] == a[1..] + b;
      CountCommasAppend(a[1..], b);
    } else {
      assert a + b == b;
    }
  }

  /**
   * Joining n comma-free pieces puts exactly n - 1 commas in the result, so
   * there is no leading or trailing separator.
   */
  lemma {:induction false} JoinCommas(parts: seq<string>)
    requires |parts| >= 1
    requires forall i :: 0 <= i < |parts| ==> ',' !in parts[i]
    ensures CountCommas(Join(parts)) == |parts| - 1
  {
    NoCommaCount(parts[0]);
    if |parts| > 1 {
      JoinCommas(parts[1..]);
      CountCommasAppend(parts[0], ",");
      CountCommasAppend(parts[0] + ",", Join(parts[1..]));
      assert CountCommas(",") == 1 by {
        assert ","[1..] == "";
      }
    }
  }

  lemma {:induction false} NoCommaCount(s: string)
    requires ',' !in s
    ensures CountCommas(s) == 0
  {
    if |s| > 0 {
      assert ',' !in s[1..] by {
        forall c | c in s[1..] ensures c != ',' { assert c in s; }
      }
      NoCommaCount(s[1..]);
    }
  }

  /** Joining non-empty pieces starts with the first piece and ends with the last. */
  lemma {:induction false} JoinEnds(parts: seq<string>)
    requires |parts| >= 1
    requires forall i :: 0 <= i < |parts| ==> parts[i] != ""
    ensures |Join(parts)| > 0
    ensures Join(parts)[0] == parts[0][0]
    ensures Join(parts)[|Join(parts)| - 1] == parts[|parts| - 1][|parts[|parts| - 1]| - 1]
  {
    if |parts| > 1 {
      var rest := Join(parts[1..]);
      JoinEnds(parts[1..]);
      assert Join(parts) == parts[0] + "," + rest;
    }
  }

  /**
   * A non-empty list of n numbers, each printed as a non-empty field, is
   * written with exactly n - 1 commas and no leading or trailing separator.
   */
  lemma VecToStringCommas(fmt: NumberFormat, values: seq<real>)
    requires |values| >= 1
    requires forall i :: 0 <= i < |values| ==> PrintsAsField(fmt, values[i]) && fmt.toString(values[i]) != ""
    ensures var s := VecToString(fmt, values);
      CountCommas(s) == |values| - 1 && |s| > 0 && s[0] != ',' && s[|s| - 1] != ','
  {
    var parts := seq(|values|, i requires 0 <= i < |values| => fmt.toString(values[i]));
    JoinCommas(parts);
    JoinEnds(parts);
    var first, last := parts[0], parts[|parts| - 1];
    assert first[0] in first && last[|last| - 1] in last;
  }

  /** Splitting a comma-free prefix glues it onto the first piece of the rest. */
  lemma {:induction false} SplitPrefix(a: string, s: string)
    requires ',' !in a
    ensures Split(a + s) == [a + Split(s)[0]] + Split(s)[1..]
  {
    if |a| > 0 {
      assert (a + s)[0] == a[0] && (a + s)[1..] == a[1..] + s;
      assert ',' !in a[1..] by {
        forall c | c in a[1..] ensures c != ',' { assert c in a; }
      }
      SplitPrefix(a[1..], s);
      assert [a[0]] + (a[1..] + Split(s)[0]) == a + Split(s)[0];
    } else {
      var p := Split(s);
      assert a + s == s && a + p[0] == p[0];
      assert [p[0]] + p[1..] == p;
    }
  }

  /** Splitting what was joined from non-empty comma-free pieces gives the pieces back. */
  lemma {:induction false} SplitJoin(parts: seq<string>)
    requires |parts| >= 1
    requires forall i :: 0 <= i < |parts| ==> ',' !in parts[i]
    ensures Split(Join(parts)) == parts
  {
    if |parts| == 1 {
      SplitPrefix(parts[0], "");
      assert parts[0] + "" == parts[0];
    } else {
      var rest := Join(parts[1..]);
      SplitJoin(parts[1..]);
      assert parts[0] + "," + rest == parts[0] + ("," + rest);
      SplitPrefix(parts[0], "," + rest);
      assert ("," + rest)[0] == ',' && ("," + rest)[1..] == rest;
      assert Split("," + rest) == [""] + parts[1..];
      assert parts[0] + "" == parts[0];
    }
  }

  /**
   * Text round trip of a number list: for a non-empty list whose values each
   * print as a field and read back as themselves, reading back the written
   * string gives the same list.
   */
  lemma VecRoundTrip(fmt: NumberFormat, values: seq<real>)
    requires ListReadsBack(fmt, values) && |values| >= 1
    ensures StringToVec(fmt, VecToString(fmt, values)) == values
  {
    var parts := seq(|values|, i requires 0 <= i < |values| => fmt.toString(values[i]));
    SplitJoin(parts);
    var r := StringToVec(fmt, VecToString(fmt, values));
    assert |r| == |values|;
  }

  /**
   * The empty list does not survive: it is written as "", and "" splits into
   * one empty field that fails to parse and so reads as [0.0].
   */
  lemma EmptyVecDoesNotRoundTrip(fmt: NumberFormat)
    requires fmt.parse("") == None
    ensures VecToString(fmt, []) == ""
    ensures StringToVec(fmt, VecToString(fmt, [])) == [0.0]
  {
    assert Split("") == [""];
  }

  /** A vector whose coordinates read back survives the editor unchanged. */
  lemma Vec3RoundTrip(fmt: NumberFormat, v: Vec3)
    requires VecReadsBack(fmt, v)
    ensures Vec3ModelToVec3(fmt, Vec3ModelNew(fmt, v)) == v
  {
  }

  /**
   * A wing with non-empty control-point lists, all of whose numbers read
   * back, survives the editor unchanged.
   */
  lemma WingRoundTrip(fmt: NumberFormat, w: WingSpec)
    requires WingReadsBack(fmt, w)
    requires |w.liftCoefficientElements| >= 1 && |w.liftCoefficientKnots| >= 1
    ensures WingModelToSpec(fmt, WingModelNew(fmt, w)) == w
  {
    VecRoundTrip(fmt, w.liftCoefficientElements);
    VecRoundTrip(fmt, w.liftCoefficientKnots);
    Vec3RoundTrip(fmt, w.size);
  }

  /**
   * A whole spec whose numbers all read back comes back from the editor with
   * all geometry and curves intact, but with the default name and thrust in
   * place of its own.
   */
  lemma PlaneSpecRoundTrip(fmt: NumberFormat, spec: PlaneSpec)
    requires VecReadsBack(fmt, spec.fuselage.size) && VecReadsBack(fmt, spec.tail.size)
    requires forall w :: w in [spec.wings, spec.tail.horizontal, spec.tail.vertical] ==>
      WingReadsBack(fmt, w) && |w.liftCoefficientElements| >= 1 && |w.liftCoefficientKnots| >= 1
    ensures PlaneSpecModelToSpec(fmt, PlaneSpecModelNew(fmt, spec))
      == spec.(name := DefaultName, thrust := DefaultThrust)
  {
    WingRoundTrip(fmt, spec.wings);
    WingRoundTrip(fmt, spec.tail.horizontal);
    WingRoundTrip(fmt, spec.tail.vertical);
    Vec3RoundTrip(fmt, spec.fuselage.size);
    Vec3RoundTrip(fmt, spec.tail.size);
  }
}
