/** Parameter values, descriptors and the checks a descriptor makes
    (rclpy/parameter.py:48-60 and rclpy/node.py:1184-1276). */
module Parameters {
  import opened Options

  datatype Type =
    | NotSetType | BoolType | IntegerType | DoubleType | StringType
    | ByteArrayType | BoolArrayType | IntegerArrayType | DoubleArrayType | StringArrayType

  datatype Value =
    | NotSet
    | Bool(b: bool)
    | Integer(n: int)
    | Double(r: real)
    | Text(text: string)
    | Bytes(bytes: seq<bv8>)
    | Bools(bools: seq<bool>)
    | Integers(integers: seq<int>)
    | Doubles(doubles: seq<real>)
    | Texts(texts: seq<string>)

  function TypeOf(v: Value): Type {
    match v
    case NotSet => NotSetType
    case Bool(_) => BoolType
    case Integer(_) => IntegerType
    case Double(_) => DoubleType
    case Text(_) => StringType
    case Bytes(_) => ByteArrayType
    case Bools(_) => BoolArrayType
    case Integers(_) => IntegerArrayType
    case Doubles(_) => DoubleArrayType
    case Texts(_) => StringArrayType
  }

  /** Two values have the same type exactly if they are of the same kind. */
  lemma TypesTellKindsApart(v: Value, w: Value)
    ensures TypeOf(v) == TypeOf(w) <==>
      || (v.NotSet? && w.NotSet?) || (v.Bool? && w.Bool?) || (v.Integer? && w.Integer?) || (v.Double? && w.Double?)
      || (v.Text? && w.Text?) || (v.Bytes? && w.Bytes?) || (v.Bools? && w.Bools?) || (v.Integers? && w.Integers?)
      || (v.Doubles? && w.Doubles?) || (v.Texts? && w.Texts?)
  {
  }

  datatype Parameter = Parameter(name: string, value: Value)

  datatype IntegerRange = IntegerRange(fromValue: int, toValue: int, step: nat)

  datatype DoubleRange = DoubleRange(fromValue: real, toValue: real, step: real)

  /** The floating-point range test, with its rounding, is a parameter of the model. */
  type DoubleTest = (real, DoubleRange) -> bool

  datatype Descriptor = Descriptor(
    name: string, typ: Type, readOnly: bool, dynamicTyping: bool,
    integerRange: Option<IntegerRange>, doubleRange: Option<DoubleRange>)

  const PLAIN_DESCRIPTOR := Descriptor("", NotSetType, false, false, None, None)

  datatype Reason =
    | ReadOnly | StaticCannotBeUndeclared | WrongType | OutOfRange | NotAStep | DoubleOutOfRange
    | EmptyList | Vetoed(text: string)

  datatype Verdict = Accepted | Refused(reason: Reason)

  function Min(a: int, b: int): int { if a <= b then a else b }

  function Max(a: int, b: int): int { if a <= b then b else a }

  function ApplyIntegerRange(n: int, r: IntegerRange): Verdict {
    var lo, hi := Min(r.fromValue, r.toValue), Max(r.fromValue, r.toValue);
    if n == lo || n == hi then Accepted
    else if !(lo < n < hi) then Refused(OutOfRange)
    else if r.step != 0 && (n - lo) % r.step != 0 then Refused(NotAStep)
    else Accepted
  }

  /** An end point of the range, or strictly between them, whichever is the greater, and a whole
      number of steps from the lower one (anything between them when the step is zero). */
  ghost predicate OnRange(n: int, r: IntegerRange) {
    || n == r.fromValue || n == r.toValue
    || (r.fromValue < n < r.toValue && (r.step == 0 || exists k: nat :: n == StepsFrom(r.fromValue, r.step, k)))
    || (r.toValue < n < r.fromValue && (r.step == 0 || exists k: nat :: n == StepsFrom(r.toValue, r.step, k)))
  }

  function StepsFrom(lo: int, step: nat, k: nat): int { lo + k * step }

  lemma RangeAcceptsExactly(n: int, r: IntegerRange)
    ensures ApplyIntegerRange(n, r).Accepted? <==> OnRange(n, r)
  {
    var lo, hi := Min(r.fromValue, r.toValue), Max(r.fromValue, r.toValue);
    if lo < n < hi && r.step != 0 {
      if (n - lo) % r.step == 0 {
        assert n == StepsFrom(lo, r.step, (n - lo) / r.step);
      }
      if k: nat :| n == StepsFrom(lo, r.step, k) {
        MultipleHasNoRemainder(k, r.step);
      }
    }
  }

  lemma MultipleHasNoRemainder(k: nat, step: nat)
    requires step > 0
    ensures (k * step) % step == 0
  {
    var x := k * step;
    var d := x / step - k;
    assert d * step == -(x % step);
    assert d >= 1 ==> d * step >= step;
    assert d <= -1 ==> d * step + step <= 0;
  }

  /** The outcome of _apply_descriptor; `declared` says whether the parameter exists. */
  function Check(v: Value, d: Descriptor, declared: bool, checkReadOnly: bool, test: DoubleTest): Verdict {
    if checkReadOnly && d.readOnly then Refused(ReadOnly)
    else if !d.dynamicTyping && declared && v.NotSet? then Refused(StaticCannotBeUndeclared)
    else if !d.dynamicTyping && !v.NotSet? && TypeOf(v) != d.typ then Refused(WrongType)
    else if v.Integer? && d.integerRange.Some? then ApplyIntegerRange(v.n, d.integerRange.value)
    else if v.Double? && d.doubleRange.Some? && !test(v.r, d.doubleRange.value) then Refused(DoubleOutOfRange)
    else Accepted
  }

  /** What _apply_descriptor writes into the descriptor, whatever its outcome: the name, and for
      a dynamically typed parameter the type, unless the read-only check has ended it before. */
  function Tagged(d: Descriptor, p: Parameter, checkReadOnly: bool): Descriptor {
    var named := d.(name := p.name);
    if d.dynamicTyping && !(checkReadOnly && d.readOnly) then named.(typ := TypeOf(p.value)) else named
  }

  /** The value obeys the descriptor: unset or of the static type, and on the range if there
      is one for its type. */
  ghost predicate Complies(v: Value, d: Descriptor, test: DoubleTest) {
    && (!d.dynamicTyping && !v.NotSet? ==> TypeOf(v) == d.typ)
    && (v.Integer? && d.integerRange.Some? ==> OnRange(v.n, d.integerRange.value))
    && (v.Double? && d.doubleRange.Some? ==> test(v.r, d.doubleRange.value))
  }

  /** The check refuses exactly what breaks the descriptor, touches a read-only parameter or
      unsets an existing static one; and its side effect does not change what complies. */
  lemma CheckAcceptsExactly(p: Parameter, d: Descriptor, declared: bool, checkReadOnly: bool, test: DoubleTest)
    ensures Check(p.value, d, declared, checkReadOnly, test).Accepted? <==>
      && !(checkReadOnly && d.readOnly)
      && (d.dynamicTyping || !declared || !p.value.NotSet?)
      && Complies(p.value, d, test)
    ensures forall v :: Complies(v, Tagged(d, p, checkReadOnly), test) <==> Complies(v, d, test)
  {
    if p.value.Integer? && d.integerRange.Some? {
      RangeAcceptsExactly(p.value.n, d.integerRange.value);
    }
  }
}
