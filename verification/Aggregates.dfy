/** Folding the values of a column into a count, a sum or an extreme. */
module Aggregates {
  import opened Wrappers
  import opened Machine
  import opened ByteCodec
  import opened ValueCodec
  import Decimal

  datatype AggregateFunction = Count | Sum | Min | Max

  datatype AggregateError = CountOverflow | NotAnInteger | NotComparable | InexactNumber | WrongLength

  /** The integer a value stands for; text counts when it is a decimal integer. */
  function ExactInt64(v: Value): Result<int, AggregateError> {
    match v
    case Sized(_, n) => Ok(n)
    case Unsigned64(u) => if u > MAX_INT64 then Err(NotAnInteger) else Ok(u)
    case BigInt(n) => if InInt64(n) then Ok(n) else Err(NotAnInteger)
    case Text(text) =>
      (match Decimal.ParseInt(text)
       case Some(n) => if InInt64(n) then Ok(n) else Err(NotAnInteger)
       case None => Err(NotAnInteger))
    case Float32(_) => Err(InexactNumber)
    case Float64(_) => Err(InexactNumber)
    case BigRat(_, _) => Err(InexactNumber)
    case _ => Err(NotAnInteger)
  }

  function ExactBigInt(v: Value): Result<int, AggregateError> {
    match v
    case BigInt(n) => Ok(n)
    case Unsigned64(u) => Ok(u)
    case Bool(flag) => Ok(if flag then 1 else 0)
    case _ => ExactInt64(v)
  }

  function Numeric(v: Value): Result<int, AggregateError> {
    match v
    case BigInt(n) => Ok(n)
    case Unsigned64(u) => Ok(u)
    case _ => ExactInt64(v)
  }

  /** The sign of the difference: texts and byte strings compare bytewise,
      booleans with false first, and integers by value. */
  function CompareValues(left: Value, right: Value): Result<int, AggregateError> {
    match (left, right)
    case (Text(a), Text(b)) => Ok(CompareBytes(a, b))
    case (Binary(a), Binary(b)) => Ok(CompareBytes(a, b))
    case (Bool(a), Bool(b)) => Ok(if a == b then 0 else if a then 1 else -1)
    case _ =>
      match (Numeric(left), Numeric(right))
      case (Ok(a), Ok(b)) => Ok(if a < b then -1 else if a == b then 0 else 1)
      case (Err(InexactNumber), _) => Err(InexactNumber)
      case (_, Err(InexactNumber)) => Err(InexactNumber)
      case _ => Err(NotComparable)
  }

  function CompareBytes(a: Bytes, b: Bytes): int {
    if a == b then 0 else if Less(a, b) then -1 else 1
  }

  function Accumulate(current: Value, fn: AggregateFunction, next: Value): Result<Value, AggregateError> {
    match fn
    case Count =>
      if current.Sized? then
        if current.n >= MAX_INT64 then Err(CountOverflow) else Ok(Sized(Int64Kind, current.n + 1))
      else Ok(Long(1))
    case Sum =>
      if next == Null then Ok(current)
      else
        var number :- ExactBigInt(next);
        Ok(BigInt((if current.BigInt? then current.big else 0) + number))
    case _ =>
      if next == Null then Ok(current)
      else if current == Null then Ok(next)
      else
        var comparison :- CompareValues(current, next);
        if fn == Min then Ok(if comparison <= 0 then current else next)
        else Ok(if comparison >= 0 then current else next)
  }

  lemma {:induction false} AccumulateWellFormed(current: Value, fn: AggregateFunction, next: Value)
    requires WellFormed(current) && WellFormed(next)
    ensures Accumulate(current, fn, next).Ok? ==> WellFormed(Accumulate(current, fn, next).value)
  {
  }

  /** Every aggregate of a group takes in its own value of the row; the first
      failure stops the row. */
  function AccumulateAll(aggregates: seq<Value>, functions: seq<AggregateFunction>, inputs: seq<Value>):
      (r: Result<seq<Value>, AggregateError>)
  {
    if |aggregates| == |functions| == |inputs| then AccumulateFirst(aggregates, functions, inputs, |functions|)
    else Err(WrongLength)
  }

  function AccumulateFirst(aggregates: seq<Value>, functions: seq<AggregateFunction>, inputs: seq<Value>, n: nat):
      (r: Result<seq<Value>, AggregateError>)
    requires n <= |aggregates| == |functions| == |inputs|
    ensures r.Ok? ==> |r.value| == |aggregates|
  {
    if n == 0 then Ok(aggregates)
    else
      var done :- AccumulateFirst(aggregates, functions, inputs, n - 1);
      var next :- Accumulate(aggregates[n - 1], functions[n - 1], inputs[n - 1]);
      Ok(done[n - 1 := next])
  }

  lemma {:induction false} AccumulateFirstPointwise(aggregates: seq<Value>, functions: seq<AggregateFunction>, inputs: seq<Value>, n: nat)
    requires n <= |aggregates| == |functions| == |inputs| && AccumulateFirst(aggregates, functions, inputs, n).Ok?
    ensures var r := AccumulateFirst(aggregates, functions, inputs, n).value;
            forall i :: 0 <= i < |r| ==>
              if i < n then Accumulate(aggregates[i], functions[i], inputs[i]) == Ok(r[i]) else r[i] == aggregates[i]
  {
    if n > 0 {
      AccumulateFirstPointwise(aggregates, functions, inputs, n - 1);
    }
  }

  /** Equal up to the width of sized integers, at any depth. */
  predicate Alike(u: Value, v: Value) { Normalise(u) == Normalise(v) }

  predicate AllAlike(us: seq<Value>, vs: seq<Value>) { NormaliseAll(us) == NormaliseAll(vs) }

  /** Folding the same value into alike accumulators gives alike accumulators,
      or the same error. */
  lemma {:induction false} AccumulateAlike(u: Value, v: Value, fn: AggregateFunction, next: Value)
    requires Alike(u, v)
    ensures match (Accumulate(u, fn, next), Accumulate(v, fn, next))
            case (Ok(a), Ok(b)) => Alike(a, b)
            case (Err(e), Err(f)) => e == f
            case _ => false
  {
    assert ExactInt64(u) == ExactInt64(v);
  }

  /** One aggregate over a column of values, from the empty accumulator. */
  function Fold(fn: AggregateFunction, values: seq<Value>): Result<Value, AggregateError> {
    if values == [] then Ok(Null)
    else
      var current :- Fold(fn, values[..|values| - 1]);
      Accumulate(current, fn, values[|values| - 1])
  }

  /** The integer a value of any width holds. */
  function IntegerIn(v: Value): Option<int> {
    match v
    case Sized(_, n) => Some(n)
    case Unsigned64(u) => Some(u)
    case BigInt(n) => Some(n)
    case _ => None
  }

  /** The column read as integers, with the nulls left out. */
  function Integers(values: seq<Value>): seq<int>
    requires NullableIntegers(values)
  {
    if values == [] then []
    else
      var last := values[|values| - 1];
      Integers(values[..|values| - 1]) + if last.Null? then [] else [IntegerIn(last).value]
  }

  /** The column read as exact integers: also truth values as 0 and 1, and texts that
      are decimal integers of 64 bits. */
  function Summands(values: seq<Value>): seq<int>
    requires Summable(values)
  {
    if values == [] then []
    else
      var last := values[|values| - 1];
      Summands(values[..|values| - 1]) + if last.Null? then [] else [ExactBigInt(last).value]
  }

  predicate Summable(values: seq<Value>) {
    forall i :: 0 <= i < |values| ==> values[i].Null? || ExactBigInt(values[i]).Ok?
  }

  function Total(ns: seq<int>): int {
    if ns == [] then 0 else Total(ns[..|ns| - 1]) + ns[|ns| - 1]
  }

  predicate NullableIntegers(values: seq<Value>) {
    forall i :: 0 <= i < |values| ==> values[i].Null? || IntegerIn(values[i]).Some?
  }

  /** A count is the number of rows, nulls included, and never wraps. */
  lemma {:induction false} CountIsLength(values: seq<Value>)
    ensures |values| <= MAX_INT64 ==>
              Fold(Count, values) == Ok(if values == [] then Null else Sized(Int64Kind, |values|))
    ensures |values| > MAX_INT64 ==> Fold(Count, values) == Err(CountOverflow)
  {
    if values != [] {
      CountIsLength(values[..|values| - 1]);
    }
  }

  lemma {:induction false} SummableNext(before: seq<Value>, last: Value)
    ensures Summable(before + [last]) <==> Summable(before) && (last.Null? || ExactBigInt(last).Ok?)
  {
    if Summable(before + [last]) {
      forall i | 0 <= i < |before| ensures before[i].Null? || ExactBigInt(before[i]).Ok? {
        assert (before + [last])[i] == before[i];
      }
      assert (before + [last])[|before|] == last;
    }
  }

  lemma {:induction false} TotalNext(ns: seq<int>, n: int)
    ensures Total(ns + [n]) == Total(ns) + n
  {
    assert (ns + [n])[..|ns|] == ns;
  }

  lemma {:induction false} SummandsNext(before: seq<Value>, last: Value)
    requires Summable(before) && Summable(before + [last]) && (last.Null? || ExactBigInt(last).Ok?)
    ensures Summands(before + [last]) == Summands(before) + if last.Null? then [] else [ExactBigInt(last).value]
  {
    assert (before + [last])[..|before|] == before;
  }

  /** The sum of a column whose exact integers are these. */
  function SumOf(ns: seq<int>): Value { if ns == [] then Null else BigInt(Total(ns)) }

  lemma {:induction false} SumNext(ns: seq<int>, n: int, next: Value)
    requires !next.Null? && ExactBigInt(next) == Ok(n)
    ensures Accumulate(SumOf(ns), Sum, next) == Ok(SumOf(ns + [n]))
  {
    TotalNext(ns, n);
  }

  /** A sum succeeds exactly on a column of exact integers and nulls, and then it is
      exact, skips nulls and stays null on an all-null column. */
  lemma {:induction false} SumIsTotal(values: seq<Value>)
    ensures Fold(Sum, values).Ok? <==> Summable(values)
    ensures Summable(values) ==> Fold(Sum, values) == Ok(SumOf(Summands(values)))
  {
    if values != [] {
      var before, last := values[..|values| - 1], values[|values| - 1];
      SumIsTotal(before);
      assert before + [last] == values;
      SummableNext(before, last);
      if Summable(values) {
        SummandsNext(before, last);
        if last.Null? {
          assert Summands(values) == Summands(before);
        } else {
          SumNext(Summands(before), ExactBigInt(last).value, last);
        }
      } else if Summable(before) {
        assert Accumulate(SumOf(Summands(before)), Sum, last).Err?;
      }
    }
  }

  /** An integer column is a column of exact integers, with the same values. */
  lemma {:induction false} IntegersAreSummands(values: seq<Value>)
    requires NullableIntegers(values)
    ensures Summable(values) && Summands(values) == Integers(values)
  {
    if values != [] {
      IntegersAreSummands(values[..|values| - 1]);
    }
  }

  /** An extreme is a member of the column that no other member passes. */
  lemma {:induction false} ExtremeIsReached(values: seq<Value>)
    requires NullableIntegers(values)
    ensures Integers(values) == [] ==> Fold(Min, values) == Fold(Max, values) == Ok(Null)
    ensures Integers(values) != [] ==>
              && Extreme(Fold(Min, values), Integers(values), -1)
              && Extreme(Fold(Max, values), Integers(values), 1)
  {
    if values != [] {
      var before, last := values[..|values| - 1], values[|values| - 1];
      ExtremeIsReached(before);
      ExtremeStep(Fold(Min, before), Min, last, Integers(before), -1);
      ExtremeStep(Fold(Max, before), Max, last, Integers(before), 1);
    }
  }

  lemma {:induction false} ExtremeStep(current: Result<Value, AggregateError>, fn: AggregateFunction, next: Value, ns: seq<int>, sign: int)
    requires (fn == Min && sign == -1) || (fn == Max && sign == 1)
    requires next.Null? || IntegerIn(next).Some?
    requires if ns == [] then current == Ok(Null) else Extreme(current, ns, sign)
    ensures var r := Accumulate(current.value, fn, next);
            if next.Null? then r == current else Extreme(r, ns + [IntegerIn(next).value], sign)
  {
  }

  /** The fold produced a member of the column, the last one in the direction
      of `sign`. */
  predicate Extreme(r: Result<Value, AggregateError>, ns: seq<int>, sign: int) {
    && r.Ok? && IntegerIn(r.value).Some? && IntegerIn(r.value).value in ns
    && forall n :: n in ns ==> sign * n <= sign * IntegerIn(r.value).value
  }
}
