/** The dynamic row representation shared by every stage: a record is a
    dictionary from field name to a boxed value, and the .NET conversion
    rules the stages apply to those boxed values. */
module Values {

  const UInt32Limit: int := 0x1_0000_0000
  type uint32 = x: int | 0 <= x < UInt32Limit

  /** A boxed field value. The loader stores features as `float`, a binary
      label as `bool`, a multiclass label as `uint`; a missing value is `null`. */
  datatype Value = Bool(b: bool) | UInt(n: uint32) | Float(x: real) | Null

  /** One record: field name to value (a `Dictionary<string, object>`). */
  type Row = map<string, Value>

  /** The key under which the balancers write a synthetic row's label and
      the loader's validation reads labels, whatever the target field is
      called. */
  const LabelKey := "Label"

  /** The exceptions the core raises, by .NET exception type. */
  datatype Error =
    | ArgumentException(message: string)
    | ArgumentNullException(paramName: string)
    | InvalidOperationException(message: string)
    | KeyNotFoundException
    | IndexOutOfRangeException
    | ArgumentOutOfRangeException
    | NullReferenceException
    | OverflowException
    | InvalidCastException
    | CollaboratorFailure(collaborator: string)
    /** What `Parallel.For` throws when its body throws `inner`. */
    | AggregateException(inner: Error)

  datatype Result<+T> = Ok(value: T) | Err(error: Error) {
    predicate IsFailure() { Err? }
    function PropagateFailure<U>(): Result<U> requires Err? { Err(error) }
    function Extract(): T requires Ok? { value }
  }

  /** The result of a check that throws or returns normally. */
  datatype Outcome = Pass | Fail(error: Error) {
    predicate IsFailure() { Fail? }
    function PropagateFailure<U>(): Result<U> requires Fail? { Err(error) }
  }

  datatype Option<+T> = Nothing | Some(value: T)

  /** `Convert.ToBoolean(object)`: numbers are true when non-zero, null is false. */
  function ToBoolean(v: Value): bool
  {
    match v
    case Bool(b) => b
    case UInt(n) => n != 0
    case Float(x) => x != 0.0
    case Null => false
  }

  /** `Convert.ToSingle(object)` / `Convert.ToDouble(object)` on reals:
      a boolean is 1 or 0 and null is 0. */
  function ToSingle(v: Value): real
  {
    match v
    case Bool(b) => if b then 1.0 else 0.0
    case UInt(n) => n as real
    case Float(x) => x
    case Null => 0.0
  }

  /** Rounding to the nearest integer, ties to the even one, as the .NET
      conversions from floating point to integer types do. */
  function RoundHalfEven(x: real): (r: int)
    ensures x - 0.5 <= r as real <= x + 0.5
    ensures x - 0.5 < r as real < x + 0.5 || r % 2 == 0
  {
    var f := x.Floor;
    var frac := x - f as real;
    if frac < 0.5 then f
    else if frac > 0.5 then f + 1
    else if f % 2 == 0 then f else f + 1
  }

  /** `Convert.ToUInt32(object)`: rounds a float half to even and fails with
      an overflow outside the `uint` range; null converts to 0. */
  function ToUInt32(v: Value): (r: Result<uint32>)
    ensures v.Float? && r.Ok? ==> v.x - 0.5 <= r.value as real <= v.x + 0.5
    ensures v.Float? ==> (r.Ok? <==> 0 <= RoundHalfEven(v.x) < UInt32Limit)
    ensures v.Float? && r.Ok? ==> r.value == RoundHalfEven(v.x)
    ensures v.Float? && r.Err? ==> r.error == OverflowException
    ensures !v.Float? ==> r.Ok?
    ensures v.Bool? ==> r.value == (if v.b then 1 else 0)
    ensures v.UInt? ==> r.value == v.n
    ensures v.Null? ==> r.value == 0
  {
    match v
    case Bool(b) => Ok(if b then 1 else 0)
    case UInt(n) => Ok(n)
    case Float(x) =>
      var n := RoundHalfEven(x);
      if 0 <= n < UInt32Limit then Ok(n) else Err(OverflowException)
    case Null => Ok(0)
  }

  /** Every row has every one of the keys: exactly when indexing the
      dictionaries with them throws no `KeyNotFoundException`. */
  predicate HasKeys(rows: seq<Row>, keys: seq<string>)
  {
    forall i, j :: 0 <= i < |rows| && 0 <= j < |keys| ==> keys[j] in rows[i]
  }

  predicate HasKey(rows: seq<Row>, key: string)
  {
    forall i :: 0 <= i < |rows| ==> key in rows[i]
  }

  lemma HasKeysAppend(rows: seq<Row>, keys: seq<string>, key: string)
    requires HasKeys(rows, keys) && HasKey(rows, key)
    ensures HasKeys(rows, keys + [key])
  {
    var all := keys + [key];
    forall i, j | 0 <= i < |rows| && 0 <= j < |all| ensures all[j] in rows[i] {
      if j < |keys| {
        assert all[j] == keys[j];
      }
    }
  }

  /** The dictionary obtained by assigning `values[i]` to `names[i]` for
      i = 0, 1, ... in turn: a later duplicate name overwrites an earlier one. */
  function Fill(names: seq<string>, values: seq<Value>): Row
    requires |names| <= |values|
    decreases |names|
  {
    if names == [] then map[]
    else Fill(names[..|names| - 1], values)[names[|names| - 1] := values[|names| - 1]]
  }

  /** Position `i` holds the last occurrence of its name. */
  predicate LastOccurrence(names: seq<string>, i: int)
    requires 0 <= i < |names|
  {
    forall j :: i < j < |names| ==> names[j] != names[i]
  }

  lemma {:induction false} FillKeys(names: seq<string>, values: seq<Value>)
    requires |names| <= |values|
    ensures Fill(names, values).Keys == set n | n in names
    decreases |names|
  {
    if names != [] {
      var k := |names| - 1;
      FillKeys(names[..k], values);
      assert names == names[..k] + [names[k]];
      assert (set n | n in names) == (set n | n in names[..k]) + {names[k]};
    }
  }

  lemma {:induction false} FillLookup(names: seq<string>, values: seq<Value>, i: int)
    requires |names| <= |values|
    requires 0 <= i < |names| && LastOccurrence(names, i)
    ensures names[i] in Fill(names, values) && Fill(names, values)[names[i]] == values[i]
    decreases |names|
  {
    var k := |names| - 1;
    if i < k {
      assert names[..k][i] == names[i];
      assert LastOccurrence(names[..k], i);
      FillLookup(names[..k], values, i);
    }
  }

  lemma FillAt(names: seq<string>, values: seq<Value>)
    requires |names| <= |values|
    ensures Fill(names, values).Keys == set n | n in names
    ensures forall i :: 0 <= i < |names| && LastOccurrence(names, i) ==> Fill(names, values)[names[i]] == values[i]
  {
    FillKeys(names, values);
    forall i | 0 <= i < |names| && LastOccurrence(names, i)
      ensures Fill(names, values)[names[i]] == values[i]
    {
      FillLookup(names, values, i);
    }
  }

  /** A record built the way every stage builds one: the named values first,
      then `key` set to `keyValue`, overwriting a same-named field. */
  function Record(names: seq<string>, values: seq<Value>, key: string, keyValue: Value): (r: Row)
    requires |names| <= |values|
    ensures r.Keys == (set n | n in names) + {key}
    ensures r[key] == keyValue
    ensures forall i :: 0 <= i < |names| && LastOccurrence(names, i) && names[i] != key ==> r[names[i]] == values[i]
  {
    FillAt(names, values);
    Fill(names, values)[key := keyValue]
  }

  /** Boxes every entry of a feature vector as a `float`. */
  function Floats(v: seq<real>): (r: seq<Value>)
    ensures |r| == |v| && forall i :: 0 <= i < |v| ==> r[i] == Float(v[i])
  {
    seq(|v|, i requires 0 <= i < |v| => Float(v[i]))
  }

  // ----- collecting results -----

  /** The values of a sequence of results in order, or the error of the
      first one that failed: a loop that stops at its first exception. */
  function Collected<T>(rs: seq<Result<T>>): Result<seq<T>>
    decreases |rs|
  {
    if rs == [] then Ok([])
    else
      var prev := Collected(rs[..|rs| - 1]);
      if prev.Err? then prev
      else if rs[|rs| - 1].Err? then Err(rs[|rs| - 1].error)
      else Ok(prev.value + [rs[|rs| - 1].value])
  }

  /** Collecting succeeds exactly when every result does, and then yields
      every value in order; otherwise it yields the error of a failed result
      that only successes precede. */
  lemma {:induction false} CollectedSound<T>(rs: seq<Result<T>>)
    ensures var r := Collected(rs);
      && (r.Ok? <==> forall i :: 0 <= i < |rs| ==> rs[i].Ok?)
      && (r.Ok? ==> |r.value| == |rs| && forall i :: 0 <= i < |rs| ==> r.value[i] == rs[i].value)
      && (r.Err? ==> exists i :: 0 <= i < |rs| && rs[i].Err? && r.error == rs[i].error &&
                                 forall j :: 0 <= j < i ==> rs[j].Ok?)
    decreases |rs|
  {
    if rs != [] {
      var k := |rs| - 1;
      var p := rs[..k];
      CollectedSound(p);
      assert forall i :: 0 <= i < k ==> p[i] == rs[i];
      var prev := Collected(p);
      if prev.Ok? && rs[k].Ok? {
        var r := Collected(rs);
        assert r.value == prev.value + [rs[k].value];
        assert forall i :: 0 <= i < k ==> r.value[i] == prev.value[i];
      } else if prev.Ok? {
        assert forall j :: 0 <= j < k ==> rs[j].Ok?;
      }
    }
  }

  /** Once a prefix fails, every longer prefix fails with the same error. */
  lemma {:induction false} CollectedFailureStays<T>(rs: seq<Result<T>>, m: nat, n: nat)
    requires m <= n <= |rs|
    requires Collected(rs[..m]).Err?
    ensures Collected(rs[..n]) == Collected(rs[..m])
    decreases n - m
  {
    if m < n {
      CollectedFailureStays(rs, m, n - 1);
      assert rs[..n][..n - 1] == rs[..n - 1];
    }
  }

  /** Collecting one more result: its value is appended, or its error is
      the outcome of collecting them all. */
  lemma CollectedStep<T>(rs: seq<Result<T>>, i: nat, done: seq<T>)
    requires i < |rs| && Collected(rs[..i]) == Ok(done)
    ensures rs[i].Ok? ==> Collected(rs[..i + 1]) == Ok(done + [rs[i].value])
    ensures rs[i].Err? ==> Collected(rs) == Err(rs[i].error)
  {
    assert rs[..i + 1][..i] == rs[..i];
    if rs[i].Err? {
      CollectedFailureStays(rs, i + 1, |rs|);
      assert rs[..|rs|] == rs;
    }
  }
}
