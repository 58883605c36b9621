/** The loader's two rules that do not touch the database: how one record
    read from the database becomes a row, and the checks on the loaded rows
    before they are handed on. Opening the connection, building the query
    and reading the result set are not part of this model. */
module DataLoader {
  import opened Values
  import opened Models
  import opened Seqs

  const NoDataMessage := "No data was loaded from the database."
  const BinaryMessage := "Binary classification requires exactly two distinct label values."
  const MulticlassMessage := "Multiclass labels must be consecutive integers starting from 0."

  const Int64Min: int := -0x8000_0000_0000_0000
  const Int64Limit: int := 0x8000_0000_0000_0000

  // ----- one record -----

  /** A column value as the database reader returns it. */
  datatype Cell = DbNull | Bit(b: bool) | Integer(i: int) | Number(x: real)

  /** One record of the result set, by column name; reading a column the
      record lacks throws `IndexOutOfRangeException`. */
  type ReaderRow = map<string, Cell>

  /** `Convert.ToSingle` of a non-null column value. */
  function CellToSingle(c: Cell): real
    requires !c.DbNull?
  {
    match c
    case Bit(b) => if b then 1.0 else 0.0
    case Integer(i) => i as real
    case Number(x) => x
  }

  /** `Convert.ToInt64`: a null value cannot be cast, a number is rounded
      half to even, and a result outside the 64-bit range overflows. */
  function CellToInt64(c: Cell): (r: Result<int>)
    ensures r.Ok? ==> Int64Min <= r.value < Int64Limit
    ensures c.DbNull? ==> r == Err(InvalidCastException)
    ensures c.Bit? ==> r == Ok(if c.b then 1 else 0)
    ensures c.Integer? ==> (r.Ok? <==> Int64Min <= c.i < Int64Limit) && (r.Ok? ==> r.value == c.i)
    ensures c.Number? ==> (r.Ok? <==> Int64Min <= RoundHalfEven(c.x) < Int64Limit)
                          && (r.Ok? ==> r.value == RoundHalfEven(c.x))
    ensures r.Err? && !c.DbNull? ==> r.error == OverflowException
  {
    var n := match c
      case DbNull => 0
      case Bit(b) => if b then 1 else 0
      case Integer(i) => i
      case Number(x) => RoundHalfEven(x);
    if c.DbNull? then Err(InvalidCastException)
    else if Int64Min <= n < Int64Limit then Ok(n)
    else Err(OverflowException)
  }

  /** `Convert.ToUInt32`, the same way for the unsigned 32-bit range. */
  function CellToUInt32(c: Cell): (r: Result<uint32>)
    ensures c.DbNull? ==> r == Err(InvalidCastException)
    ensures c.Integer? && c.i < 0 ==> r == Err(OverflowException)
    ensures c.Bit? ==> r == Ok(if c.b then 1 else 0)
    ensures c.Integer? ==> (r.Ok? <==> 0 <= c.i < UInt32Limit) && (r.Ok? ==> r.value == c.i)
    ensures c.Number? ==> (r.Ok? <==> 0 <= RoundHalfEven(c.x) < UInt32Limit)
                          && (r.Ok? ==> r.value == RoundHalfEven(c.x))
    ensures r.Err? && !c.DbNull? ==> r.error == OverflowException
  {
    var n := match c
      case DbNull => 0
      case Bit(b) => if b then 1 else 0
      case Integer(i) => i
      case Number(x) => RoundHalfEven(x);
    if c.DbNull? then Err(InvalidCastException)
    else if 0 <= n < UInt32Limit then Ok(n)
    else Err(OverflowException)
  }

  /** A feature column as stored: a null becomes the float 0, anything else
      its float value. A column the record lacks reads as null here; the
      loader fails before using it. */
  function FieldValue(cells: ReaderRow, field: string): (v: Value)
    ensures v.Float?
  {
    if field !in cells || cells[field].DbNull? then Float(0.0) else Float(CellToSingle(cells[field]))
  }

  function FieldValues(cells: ReaderRow, fields: seq<string>): (r: seq<Value>)
    ensures |r| == |fields| && forall j :: 0 <= j < |fields| ==> r[j] == FieldValue(cells, fields[j])
  {
    seq(|fields|, j requires 0 <= j < |fields| => FieldValue(cells, fields[j]))
  }

  /** The target as stored for each model type: a binary (or unknown) model
      stores whether the integer value is non-zero, a multiclass model the
      unsigned value, a regression model the float value with null as 0. A
      null target fails for every type but regression. */
  function CoerceTarget(c: Cell, modelType: ModelType): (r: Result<Value>)
    ensures modelType.Regression? ==> r.Ok? && r.value.Float? && (c.DbNull? ==> r.value == Float(0.0))
    ensures modelType.MultiClassClassification? ==> (r.Ok? ==> r.value.UInt?)
    ensures modelType.BinaryClassification? || modelType.UndefinedModelType? ==> (r.Ok? ==> r.value.Bool?)
    ensures !modelType.Regression? && c.DbNull? ==> r == Err(InvalidCastException)
    ensures (modelType.BinaryClassification? || modelType.UndefinedModelType?) && c.Bit? ==> r == Ok(Bool(c.b))
    ensures (modelType.BinaryClassification? || modelType.UndefinedModelType?) && c.Integer? ==>
              r == if Int64Min <= c.i < Int64Limit then Ok(Bool(c.i != 0)) else Err(OverflowException)
    ensures (modelType.BinaryClassification? || modelType.UndefinedModelType?) && c.Number? ==>
              var n := RoundHalfEven(c.x);
              r == if Int64Min <= n < Int64Limit then Ok(Bool(n != 0)) else Err(OverflowException)
    ensures modelType.MultiClassClassification? && c.Bit? ==> r == Ok(UInt(if c.b then 1 else 0))
    ensures modelType.MultiClassClassification? && c.Integer? ==>
              r == if 0 <= c.i < UInt32Limit then Ok(UInt(c.i)) else Err(OverflowException)
    ensures modelType.MultiClassClassification? && c.Number? ==>
              var n := RoundHalfEven(c.x);
              r == if 0 <= n < UInt32Limit then Ok(UInt(n)) else Err(OverflowException)
    ensures modelType.Regression? && !c.DbNull? ==> r == Ok(Float(CellToSingle(c)))
  {
    match modelType
    case MultiClassClassification =>
      var n :- CellToUInt32(c);
      Ok(UInt(n))
    case Regression =>
      Ok(if c.DbNull? then Float(0.0) else Float(CellToSingle(c)))
    case _ =>
      var n :- CellToInt64(c);
      Ok(Bool(n != 0))
  }

  /** The row built from one record: every listed field in turn, then the
      target, which overwrites a field of the same name. A column the
      record lacks throws `IndexOutOfRangeException`. */
  function Coerced(cells: ReaderRow, fields: seq<string>, targetField: string, modelType: ModelType): Result<Row>
  {
    if exists j :: 0 <= j < |fields| && fields[j] !in cells then Err(IndexOutOfRangeException)
    else if targetField !in cells then Err(IndexOutOfRangeException)
    else
      var target :- CoerceTarget(cells[targetField], modelType);
      Ok(Record(fields, FieldValues(cells, fields), targetField, target))
  }

  /** A record becomes a row exactly when it has every listed column and
      the target, and the target converts; the row then holds exactly the
      fields and the target, each field as a float with null as 0, and the
      converted target, even when the target is also a listed field. */
  lemma CoercedSound(cells: ReaderRow, fields: seq<string>, targetField: string, modelType: ModelType)
    ensures var r := Coerced(cells, fields, targetField, modelType);
      && (r.Ok? <==>
            && (forall j :: 0 <= j < |fields| ==> fields[j] in cells)
            && targetField in cells && CoerceTarget(cells[targetField], modelType).Ok?)
      && (r.Ok? ==>
            && r.value.Keys == (set f | f in fields) + {targetField}
            && r.value[targetField] == CoerceTarget(cells[targetField], modelType).value
            && forall j :: 0 <= j < |fields| && LastOccurrence(fields, j) && fields[j] != targetField ==>
                 r.value[fields[j]] == (if cells[fields[j]].DbNull? then Float(0.0)
                                         else Float(CellToSingle(cells[fields[j]]))))
  {
  }

  /** The loop that fills one record. */
  method LoadRecord(cells: ReaderRow, fields: seq<string>, targetField: string, modelType: ModelType)
    returns (r: Result<Row>)
    ensures r == Coerced(cells, fields, targetField, modelType)
  {
    var record: Row := map[];
    for j := 0 to |fields|
      invariant forall k :: 0 <= k < j ==> fields[k] in cells
      invariant record == Fill(fields[..j], FieldValues(cells, fields))
    {
      var field := fields[j];
      if field !in cells {
        return Err(IndexOutOfRangeException);
      }
      var value := cells[field];
      record := record[field := if value.DbNull? then Float(0.0) else Float(CellToSingle(value))];
      assert fields[..j + 1][..j] == fields[..j];
    }
    assert fields[..|fields|] == fields;
    if targetField !in cells {
      return Err(IndexOutOfRangeException);
    }
    var target := CoerceTarget(cells[targetField], modelType);
    if target.Err? {
      return Err(target.error);
    }
    record := record[targetField := target.value];
    r := Ok(record);
  }

  // ----- the loaded rows -----

  /** `Convert.ToBoolean` of every row's label. */
  function BoolLabels(data: seq<Row>): (r: seq<bool>)
    requires HasKey(data, LabelKey)
    ensures |r| == |data| && forall i :: 0 <= i < |data| ==> r[i] == ToBoolean(data[i][LabelKey])
  {
    seq(|data|, i requires 0 <= i < |data| => ToBoolean(data[i][LabelKey]))
  }

  /** `Convert.ToUInt32` of the labels of the first n rows, in row order: the
      first row without a label or with one out of range stops it. */
  function UIntLabels(data: seq<Row>, n: nat): (r: Result<seq<nat>>)
    requires n <= |data|
    ensures r.Ok? ==> |r.value| == n && forall i :: 0 <= i < n ==>
      LabelKey in data[i] && ToUInt32(data[i][LabelKey]).Ok? && r.value[i] == ToUInt32(data[i][LabelKey]).value as nat
    ensures r.Ok? <==> forall i :: 0 <= i < n ==> LabelKey in data[i] && ToUInt32(data[i][LabelKey]).Ok?
  {
    if n == 0 then Ok([])
    else
      var labels :- UIntLabels(data, n - 1);
      if LabelKey !in data[n - 1] then Err(KeyNotFoundException)
      else
        var classLabel :- ToUInt32(data[n - 1][LabelKey]);
        Ok(labels + [classLabel as nat])
  }

  /** The sorted distinct labels are 0, 1, ..., m - 1: for distinct labels,
      the same as their set being that of `Enumerable.Range(0, m)`. */
  predicate Consecutive(classes: seq<nat>)
  {
    Elements(classes) == Elements(Iota(|classes|))
  }

  /** `ValidateLoadedData`. Labels are read from the column "Label",
      whatever the target field is called. */
  function ValidateLoadedData(data: seq<Row>, modelType: ModelType): (r: Outcome)
    ensures |data| == 0 ==> r == Fail(InvalidOperationException(NoDataMessage))
    ensures modelType.UndefinedModelType? && |data| > 0 ==> r.Pass?
  {
    if |data| == 0 then Fail(InvalidOperationException(NoDataMessage))
    else
      match modelType
      case BinaryClassification =>
        if !HasKey(data, LabelKey) then Fail(KeyNotFoundException)
        else if |Distinct(BoolLabels(data))| != 2 then Fail(InvalidOperationException(BinaryMessage))
        else Pass
      case MultiClassClassification =>
        var labels := UIntLabels(data, |data|);
        if labels.Err? then Fail(labels.error)
        else if Consecutive(Distinct(labels.value)) then Pass
        else Fail(InvalidOperationException(MulticlassMessage))
      case Regression =>
        if !HasKey(data, LabelKey) then Fail(KeyNotFoundException) else Pass
      case UndefinedModelType(_) => Pass
  }

  /** Two distinct booleans are both of them. */
  lemma {:induction false} TwoBooleans(classes: seq<bool>)
    requires forall i, j :: 0 <= i < j < |classes| ==> classes[i] != classes[j]
    ensures |classes| == 2 <==> true in classes && false in classes
  {
    DistinctCardinality(classes);
    var seen := Elements(classes);
    if true in classes && false in classes {
      assert seen == {true, false};
    } else if true in classes {
      assert seen == {true};
    } else if false in classes {
      assert seen == {false};
    } else {
      assert seen == {};
    }
  }

  /** Binary data passes exactly when it is non-empty, every row has a
      label, and both a true and a false label occur. */
  lemma BinaryValidation(data: seq<Row>)
    ensures ValidateLoadedData(data, BinaryClassification).Pass? <==>
      && |data| > 0 && HasKey(data, LabelKey)
      && (exists i :: 0 <= i < |data| && ToBoolean(data[i][LabelKey]))
      && (exists i :: 0 <= i < |data| && !ToBoolean(data[i][LabelKey]))
  {
    if |data| > 0 && HasKey(data, LabelKey) {
      var labels := BoolLabels(data);
      TwoBooleans(Distinct(labels));
      if exists i :: 0 <= i < |data| && ToBoolean(data[i][LabelKey]) {
        var i :| 0 <= i < |data| && ToBoolean(data[i][LabelKey]);
        assert labels[i] == true;
      }
      if exists i :: 0 <= i < |data| && !ToBoolean(data[i][LabelKey]) {
        var i :| 0 <= i < |data| && !ToBoolean(data[i][LabelKey]);
        assert labels[i] == false;
      }
    }
  }

  /** Distinct labels whose set is that of 0, ..., m - 1 are m of them. */
  lemma {:induction false} ConsecutiveLabels(labels: seq<nat>)
    ensures Consecutive(Distinct(labels)) <==> exists m: nat :: Elements(labels) == Elements(Iota(m))
  {
    var classes := Distinct(labels);
    assert Elements(classes) == Elements(labels);
    if m: nat :| Elements(labels) == Elements(Iota(m)) {
      DistinctCardinality(classes);
      DistinctCardinality(Iota(m));
    }
  }

  /** Multiclass data passes exactly when it is non-empty, every label is
      there and converts, and the labels that occur are 0, 1, ..., m - 1 for
      some m. */
  lemma MulticlassValidation(data: seq<Row>)
    ensures ValidateLoadedData(data, MultiClassClassification).Pass? <==>
      && |data| > 0
      && UIntLabels(data, |data|).Ok?
      && exists m: nat :: Elements(UIntLabels(data, |data|).value) == Elements(Iota(m))
  {
    if |data| > 0 && UIntLabels(data, |data|).Ok? {
      ConsecutiveLabels(UIntLabels(data, |data|).value);
    }
  }

  /** The validation reads "Label": when the first row lacks it, every
      model type but an unknown one fails with `KeyNotFoundException`. A
      row built from a record lacks it unless "Label" is the target or a
      listed field. */
  lemma LabelKeyRead(data: seq<Row>, modelType: ModelType)
    requires |data| > 0 && LabelKey !in data[0] && !modelType.UndefinedModelType?
    ensures ValidateLoadedData(data, modelType) == Fail(KeyNotFoundException)
  {
    if modelType.MultiClassClassification? {
      FirstLabelMissing(data, |data|);
    }
  }

  lemma {:induction false} FirstLabelMissing(data: seq<Row>, n: nat)
    requires 0 < n <= |data| && LabelKey !in data[0]
    ensures UIntLabels(data, n) == Err(KeyNotFoundException)
    decreases n
  {
    if n > 1 {
      FirstLabelMissing(data, n - 1);
    }
  }
}
