/** Event envelopes, and their expansion into typed property rows.

    Floating-point conversion is a parameter (`Conversion`); times are instants counted
    from Go's zero time, so 0 is "not set". */
module Events {
  import opened Prelude
  import opened Ordering

  type Time = int
  const ZERO_TIME: Time := 0

  /** IEEE doubles up to the sign of zero. */
  datatype Float64 = Finite(value: real) | PosInf | NegInf | NaN

  /** Numeric property values before conversion: Go integers, floats, or a JSON number's text. */
  datatype Numeric = Integer(value: int) | Float(float: Float64) | JsonNumber(text: string)

  /** `None` is a parse failure. */
  type Conversion = Numeric -> Option<Float64>

  datatype RawValue =
    | Null
    | Bool(flag: bool)
    | Text(text: string)
    | Number(number: Numeric)
    | Unsupported

  datatype Base = Base(
    eventId: string, tenantId: string, projectId: string, sourceId: string,
    sourceType: string, eventName: string, distinctId: string, sessionId: string, visitId: string,
    eventTime: Time, receivedAt: Time, source: string)

  datatype Envelope = Envelope(base: Base, properties: map<string, RawValue>, userProps: map<string, RawValue>)

  const SCOPE_EVENT := "event"
  const SCOPE_USER := "user"

  const TYPE_NULL := "null"
  const TYPE_STRING := "string"
  const TYPE_NUMBER := "number"
  const TYPE_BOOL := "bool"

  /** One typed property row: the type marker says which value slot is meaningful. */
  datatype Record = Record(
    base: Base, scope: string, name: string, valueType: string,
    stringValue: string, numberValue: Float64, boolValue: bool)

  datatype FlattenError = InvalidNumber(scope: string, name: string) | UnsupportedValue(scope: string, name: string)

  function NewRecord(conv: Conversion, base: Base, scope: string, name: string, value: RawValue): Result<Record, FlattenError> {
    var blank := Record(base, scope, name, "", "", Finite(0.0), false);
    match value
    case Null => Ok(blank.(valueType := TYPE_NULL))
    case Bool(b) => Ok(blank.(valueType := TYPE_BOOL, boolValue := b))
    case Text(s) => Ok(blank.(valueType := TYPE_STRING, stringValue := s))
    case Number(n) =>
      (match conv(n)
       case None => Err(InvalidNumber(scope, name))
       case Some(f) =>
         if f.Finite? then Ok(blank.(valueType := TYPE_NUMBER, numberValue := f))
         else Err(InvalidNumber(scope, name)))
    case Unsupported => Err(UnsupportedValue(scope, name))
  }

  function ScopeValues(e: Envelope, scope: string): map<string, RawValue> {
    if scope == SCOPE_EVENT then e.properties
    else if scope == SCOPE_USER then e.userProps
    else map[]
  }

  /** Rows for the first `n` keys in the given order, or the first failure met. */
  function FlattenKeys(conv: Conversion, base: Base, scope: string, values: map<string, RawValue>, keys: seq<string>, n: nat)
    : Result<seq<Record>, FlattenError>
    requires n <= |keys| && forall k | k in keys :: k in values
  {
    if n == 0 then Ok([])
    else
      var sofar := FlattenKeys(conv, base, scope, values, keys, n - 1);
      if sofar.Err? then sofar
      else
        var record := NewRecord(conv, base, scope, keys[n - 1], values[keys[n - 1]]);
        if record.Err? then Err(record.error) else Ok(sofar.value + [record.value])
  }

  lemma FlattenOneMore(conv: Conversion, base: Base, scope: string, values: map<string, RawValue>, keys: seq<string>, n: nat)
    requires n < |keys| && forall k | k in keys :: k in values
    requires FlattenKeys(conv, base, scope, values, keys, n).Ok?
    ensures keys[n] in values
    ensures var record := NewRecord(conv, base, scope, keys[n], values[keys[n]]);
            FlattenKeys(conv, base, scope, values, keys, n + 1) ==
              if record.Err? then Err(record.error)
              else Ok(FlattenKeys(conv, base, scope, values, keys, n).value + [record.value])
  {
    assert keys[n] in keys;
  }

  ghost function FlattenMap(conv: Conversion, base: Base, scope: string, values: map<string, RawValue>)
    : Result<seq<Record>, FlattenError>
  {
    var keys := SortedStrings(values.Keys);
    FlattenKeys(conv, base, scope, values, keys, |keys|)
  }

  ghost function Flatten(conv: Conversion, e: Envelope): Result<seq<Record>, FlattenError> {
    match FlattenMap(conv, e.base, SCOPE_EVENT, e.properties)
    case Err(err) => Err(err)
    case Ok(records) =>
      match FlattenMap(conv, e.base, SCOPE_USER, e.userProps)
      case Err(err) => Err(err)
      case Ok(userRecords) => Ok(records + userRecords)
  }

  method FlattenPropertyMap(conv: Conversion, base: Base, scope: string, values: map<string, RawValue>)
    returns (r: Result<seq<Record>, FlattenError>)
    ensures r == FlattenMap(conv, base, scope, values)
  {
    var keys := SortStrings(values.Keys);
    var records: seq<Record> := [];
    for i := 0 to |keys|
      invariant FlattenKeys(conv, base, scope, values, keys, i) == Ok(records)
    {
      FlattenOneMore(conv, base, scope, values, keys, i);
      var record := NewRecord(conv, base, scope, keys[i], values[keys[i]]);
      if record.Err? {
        FailureSticks(conv, base, scope, values, keys, i + 1, |keys|);
        return Err(record.error);
      }
      records := records + [record.value];
    }
    return Ok(records);
  }

  method FlattenEventProperties(conv: Conversion, e: Envelope) returns (r: Result<seq<Record>, FlattenError>)
    ensures r == Flatten(conv, e)
  {
    var records := FlattenPropertyMap(conv, e.base, SCOPE_EVENT, e.properties);
    if records.Err? {
      return records;
    }
    var userRecords := FlattenPropertyMap(conv, e.base, SCOPE_USER, e.userProps);
    if userRecords.Err? {
      return userRecords;
    }
    return Ok(records.value + userRecords.value);
  }

  /** Once a prefix of the keys has failed, every longer prefix fails the same way. */
  lemma {:induction false} FailureSticks(conv: Conversion, base: Base, scope: string, values: map<string, RawValue>, keys: seq<string>, i: nat, n: nat)
    requires i <= n <= |keys|
    requires forall k | k in keys :: k in values
    requires FlattenKeys(conv, base, scope, values, keys, i).Err?
    ensures FlattenKeys(conv, base, scope, values, keys, n) == FlattenKeys(conv, base, scope, values, keys, i)
    decreases n
  {
    if i < n {
      FailureSticks(conv, base, scope, values, keys, i, n - 1);
    }
  }

  // --------------------------------------------------- what flattening means

  /** The row of `e` for one of its own properties. */
  ghost predicate IsOwnRow(conv: Conversion, e: Envelope, r: Record) {
    && r.scope in {SCOPE_EVENT, SCOPE_USER}
    && r.name in ScopeValues(e, r.scope)
    && NewRecord(conv, e.base, r.scope, r.name, ScopeValues(e, r.scope)[r.name]) == Ok(r)
  }

  ghost predicate Convertible(conv: Conversion, value: RawValue) {
    match value
    case Number(n) => conv(n).Some? && conv(n).value.Finite?
    case Unsupported => false
    case _ => true
  }

  lemma {:induction false} FlattenKeysRows(conv: Conversion, base: Base, scope: string, values: map<string, RawValue>, keys: seq<string>, n: nat)
    requires n <= |keys| && forall k | k in keys :: k in values
    ensures var r := FlattenKeys(conv, base, scope, values, keys, n);
            && (r.Ok? <==> forall i | 0 <= i < n :: Convertible(conv, values[keys[i]]))
            && (r.Ok? ==> |r.value| == n)
            && (r.Ok? ==> forall i | 0 <= i < n :: NewRecord(conv, base, scope, keys[i], values[keys[i]]) == Ok(r.value[i]))
  {
    if n > 0 {
      FlattenKeysRows(conv, base, scope, values, keys, n - 1);
      assert keys[n - 1] in keys;
    }
  }

  lemma FlattenMapSucceeds(conv: Conversion, base: Base, scope: string, values: map<string, RawValue>)
    ensures FlattenMap(conv, base, scope, values).Ok? <==> forall k | k in values :: Convertible(conv, values[k])
  {
    var keys := SortedStrings(values.Keys);
    FlattenKeysRows(conv, base, scope, values, keys, |keys|);
    assert forall i | 0 <= i < |keys| :: keys[i] in keys;
    assert forall k | k in values :: k in keys;
  }

  /** Flattening succeeds exactly when every value of both maps is a representable scalar. */
  lemma FlattenSucceeds(conv: Conversion, e: Envelope)
    ensures Flatten(conv, e).Ok? <==>
              && (forall k | k in e.properties :: Convertible(conv, e.properties[k]))
              && (forall k | k in e.userProps :: Convertible(conv, e.userProps[k]))
  {
    FlattenMapSucceeds(conv, e.base, SCOPE_EVENT, e.properties);
    FlattenMapSucceeds(conv, e.base, SCOPE_USER, e.userProps);
  }

  /** The row of a value: its type marker and the one slot that is meaningful, the others blank. */
  lemma RecordMeans(conv: Conversion, base: Base, scope: string, name: string, value: RawValue)
    ensures NewRecord(conv, base, scope, name, value) ==
              match value
              case Null => Ok(Record(base, scope, name, "null", "", Finite(0.0), false))
              case Bool(b) => Ok(Record(base, scope, name, "bool", "", Finite(0.0), b))
              case Text(s) => Ok(Record(base, scope, name, "string", s, Finite(0.0), false))
              case Unsupported => Err(UnsupportedValue(scope, name))
              case Number(n) =>
                if conv(n).Some? && conv(n).value.Finite? then Ok(Record(base, scope, name, "number", "", conv(n).value, false))
                else Err(InvalidNumber(scope, name))
  {
  }

  /** Why flattening fails: the first value, event properties before user properties and names in order,
      that is not representable. */
  ghost predicate FirstUnrepresentable(conv: Conversion, e: Envelope, scope: string, name: string) {
    && name in ScopeValues(e, scope) && !Convertible(conv, ScopeValues(e, scope)[name])
    && (forall k | k in ScopeValues(e, scope) && StringLess(k, name) :: Convertible(conv, ScopeValues(e, scope)[k]))
    && (scope == SCOPE_USER ==> forall k | k in e.properties :: Convertible(conv, e.properties[k]))
  }

  lemma {:induction false} FirstFailure(conv: Conversion, base: Base, scope: string, values: map<string, RawValue>, keys: seq<string>, n: nat) returns (i: nat)
    requires n <= |keys| && forall k | k in keys :: k in values
    requires FlattenKeys(conv, base, scope, values, keys, n).Err?
    ensures i < n && keys[i] in values && !Convertible(conv, values[keys[i]])
    ensures forall j | 0 <= j < i :: keys[j] in values && Convertible(conv, values[keys[j]])
    ensures NewRecord(conv, base, scope, keys[i], values[keys[i]]) == Err(FlattenKeys(conv, base, scope, values, keys, n).error)
  {
    FlattenKeysRows(conv, base, scope, values, keys, n - 1);
    if FlattenKeys(conv, base, scope, values, keys, n - 1).Err? {
      i := FirstFailure(conv, base, scope, values, keys, n - 1);
    } else {
      i := n - 1;
      assert forall j | 0 <= j < n :: keys[j] in keys;
    }
  }

  lemma LaterIsNotLess(keys: seq<string>, i: nat, j: nat)
    requires Sorted(StringLess, keys) && i <= j < |keys|
    ensures !StringLess(keys[j], keys[i])
  {
    StringLessTotal(keys[i], keys[j]);
    assert i < j ==> StringLess(keys[i], keys[j]);
  }

  lemma FirstMapFailure(conv: Conversion, base: Base, scope: string, values: map<string, RawValue>) returns (name: string)
    requires FlattenMap(conv, base, scope, values).Err?
    ensures name in values && !Convertible(conv, values[name])
    ensures forall k | k in values && StringLess(k, name) :: Convertible(conv, values[k])
    ensures FlattenMap(conv, base, scope, values).error ==
              if values[name].Unsupported? then UnsupportedValue(scope, name) else InvalidNumber(scope, name)
  {
    var keys := SortedStrings(values.Keys);
    var i := FirstFailure(conv, base, scope, values, keys, |keys|);
    name := keys[i];
    SortedStringsIncrease(values.Keys);
    forall k | k in values && StringLess(k, name) ensures Convertible(conv, values[k]) {
      assert k in keys;
      var j :| 0 <= j < |keys| && keys[j] == k;
      if i <= j {
        LaterIsNotLess(keys, i, j);
      }
    }
  }

  /** The error names that value, and tells a number from a value of an unsupported kind. */
  lemma FlattenFailsFirst(conv: Conversion, e: Envelope) returns (scope: string, name: string)
    requires Flatten(conv, e).Err?
    ensures FirstUnrepresentable(conv, e, scope, name)
    ensures Flatten(conv, e).error ==
              if ScopeValues(e, scope)[name].Unsupported? then UnsupportedValue(scope, name) else InvalidNumber(scope, name)
  {
    FlattenMapSucceeds(conv, e.base, SCOPE_EVENT, e.properties);
    if FlattenMap(conv, e.base, SCOPE_EVENT, e.properties).Err? {
      scope := SCOPE_EVENT;
      name := FirstMapFailure(conv, e.base, SCOPE_EVENT, e.properties);
    } else {
      scope := SCOPE_USER;
      name := FirstMapFailure(conv, e.base, SCOPE_USER, e.userProps);
    }
  }

  lemma RecordIsNamed(conv: Conversion, base: Base, scope: string, name: string, value: RawValue)
    requires NewRecord(conv, base, scope, name, value).Ok?
    ensures NewRecord(conv, base, scope, name, value).value.name == name
    ensures NewRecord(conv, base, scope, name, value).value.scope == scope
  {
  }

  lemma {:induction false} KeysRowsNamed(conv: Conversion, base: Base, scope: string, values: map<string, RawValue>, keys: seq<string>, rows: seq<Record>)
    requires forall k | k in keys :: k in values
    requires FlattenKeys(conv, base, scope, values, keys, |keys|) == Ok(rows)
    ensures |rows| == |keys|
    ensures forall i | 0 <= i < |rows| ::
              && rows[i].name == keys[i] && rows[i].scope == scope && keys[i] in values
              && NewRecord(conv, base, scope, keys[i], values[keys[i]]) == Ok(rows[i])
  {
    FlattenKeysRows(conv, base, scope, values, keys, |keys|);
    forall i | 0 <= i < |keys| ensures keys[i] in values && rows[i].name == keys[i] && rows[i].scope == scope {
      assert keys[i] in keys;
      RecordIsNamed(conv, base, scope, keys[i], values[keys[i]]);
    }
  }

  /** The row at each position is the row of the name at that position in sorted order. */
  lemma FlattenMapRows(conv: Conversion, base: Base, scope: string, values: map<string, RawValue>)
    requires FlattenMap(conv, base, scope, values).Ok?
    ensures var keys, rows := SortedStrings(values.Keys), FlattenMap(conv, base, scope, values).value;
            && |rows| == |keys|
            && forall i | 0 <= i < |rows| ::
                 && rows[i].name == keys[i] && rows[i].scope == scope && keys[i] in values
                 && NewRecord(conv, base, scope, keys[i], values[keys[i]]) == Ok(rows[i])
  {
    KeysRowsNamed(conv, base, scope, values, SortedStrings(values.Keys), FlattenMap(conv, base, scope, values).value);
  }

  predicate RowOf(conv: Conversion, base: Base, scope: string, values: map<string, RawValue>, r: Record) {
    r.name in values && NewRecord(conv, base, scope, r.name, values[r.name]) == Ok(r)
  }

  lemma FlattenMapHas(conv: Conversion, base: Base, scope: string, values: map<string, RawValue>, r: Record)
    requires FlattenMap(conv, base, scope, values).Ok?
    ensures r in FlattenMap(conv, base, scope, values).value <==> RowOf(conv, base, scope, values, r)
  {
    FlattenMapRows(conv, base, scope, values);
    var keys, rows := SortedStrings(values.Keys), FlattenMap(conv, base, scope, values).value;
    if r.name in values && NewRecord(conv, base, scope, r.name, values[r.name]) == Ok(r) {
      assert r.name in keys;
      var i :| 0 <= i < |keys| && keys[i] == r.name;
      assert rows[i] == r;
    }
  }

  lemma OwnRowOfEither(conv: Conversion, e: Envelope, r: Record)
    ensures IsOwnRow(conv, e, r) <==>
              RowOf(conv, e.base, SCOPE_EVENT, e.properties, r) || RowOf(conv, e.base, SCOPE_USER, e.userProps, r)
  {
    if RowOf(conv, e.base, SCOPE_EVENT, e.properties, r) {
      RecordIsNamed(conv, e.base, SCOPE_EVENT, r.name, e.properties[r.name]);
    }
    if RowOf(conv, e.base, SCOPE_USER, e.userProps, r) {
      RecordIsNamed(conv, e.base, SCOPE_USER, r.name, e.userProps[r.name]);
    }
  }

  lemma InEither(first: seq<Record>, second: seq<Record>, r: Record)
    ensures r in first + second <==> r in first || r in second
  {
  }

  /** The rows of an event are exactly the rows of its own properties. */
  lemma FlattenIsOwnRows(conv: Conversion, e: Envelope, r: Record)
    requires Flatten(conv, e).Ok?
    ensures r in Flatten(conv, e).value <==> IsOwnRow(conv, e, r)
  {
    FlattenMapHas(conv, e.base, SCOPE_EVENT, e.properties, r);
    FlattenMapHas(conv, e.base, SCOPE_USER, e.userProps, r);
    OwnRowOfEither(conv, e, r);
    InEither(FlattenMap(conv, e.base, SCOPE_EVENT, e.properties).value, FlattenMap(conv, e.base, SCOPE_USER, e.userProps).value, r);
  }

  /** Event rows come first, and inside each scope names increase strictly, so no selector
      occurs twice. */
  lemma FlattenIsOrdered(conv: Conversion, e: Envelope, i: nat, j: nat)
    requires Flatten(conv, e).Ok? && i < j < |Flatten(conv, e).value|
    ensures var rows := Flatten(conv, e).value;
            || (rows[i].scope == SCOPE_EVENT && rows[j].scope == SCOPE_USER)
            || (rows[i].scope == rows[j].scope && StringLess(rows[i].name, rows[j].name))
  {
    var first := FlattenMap(conv, e.base, SCOPE_EVENT, e.properties).value;
    var second := FlattenMap(conv, e.base, SCOPE_USER, e.userProps).value;
    if i < |first| {
      FlattenMapRows(conv, e.base, SCOPE_EVENT, e.properties);
      SortedStringsIncrease(e.properties.Keys);
    }
    if |first| <= j {
      FlattenMapRows(conv, e.base, SCOPE_USER, e.userProps);
      SortedStringsIncrease(e.userProps.Keys);
    }
  }
}
