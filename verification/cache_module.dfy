/** `mapToContentValues` of `CacheModule.kt`: the flattening of a column map
    into database row values, which keeps only values of a type a row can
    store. */
module CacheModule {
  import opened Common

  /** A runtime value in the column map. Floating-point values are carried by
      their bit patterns; `OtherValue` is an object of any other class. */
  datatype Value =
    | BooleanValue(boolean: bool)
    | FloatValue(floatBits: bv32)
    | DoubleValue(doubleBits: bv64)
    | LongValue(long: Int64)
    | IntValue(integer: Int32)
    | ByteValue(byte: Int8)
    | ByteArrayValue(bytes: seq<Int8>)
    | ShortValue(short: Int16)
    | StringValue(str: string)
    | OtherValue(className: string)

  /** The types `ContentValues.put` has an overload for. */
  predicate IsStorable(v: Value) {
    !v.OtherValue?
  }

  /** `mapToContentValues`: every entry whose value is of a storable type is
      copied under its key; null values and values of other types are dropped. */
  method MapToContentValues(m: map<string, Option<Value>>) returns (values: map<string, Value>)
    ensures values.Keys <= m.Keys
    ensures forall key :: key in m ==> (key in values <==> m[key].Some? && IsStorable(m[key].value))
    ensures forall key :: key in values ==> m[key] == Some(values[key]) && IsStorable(values[key])
  {
    values := map[];
    var remaining := m.Keys;
    while remaining != {}
      invariant remaining <= m.Keys
      invariant values.Keys !! remaining
      invariant values.Keys <= m.Keys
      invariant forall key :: key in m && key !in remaining ==> (key in values <==> m[key].Some? && IsStorable(m[key].value))
      invariant forall key :: key in values ==> m[key] == Some(values[key]) && IsStorable(values[key])
      decreases remaining
    {
      var key :| key in remaining;
      match m[key] {
        case Some(v) =>
          if IsStorable(v) {
            values := values[key := v];
          }
        case None =>
      }
      remaining := remaining - {key};
    }
  }

  /** The storable entries of a column map. */
  function StorableEntries(m: map<string, Option<Value>>): map<string, Value> {
    map key | key in m && m[key].Some? && IsStorable(m[key].value) :: m[key].value
  }

  /** The flattening is determined by the storable entries: whatever
      `MapToContentValues` returns is `StorableEntries`, so an empty map gives
      an empty result and flattening a result again changes nothing. */
  lemma FlatteningIsDetermined(m: map<string, Option<Value>>, values: map<string, Value>)
    requires values.Keys <= m.Keys
    requires forall key :: key in m ==> (key in values <==> m[key].Some? && IsStorable(m[key].value))
    requires forall key :: key in values ==> m[key] == Some(values[key])
    ensures values == StorableEntries(m)
    ensures |m| == 0 ==> |values| == 0
    ensures StorableEntries(map key | key in values :: Some(values[key])) == values
  {
  }
}
