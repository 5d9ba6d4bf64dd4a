/*
 * The Codable conformance of SimpleDate: the value is written as a keyed
 * container with exactly the four stored fields, and read back from one.
 * The container is abstracted to a map from key to a primitive value.
 */
module Coding {
  import opened SimpleDates
  import Months

  /** `CodingKeys`: one key per stored field. */
  datatype CodingKey = DayNumberKey | MonthKey | DayKey | IsLeapYearKey

  /** A primitive value stored under a key; `NullValue` is an explicit null. */
  datatype Value = IntValue(i: int) | BoolValue(b: bool) | NullValue

  type Container = map<CodingKey, Value>

  /** The three ways a keyed `decode` call throws. */
  datatype DecodingError =
    | KeyNotFound(key: CodingKey)
    | ValueNotFound(key: CodingKey)
    | TypeMismatch(key: CodingKey)

  datatype Result<T> = Success(value: T) | Failure(error: DecodingError) {
    predicate IsFailure() { Failure? }
    function PropagateFailure<U>(): Result<U> requires Failure? { Failure(error) }
    function Extract(): T requires Success? { value }
  }

  const AllKeys: set<CodingKey> := {DayNumberKey, MonthKey, DayKey, IsLeapYearKey}

  /** The position of a key in the order `init(from:)` reads the keys. */
  function ReadOrder(key: CodingKey): (position: int)
  {
    match key
    case DayNumberKey => 0
    case MonthKey => 1
    case DayKey => 2
    case IsLeapYearKey => 3
  }

  /** The key is present and holds a value of the type its field needs. */
  predicate Readable(c: Container, key: CodingKey)
  {
    key in c && (if key == IsLeapYearKey then c[key].BoolValue? else c[key].IntValue?)
  }

  /** The error a failed read of `key` throws. */
  function ReadError(c: Container, key: CodingKey): (error: DecodingError)
  {
    if key !in c then KeyNotFound(key)
    else if c[key].NullValue? then ValueNotFound(key)
    else TypeMismatch(key)
  }

  /** `values.decode(Int.self, forKey:)`. */
  function DecodeInt(c: Container, key: CodingKey): (r: Result<int>)
    ensures r.Success? <==> key in c && c[key].IntValue?
    ensures r.Success? ==> r.value == c[key].i
    ensures r.Failure? ==> r.error == ReadError(c, key)
  {
    if key !in c then Failure(KeyNotFound(key))
    else match c[key]
      case IntValue(i) => Success(i)
      case NullValue => Failure(ValueNotFound(key))
      case BoolValue(_) => Failure(TypeMismatch(key))
  }

  /** `values.decode(Bool.self, forKey:)`. */
  function DecodeBool(c: Container, key: CodingKey): (r: Result<bool>)
    ensures r.Success? <==> key in c && c[key].BoolValue?
    ensures r.Success? ==> r.value == c[key].b
    ensures r.Failure? ==> r.error == ReadError(c, key)
  {
    if key !in c then Failure(KeyNotFound(key))
    else match c[key]
      case BoolValue(b) => Success(b)
      case NullValue => Failure(ValueNotFound(key))
      case IntValue(_) => Failure(TypeMismatch(key))
  }

  /**
   * `init(from:)`: reads the four keys in order and stops at the first
   * failure. The ordinal is taken as given, not recomputed from month and
   * day; keys beyond the four are ignored.
   */
  function Decode(c: Container): (r: Result<SimpleDate>)
    ensures r.Success? <==> forall key :: key in AllKeys ==> Readable(c, key)
    ensures r.Success? ==>
              && r.value.dayNumber == c[DayNumberKey].i
              && r.value.month == c[MonthKey].i
              && r.value.day == c[DayKey].i
              && r.value.isLeapYear == c[IsLeapYearKey].b
    ensures r.Failure? ==>
              && r.error == ReadError(c, r.error.key)
              && !Readable(c, r.error.key)
              && forall key :: ReadOrder(key) < ReadOrder(r.error.key) ==> Readable(c, key)
  {
    var dayNumber :- DecodeInt(c, DayNumberKey);
    var month :- DecodeInt(c, MonthKey);
    var day :- DecodeInt(c, DayKey);
    var isLeapYear :- DecodeBool(c, IsLeapYearKey);
    Success(SimpleDate(dayNumber, month, day, isLeapYear))
  }

  /** `encode(to:)`: all four fields, each under its own key. */
  function Encode(d: SimpleDate): (c: Container)
    ensures c.Keys == AllKeys
    ensures forall key :: key in AllKeys ==> Readable(c, key)
  {
    map[DayNumberKey := IntValue(d.dayNumber),
        MonthKey := IntValue(d.month),
        DayKey := IntValue(d.day),
        IsLeapYearKey := BoolValue(d.isLeapYear)]
  }

  /** Decoding what was encoded gives back the same four fields. */
  lemma DecodeEncode(d: SimpleDate)
    ensures Decode(Encode(d)) == Success(d)
  {
  }

  /** Encoding a decoded value gives back a container that held just the four keys. */
  lemma EncodeDecode(c: Container)
    requires c.Keys == AllKeys && Decode(c).Success?
    ensures Encode(Decode(c).value) == c
  {
    var e := Encode(Decode(c).value);
    forall key | key in AllKeys
      ensures e[key] == c[key]
    {
      assert Readable(c, key);
    }
  }

  /**
   * Decoding does not check the ordinal against month and day: a container
   * that claims December 31 is day 1 decodes to a value that is not valid.
   */
  lemma DecodeTrustsDayNumber()
    ensures var c := map[DayNumberKey := IntValue(1), MonthKey := IntValue(12),
                         DayKey := IntValue(31), IsLeapYearKey := BoolValue(false)];
            Decode(c).Success? && Decode(c).value.dayNumber == 1 && !Valid(Decode(c).value)
  {
    Months.MonthsOffsetLandmarks(false);
  }
}
