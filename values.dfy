/** The song-metadata record shared by both `Song` classes: the values its
    dictionary holds, the keys it uses, the fixed order in which `getList`
    flattens it, and the Python conversions (`int()`, `str()`) the setters and
    getters apply to single values. */
module SongValues {

  datatype Option<T> = None | Some(value: T)

  /** A value stored in a song's `songData` dictionary. Python stores whatever
      it is given; the model distinguishes strings and integers, which the code
      compares and converts, and treats everything else (the float `length`,
      a timings list) as an opaque value that is only stored and returned. */
  datatype Value = Str(s: string) | Int(i: int) | Opaque(tag: nat)

  const TitleKey: string := "title"
  const DateKey: string := "date"
  const TimeKey: string := "time"
  const LengthKey: string := "length"
  const BpmKey: string := "bpm"
  const UserBpmKey: string := "userBPM"
  const LocationKey: string := "location"
  const StarsKey: string := "stars"
  const PlayingKey: string := "playing"
  const DiskKey: string := "disk"
  const TimingsKey: string := "timings"
  /** The key `getNewData` looks up; no operation ever stores it. */
  const NewDataKey: string := "newData"

  /** The ten record fields, in the order `getList` emits them and the
      constructor's tuple assignment fills them. */
  const FieldOrder: seq<string> :=
    [TitleKey, DateKey, TimeKey, LengthKey, BpmKey, UserBpmKey, LocationKey, StarsKey, PlayingKey, DiskKey]

  const RecordKeys: set<string> :=
    {TitleKey, DateKey, TimeKey, LengthKey, BpmKey, UserBpmKey, LocationKey, StarsKey, PlayingKey, DiskKey}

  /** A dictionary holding all ten record fields. */
  predicate IsRecord(data: map<string, Value>) {
    RecordKeys <= data.Keys
  }

  /** `getList`: the record flattened into the fixed field order. */
  function ListOf(data: map<string, Value>): (r: seq<Value>)
    requires IsRecord(data)
    ensures |r| == |FieldOrder| == 10
    ensures forall k :: 0 <= k < |r| ==> FieldOrder[k] in data && r[k] == data[FieldOrder[k]]
  {
    [data[TitleKey], data[DateKey], data[TimeKey], data[LengthKey], data[BpmKey],
     data[UserBpmKey], data[LocationKey], data[StarsKey], data[PlayingKey], data[DiskKey]]
  }

  /** The dictionary built by assigning a ten-element tuple to the ten fields
      in order, as the constructors' unpacking assignment does. */
  function RecordOf(fields: seq<Value>): (m: map<string, Value>)
    requires |fields| == |FieldOrder|
    ensures IsRecord(m) && m.Keys == RecordKeys
    ensures ListOf(m) == fields
  {
    map[TitleKey := fields[0], DateKey := fields[1], TimeKey := fields[2], LengthKey := fields[3],
        BpmKey := fields[4], UserBpmKey := fields[5], LocationKey := fields[6], StarsKey := fields[7],
        PlayingKey := fields[8], DiskKey := fields[9]]
  }

  /** Python's `int()` on a number: truncation toward zero. */
  function TruncToInt(x: real): (n: int)
    ensures 0.0 <= x ==> n as real <= x < n as real + 1.0
    ensures x < 0.0 ==> n as real - 1.0 < x <= n as real
  {
    if x >= 0.0 then x.Floor else -((-x).Floor)
  }

  /** The bounds check and conversion of `setStars`: `None` when the rating
      lies outside [0, 5] (the setter then returns without changing anything),
      otherwise the truncated rating it stores. */
  function StarRating(stars: real): (r: Option<int>)
    ensures r.Some? <==> 0.0 <= stars <= 5.0
    ensures r.Some? ==> 0 <= r.value <= 5 && r.value as real <= stars < r.value as real + 1.0
  {
    if stars < 0.0 || stars > 5.0 then None else Some(TruncToInt(stars))
  }

  function Digit(d: nat): (c: char)
    requires d < 10
  {
    (('0' as int) + d) as char
  }

  predicate IsDigits(s: string) {
    forall k :: 0 <= k < |s| ==> '0' <= s[k] <= '9'
  }

  /** The decimal form Python prints: at least one digit, and no leading
      zero unless the number is zero itself. */
  predicate Canonical(s: string) {
    |s| >= 1 && IsDigits(s) && (|s| > 1 ==> s[0] != '0')
  }

  /** Python's `str()` on a non-negative integer. */
  function NatString(n: nat): (s: string)
    ensures Canonical(s)
    ensures n > 0 ==> s[0] != '0'
  {
    if n < 10 then [Digit(n)] else NatString(n / 10) + [Digit(n % 10)]
  }

  /** Python's `int()` on a string of decimal digits. */
  function ParseNat(s: string): (n: nat)
    requires IsDigits(s)
    ensures s != [] && s[0] != '0' ==> n > 0
  {
    if s == [] then 0
    else
      var init := s[..|s| - 1];
      if init == [] then s[0] as int - '0' as int
      else
        assert init[0] == s[0];
        ParseNat(init) * 10 + (s[|s| - 1] as int - '0' as int)
  }

  lemma {:induction false} ParseNatString(n: nat)
    ensures ParseNat(NatString(n)) == n
  {
    if n >= 10 {
      ParseNatString(n / 10);
      var s := NatString(n);
      assert s[..|s| - 1] == NatString(n / 10);
    }
  }

  /** The decimal form is unique: the only canonical digit string that reads
      back as `n` is `str(n)`. */
  lemma {:induction false} CanonicalUnique(s: string, n: nat)
    requires Canonical(s) && ParseNat(s) == n
    ensures s == NatString(n)
  {
    var init := s[..|s| - 1];
    var d := s[|s| - 1] as int - '0' as int;
    if init == [] {
      assert s == [Digit(n)];
    } else {
      assert init[0] == s[0];
      assert Canonical(init);
      assert n == ParseNat(init) * 10 + d && 0 <= d < 10;
      assert n / 10 == ParseNat(init) && n % 10 == d;
      CanonicalUnique(init, n / 10);
      assert s == init + [s[|s| - 1]];
    }
  }

  /** Python's `str()` on an integer: a '-' before the digits of a negative
      number, which read back as its magnitude. */
  function IntString(n: int): (s: string)
    ensures |s| >= 1
    ensures n >= 0 <==> s[0] != '-'
    ensures n >= 0 ==> Canonical(s) && ParseNat(s) == n
    ensures n < 0 ==> Canonical(s[1..]) && ParseNat(s[1..]) == -n
  {
    ParseNatString(if n < 0 then -n else n);
    if n < 0 then "-" + NatString(-n) else NatString(n)
  }

  /** Python's `str()` on a stored value, where the model renders it: a string
      is itself, an integer its decimal form; an opaque value yields `None`. */
  function PyStr(v: Value): (r: Option<string>)
    ensures v.Str? ==> r == Some(v.s)
    ensures v.Int? && v.i >= 0 ==> r.Some? && Canonical(r.value) && ParseNat(r.value) == v.i
    ensures v.Int? && v.i < 0 ==>
              r.Some? && |r.value| >= 2 && r.value[0] == '-' && Canonical(r.value[1..]) && ParseNat(r.value[1..]) == -v.i
    ensures r.None? <==> v.Opaque?
  {
    match v
    case Str(s) => Some(s)
    case Int(i) => Some(IntString(i))
    case Opaque(_) => None
  }
}
