/** The `Song` record of mpserver/midi/Song.py, the class the playlist holds:
    a `songData` dictionary of ten fields and a `newData` dirty flag, updated
    in place by the setters. */
module MidiSong {
  import opened SongValues
  import DateFormat

  /** What `getMidiInfo` learns from the file system and external tools: the
      split `ctime` of the file's modification time, which `parseDate`
      formats, the length reported by the MIDI parser and the tempo reported
      by the `metamidi` tool. */
  datatype FileFacts = FileFacts(stamp: DateFormat.CtimeTokens, length: Value, bpm: int)

  /** The ten-element tuple `getMidiInfo` returns for a file name: the name as
      title and location, the fixed clock time "6:15 pm", the tempo as both
      `bpm` and `userBPM`, the rating "4", not playing, disk "1". */
  function MidiInfo(name: string, facts: FileFacts): (fields: seq<Value>)
    ensures |fields| == |FieldOrder|
    ensures fields[0] == fields[6] == Str(name)
    ensures fields[1] == Str(DateFormat.ParseDate(facts.stamp).value) && fields[3] == facts.length
    ensures fields[4] == fields[5] == Int(facts.bpm)
    ensures fields[2] == Str("6:15 pm") && fields[7] == Str("4") && fields[8] == Int(0) && fields[9] == Str("1")
  {
    [Str(name), Str(DateFormat.ParseDate(facts.stamp).value), Str("6:15 pm"), facts.length, Int(facts.bpm), Int(facts.bpm),
     Str(name), Str("4"), Int(0), Str("1")]
  }

  /** The date stored for a file splits on '-' into the year, the month
      number and the day of its modification time. */
  lemma MidiInfoDate(name: string, facts: FileFacts)
    requires '-' !in facts.stamp[4] && '-' !in facts.stamp[1] && '-' !in facts.stamp[2]
    ensures MidiInfo(name, facts)[1].Str?
    ensures DateFormat.SplitOn(MidiInfo(name, facts)[1].s, '-')
         == [facts.stamp[4], DateFormat.MonthNumber(facts.stamp[1]), facts.stamp[2]]
  {
    DateFormat.ParseDateRoundTrip(facts.stamp);
  }

  /** The fields this class has a plain getter for. */
  const GetterKeys: set<string> := {TitleKey, DateKey, TimeKey, LengthKey, BpmKey, UserBpmKey, LocationKey, PlayingKey}

  class Song {
    var songData: map<string, Value>
    var newData: bool

    /** All ten fields are present, and the key `getNewData` reads is not. */
    ghost predicate Valid()
      reads this
    {
      IsRecord(songData) && NewDataKey !in songData
    }

    /** The constructor's branch without a stored JSON record: the tuple that
        `getMidiInfo` returns is unpacked into the ten fields and the record
        is marked as new. */
    constructor FromFields(fields: seq<Value>)
      requires |fields| == |FieldOrder|
      ensures Valid() && newData
      ensures songData == RecordOf(fields)
      ensures GetList() == fields
    {
      songData := RecordOf(fields);
      newData := true;
    }

    /** `getList`: the ten fields in the order title, date, time, length,
        bpm, userBPM, location, stars, playing, disk. */
    function GetList(): (r: seq<Value>)
      reads this
      requires Valid()
      ensures |r| == |FieldOrder|
      ensures forall k :: 0 <= k < |FieldOrder| ==> r[k] == songData[FieldOrder[k]]
    {
      ListOf(songData)
    }

    /** The plain getters (`getTitle`, `getDate`, `getTime`, `getLength`,
        `getBPM`, `getUserBPM`, `getLocation`, `getPlaying`): each returns the
        value `getList` shows in that field's column. */
    function Get(key: string): (r: Value)
      reads this
      requires Valid() && key in GetterKeys
      ensures exists k :: 0 <= k < |FieldOrder| && FieldOrder[k] == key && GetList()[k] == r
    {
      assert key == FieldOrder[0] || key == FieldOrder[1] || key == FieldOrder[2] || key == FieldOrder[3]
        || key == FieldOrder[4] || key == FieldOrder[5] || key == FieldOrder[6] || key == FieldOrder[8];
      songData[key]
    }

    /** `getStars`: `str()` of the stored rating. */
    function GetStars(): (r: Option<string>)
      reads this
      requires Valid()
      ensures songData[StarsKey].Int? && 0 <= songData[StarsKey].i ==>
                r.Some? && Canonical(r.value) && ParseNat(r.value) == songData[StarsKey].i
      ensures songData[StarsKey].Int? && songData[StarsKey].i < 0 ==>
                r.Some? && |r.value| >= 2 && r.value[0] == '-' &&
                Canonical(r.value[1..]) && ParseNat(r.value[1..]) == -songData[StarsKey].i
      ensures songData[StarsKey].Str? ==> r == Some(songData[StarsKey].s)
    {
      PyStr(songData[StarsKey])
    }

    /** `getNewData` as written: it looks the flag up in `songData` and
        raises `KeyError` (`None`) when the key is absent, which `Valid()`
        shows it always is. */
    function GetNewData(): (r: Option<Value>)
      reads this
      ensures r.Some? <==> NewDataKey in songData
      ensures Valid() ==> r == None
    {
      if NewDataKey in songData then Some(songData[NewDataKey]) else None
    }

    /** The dirty flag itself, which `getNewData` was evidently meant to return. */
    function IsNewData(): (b: bool)
      reads this
      ensures b <==> newData
    {
      newData
    }

    method SetTitle(title: Value)
      requires Valid()
      modifies this
      ensures Valid() && newData == old(newData)
      ensures songData == old(songData)[TitleKey := title]
    {
      songData := songData[TitleKey := title];
    }

    method SetDate(date: Value)
      requires Valid()
      modifies this
      ensures Valid() && newData
      ensures songData == old(songData)[DateKey := date]
    {
      songData := songData[DateKey := date];
      newData := true;
    }

    method SetUserBpm(bpm: Value)
      requires Valid()
      modifies this
      ensures Valid() && newData
      ensures songData == old(songData)[UserBpmKey := bpm]
    {
      songData := songData[UserBpmKey := bpm];
      newData := true;
    }

    /** A rating outside [0, 5] is rejected and nothing changes; otherwise
        the truncated rating is stored and the record marked as new. */
    method SetStars(stars: real)
      requires Valid()
      modifies this
      ensures Valid()
      ensures (stars < 0.0 || stars > 5.0) ==> songData == old(songData) && newData == old(newData)
      ensures 0.0 <= stars <= 5.0 ==>
                newData && songData == old(songData)[StarsKey := Int(TruncToInt(stars))]
      ensures StarRating(stars).Some? ==> songData[StarsKey] == Int(StarRating(stars).value)
    {
      if stars < 0.0 || stars > 5.0 {
        return;
      }
      songData := songData[StarsKey := Int(TruncToInt(stars))];
      newData := true;
    }

    method SetPlaying(playing: Value)
      requires Valid()
      modifies this
      ensures Valid() && newData
      ensures songData == old(songData)[PlayingKey := playing]
    {
      songData := songData[PlayingKey := playing];
      newData := true;
    }

    /** `setNewData` writes the attribute `newData`, so the corrected reader
        `IsNewData` sees it while `getNewData` still fails. */
    method SetNewData(flag: bool)
      requires Valid()
      modifies this
      ensures Valid() && songData == old(songData) && newData == flag
      ensures IsNewData() == flag && GetNewData() == None
    {
      newData := flag;
    }
  }
}
