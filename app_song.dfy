/** The `Song` record of src/Song.py: the same ten-field `songData` dictionary
    and `newData` flag as the playlist's song class, built here from a
    positional `prepopdata` tuple, with extra slots for timings (a dictionary
    entry) and timestamps (an attribute that exists only once it is set). */
module AppSong {
  import opened SongValues

  /** The fields this class has a plain getter for. */
  const GetterKeys: set<string> := {TitleKey, DateKey, TimeKey, LengthKey, BpmKey, UserBpmKey, LocationKey}

  class Song {
    var songData: map<string, Value>
    var newData: bool
    /** The `timestamps` attribute: `None` while it has never been assigned. */
    var timestamps: Option<Value>

    ghost predicate Valid()
      reads this
    {
      IsRecord(songData) && NewDataKey !in songData
    }

    /** The `prepopdata` branch of the constructor: title, rating, location,
        tempo and length come from positions 0, 1, 2, 3 and 4 of the tuple;
        the other fields get fixed defaults. A tuple of fewer than five
        elements makes the indexing raise, so no song is built from it. */
    constructor Prepopulated(p: seq<Value>)
      requires |p| >= 5
      ensures Valid() && !newData && timestamps == None
      ensures songData.Keys == RecordKeys
      ensures GetTimings() == None && GetTimestamps() == None
      ensures GetList() == [p[0], Str("today"), Str("4:00 PM"), p[4], p[3], Int(120), p[2], p[1], Int(1), Int(1)]
    {
      songData := map[TitleKey := p[0], DateKey := Str("today"), TimeKey := Str("4:00 PM"),
                      LengthKey := p[4], BpmKey := p[3], UserBpmKey := Int(120), LocationKey := p[2],
                      StarsKey := p[1], PlayingKey := Int(1), DiskKey := Int(1)];
      newData := false;
      timestamps := None;
    }

    /** `getList`: the ten fields in the order title, date, time, length,
        bpm, userBPM, location, stars, playing, disk. */
    function GetList(): (r: seq<Value>)
      reads this
      requires Valid()
      ensures |r| == |FieldOrder|
      ensures forall k :: 0 <= k < |FieldOrder| ==> r[k] == songData[FieldOrder[k]]
    {
      ListOf(songData)
    }

    /** The plain getters (`getTitle`, `getDate`, `getTime`, `getLength`,
        `getBPM`, `getUserBPM`, `getLocation`): each returns the value
        `getList` shows in that field's column. */
    function Get(key: string): (r: Value)
      reads this
      requires Valid() && key in GetterKeys
      ensures exists k :: 0 <= k < |FieldOrder| && FieldOrder[k] == key && GetList()[k] == r
    {
      assert key == FieldOrder[0] || key == FieldOrder[1] || key == FieldOrder[2] || key == FieldOrder[3]
        || key == FieldOrder[4] || key == FieldOrder[5] || key == FieldOrder[6];
      songData[key]
    }

    /** `getStars`: `str()` of the stored rating. */
    function GetStars(): (r: Option<string>)
      reads this
      requires Valid()
      ensures songData[StarsKey].Int? && 0 <= songData[StarsKey].i ==>
                r.Some? && Canonical(r.value) && ParseNat(r.value) == songData[StarsKey].i
      ensures songData[StarsKey].Int? && songData[StarsKey].i < 0 ==>
                r.Some? && |r.value| >= 2 && r.value[0] == '-' &&
                Canonical(r.value[1..]) && ParseNat(r.value[1..]) == -songData[StarsKey].i
      ensures songData[StarsKey].Str? ==> r == Some(songData[StarsKey].s)
    {
      PyStr(songData[StarsKey])
    }

    /** `getTimings`: `KeyError` (`None`) until `setTimings` has run. */
    function GetTimings(): (r: Option<Value>)
      reads this
      ensures r.Some? <==> TimingsKey in songData
      ensures r.Some? ==> r.value == songData[TimingsKey]
    {
      if TimingsKey in songData then Some(songData[TimingsKey]) else None
    }

    /** `getTimestamps`: the attribute, or `None` when reading it fails. */
    function GetTimestamps(): (r: Option<Value>)
      reads this
      ensures r.Some? <==> timestamps.Some?
      ensures r.Some? ==> r.value == timestamps.value
    {
      timestamps
    }

    /** `getNewData` as written: it looks the flag up in `songData`, where
        `Valid()` shows it never is, so it raises `KeyError` (`None`). */
    function GetNewData(): (r: Option<Value>)
      reads this
      ensures r.Some? <==> NewDataKey in songData
      ensures Valid() ==> r == None
    {
      if NewDataKey in songData then Some(songData[NewDataKey]) else None
    }

    /** The dirty flag itself, which `getNewData` was evidently meant to return. */
    function IsNewData(): (b: bool)
      reads this
      ensures b <==> newData
    {
      newData
    }

    method SetTimings(timings: Value)
      requires Valid()
      modifies this
      ensures Valid() && newData == old(newData) && timestamps == old(timestamps)
      ensures songData == old(songData)[TimingsKey := timings]
      ensures GetTimings() == Some(timings)
      ensures GetList() == old(GetList())
    {
      songData := songData[TimingsKey := timings];
    }

    method SetTimestamps(stamps: Value)
      requires Valid()
      modifies this
      ensures Valid() && songData == old(songData) && newData == old(newData)
      ensures GetTimestamps() == Some(stamps)
    {
      timestamps := Some(stamps);
    }

    method SetTitle(title: Value)
      requires Valid()
      modifies this
      ensures Valid() && newData == old(newData) && timestamps == old(timestamps)
      ensures songData == old(songData)[TitleKey := title]
    {
      songData := songData[TitleKey := title];
    }

    method SetDate(date: Value)
      requires Valid()
      modifies this
      ensures Valid() && newData && timestamps == old(timestamps)
      ensures songData == old(songData)[DateKey := date]
    {
      songData := songData[DateKey := date];
      newData := true;
    }

    method SetUserBpm(bpm: Value)
      requires Valid()
      modifies this
      ensures Valid() && newData && timestamps == old(timestamps)
      ensures songData == old(songData)[UserBpmKey := bpm]
    {
      songData := songData[UserBpmKey := bpm];
      newData := true;
    }

    /** A rating outside [0, 5] is rejected and nothing changes; otherwise
        the truncated rating is stored and the record marked as new. */
    method SetStars(stars: real)
      requires Valid()
      modifies this
      ensures Valid() && timestamps == old(timestamps)
      ensures (stars < 0.0 || stars > 5.0) ==> songData == old(songData) && newData == old(newData)
      ensures 0.0 <= stars <= 5.0 ==>
                newData && songData == old(songData)[StarsKey := Int(TruncToInt(stars))]
      ensures StarRating(stars).Some? ==> songData[StarsKey] == Int(StarRating(stars).value)
    {
      if stars < 0.0 || stars > 5.0 {
        return;
      }
      songData := songData[StarsKey := Int(TruncToInt(stars))];
      newData := true;
    }

    /** `setNewData` writes the attribute `newData`, so the corrected reader
        `IsNewData` sees it while `getNewData` still fails. */
    method SetNewData(flag: bool)
      requires Valid()
      modifies this
      ensures Valid() && songData == old(songData) && timestamps == old(timestamps) && newData == flag
      ensures IsNewData() == flag && GetNewData() == None
    {
      newData := flag;
    }
  }
}
