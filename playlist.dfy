/** Playlist.py: an ordered list of songs read from a directory listing, and
    the index of the current song, where -1 means that none has been chosen. */
module Playlists {
  import opened SongValues
  import opened NameOrder
  import MidiSong

  predicate EndsWith(s: string, suffix: string) {
    |suffix| <= |s| && s[|s| - |suffix|..] == suffix
  }

  /** The file names `refresh` turns into songs. */
  predicate IsMidiName(name: string)
    ensures IsMidiName(name) <==> |name| >= 4 && name[|name| - 4..] in [".mid", ".MID"]
  {
    EndsWith(name, ".mid") || EndsWith(name, ".MID")
  }

  /** A name `refresh` keeps: a MIDI file name whose song can be built
      (`probe` yields `None` for a file whose construction raises, which the
      bare `except` skips). */
  predicate Keeps(name: string, probe: string -> Option<MidiSong.FileFacts>) {
    IsMidiName(name) && probe(name).Some?
  }

  /** The names `refresh` turns into songs, in listing order. */
  function Loadable(names: seq<string>, probe: string -> Option<MidiSong.FileFacts>): (kept: seq<string>)
    ensures |kept| <= |names|
  {
    if names == [] then []
    else
      var last := names[|names| - 1];
      Loadable(names[..|names| - 1], probe) + (if Keeps(last, probe) then [last] else [])
  }

  lemma LoadableSnoc(names: seq<string>, i: nat, probe: string -> Option<MidiSong.FileFacts>)
    requires i < |names|
    ensures Loadable(names[..i + 1], probe)
         == Loadable(names[..i], probe) + (if Keeps(names[i], probe) then [names[i]] else [])
  {
    assert names[..i + 1][..i] == names[..i];
  }

  /** Exactly the listed names `refresh` can turn into songs are kept. */
  lemma {:induction false} LoadableMembers(names: seq<string>, probe: string -> Option<MidiSong.FileFacts>)
    ensures forall x :: x in Loadable(names, probe) <==> x in names && Keeps(x, probe)
  {
    if names != [] {
      var init := names[..|names| - 1];
      LoadableMembers(init, probe);
      assert names == init + [names[|names| - 1]];
    }
  }

  /** Filtering keeps relative order: it distributes over concatenation. */
  lemma {:induction false} LoadableAppend(a: seq<string>, b: seq<string>, probe: string -> Option<MidiSong.FileFacts>)
    ensures Loadable(a + b, probe) == Loadable(a, probe) + Loadable(b, probe)
  {
    if b == [] {
      assert a + b == a;
    } else {
      var init := b[..|b| - 1];
      LoadableAppend(a, init, probe);
      assert (a + b)[..|a + b| - 1] == a + init;
      assert (a + b)[|a + b| - 1] == b[|b| - 1];
    }
  }

  /** A filtered sorted listing is still sorted. */
  lemma {:induction false} LoadableSorted(names: seq<string>, probe: string -> Option<MidiSong.FileFacts>)
    requires Sorted(names)
    ensures Sorted(Loadable(names, probe))
  {
    if names != [] {
      var init := names[..|names| - 1];
      var last := names[|names| - 1];
      assert Sorted(init);
      LoadableSorted(init, probe);
      LoadableMembers(init, probe);
      var kept := Loadable(init, probe);
      forall k | 0 <= k < |kept| ensures LessEq(kept[k], last) {
        assert kept[k] in init;
        var j :| 0 <= j < |init| && init[j] == kept[k];
        assert names[j] == kept[k];
      }
    }
  }

  /** What `refresh` keeps of a directory listing: exactly its MIDI names
      whose songs can be built, in sorted order. */
  lemma RefreshedNames(listing: seq<string>, probe: string -> Option<MidiSong.FileFacts>)
    ensures Sorted(Loadable(SortNames(listing), probe))
    ensures forall x :: x in Loadable(SortNames(listing), probe) <==> x in listing && Keeps(x, probe)
  {
    var sorted := SortNames(listing);
    LoadableSorted(sorted, probe);
    LoadableMembers(sorted, probe);
    forall x ensures x in sorted <==> x in listing {
      assert x in sorted <==> x in multiset(sorted);
      assert x in listing <==> x in multiset(listing);
    }
  }

  /** Python's `xs[i]` on a list of length `n`: a negative index counts from
      the end; an index outside [-n, n) raises `IndexError` (`None`). */
  function PyIndex(n: nat, i: int): (r: Option<nat>)
    ensures r.Some? <==> -(n as int) <= i < n
    ensures r.Some? ==> r.value < n && r.value as int == (if i >= 0 then i else n + i)
  {
    if 0 <= i < n then Some(i) else if -(n as int) <= i < 0 then Some(n + i) else None
  }

  /** The index `set_current_song`'s loop leaves behind: the last position
      holding `t`, or -1 when there is none. */
  function LastIndexOf(s: seq<Value>, t: Value): (r: int)
    ensures -1 <= r < |s|
    ensures r >= 0 ==> s[r] == t
    ensures forall j :: r < j < |s| ==> s[j] != t
  {
    if s == [] then -1
    else if s[|s| - 1] == t then |s| - 1
    else LastIndexOf(s[..|s| - 1], t)
  }

  /** How many entries are the integer 1 (songs marked as playing). */
  function CountOnes(flags: seq<Value>): (c: nat) {
    if flags == [] then 0
    else CountOnes(flags[..|flags| - 1]) + (if flags[|flags| - 1] == Int(1) then 1 else 0)
  }

  lemma {:induction false} NoOnes(flags: seq<Value>)
    requires forall k :: 0 <= k < |flags| ==> flags[k] != Int(1)
    ensures CountOnes(flags) == 0
  {
    if flags != [] {
      NoOnes(flags[..|flags| - 1]);
    }
  }

  /** Flags equal to 1 at exactly one position count to one. */
  lemma {:induction false} ExactlyOneMarked(flags: seq<Value>, j: nat)
    requires j < |flags|
    requires forall k :: 0 <= k < |flags| ==> (flags[k] == Int(1) <==> k == j)
    ensures CountOnes(flags) == 1
  {
    var init := flags[..|flags| - 1];
    if j == |flags| - 1 {
      NoOnes(init);
    } else {
      ExactlyOneMarked(init, j);
    }
  }

  ghost predicate AllValid(songs: seq<MidiSong.Song>)
    reads songs
  {
    forall k :: 0 <= k < |songs| ==> songs[k].Valid()
  }

  /** The value of `key` in every song, in list order. */
  ghost function Column(songs: seq<MidiSong.Song>, key: string): (col: seq<Value>)
    reads songs
    requires AllValid(songs) && key in RecordKeys
    ensures |col| == |songs|
    ensures forall k :: 0 <= k < |songs| ==> col[k] == songs[k].songData[key]
  {
    seq(|songs|, k requires 0 <= k < |songs| && songs[k].Valid() reads songs => songs[k].songData[key])
  }

  ghost predicate Distinct(songs: seq<MidiSong.Song>) {
    forall i, j :: 0 <= i < |songs| && 0 <= j < |songs| && i != j ==> songs[i] != songs[j]
  }

  /** Song `k` is the one built from the `k`-th of `names`. */
  ghost predicate BuiltFrom(songs: seq<MidiSong.Song>, names: seq<string>, probe: string -> Option<MidiSong.FileFacts>)
    reads songs
  {
    |songs| == |names| &&
    forall k :: 0 <= k < |names| ==>
      probe(names[k]).Some? && songs[k].newData &&
      songs[k].songData == RecordOf(MidiSong.MidiInfo(names[k], probe(names[k]).value))
  }

  /** Appending the song built for one more loadable name keeps the list
      valid, distinct and in step with the names. */
  lemma AppendBuilt(built: seq<MidiSong.Song>, song: MidiSong.Song, names: seq<string>, name: string,
                    probe: string -> Option<MidiSong.FileFacts>)
    requires AllValid(built) && Distinct(built) && BuiltFrom(built, names, probe) && song !in built
    requires probe(name).Some? && song.Valid() && song.newData
    requires song.songData == RecordOf(MidiSong.MidiInfo(name, probe(name).value))
    ensures AllValid(built + [song]) && Distinct(built + [song]) && BuiltFrom(built + [song], names + [name], probe)
  {
    var more := built + [song];
    assert forall k :: 0 <= k < |built| ==> more[k] == built[k];
    assert more[|built|] == song;
    assert AllValid(more);
    assert Distinct(more) by {
      forall i, j | 0 <= i < |more| && 0 <= j < |more| && i != j ensures more[i] != more[j] {
        if i < |built| && j < |built| {
          assert more[i] == built[i] && more[j] == built[j];
        }
      }
    }
    assert BuiltFrom(more, names + [name], probe) by {
      var all := names + [name];
      forall k | 0 <= k < |all|
        ensures probe(all[k]).Some? && more[k].newData
        ensures more[k].songData == RecordOf(MidiSong.MidiInfo(all[k], probe(all[k]).value))
      {
        if k < |names| {
          assert all[k] == names[k] && more[k] == built[k];
        }
      }
    }
  }

  /** One turn of `refresh`'s loop: the song for the `i`-th sorted name is
      built and appended when that name is kept. */
  method LoadOne(sorted: seq<string>, i: nat, built: seq<MidiSong.Song>, ghost names: seq<string>,
                 probe: string -> Option<MidiSong.FileFacts>)
    returns (more: seq<MidiSong.Song>, ghost moreNames: seq<string>)
    requires i < |sorted| && names == Loadable(sorted[..i], probe)
    requires AllValid(built) && Distinct(built) && BuiltFrom(built, names, probe)
    ensures moreNames == Loadable(sorted[..i + 1], probe)
    ensures AllValid(more) && Distinct(more) && BuiltFrom(more, moreNames, probe)
    ensures |built| <= |more| && more[..|built|] == built
    ensures forall k :: |built| <= k < |more| ==> fresh(more[k])
  {
    LoadableSnoc(sorted, i, probe);
    var item := sorted[i];
    more := built;
    if Keeps(item, probe) {
      var song := new MidiSong.Song.FromFields(MidiSong.MidiInfo(item, probe(item).value));
      AppendBuilt(built, song, names, item, probe);
      more := built + [song];
    }
    moreNames := Loadable(sorted[..i + 1], probe);
  }

  class Playlist {
    var currentSong: int
    var songList: seq<MidiSong.Song>

    /** The songs are distinct objects, each holding a complete record. */
    ghost predicate Valid()
      reads this`songList, songList
    {
      AllValid(songList) && Distinct(songList)
    }

    /** A new playlist has no current song and the songs `refresh` reads. */
    constructor (listing: seq<string>, probe: string -> Option<MidiSong.FileFacts>)
      ensures Valid() && currentSong == -1
      ensures BuiltFrom(songList, Loadable(SortNames(listing), probe), probe)
    {
      currentSong := -1;
      songList := [];
      new;
      Refresh(listing, probe);
    }

    /** `refresh`: sorts the directory listing and builds one song per MIDI
        file name whose song can be built, in sorted order. */
    method Refresh(listing: seq<string>, probe: string -> Option<MidiSong.FileFacts>)
      modifies this`songList
      ensures Valid()
      ensures BuiltFrom(songList, Loadable(SortNames(listing), probe), probe)
    {
      var sorted := SortNames(listing);
      var built: seq<MidiSong.Song> := [];
      ghost var names: seq<string> := [];
      var i := 0;
      while i < |sorted|
        invariant 0 <= i <= |sorted|
        invariant names == Loadable(sorted[..i], probe)
        invariant AllValid(built) && Distinct(built) && BuiltFrom(built, names, probe)
      {
        built, names := LoadOne(sorted, i, built, names, probe);
        i := i + 1;
      }
      assert sorted[..i] == sorted;
      songList := built;
    }

    /** The titles of the songs, in list order. */
    ghost function Titles(): (titles: seq<Value>)
      reads this`songList, songList
      requires Valid()
    {
      Column(songList, TitleKey)
    }

    /** After `refresh`, each song's title is the file name it was read from. */
    lemma TitlesAreNames(names: seq<string>, probe: string -> Option<MidiSong.FileFacts>)
      requires Valid() && BuiltFrom(songList, names, probe)
      ensures |Titles()| == |names|
      ensures forall k :: 0 <= k < |names| ==> Titles()[k] == Str(names[k])
    {
    }

    /** `get_current_song`: the first song while none has been chosen,
        otherwise the song at the current index under Python indexing;
        `None` for the `IndexError` of an empty list or an index out of
        range. The assignment after its `return` never runs, so the index
        stays -1. */
    function CurrentSong(): (r: Option<MidiSong.Song>)
      reads this
      ensures r.Some? <==> (if currentSong == -1 then |songList| > 0 else -|songList| <= currentSong < |songList|)
      ensures r.Some? ==> r.value in songList
      ensures r.Some? && currentSong == -1 ==> r.value == songList[0]
      ensures r.Some? && 0 <= currentSong ==> r.value == songList[currentSong]
      ensures r.Some? && currentSong < -1 ==> r.value == songList[|songList| + currentSong]
    {
      var i := if currentSong == -1 then 0 else currentSong;
      match PyIndex(|songList|, i)
      case Some(j) => Some(songList[j])
      case None => None
    }

    /** `set_current_song`: the index of the last song with this title, or
        the index unchanged when no title matches. */
    method SetCurrentSong(title: Value)
      requires Valid()
      modifies this`currentSong
      ensures LastIndexOf(Titles(), title) >= 0 ==> currentSong == LastIndexOf(Titles(), title)
      ensures LastIndexOf(Titles(), title) == -1 ==> currentSong == old(currentSong)
      ensures (exists k :: 0 <= k < |Titles()| && Titles()[k] == title) ==>
                0 <= currentSong < |Titles()| && Titles()[currentSong] == title
    {
      ghost var titles := Titles();
      assert TitleKey in MidiSong.GetterKeys;
      var i := 0;
      while i < |songList|
        invariant 0 <= i <= |songList|
        invariant var m := LastIndexOf(titles[..i], title); currentSong == if m >= 0 then m else old(currentSong)
      {
        assert titles[..i + 1][..i] == titles[..i];
        var t := songList[i].Get(TitleKey);
        assert t == titles[i];
        if t == title {
          currentSong := i;
        }
        i := i + 1;
      }
      assert titles[..i] == titles == Titles();
    }

    /** `get_current_song_index`: -1 is turned into 0 and stored. */
    method GetCurrentSongIndex() returns (r: int)
      modifies this`currentSong
      ensures currentSong == (if old(currentSong) == -1 then 0 else old(currentSong))
      ensures r == currentSong
    {
      if currentSong == -1 {
        SetCurrentSongIndex(0);
      }
      r := currentSong;
    }

    /** `set_current_song_index`: stores the index without a bounds check. */
    method SetCurrentSongIndex(index: int)
      modifies this`currentSong
      ensures currentSong == index
    {
      currentSong := index;
    }

    /** The loop shared by the listing methods: every song's `playing` flag
        is set to 0 (which also marks each record as new). */
    method ResetPlaying()
      requires Valid()
      modifies songList
      ensures Valid()
      ensures forall k :: 0 <= k < |songList| ==>
                songList[k].newData && songList[k].songData == old(songList[k].songData)[PlayingKey := Int(0)]
    {
      var i := 0;
      while i < |songList|
        invariant 0 <= i <= |songList|
        invariant Valid()
        invariant forall k :: 0 <= k < i ==>
                    songList[k].newData && songList[k].songData == old(songList[k].songData)[PlayingKey := Int(0)]
        invariant forall k :: i <= k < |songList| ==> songList[k].songData == old(songList[k].songData)
      {
        songList[i].SetPlaying(Int(0));
        i := i + 1;
      }
    }

    /** Marks song `j` as playing (`setPlaying(1)`), leaving the others as
        they are. */
    method MarkAt(j: nat)
      requires Valid() && j < |songList|
      modifies songList[j]
      ensures Valid()
      ensures songList[j].newData && songList[j].songData == old(songList[j].songData)[PlayingKey := Int(1)]
      ensures forall k :: 0 <= k < |songList| && k != j ==> songList[k].songData == old(songList[k].songData)
    {
      songList[j].SetPlaying(Int(1));
    }

    /** After a reset and marking song `j`, exactly that song counts as
        playing. */
    lemma MarkedOnly(j: nat)
      requires Valid() && j < |songList|
      requires forall k :: 0 <= k < |songList| ==> songList[k].songData[PlayingKey] == (if k == j then Int(1) else Int(0))
      ensures CountOnes(Column(songList, PlayingKey)) == 1
    {
      ExactlyOneMarked(Column(songList, PlayingKey), j);
    }

    /** `get_song_list` as written: after the reset it marks the song at the
        loop variable's final value, the LAST song, whatever the current
        index is; on an empty list that variable is unbound and the call
        raises (`None`). */
    method GetSongList() returns (r: Option<seq<MidiSong.Song>>)
      requires Valid()
      modifies songList
      ensures Valid()
      ensures r == if songList == [] then None else Some(songList)
      ensures forall k :: 0 <= k < |songList| ==>
                songList[k].newData &&
                songList[k].songData == old(songList[k].songData)[PlayingKey := if k == |songList| - 1 then Int(1) else Int(0)]
      ensures songList != [] ==> CountOnes(Column(songList, PlayingKey)) == 1
    {
      ResetPlaying();
      if songList == [] {
        return None;
      }
      label reset:
      var last := |songList| - 1;
      MarkAt(last);
      assert songList[last].songData == old@reset(songList[last].songData)[PlayingKey := Int(1)]
                                     == old(songList[last].songData)[PlayingKey := Int(1)];
      MarkedOnly(last);
      r := Some(songList);
    }

    /** The marking step `get_song_list_list` performs and `get_song_list`
        was evidently meant to: reset every flag, then mark the song at the
        (lazily initialised) current index. `ok` is false when that index is
        out of range, where Python raises `IndexError` after the reset. */
    method MarkCurrent() returns (ok: bool)
      requires Valid()
      modifies this`currentSong, songList
      ensures Valid()
      ensures currentSong == (if old(currentSong) == -1 then 0 else old(currentSong))
      ensures ok <==> PyIndex(|songList|, currentSong).Some?
      ensures forall k :: 0 <= k < |songList| ==>
                songList[k].newData &&
                songList[k].songData == old(songList[k].songData)[PlayingKey :=
                  if ok && k == PyIndex(|songList|, currentSong).value then Int(1) else Int(0)]
      ensures ok ==> CountOnes(Column(songList, PlayingKey)) == 1
      ensures !ok ==> CountOnes(Column(songList, PlayingKey)) == 0
    {
      ghost var before := Records();
      ResetPlaying();
      var index := GetCurrentSongIndex();
      var j := PyIndex(|songList|, index);
      if j.Some? {
        MarkAfterReset(j.value, before);
        ok := true;
      } else {
        NoOnes(Column(songList, PlayingKey));
        ok := false;
      }
    }

    /** Every song's record. */
    ghost function Records(): (records: seq<map<string, Value>>)
      reads this`songList, songList
      ensures |records| == |songList|
      ensures forall k :: 0 <= k < |songList| ==> records[k] == songList[k].songData
    {
      var songs := songList;
      seq(|songs|, k requires 0 <= k < |songs| reads songs => songs[k].songData)
    }

    /** The marking step after a reset of the records `before`: song `j`
        becomes the only one playing. */
    method MarkAfterReset(j: nat, ghost before: seq<map<string, Value>>)
      requires Valid() && j < |songList| && |before| == |songList|
      requires forall k :: 0 <= k < |songList| ==>
                 songList[k].newData && songList[k].songData == before[k][PlayingKey := Int(0)]
      modifies songList[j]
      ensures Valid()
      ensures forall k :: 0 <= k < |songList| ==>
                songList[k].newData &&
                songList[k].songData == before[k][PlayingKey := if k == j then Int(1) else Int(0)]
      ensures CountOnes(Column(songList, PlayingKey)) == 1
    {
      MarkAt(j);
      assert songList[j].songData == before[j][PlayingKey := Int(0)][PlayingKey := Int(1)]
                                  == before[j][PlayingKey := Int(1)];
      MarkedOnly(j);
    }

    /** `get_song_list_list`: marks the current song as the only one playing
        and returns every song's `getList()` in list order; `None` for the
        `IndexError` of an out-of-range index (the flags are reset by then). */
    method GetSongListList() returns (r: Option<seq<seq<Value>>>)
      requires Valid()
      modifies this`currentSong, songList
      ensures Valid()
      ensures currentSong == (if old(currentSong) == -1 then 0 else old(currentSong))
      ensures r.Some? <==> PyIndex(|songList|, currentSong).Some?
      ensures forall k :: 0 <= k < |songList| ==>
                songList[k].newData &&
                songList[k].songData == old(songList[k].songData)[PlayingKey :=
                  if r.Some? && k == PyIndex(|songList|, currentSong).value then Int(1) else Int(0)]
      ensures r.Some? ==> CountOnes(Column(songList, PlayingKey)) == 1
      ensures r.Some? ==> |r.value| == |songList|
      ensures r.Some? ==> forall k :: 0 <= k < |songList| ==> r.value[k] == ListOf(songList[k].songData)
    {
      var ok := MarkCurrent();
      if !ok {
        return None;
      }
      var lists: seq<seq<Value>> := [];
      var i := 0;
      while i < |songList|
        invariant 0 <= i <= |songList|
        invariant |lists| == i
        invariant forall k :: 0 <= k < i ==> lists[k] == ListOf(songList[k].songData)
      {
        lists := lists + [songList[i].GetList()];
        i := i + 1;
      }
      r := Some(lists);
    }
  }
}
