# Song metadata and playlist selection of a MIDI player-piano server

This project models, in Dafny, the song-metadata record and the playlist
selection state of a server that plays MIDI files on a player piano.

- **The song record.** There are two near-identical `Song` classes:
  `src/Song.py` and `mpserver/midi/Song.py`. Each keeps a `songData`
  dictionary of ten fields (title, date, time, length, bpm, userBPM,
  location, stars, playing, disk) and a `newData` dirty flag. Its setters
  update the dictionary in place. The rating setter rejects values outside
  [0, 5] and stores `int()` of the others. `getList` flattens the record in a
  fixed order. `parseDate` turns the tokens of a `ctime` date into
  "year-month-day".
- **The playlist.** `Playlist.py` holds the songs read from a sorted
  directory listing and the index of the current song. The index -1 means
  "none chosen". The playlist selects a song by title or by index, and marks
  one song as playing before it lists the songs.

Modules, one per source file plus shared pieces:

- `SongValues` (values.dfy): the stored values, the field keys, the `getList`
  order, and Python's `int()` and `str()` on single values.
- `DateFormat` (dates.dfy): `parseDate` of both song classes.
- `NameOrder` (sorting.dfy): Python's string order and the `sort()` that
  `refresh` applies to the listing.
- `AppSong` (app_song.dfy): the class in `src/Song.py`.
- `MidiSong` (midi_song.dfy): the class in `mpserver/midi/Song.py`, which is
  the class the playlist holds.
- `Playlists` (playlist.dfy): `Playlist.py`.

Both song classes and the playlist are Dafny classes. Their setters have
`modifies` clauses. Each `ensures` states the whole new dictionary as the old
one with one key updated, so every other field is visibly unchanged. The
playlist holds its songs as a `seq` of song objects. Its invariant says they
are distinct objects and each holds all ten fields.

`refresh` refers to `Song.Song` (Playlist.py:17), but the file imports only
the module `mpserver.midi.Song` (Playlist.py:3). As written, every
construction therefore raises `NameError`, the bare `except` swallows it, and
the list stays empty. Even with that name resolved, construction from a
MIDI file without a stored JSON record would still fail:
`mpserver/midi/Song.py` imports only `os`, `json`, `os.path` and `time`
(lines 1-3), so `getMidiInfo` raises `NameError` at `mido.MidiFile` (line 91,
outside its `try`), and `Commands` (line 93) is never defined either. The
model builds the songs, and the tuple `getMidiInfo` is evidently meant to
return, as the code intends. A file whose song cannot be built is skipped,
as the `except` branch does.

## Model

| member | source | states |
|---|---|---|
| SongValues.ListOf | src/Song.py:186-187 | `getList` returns exactly ten values; the k-th is the field at position k of the order title, date, time, length, bpm, userBPM, location, stars, playing, disk (mpserver/midi/Song.py:138-139 is the same code) |
| SongValues.RecordOf | mpserver/midi/Song.py:19 | unpacking a ten-element tuple into the fields gives a dictionary with exactly the ten record keys, and `getList` on it returns the tuple unchanged |
| SongValues.TruncToInt | src/Song.py:108 | Python `int()` on a number truncates toward zero: the result lies within one of the input, at or below it for a non-negative input and at or above it for a negative one |
| SongValues.StarRating | src/Song.py:104-108 | a rating is accepted if and only if 0 <= stars <= 5; an accepted rating is stored as an integer in [0, 5] that is the whole part of the input |
| SongValues.NatString | src/Song.py:101-102 | `str()` of a non-negative integer is a non-empty string of digits with no leading zero unless it is "0" |
| SongValues.CanonicalUnique | src/Song.py:101-102 | the decimal form is unique: the only digit string without a leading zero that reads back as n is `str(n)` |
| SongValues.ParseNatString | src/Song.py:101-102 | reading the digits of `str(n)` back gives n (round trip) |
| SongValues.IntString | src/Song.py:101-102 | `str()` of an integer starts with '-' exactly when the integer is negative; the rest is the decimal form of its magnitude, which reads back as that magnitude (and is therefore `str()` of it, by `CanonicalUnique`) |
| SongValues.PyStr | src/Song.py:101-102 | `str()` of a stored string is that string; of an integer, its decimal form (no leading zero, reading back as the integer, after a '-' when negative, so unique by `CanonicalUnique`); only opaque values are not rendered |
| DateFormat.NumberIsNotAbbreviation | src/Song.py:141-164 | no month number the chain writes is an abbreviation that a later `if` tests, so a rewritten month is never rewritten again |
| DateFormat.RewriteChain | src/Song.py:141-164 | running the first k `if` statements leaves the month token as it was or replaces it by one of the first k month numbers |
| DateFormat.MonthNumber | mpserver/midi/Song.py:104-127 | after the whole chain the month slot holds the token itself or a month number |
| DateFormat.MonthNumberOfAbbreviation | src/Song.py:141-164 | after the twelve chained `if`s, each abbreviation Jan..Dec has become its two-digit number 01..12 |
| DateFormat.MonthNumberOfOther | mpserver/midi/Song.py:104-127 | any token that is not one of the twelve abbreviations stays as it was |
| DateFormat.MonthNumberInjective | src/Song.py:141-164 | two abbreviations that map to the same number are the same month |
| DateFormat.MonthNumberHasNoDash | mpserver/midi/Song.py:104-127 | the chain never puts a '-' into the month slot that was not there before |
| DateFormat.ParseDate | mpserver/midi/Song.py:101-129 | the formatting succeeds exactly when there are at least five tokens; fewer make the indexing raise (src/Song.py:138-166 is the same code) |
| DateFormat.ParseDateRoundTrip | src/Song.py:166 | splitting the result on '-' gives back [year token, month number, day token], and the middle part is the month's two-digit number when the token was an abbreviation |
| NameOrder.LessEqTotal | Playlist.py:12 | any two file names are comparable under Python's string order |
| NameOrder.LessEqTransitive | Playlist.py:12 | Python's string order is transitive |
| NameOrder.LessEqAntisymmetric | Playlist.py:12 | two names that are each at most the other are equal |
| NameOrder.SortNames | Playlist.py:11-12 | the sorted listing is in ascending order and is a permutation of the listing |
| NameOrder.SortedUnique | Playlist.py:12 | any two sorted arrangements of the same names are equal, so the result is the one `sort()` gives |
| MidiSong.MidiInfo | mpserver/midi/Song.py:88-97 | the tuple built for a file has the file name as title and location, `parseDate` of the file's `ctime` tokens as date, the tempo as both bpm and userBPM, the time "6:15 pm", the rating "4", playing 0 and disk "1" |
| MidiSong.MidiInfoDate | mpserver/midi/Song.py:95 | the date stored for a file splits on '-' into the year, the month number and the day of its modification time |
| MidiSong.Song.FromFields | mpserver/midi/Song.py:18-20 | the constructor stores the ten values of `getMidiInfo`'s tuple so that `getList` returns them in order, and it sets `newData` |
| MidiSong.Song.GetList | mpserver/midi/Song.py:138-139 | `getList` returns the ten fields in the order title, date, time, length, bpm, userBPM, location, stars, playing, disk |
| MidiSong.Song.Get | mpserver/midi/Song.py:24-75 | each plain getter (title, date, time, length, bpm, userBPM, location, playing) returns the value that `getList` shows in that field's column |
| MidiSong.Song.GetStars | mpserver/midi/Song.py:62-63 | `getStars` returns `str()` of the rating: the decimal form of an integer rating (with '-' when negative), or the stored string itself |
| MidiSong.Song.GetNewData | mpserver/midi/Song.py:81-82 | `getNewData` succeeds only if the key "newData" is in `songData`, which it never is for a valid song, so it always raises |
| MidiSong.Song.IsNewData | mpserver/midi/Song.py:84-85 | the corrected reader returns the dirty flag that `setNewData` and the marking setters write |
| MidiSong.Song.SetTitle | mpserver/midi/Song.py:27-30 | only the title changes; `newData` is left as it was |
| MidiSong.Song.SetDate | mpserver/midi/Song.py:35-39 | only the date changes, and `newData` becomes true |
| MidiSong.Song.SetUserBpm | mpserver/midi/Song.py:53-57 | only userBPM changes, and `newData` becomes true |
| MidiSong.Song.SetStars | mpserver/midi/Song.py:65-72 | a rating outside [0, 5] changes nothing; otherwise only the rating changes, to `int(stars)`, and `newData` becomes true |
| MidiSong.Song.SetPlaying | mpserver/midi/Song.py:77-79 | only the playing field changes, and `newData` becomes true |
| MidiSong.Song.SetNewData | mpserver/midi/Song.py:84-85 | the flag is stored and read back by `IsNewData`, while `getNewData` still raises |
| AppSong.Song.Prepopulated | src/Song.py:21-31 | title, stars, location, bpm and length come from tuple positions 0, 1, 2, 3 and 4; date "today", time "4:00 PM", userBPM 120, playing 1 and disk 1 are fixed; `newData` stays false, and neither timings nor timestamps are set |
| AppSong.Song.GetList | src/Song.py:186-187 | `getList` returns the ten fields in the order title, date, time, length, bpm, userBPM, location, stars, playing, disk |
| AppSong.Song.Get | src/Song.py:63-99 | each plain getter (title, date, time, length, bpm, userBPM, location; there is none for stars, playing or disk) returns the value that `getList` shows in that field's column |
| AppSong.Song.GetStars | src/Song.py:101-102 | `getStars` returns `str()` of the rating: the decimal form of an integer rating (with '-' when negative), or the stored string itself |
| AppSong.Song.GetTimings | src/Song.py:51-52 | `getTimings` raises (`None`) unless the "timings" key is stored, and otherwise returns it; a prepopulated song has none, and `SetTimings` makes it return the stored value |
| AppSong.Song.GetTimestamps | src/Song.py:179-184 | `getTimestamps` returns the attribute once assigned and `None` while reading it fails; a prepopulated song has none |
| AppSong.Song.IsNewData | src/Song.py:118-119 | the corrected reader returns the dirty flag that `setNewData` and the marking setters write |
| AppSong.Song.GetNewData | src/Song.py:115-116 | `getNewData` succeeds only if the key "newData" is in `songData`, which it never is for a valid song, so it always raises |
| AppSong.Song.SetTimings | src/Song.py:51-55 | the timings are stored and `getTimings` then returns them; the ten record fields, `newData` and the timestamps are unchanged |
| AppSong.Song.SetTimestamps | src/Song.py:176-184 | `getTimestamps` returns the stored value afterwards (before any call it returns nothing, see `Prepopulated`); nothing else changes |
| AppSong.Song.SetTitle | src/Song.py:66-69 | only the title changes; `newData` is left as it was |
| AppSong.Song.SetDate | src/Song.py:74-78 | only the date changes, and `newData` becomes true |
| AppSong.Song.SetUserBpm | src/Song.py:92-96 | only userBPM changes, and `newData` becomes true |
| AppSong.Song.SetStars | src/Song.py:104-111 | a rating outside [0, 5] changes nothing; otherwise only the rating changes, to `int(stars)`, and `newData` becomes true |
| AppSong.Song.SetNewData | src/Song.py:118-119 | the flag is stored and read back by `IsNewData`, while `getNewData` still raises |
| Playlists.IsMidiName | Playlist.py:15 | a name is taken for a MIDI file exactly when its last four characters are ".mid" or ".MID" |
| Playlists.Loadable | Playlist.py:13-20 | the names kept by the loop's filter (a MIDI name whose song can be built, as the `try`/`except` decides) form a sub-list no longer than the listing; see `LoadableMembers`, `LoadableAppend` and `LoadableSorted` for what it keeps |
| Playlists.LoadableMembers | Playlist.py:14-15 | a listed name is kept exactly when it ends in ".mid" or ".MID" and its song can be built |
| Playlists.LoadableAppend | Playlist.py:14-15 | filtering distributes over concatenation, so kept names keep their relative order |
| Playlists.LoadableSorted | Playlist.py:12-15 | filtering a sorted listing gives a sorted list |
| Playlists.RefreshedNames | Playlist.py:11-15 | the names `refresh` keeps are sorted and are exactly the listing's MIDI names whose songs can be built |
| Playlists.PyIndex | Playlist.py:28 | Python list indexing: an index in [-n, n) selects an element, counting from the end when negative; any other index raises |
| Playlists.LastIndexOf | Playlist.py:32-34 | the loop leaves the last position holding the title, or -1 when none does: that position holds it and no later one does |
| Playlists.ExactlyOneMarked | Playlist.py:60-62 | when exactly one flag is 1, the number of songs marked as playing is one |
| Playlists.Playlist.constructor | Playlist.py:5-8 | a new playlist has current index -1 and holds the songs `refresh` builds |
| Playlists.Playlist.Refresh | Playlist.py:10-20 | song k is built from the k-th kept name of the sorted listing; the list holds no other songs, the songs are distinct objects and the current index is unchanged |
| Playlists.LoadOne | Playlist.py:13-18 | one turn of the loop appends a newly allocated song exactly when the name is kept, and leaves the songs already built in place |
| Playlists.Playlist.TitlesAreNames | Playlist.py:14-17 | after `refresh` each song's title is the file name it was built from |
| Playlists.Playlist.CurrentSong | Playlist.py:23-28 | with index -1 it returns the first song (or raises on an empty list) and leaves the index at -1; otherwise it returns the song at the index under Python indexing (`SongList[n + index]` for an index below -1, which `set_current_song_index` allows), or raises when that index is out of range |
| Playlists.Playlist.SetCurrentSong | Playlist.py:31-34 | the index becomes the last position whose title equals the argument; it is unchanged when no title matches |
| Playlists.Playlist.GetCurrentSongIndex | Playlist.py:36-39 | -1 is replaced by 0 and stored; any other index is returned unchanged |
| Playlists.Playlist.SetCurrentSongIndex | Playlist.py:41-42 | the index is stored as given, without a bounds check |
| Playlists.Playlist.ResetPlaying | Playlist.py:45-46 | every song's playing field becomes 0 and its `newData` true; no other field of any song changes |
| Playlists.Playlist.MarkAt | Playlist.py:62 | `setPlaying(1)` on one song (also at line 47) marks it as playing and sets its `newData`; no other song changes |
| Playlists.Playlist.MarkAfterReset | Playlist.py:61-62 | after the reset of every flag, `setPlaying(1)` on song j leaves song j the only one playing and every record otherwise as before the reset |
| Playlists.Playlist.GetSongList | Playlist.py:44-48 | after the reset, only the last song is marked as playing, whatever the current index; an empty list raises |
| Playlists.Playlist.MarkCurrent | Playlist.py:59-62 | after the reset, exactly one song is marked as playing: the one at the lazily initialised current index; an out-of-range index raises after the reset |
| Playlists.Playlist.GetSongListList | Playlist.py:59-66 | exactly one song, the current one, is marked as playing, and the result is every song's `getList()` in list order |

## Left out

- File and process I/O are parameters of the model. `getMidiInfo` is meant to parse the file with mido and run `metamidi` (as written, both names are undefined in `mpserver/midi/Song.py`, so it raises `NameError`; the model builds the tuple it is evidently meant to return); those results are the `FileFacts` given to `MidiInfo`, which include the split `time.ctime` of the file's modification time (`os.path.getmtime`). `parseDate` formats those tokens as modelled. `refresh` calls `os.listdir`; its input is the listing.
- `writeData`, `toJSON` and the `autoWriteData` flag are left out. In `src/Song.py`, `writeData` does nothing. In `mpserver/midi/Song.py`, it writes a JSON file.
- The JSON-loading branch of the `mpserver/midi/Song.py` constructor (lines 15-17) is file input and is left out.
- The `getMidiInfo` branch of the `src/Song.py` constructor is left out, including its `EOFError` path that leaves `songData` empty.
- The psycopg2 `db` handle, `cwd`, `playlist` and `systemSettings` are not modelled. `refresh` reads the playlist's `systemSettings` (Playlist.py:17) only to pass it, with the directory, to the song constructor, which stores it as `systemInter` (mpserver/midi/Song.py:13) and never reads it; only the directory, passed as the constructor's `playlist`, locates the file and its stored record. The `probe` parameter of `Refresh` stands for that construction.
- `length` is a float from the MIDI parser and is treated as an opaque value.
- PyStr: `str()` of an opaque value, such as a float rating given to the `prepopdata` constructor, is not rendered; the model returns `None` for it.
- SetStars: the argument is a number (`real`). A non-numeric argument makes Python raise `TypeError` in the comparison, which is not modelled. Nor is NaN: `nan < 0` and `nan > 5` are both false, so Python lets it past the check and `int(nan)` then raises `ValueError`; a `real` cannot be NaN.
- `getDicot` returns the internal dictionary by reference. That aliasing is not modelled.
- `get_messages`/`set_messages` of `src/Song.py` are not modelled. They are a plain attribute pair that no modelled code uses.
- `get_song_list_dict` calls `song.getDict()`, which does not exist (the method is `getDicot`). It therefore raises after the reset and the marking of the last song, as in `get_song_list` (on an empty list, line 53 already raises `UnboundLocalError`). It is not modelled further.
- Refresh: the songs are stated to be distinct objects built from the kept names, but not to be newly allocated (only `LoadOne` states that for each song it adds).
- Refresh: the construction errors are not modelled: `Song.Song` is undefined at Playlist.py:17, and `mido` and `Commands` are undefined in `getMidiInfo` (mpserver/midi/Song.py:91,93); the model builds the songs as intended.
- `print` calls on error paths are left out.
- Python equality between values of different types (`1 == True`, `1 == 1.0`) is not modelled; titles are compared as `Value`s.
- mpserver/midi/alsa-utils-1.2.2/axfer/test/generator.h holds only declarations for an ALSA test harness, with no logic, and is not part of this model.

## Findings

| source | as written | input that shows it | evidently intended | confidence | as-written member | corrected member |
|---|---|---|---|---|---|---|
| src/Song.py:115-119 | `getNewData` reads `songData["newData"]`, a key nothing stores; `setNewData` writes the attribute `self.newData` | any song, for instance right after `setNewData(True)`: `getNewData()` raises `KeyError` | `getNewData` returns `self.newData`, so that it reads back what `setNewData` stored | high (not executed) | AppSong.Song.GetNewData | AppSong.Song.IsNewData |
| mpserver/midi/Song.py:81-85 | the same `getNewData`/`setNewData` mismatch | any song, for instance right after `setNewData(True)` | `getNewData` returns `self.newData` | high (not executed) | MidiSong.Song.GetNewData | MidiSong.Song.IsNewData |
| Playlist.py:44-48 | the marking step uses the loop variable `i` left over from the reset loop, which is the last index | two songs with current index 0: song 1 is marked as playing and song 0 is not; an empty list raises `UnboundLocalError` | mark the song at the current index, as `get_song_list_list` does at line 62 | medium (not executed) | Playlists.Playlist.GetSongList | Playlists.Playlist.MarkCurrent |
