# German word clock: grid, time-to-words encoder and lit cells

The program is a Qt widget that shows the time as a German phrase on a fixed
11 × 10 grid of letters ("ES IST FÜNF NACH HALB ELF"), plus four corner dots
that count the minutes past the last 5-minute mark. This project models its
core in Dafny:

- **Grid** (`grid.dfy`): the letter grid, the ordered table of word
  placements (word key → row and start column) and the letter each key
  character stands for on the grid (upper case). It proves that every
  placement lies inside the grid and spells its word there, and that the
  table's keys, in declaration order, are the 23 listed.
- **Encoder** (`encoder.dfy`): which words are lit at hour `h`, minute `m`.
  These are "ES", "IST", the minute words of the 5-minute bucket holding `m`,
  and the hour word. The hour moves on by one from minute 25 and wraps at 12.
  The clock picks the hour word by its position in the placement table
  (key `hour + 2`). `TimeWords` does exactly that, and is proved equal to
  `Phrase`, a specification that names the hours explicitly.
- **Cells** (`cells.dfy`): the cells a word list lights. A word covers
  `(column + i, row)` for each of its letters. The module also gives the
  union view of a word list and the count of its cells when no two words
  share one.
- **Overlap** (`overlap.dfy`): the table itself has overlapping words
  ("elf"/"fünf", "zehn"/"neun"), yet no phrase ever lights two words that
  share a cell. So the clock always lights exactly as many cells as the
  phrase has letters.
- **ClockWidget** (`clock.dfy`): the `Clock` class. Its fields are
  `activeLetters` and `corners`. `SetWords` rebuilds the lit cells in place,
  and `SetTime` drives it from an hour and minute.

Where the design description and the code differ, the model
follows the code:

- The hour word is chosen by position in the placement table, not by an
  explicit hour → word map. The model keeps the positional pick in
  `Encoder.TimeWords` and proves it agrees with the explicit
  `Encoder.HourName` (`Encoder.HourKeyByPosition`).
- A word with no placement is not caught at start-up. It makes `set_words`
  fail part-way with a `KeyError`, once the earlier words' cells have
  already been added. `ClockWidget.Clock.SetWords` returns `ok == false`
  in that case, with exactly that partial state.
- The design description also allows an empty minute-word list for bucket 0.
  The code uses `["UHR"]` there, and so does the model.
- The design describes an immutable state value that is replaced on each
  tick. The code mutates the widget's fields, and the model is a class with
  `modifies` clauses.

## Model

| member | source | states |
|---|---|---|
| Grid.Letters | main.py:29-40 | the grid string has exactly ColumnCount × RowCount = 110 letters (the start-up assertion at main.py line 75) |
| Grid.KeysInDeclarationOrder | main.py:42-73 | the placement table has 23 pairwise-distinct keys, and its key list in declaration order (what `keys` is built from) holds exactly the table's keys |
| Grid.SpellsFromSound | main.py:31-73 | a word checked letter by letter from index i against the grid has every letter from i on at the matching grid position, inside the grid |
| Grid.PlacementsFitAndSpell | main.py:42-73 | every placement has a row below RowCount and fits within the row (column + length ≤ ColumnCount). Read left to right from there, the grid spells the word, upper-cased |
| Encoder.BucketTotal | main.py:134-147 | every minute 0-59 has a bucket in the minute table; that bucket is a multiple of 5 at most 4 below the minute |
| Encoder.Phrase | main.py:122-149 | every word of the phrase for any valid time has a placement |
| Encoder.HourKeyByPosition | main.py:149 | key number e + 2 of the table in declaration order is the hour word for dial position e, and it is placed |
| Encoder.PositionalPhrase | main.py:123-149 | the phrase is the first two table keys, the bucket's minute words and the key at dial hour + 2 |
| Encoder.TimeWords | main.py:122-150 | the word list built the way the clock builds it equals the phrase; the corner count is m mod 5, in 0..4 |
| Encoder.MinuteWordsPlaced | main.py:134-147 | each bucket names one to three minute words, all of them placed |
| Encoder.PhraseShape | main.py:124-149 | every phrase has 4 to 6 words. It starts "ES", "IST", then the bucket's minute words, and ends with the hour word of the dial position; every word is placed |
| Encoder.FullHourWords | main.py:134-147 | UHR appears exactly in bucket 0, which has no VOR or NACH; HALB appears exactly in buckets 25 to 35 |
| Encoder.Scenarios | main.py:130-149 | the phrases for 10:00, 10:05, 10:27, 10:35, 10:59, 0:05 and 23:30, word for word |
| Encoder.HourRollsOver | main.py:130-132 | from minute 25 on, the dial hour is the one the next hour's first 25 minutes name (23:40 names the hour of 0:10) |
| Encoder.HourNameInjective | main.py:48-59 | two dial positions have the same hour word exactly when they are equal |
| Encoder.MinuteWordsInjective | main.py:134-147 | two buckets have the same minute words exactly when they are equal |
| Encoder.PhraseDeterminesTime | main.py:122-149 | two times give the same phrase exactly when they share the 5-minute bucket and the dial hour |
| Cells.Run | main.py:118-119 | the cells of one word are exactly the cells of its row whose column runs from its start column over its length |
| Cells.RunSize | main.py:118-119 | a word of n letters covers n cells |
| Cells.CellsOfUnion | main.py:116-119 | a cell is lit exactly when some word of the list covers it |
| Cells.KnownPrefixLength | main.py:116-117 | the words before the returned index all have placements, and the word at it (if any) has none; the loop gets that far before the lookup fails |
| Cells.DisjointCellCount | main.py:113-119 | words that pairwise share no cell light exactly as many cells as they have letters together |
| Cells.ApartDisjoint | main.py:116-119 | two words on different rows, or on column ranges that do not meet, share no cell |
| Overlap.PrefixesApart | main.py:134-147 | for every bucket, "ES", "IST" and the minute words lie pairwise apart, in the minute area of the grid |
| Overlap.HourWordInHourArea | main.py:48-59 | every hour word lies in the hour area, which no minute word touches |
| Overlap.NoOverlap | main.py:113-150 | for every valid time, all words of the phrase are placed and pairwise disjoint. The lit cells number exactly the letters of the phrase |
| Overlap.SharedHourCells | main.py:53-59 | the table alone is not overlap-free: "elf" and "fünf" share cell (7, 4), and "zehn" and "neun" share cell (3, 9) |
| Overlap.AlwaysOnCells | main.py:44-45 | "ES" and "IST" alone light exactly the cells (0,0), (1,0), (3,0), (4,0) and (5,0) |
| ClockWidget.Clock.constructor | main.py:104-111 | a new clock has no lit cells and zero corners |
| ClockWidget.Clock.SetWords | main.py:113-120 | `ok` holds exactly when every word is placed. The lit cells are then the union of the words' cells; otherwise they are the cells of the words before the first unplaced one. The corner count is stored |
| ClockWidget.Clock.SetTime | main.py:122-150 | the lit cells are those of the phrase for h:m, and their number equals the phrase's letter count; corners is m mod 5, in 0..4 |

## Left out

- Painting: `paintEvent` and the helpers `store_painter`, `pen`, `point` and `draw_ellipse` (main.py lines 77-102 and 152-205) only draw the state; the model stops at the state they read.
- The Qt application, the 500 ms timer and `on_timeout` (main.py lines 207-226). They are I/O and a clock: the hour and minute are parameters of `SetTime`, and its precondition states the ranges a Qt time value guarantees.
- The debug `print` of the time (main.py line 128) and `self.update()`, the redraw request (main.py line 120). They are I/O.
- The widget attributes `margin` and `draw_debug_lines` (main.py lines 105-106). Only the painting uses them.
- General Unicode upper-casing. `Grid.Upper` covers the letters the table uses: ASCII a-z and ä, ö, ü.
- ClockWidget.Clock.SetWords: a `KeyError` escaping the method is modelled as the result `ok == false`, with the state left as the source leaves it.
- `set_time` builds its word list inline. Here that list is built by `Encoder.TimeWords`, in the same steps, and `SetTime` passes it to `SetWords`.
