/// The static data of the word clock: the letter grid and the table that
/// places every word key on it (main.py, lines 29-75).
module Grid {

  const ColumnCount: nat := 11
  const RowCount: nat := 10

  /** The grid, row by row; cell (x, y) is the letter at index y * ColumnCount + x. */
  function Letters(): (g: string)
    ensures |g| == ColumnCount * RowCount
  {
    "ESKISTAFÜNF"
    + "ZEHNZWANZIG"
    + "DREIVIERTEL"
    + "VORFUNKNACH"
    + "HALBAELFÜNF"
    + "EINSXAMZWEI"
    + "DREIPMJVIER"
    + "SECHSNLACHT"
    + "SIEBENZWÖLF"
    + "ZEHNEUNKUHR"
  }

  /** Anchor of a word: its row and the column of its first letter. */
  datatype Placement = Placement(row: nat, column: nat)

  /** The word keys in the order in which the placement table declares them. */
  const Keys: seq<string> := [
    "ES", "IST",
    "zwölf", "eins", "zwei", "drei", "vier", "fünf",
    "sechs", "sieben", "acht", "neun", "zehn", "elf",
    "FÜNF", "ZEHN", "VIERTEL", "ZWANZIG", "DREIVIERTEL", "HALB", "UHR",
    "VOR", "NACH"
  ]

  /** The placement table: word key to (row, column). */
  const WordCoordinates: map<string, Placement> := map[
    "ES" := Placement(0, 0),
    "IST" := Placement(0, 3),
    "zwölf" := Placement(8, 6),
    "eins" := Placement(5, 0),
    "zwei" := Placement(5, 7),
    "drei" := Placement(6, 0),
    "vier" := Placement(6, 7),
    "fünf" := Placement(4, 7),
    "sechs" := Placement(7, 0),
    "sieben" := Placement(8, 0),
    "acht" := Placement(7, 7),
    "neun" := Placement(9, 3),
    "zehn" := Placement(9, 0),
    "elf" := Placement(4, 5),
    "FÜNF" := Placement(0, 7),
    "ZEHN" := Placement(1, 0),
    "VIERTEL" := Placement(2, 4),
    "ZWANZIG" := Placement(1, 4),
    "DREIVIERTEL" := Placement(2, 0),
    "HALB" := Placement(4, 0),
    "UHR" := Placement(9, 8),
    "VOR" := Placement(3, 0),
    "NACH" := Placement(3, 7)
  ]

  /** Upper case for the letters the keys use (ASCII and the German umlauts). */
  function Upper(c: char): char
  {
    if 'a' <= c <= 'z' then (c as int - 32) as char
    else if c == 'ä' then 'Ä'
    else if c == 'ö' then 'Ö'
    else if c == 'ü' then 'Ü'
    else c
  }

  /** The letters of `grid` from index `start` on are the upper-case letters of `w`. */
  ghost predicate Spells(grid: string, start: int, w: string)
  {
    0 <= start && start + |w| <= |grid| &&
    forall i :: 0 <= i < |w| ==> grid[start + i] == Upper(w[i])
  }

  /** Letter-by-letter check of Spells from letter i of `w` on, which the verifier can evaluate on constants. */
  predicate SpellsFrom(grid: string, start: int, w: string, i: nat)
    decreases |w| - i
  {
    if i >= |w| then 0 <= start && start + |w| <= |grid|
    else 0 <= start + i < |grid| && grid[start + i] == Upper(w[i]) && SpellsFrom(grid, start, w, i + 1)
  }

  lemma {:induction false} SpellsFromSound(grid: string, start: int, w: string, i: nat)
    requires SpellsFrom(grid, start, w, i)
    ensures 0 <= start && start + |w| <= |grid|
    ensures forall k :: i <= k < |w| ==> grid[start + k] == Upper(w[k])
    decreases |w| - i
  {
    if i < |w| {
      SpellsFromSound(grid, start, w, i + 1);
    }
  }

  /** A placement lies inside the grid and the grid there spells the word. */
  ghost predicate PlacedCorrectly(k: string)
    requires k in WordCoordinates
  {
    var p := WordCoordinates[k];
    p.row < RowCount && p.column + |k| <= ColumnCount &&
    Spells(Letters(), p.row * ColumnCount + p.column, k)
  }

  /** Keys lists the table's keys, each once, in declaration order. */
  lemma KeysInDeclarationOrder()
    ensures |Keys| == 23
    ensures forall k :: k in WordCoordinates <==> k in Keys
    ensures forall i, j | 0 <= i < j < |Keys| :: Keys[i] != Keys[j]
  {
  }

  lemma {:induction false} PlacedAt(k: string)
    requires k in WordCoordinates
    requires WordCoordinates[k].row < RowCount
    requires WordCoordinates[k].column + |k| <= ColumnCount
    requires SpellsFrom(Letters(), WordCoordinates[k].row * ColumnCount + WordCoordinates[k].column, k, 0)
    ensures PlacedCorrectly(k)
  {
    SpellsFromSound(Letters(), WordCoordinates[k].row * ColumnCount + WordCoordinates[k].column, k, 0);
  }

  lemma PlacedEs()
    ensures PlacedCorrectly("ES")
  {
    assert SpellsFrom(Letters(), 0, "ES", 2);
    assert SpellsFrom(Letters(), 0, "ES", 1);
    assert SpellsFrom(Letters(), 0, "ES", 0);
    PlacedAt("ES");
  }
  lemma PlacedIst()
    ensures PlacedCorrectly("IST")
  {
    assert SpellsFrom(Letters(), 3, "IST", 3);
    assert SpellsFrom(Letters(), 3, "IST", 2);
    assert SpellsFrom(Letters(), 3, "IST", 1);
    assert SpellsFrom(Letters(), 3, "IST", 0);
    PlacedAt("IST");
  }
  lemma PlacedHourZwoelf()
    ensures PlacedCorrectly("zwölf")
  {
    assert SpellsFrom(Letters(), 94, "zwölf", 5);
    assert SpellsFrom(Letters(), 94, "zwölf", 4);
    assert SpellsFrom(Letters(), 94, "zwölf", 3);
    assert SpellsFrom(Letters(), 94, "zwölf", 2);
    assert SpellsFrom(Letters(), 94, "zwölf", 1);
    assert SpellsFrom(Letters(), 94, "zwölf", 0);
    PlacedAt("zwölf");
  }
  lemma PlacedHourEins()
    ensures PlacedCorrectly("eins")
  {
    assert SpellsFrom(Letters(), 55, "eins", 4);
    assert SpellsFrom(Letters(), 55, "eins", 3);
    assert SpellsFrom(Letters(), 55, "eins", 2);
    assert SpellsFrom(Letters(), 55, "eins", 1);
    assert SpellsFrom(Letters(), 55, "eins", 0);
    PlacedAt("eins");
  }
  lemma PlacedHourZwei()
    ensures PlacedCorrectly("zwei")
  {
    assert SpellsFrom(Letters(), 62, "zwei", 4);
    assert SpellsFrom(Letters(), 62, "zwei", 3);
    assert SpellsFrom(Letters(), 62, "zwei", 2);
    assert SpellsFrom(Letters(), 62, "zwei", 1);
    assert SpellsFrom(Letters(), 62, "zwei", 0);
    PlacedAt("zwei");
  }
  lemma PlacedHourDrei()
    ensures PlacedCorrectly("drei")
  {
    assert SpellsFrom(Letters(), 66, "drei", 4);
    assert SpellsFrom(Letters(), 66, "drei", 3);
    assert SpellsFrom(Letters(), 66, "drei", 2);
    assert SpellsFrom(Letters(), 66, "drei", 1);
    assert SpellsFrom(Letters(), 66, "drei", 0);
    PlacedAt("drei");
  }
  lemma PlacedHourVier()
    ensures PlacedCorrectly("vier")
  {
    assert SpellsFrom(Letters(), 73, "vier", 4);
    assert SpellsFrom(Letters(), 73, "vier", 3);
    assert SpellsFrom(Letters(), 73, "vier", 2);
    assert SpellsFrom(Letters(), 73, "vier", 1);
    assert SpellsFrom(Letters(), 73, "vier", 0);
    PlacedAt("vier");
  }
  lemma PlacedHourFuenf()
    ensures PlacedCorrectly("fünf")
  {
    assert SpellsFrom(Letters(), 51, "fünf", 4);
    assert SpellsFrom(Letters(), 51, "fünf", 3);
    assert SpellsFrom(Letters(), 51, "fünf", 2);
    assert SpellsFrom(Letters(), 51, "fünf", 1);
    assert SpellsFrom(Letters(), 51, "fünf", 0);
    PlacedAt("fünf");
  }
  lemma PlacedHourSechs()
    ensures PlacedCorrectly("sechs")
  {
    assert SpellsFrom(Letters(), 77, "sechs", 5);
    assert SpellsFrom(Letters(), 77, "sechs", 4);
    assert SpellsFrom(Letters(), 77, "sechs", 3);
    assert SpellsFrom(Letters(), 77, "sechs", 2);
    assert SpellsFrom(Letters(), 77, "sechs", 1);
    assert SpellsFrom(Letters(), 77, "sechs", 0);
    PlacedAt("sechs");
  }
  lemma PlacedHourSieben()
    ensures PlacedCorrectly("sieben")
  {
    assert SpellsFrom(Letters(), 88, "sieben", 6);
    assert SpellsFrom(Letters(), 88, "sieben", 5);
    assert SpellsFrom(Letters(), 88, "sieben", 4);
    assert SpellsFrom(Letters(), 88, "sieben", 3);
    assert SpellsFrom(Letters(), 88, "sieben", 2);
    assert SpellsFrom(Letters(), 88, "sieben", 1);
    assert SpellsFrom(Letters(), 88, "sieben", 0);
    PlacedAt("sieben");
  }
  lemma PlacedHourAcht()
    ensures PlacedCorrectly("acht")
  {
    assert SpellsFrom(Letters(), 84, "acht", 4);
    assert SpellsFrom(Letters(), 84, "acht", 3);
    assert SpellsFrom(Letters(), 84, "acht", 2);
    assert SpellsFrom(Letters(), 84, "acht", 1);
    assert SpellsFrom(Letters(), 84, "acht", 0);
    PlacedAt("acht");
  }
  lemma PlacedHourNeun()
    ensures PlacedCorrectly("neun")
  {
    assert SpellsFrom(Letters(), 102, "neun", 4);
    assert SpellsFrom(Letters(), 102, "neun", 3);
    assert SpellsFrom(Letters(), 102, "neun", 2);
    assert SpellsFrom(Letters(), 102, "neun", 1);
    assert SpellsFrom(Letters(), 102, "neun", 0);
    PlacedAt("neun");
  }
  lemma PlacedHourZehn()
    ensures PlacedCorrectly("zehn")
  {
    assert SpellsFrom(Letters(), 99, "zehn", 4);
    assert SpellsFrom(Letters(), 99, "zehn", 3);
    assert SpellsFrom(Letters(), 99, "zehn", 2);
    assert SpellsFrom(Letters(), 99, "zehn", 1);
    assert SpellsFrom(Letters(), 99, "zehn", 0);
    PlacedAt("zehn");
  }
  lemma PlacedHourElf()
    ensures PlacedCorrectly("elf")
  {
    assert SpellsFrom(Letters(), 49, "elf", 3);
    assert SpellsFrom(Letters(), 49, "elf", 2);
    assert SpellsFrom(Letters(), 49, "elf", 1);
    assert SpellsFrom(Letters(), 49, "elf", 0);
    PlacedAt("elf");
  }
  lemma PlacedMinuteFuenf()
    ensures PlacedCorrectly("FÜNF")
  {
    assert SpellsFrom(Letters(), 7, "FÜNF", 4);
    assert SpellsFrom(Letters(), 7, "FÜNF", 3);
    assert SpellsFrom(Letters(), 7, "FÜNF", 2);
    assert SpellsFrom(Letters(), 7, "FÜNF", 1);
    assert SpellsFrom(Letters(), 7, "FÜNF", 0);
    PlacedAt("FÜNF");
  }
  lemma PlacedMinuteZehn()
    ensures PlacedCorrectly("ZEHN")
  {
    assert SpellsFrom(Letters(), 11, "ZEHN", 4);
    assert SpellsFrom(Letters(), 11, "ZEHN", 3);
    assert SpellsFrom(Letters(), 11, "ZEHN", 2);
    assert SpellsFrom(Letters(), 11, "ZEHN", 1);
    assert SpellsFrom(Letters(), 11, "ZEHN", 0);
    PlacedAt("ZEHN");
  }
  lemma PlacedMinuteViertel()
    ensures PlacedCorrectly("VIERTEL")
  {
    assert SpellsFrom(Letters(), 26, "VIERTEL", 7);
    assert SpellsFrom(Letters(), 26, "VIERTEL", 6);
    assert SpellsFrom(Letters(), 26, "VIERTEL", 5);
    assert SpellsFrom(Letters(), 26, "VIERTEL", 4);
    assert SpellsFrom(Letters(), 26, "VIERTEL", 3);
    assert SpellsFrom(Letters(), 26, "VIERTEL", 2);
    assert SpellsFrom(Letters(), 26, "VIERTEL", 1);
    assert SpellsFrom(Letters(), 26, "VIERTEL", 0);
    PlacedAt("VIERTEL");
  }
  lemma PlacedMinuteZwanzig()
    ensures PlacedCorrectly("ZWANZIG")
  {
    assert SpellsFrom(Letters(), 15, "ZWANZIG", 7);
    assert SpellsFrom(Letters(), 15, "ZWANZIG", 6);
    assert SpellsFrom(Letters(), 15, "ZWANZIG", 5);
    assert SpellsFrom(Letters(), 15, "ZWANZIG", 4);
    assert SpellsFrom(Letters(), 15, "ZWANZIG", 3);
    assert SpellsFrom(Letters(), 15, "ZWANZIG", 2);
    assert SpellsFrom(Letters(), 15, "ZWANZIG", 1);
    assert SpellsFrom(Letters(), 15, "ZWANZIG", 0);
    PlacedAt("ZWANZIG");
  }
  lemma PlacedMinuteDreiviertel()
    ensures PlacedCorrectly("DREIVIERTEL")
  {
    assert SpellsFrom(Letters(), 22, "DREIVIERTEL", 11);
    assert SpellsFrom(Letters(), 22, "DREIVIERTEL", 10);
    assert SpellsFrom(Letters(), 22, "DREIVIERTEL", 9);
    assert SpellsFrom(Letters(), 22, "DREIVIERTEL", 8);
    assert SpellsFrom(Letters(), 22, "DREIVIERTEL", 7);
    assert SpellsFrom(Letters(), 22, "DREIVIERTEL", 6);
    assert SpellsFrom(Letters(), 22, "DREIVIERTEL", 5);
    assert SpellsFrom(Letters(), 22, "DREIVIERTEL", 4);
    assert SpellsFrom(Letters(), 22, "DREIVIERTEL", 3);
    assert SpellsFrom(Letters(), 22, "DREIVIERTEL", 2);
    assert SpellsFrom(Letters(), 22, "DREIVIERTEL", 1);
    assert SpellsFrom(Letters(), 22, "DREIVIERTEL", 0);
    PlacedAt("DREIVIERTEL");
  }
  lemma PlacedMinuteHalb()
    ensures PlacedCorrectly("HALB")
  {
    assert SpellsFrom(Letters(), 44, "HALB", 4);
    assert SpellsFrom(Letters(), 44, "HALB", 3);
    assert SpellsFrom(Letters(), 44, "HALB", 2);
    assert SpellsFrom(Letters(), 44, "HALB", 1);
    assert SpellsFrom(Letters(), 44, "HALB", 0);
    PlacedAt("HALB");
  }
  lemma PlacedMinuteUhr()
    ensures PlacedCorrectly("UHR")
  {
    assert SpellsFrom(Letters(), 107, "UHR", 3);
    assert SpellsFrom(Letters(), 107, "UHR", 2);
    assert SpellsFrom(Letters(), 107, "UHR", 1);
    assert SpellsFrom(Letters(), 107, "UHR", 0);
    PlacedAt("UHR");
  }
  lemma PlacedMinuteVor()
    ensures PlacedCorrectly("VOR")
  {
    assert SpellsFrom(Letters(), 33, "VOR", 3);
    assert SpellsFrom(Letters(), 33, "VOR", 2);
    assert SpellsFrom(Letters(), 33, "VOR", 1);
    assert SpellsFrom(Letters(), 33, "VOR", 0);
    PlacedAt("VOR");
  }
  lemma PlacedMinuteNach()
    ensures PlacedCorrectly("NACH")
  {
    assert SpellsFrom(Letters(), 40, "NACH", 4);
    assert SpellsFrom(Letters(), 40, "NACH", 3);
    assert SpellsFrom(Letters(), 40, "NACH", 2);
    assert SpellsFrom(Letters(), 40, "NACH", 1);
    assert SpellsFrom(Letters(), 40, "NACH", 0);
    PlacedAt("NACH");
  }

  /** Every placement fits in its row and spells its key, e.g. "zwölf" at (8, 6) reads ZWÖLF. */
  lemma PlacementsFitAndSpell()
    ensures forall k | k in WordCoordinates :: PlacedCorrectly(k)
  {
    PlacedEs();
    PlacedIst();
    PlacedHourZwoelf();
    PlacedHourEins();
    PlacedHourZwei();
    PlacedHourDrei();
    PlacedHourVier();
    PlacedHourFuenf();
    PlacedHourSechs();
    PlacedHourSieben();
    PlacedHourAcht();
    PlacedHourNeun();
    PlacedHourZehn();
    PlacedHourElf();
    PlacedMinuteFuenf();
    PlacedMinuteZehn();
    PlacedMinuteViertel();
    PlacedMinuteZwanzig();
    PlacedMinuteDreiviertel();
    PlacedMinuteHalb();
    PlacedMinuteUhr();
    PlacedMinuteVor();
    PlacedMinuteNach();
  }
}
