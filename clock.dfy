/// The clock widget's state and the two methods that update it
/// (main.py, lines 104-150): `set_words` lights the cells of a word list,
/// `set_time` picks the words for an hour and minute.
module ClockWidget {
  import opened Grid
  import opened Encoder
  import opened Cells
  import Overlap

  class Clock {
    /** The lit cells, as (column, row). */
    var activeLetters: set<Cell>
    /** How many corner dots are lit: the minutes past the last 5-minute mark. */
    var corners: int

    constructor ()
      ensures activeLetters == {} && corners == 0
    {
      activeLetters := {};
      corners := 0;
    }

    /**
     * Lights exactly the cells of `words` and stores the corner count. A word
     * with no placement makes the source raise KeyError part-way: `ok` is
     * false then, and the state is what the source leaves behind, the cells
     * of the words before that one.
     */
    method SetWords(words: seq<string>, cornerCount: int) returns (ok: bool)
      modifies this
      ensures ok <==> AllPlaced(WordCoordinates, words)
      ensures activeLetters == CellsOf(WordCoordinates, words[..KnownPrefixLength(WordCoordinates, words)])
      ensures corners == cornerCount
    {
      activeLetters := {};
      corners := cornerCount;
      var j := 0;
      while j < |words|
        invariant 0 <= j <= |words|
        invariant AllPlaced(WordCoordinates, words[..j])
        invariant activeLetters == CellsOf(WordCoordinates, words[..j])
        invariant corners == cornerCount
      {
        var word := words[j];
        if word !in WordCoordinates {
          KnownPrefixStops(WordCoordinates, words, j);
          return false;
        }
        var p := WordCoordinates[word];
        var i := 0;
        while i < |word|
          invariant 0 <= i <= |word|
          invariant activeLetters == CellsOf(WordCoordinates, words[..j]) + Run(p.row, p.column, i)
          invariant corners == cornerCount
        {
          activeLetters := activeLetters + {(p.column + i, p.row)};
          i := i + 1;
        }
        CellsOfExtend(WordCoordinates, words, j);
        j := j + 1;
      }
      assert words[..j] == words;
      KnownPrefixAll(WordCoordinates, words);
      return true;
    }

    /**
     * Lights the phrase for h:m: ES IST, the minute words of m's 5-minute
     * bucket, and the hour word, which the source picks by its position in
     * the placement table. The corner count is m mod 5, and no two lit
     * words share a cell.
     */
    method SetTime(h: int, m: int)
      requires 0 <= h < 24 && 0 <= m < 60
      modifies this
      ensures activeLetters == CellsOf(WordCoordinates, Phrase(h, m))
      ensures |activeLetters| == TotalLength(Phrase(h, m))
      ensures corners == m % 5 && 0 <= corners <= 4
    {
      var words, cornerCount := TimeWords(h, m);
      Overlap.NoOverlap(h, m);
      KnownPrefixAll(WordCoordinates, words);
      var ok := SetWords(words, cornerCount);
      assert words[..|words|] == words;
    }
  }
}
