/// For every time of day the words the clock lights share no cell, although
/// the placement table itself has overlapping words ("elf" and "fünf" share
/// cell (7, 4), "zehn" and "neun" share cell (3, 9)): such pairs are never
/// chosen together (main.py, lines 42-73 and 113-150).
module Overlap {
  import opened Grid
  import opened Encoder
  import opened Cells

  /**
   * Where the always-on and minute words lie: rows 0 to 3, the left of
   * row 4 (HALB) and the right of row 9 (UHR).
   */
  predicate MinuteArea(w: string)
    requires w in WordCoordinates
  {
    var p := WordCoordinates[w];
    p.row <= 3 || (p.row == 4 && p.column + |w| <= 5) || (p.row == 9 && 7 <= p.column)
  }

  /** Where the hour words lie: rows 4 to 9, right of HALB in row 4 and left of UHR in row 9. */
  predicate HourArea(w: string)
    requires w in WordCoordinates
  {
    var p := WordCoordinates[w];
    4 <= p.row && (p.row == 4 ==> 5 <= p.column) && (p.row == 9 ==> p.column + |w| <= 7)
  }

  lemma AreasApart(a: string, b: string)
    requires a in WordCoordinates && b in WordCoordinates
    requires MinuteArea(a) && HourArea(b)
    ensures Apart(WordCoordinates, a, b)
  {
  }

  /** The words in front of the hour word for minute m. */
  function Prefix(m: int): seq<string>
    requires 0 <= m < 60
  {
    BucketTotal(m);
    ["ES", "IST"] + MinuteWords[Bucket(m)]
  }

  /** The words are placed, lie in the minute area and lie pairwise apart. */
  ghost predicate ListApart(words: seq<string>)
  {
    AllPlaced(WordCoordinates, words) &&
    (forall w | w in words :: MinuteArea(w)) &&
    forall i, j | 0 <= i < j < |words| :: Apart(WordCoordinates, words[i], words[j])
  }

  lemma Bucket0Apart()
    ensures ListApart(["ES", "IST", "UHR"])
  {
    assert MinuteArea("ES");
    assert MinuteArea("IST");
    assert MinuteArea("UHR");
    assert Apart(WordCoordinates, "ES", "IST");
    assert Apart(WordCoordinates, "ES", "UHR");
    assert Apart(WordCoordinates, "IST", "UHR");
  }

  lemma Bucket5Apart()
    ensures ListApart(["ES", "IST", "FÜNF", "NACH"])
  {
    assert MinuteArea("ES");
    assert MinuteArea("IST");
    assert MinuteArea("FÜNF");
    assert MinuteArea("NACH");
    assert Apart(WordCoordinates, "ES", "IST");
    assert Apart(WordCoordinates, "ES", "FÜNF");
    assert Apart(WordCoordinates, "ES", "NACH");
    assert Apart(WordCoordinates, "IST", "FÜNF");
    assert Apart(WordCoordinates, "IST", "NACH");
    assert Apart(WordCoordinates, "FÜNF", "NACH");
  }

  lemma Bucket10Apart()
    ensures ListApart(["ES", "IST", "ZEHN", "NACH"])
  {
    assert MinuteArea("ES");
    assert MinuteArea("IST");
    assert MinuteArea("ZEHN");
    assert MinuteArea("NACH");
    assert Apart(WordCoordinates, "ES", "IST");
    assert Apart(WordCoordinates, "ES", "ZEHN");
    assert Apart(WordCoordinates, "ES", "NACH");
    assert Apart(WordCoordinates, "IST", "ZEHN");
    assert Apart(WordCoordinates, "IST", "NACH");
    assert Apart(WordCoordinates, "ZEHN", "NACH");
  }

  lemma Bucket15Apart()
    ensures ListApart(["ES", "IST", "VIERTEL", "NACH"])
  {
    assert MinuteArea("ES");
    assert MinuteArea("IST");
    assert MinuteArea("VIERTEL");
    assert MinuteArea("NACH");
    assert Apart(WordCoordinates, "ES", "IST");
    assert Apart(WordCoordinates, "ES", "VIERTEL");
    assert Apart(WordCoordinates, "ES", "NACH");
    assert Apart(WordCoordinates, "IST", "VIERTEL");
    assert Apart(WordCoordinates, "IST", "NACH");
    assert Apart(WordCoordinates, "VIERTEL", "NACH");
  }

  lemma Bucket20Apart()
    ensures ListApart(["ES", "IST", "ZWANZIG", "NACH"])
  {
    assert MinuteArea("ES");
    assert MinuteArea("IST");
    assert MinuteArea("ZWANZIG");
    assert MinuteArea("NACH");
    assert Apart(WordCoordinates, "ES", "IST");
    assert Apart(WordCoordinates, "ES", "ZWANZIG");
    assert Apart(WordCoordinates, "ES", "NACH");
    assert Apart(WordCoordinates, "IST", "ZWANZIG");
    assert Apart(WordCoordinates, "IST", "NACH");
    assert Apart(WordCoordinates, "ZWANZIG", "NACH");
  }

  lemma Bucket25Apart()
    ensures ListApart(["ES", "IST", "FÜNF", "VOR", "HALB"])
  {
    assert MinuteArea("ES");
    assert MinuteArea("IST");
    assert MinuteArea("FÜNF");
    assert MinuteArea("VOR");
    assert MinuteArea("HALB");
    assert Apart(WordCoordinates, "ES", "IST");
    assert Apart(WordCoordinates, "ES", "FÜNF");
    assert Apart(WordCoordinates, "ES", "VOR");
    assert Apart(WordCoordinates, "ES", "HALB");
    assert Apart(WordCoordinates, "IST", "FÜNF");
    assert Apart(WordCoordinates, "IST", "VOR");
    assert Apart(WordCoordinates, "IST", "HALB");
    assert Apart(WordCoordinates, "FÜNF", "VOR");
    assert Apart(WordCoordinates, "FÜNF", "HALB");
    assert Apart(WordCoordinates, "VOR", "HALB");
  }

  lemma Bucket30Apart()
    ensures ListApart(["ES", "IST", "HALB"])
  {
    assert MinuteArea("ES");
    assert MinuteArea("IST");
    assert MinuteArea("HALB");
    assert Apart(WordCoordinates, "ES", "IST");
    assert Apart(WordCoordinates, "ES", "HALB");
    assert Apart(WordCoordinates, "IST", "HALB");
  }

  lemma Bucket35Apart()
    ensures ListApart(["ES", "IST", "FÜNF", "NACH", "HALB"])
  {
    assert MinuteArea("ES");
    assert MinuteArea("IST");
    assert MinuteArea("FÜNF");
    assert MinuteArea("NACH");
    assert MinuteArea("HALB");
    assert Apart(WordCoordinates, "ES", "IST");
    assert Apart(WordCoordinates, "ES", "FÜNF");
    assert Apart(WordCoordinates, "ES", "NACH");
    assert Apart(WordCoordinates, "ES", "HALB");
    assert Apart(WordCoordinates, "IST", "FÜNF");
    assert Apart(WordCoordinates, "IST", "NACH");
    assert Apart(WordCoordinates, "IST", "HALB");
    assert Apart(WordCoordinates, "FÜNF", "NACH");
    assert Apart(WordCoordinates, "FÜNF", "HALB");
    assert Apart(WordCoordinates, "NACH", "HALB");
  }

  lemma Bucket40Apart()
    ensures ListApart(["ES", "IST", "ZWANZIG", "VOR"])
  {
    assert MinuteArea("ES");
    assert MinuteArea("IST");
    assert MinuteArea("ZWANZIG");
    assert MinuteArea("VOR");
    assert Apart(WordCoordinates, "ES", "IST");
    assert Apart(WordCoordinates, "ES", "ZWANZIG");
    assert Apart(WordCoordinates, "ES", "VOR");
    assert Apart(WordCoordinates, "IST", "ZWANZIG");
    assert Apart(WordCoordinates, "IST", "VOR");
    assert Apart(WordCoordinates, "ZWANZIG", "VOR");
  }

  lemma Bucket45Apart()
    ensures ListApart(["ES", "IST", "VIERTEL", "VOR"])
  {
    assert MinuteArea("ES");
    assert MinuteArea("IST");
    assert MinuteArea("VIERTEL");
    assert MinuteArea("VOR");
    assert Apart(WordCoordinates, "ES", "IST");
    assert Apart(WordCoordinates, "ES", "VIERTEL");
    assert Apart(WordCoordinates, "ES", "VOR");
    assert Apart(WordCoordinates, "IST", "VIERTEL");
    assert Apart(WordCoordinates, "IST", "VOR");
    assert Apart(WordCoordinates, "VIERTEL", "VOR");
  }

  lemma Bucket50Apart()
    ensures ListApart(["ES", "IST", "ZEHN", "VOR"])
  {
    assert MinuteArea("ES");
    assert MinuteArea("IST");
    assert MinuteArea("ZEHN");
    assert MinuteArea("VOR");
    assert Apart(WordCoordinates, "ES", "IST");
    assert Apart(WordCoordinates, "ES", "ZEHN");
    assert Apart(WordCoordinates, "ES", "VOR");
    assert Apart(WordCoordinates, "IST", "ZEHN");
    assert Apart(WordCoordinates, "IST", "VOR");
    assert Apart(WordCoordinates, "ZEHN", "VOR");
  }

  lemma Bucket55Apart()
    ensures ListApart(["ES", "IST", "FÜNF", "VOR"])
  {
    assert MinuteArea("ES");
    assert MinuteArea("IST");
    assert MinuteArea("FÜNF");
    assert MinuteArea("VOR");
    assert Apart(WordCoordinates, "ES", "IST");
    assert Apart(WordCoordinates, "ES", "FÜNF");
    assert Apart(WordCoordinates, "ES", "VOR");
    assert Apart(WordCoordinates, "IST", "FÜNF");
    assert Apart(WordCoordinates, "IST", "VOR");
    assert Apart(WordCoordinates, "FÜNF", "VOR");
  }

  /** For every bucket the always-on and minute words lie pairwise apart, in the minute area. */
  lemma PrefixesApart(m: int)
    requires 0 <= m < 60
    ensures ListApart(Prefix(m))
  {
    var b := Bucket(m);
    if b == 0 {
      assert Prefix(m) == ["ES", "IST", "UHR"];
      Bucket0Apart();
    }
    else if b == 5 {
      assert Prefix(m) == ["ES", "IST", "FÜNF", "NACH"];
      Bucket5Apart();
    }
    else if b == 10 {
      assert Prefix(m) == ["ES", "IST", "ZEHN", "NACH"];
      Bucket10Apart();
    }
    else if b == 15 {
      assert Prefix(m) == ["ES", "IST", "VIERTEL", "NACH"];
      Bucket15Apart();
    }
    else if b == 20 {
      assert Prefix(m) == ["ES", "IST", "ZWANZIG", "NACH"];
      Bucket20Apart();
    }
    else if b == 25 {
      assert Prefix(m) == ["ES", "IST", "FÜNF", "VOR", "HALB"];
      Bucket25Apart();
    }
    else if b == 30 {
      assert Prefix(m) == ["ES", "IST", "HALB"];
      Bucket30Apart();
    }
    else if b == 35 {
      assert Prefix(m) == ["ES", "IST", "FÜNF", "NACH", "HALB"];
      Bucket35Apart();
    }
    else if b == 40 {
      assert Prefix(m) == ["ES", "IST", "ZWANZIG", "VOR"];
      Bucket40Apart();
    }
    else if b == 45 {
      assert Prefix(m) == ["ES", "IST", "VIERTEL", "VOR"];
      Bucket45Apart();
    }
    else if b == 50 {
      assert Prefix(m) == ["ES", "IST", "ZEHN", "VOR"];
      Bucket50Apart();
    }
    else {
      assert Prefix(m) == ["ES", "IST", "FÜNF", "VOR"];
      Bucket55Apart();
    }
  }

  lemma HourWordInHourArea(e: int)
    requires 0 <= e < 12
    ensures HourName(e) in WordCoordinates && HourArea(HourName(e))
  {
  }

  /**
   * For every hour and minute the chosen words are pairwise disjoint, so the
   * clock lights exactly as many cells as the words have letters.
   */
  lemma NoOverlap(h: int, m: int)
    requires 0 <= h < 24 && 0 <= m < 60
    ensures AllPlaced(WordCoordinates, Phrase(h, m))
    ensures PairwiseDisjoint(WordCoordinates, Phrase(h, m))
    ensures |CellsOf(WordCoordinates, Phrase(h, m))| == TotalLength(Phrase(h, m))
  {
    var prefix, hour := Prefix(m), HourName(DialHour(h, m));
    var words := Phrase(h, m);
    assert words == prefix + [hour];
    PrefixesApart(m);
    HourWordInHourArea(DialHour(h, m));
    forall i, j | 0 <= i < j < |words|
      ensures Span(WordCoordinates, words[i]) !! Span(WordCoordinates, words[j])
    {
      if j < |prefix| {
        ApartDisjoint(WordCoordinates, prefix[i], prefix[j]);
      } else {
        AreasApart(prefix[i], hour);
        ApartDisjoint(WordCoordinates, prefix[i], hour);
      }
    }
    DisjointCellCount(WordCoordinates, words);
  }

  /** The table alone is not overlap-free: two pairs of hour words share a cell. */
  lemma SharedHourCells()
    ensures (7, 4) in Span(WordCoordinates, "elf") * Span(WordCoordinates, "fünf")
    ensures (3, 9) in Span(WordCoordinates, "zehn") * Span(WordCoordinates, "neun")
  {
    assert WordCoordinates["elf"] == Placement(4, 5) && WordCoordinates["fünf"] == Placement(4, 7);
    assert WordCoordinates["zehn"] == Placement(9, 0) && WordCoordinates["neun"] == Placement(9, 3);
  }

  /** The two always-on words alone light their five letters. */
  lemma AlwaysOnCells()
    ensures CellsOf(WordCoordinates, ["ES", "IST"]) == {(0, 0), (1, 0), (3, 0), (4, 0), (5, 0)}
  {
    assert WordCoordinates["ES"] == Placement(0, 0) && WordCoordinates["IST"] == Placement(0, 3);
    assert ["ES", "IST"][..1] == ["ES"];
  }
}
