/// The time-to-words encoder of the clock as a specification: which word keys
/// a given hour and minute light up (main.py, lines 122-150).
module Encoder {
  import opened Grid

  /** Start of the 5-minute bucket minute `m` falls in: m rounded down to a multiple of 5. */
  function Bucket(m: int): int
    requires 0 <= m
  {
    (m / 5) * 5
  }

  /** The minute words for each bucket, in the order the clock appends them. */
  const MinuteWords: map<int, seq<string>> := map[
    0 := ["UHR"],
    5 := ["FÜNF", "NACH"],
    10 := ["ZEHN", "NACH"],
    15 := ["VIERTEL", "NACH"],
    20 := ["ZWANZIG", "NACH"],
    25 := ["FÜNF", "VOR", "HALB"],
    30 := ["HALB"],
    35 := ["FÜNF", "NACH", "HALB"],
    40 := ["ZWANZIG", "VOR"],
    45 := ["VIERTEL", "VOR"],
    50 := ["ZEHN", "VOR"],
    55 := ["FÜNF", "VOR"]
  ]

  /** Position of the named hour on the 12-hour dial: from minute 25 on the phrase names the next hour. */
  function DialHour(h: int, m: int): int
    requires 0 <= h < 24 && 0 <= m < 60
  {
    (if m >= 25 then h + 1 else h) % 12
  }

  /** The hour word for each dial position, spelled out (0 is twelve o'clock). */
  function HourName(e: int): string
    requires 0 <= e < 12
  {
    match e
    case 0 => "zwölf"
    case 1 => "eins"
    case 2 => "zwei"
    case 3 => "drei"
    case 4 => "vier"
    case 5 => "fünf"
    case 6 => "sechs"
    case 7 => "sieben"
    case 8 => "acht"
    case 9 => "neun"
    case 10 => "zehn"
    case _ => "elf"
  }

  /** Every minute from 0 to 59 falls in a bucket of the table, the bucket at or below it. */
  lemma BucketTotal(m: int)
    requires 0 <= m < 60
    ensures Bucket(m) in MinuteWords
    ensures Bucket(m) <= m < Bucket(m) + 5 && Bucket(m) % 5 == 0
  {
  }

  /**
   * The words lit at h:m: the two always-on words, the bucket's minute words,
   * then one hour word.
   */
  function Phrase(h: int, m: int): (words: seq<string>)
    requires 0 <= h < 24 && 0 <= m < 60
    ensures forall w | w in words :: w in WordCoordinates
  {
    BucketTotal(m);
    MinuteWordsPlaced(Bucket(m));
    HourKeyByPosition(DialHour(h, m));
    ["ES", "IST"] + MinuteWords[Bucket(m)] + [HourName(DialHour(h, m))]
  }

  /** Keys[e + 2], the source's positional pick, is the hour word for dial position e. */
  lemma HourKeyByPosition(e: int)
    requires 0 <= e < 12
    ensures Keys[e + 2] == HourName(e)
    ensures HourName(e) in WordCoordinates
  {
  }

  /**
   * The phrase as the clock builds it: the first two keys of the placement
   * table, the bucket's minute words, and the key at position dial hour + 2.
   */
  lemma PositionalPhrase(h: int, m: int)
    requires 0 <= h < 24 && 0 <= m < 60
    ensures Bucket(m) in MinuteWords
    ensures Phrase(h, m) == [Keys[0], Keys[1]] + MinuteWords[Bucket(m)] + [Keys[DialHour(h, m) + 2]]
  {
    BucketTotal(m);
    HourKeyByPosition(DialHour(h, m));
  }

  /**
   * The word list and corner count for h:m, built as the clock builds it:
   * the first two keys of the placement table, the bucket's minute words,
   * then the key at position hour + 2, where the hour moves on by one from
   * minute 25 and wraps at 12.
   */
  method TimeWords(h: int, m: int) returns (words: seq<string>, corners: int)
    requires 0 <= h < 24 && 0 <= m < 60
    ensures words == Phrase(h, m)
    ensures corners == m % 5 && 0 <= corners <= 4
  {
    var keys := Keys;
    words := [keys[0], keys[1]];
    var hour := h;
    if m >= 25 {
      hour := hour + 1;
    }
    hour := hour % 12;
    PositionalPhrase(h, m);
    words := words + MinuteWords[(m / 5) * 5];
    words := words + [keys[hour + 2]];
    corners := m % 5;
  }

  /** Each bucket names one to three minute words, all of them placed on the grid. */
  lemma MinuteWordsPlaced(b: int)
    requires b in MinuteWords
    ensures 1 <= |MinuteWords[b]| <= 3
    ensures forall w | w in MinuteWords[b] :: w in WordCoordinates
  {
  }

  /** The shape of every phrase, and every word in it has a placement. */
  lemma PhraseShape(h: int, m: int)
    requires 0 <= h < 24 && 0 <= m < 60
    ensures 4 <= |Phrase(h, m)| <= 6
    ensures Phrase(h, m)[0] == "ES" && Phrase(h, m)[1] == "IST"
    ensures Phrase(h, m)[2..|Phrase(h, m)| - 1] == MinuteWords[Bucket(m)]
    ensures Phrase(h, m)[|Phrase(h, m)| - 1] == HourName(DialHour(h, m))
    ensures forall w | w in Phrase(h, m) :: w in WordCoordinates
  {
    var p, minutes := Phrase(h, m), MinuteWords[Bucket(m)];
    MinuteWordsPlaced(Bucket(m));
    HourKeyByPosition(DialHour(h, m));
    assert p == ["ES", "IST"] + minutes + [HourName(DialHour(h, m))];
    assert p[2..|p| - 1] == minutes;
    assert forall w | w in p :: w == "ES" || w == "IST" || w in minutes || w == HourName(DialHour(h, m));
  }

  /** The table's direction words: UHR only on the full hour, which has no VOR or NACH. */
  lemma FullHourWords(b: int)
    requires b in MinuteWords
    ensures "UHR" in MinuteWords[b] <==> b == 0
    ensures b == 0 ==> "VOR" !in MinuteWords[b] && "NACH" !in MinuteWords[b]
    ensures "HALB" in MinuteWords[b] <==> 25 <= b <= 35
  {
  }

  /** Concrete times, including the hour moving on from minute 25 and the wrap to twelve. */
  lemma Scenarios()
    ensures Phrase(10, 0) == ["ES", "IST", "UHR", "zehn"]
    ensures Phrase(10, 5) == ["ES", "IST", "FÜNF", "NACH", "zehn"]
    ensures Phrase(10, 27) == ["ES", "IST", "FÜNF", "VOR", "HALB", "elf"]
    ensures Phrase(10, 35) == ["ES", "IST", "FÜNF", "NACH", "HALB", "elf"]
    ensures Phrase(10, 59) == ["ES", "IST", "FÜNF", "VOR", "elf"]
    ensures Phrase(0, 5) == ["ES", "IST", "FÜNF", "NACH", "zwölf"]
    ensures Phrase(23, 30) == ["ES", "IST", "HALB", "zwölf"]
  {
  }

  /**
   * From minute 25 on the phrase names the hour that the next hour's first
   * 25 minutes name: 23:40 names the hour of 0:10.
   */
  lemma HourRollsOver(h: int, m: int, m': int)
    requires 0 <= h < 24 && 25 <= m < 60 && 0 <= m' < 25
    ensures DialHour(h, m) == DialHour((h + 1) % 24, m')
  {
  }

  /** No two dial positions share an hour word. */
  lemma HourNameInjective(e: int, e': int)
    requires 0 <= e < 12 && 0 <= e' < 12
    ensures HourName(e) == HourName(e') <==> e == e'
  {
  }

  /** No two buckets share a list of minute words. */
  lemma MinuteWordsInjective(b: int, b': int)
    requires b in MinuteWords && b' in MinuteWords
    ensures MinuteWords[b] == MinuteWords[b'] <==> b == b'
  {
  }

  /**
   * Two times give the same phrase exactly when they share the 5-minute
   * bucket and name the same hour of the dial.
   */
  lemma PhraseDeterminesTime(h: int, m: int, h': int, m': int)
    requires 0 <= h < 24 && 0 <= m < 60
    requires 0 <= h' < 24 && 0 <= m' < 60
    ensures Phrase(h, m) == Phrase(h', m') <==> Bucket(m) == Bucket(m') && DialHour(h, m) == DialHour(h', m')
  {
    var p, p' := Phrase(h, m), Phrase(h', m');
    PhraseShape(h, m);
    PhraseShape(h', m');
    if p == p' {
      HourNameInjective(DialHour(h, m), DialHour(h', m'));
      MinuteWordsInjective(Bucket(m), Bucket(m'));
    }
  }
}
