/**
 * `fetchData` in mqtt_demo.js and the `JSON.stringify` of its result: a
 * sample with fixed temperature and humidity and a time cut from
 * `new Date().toISOString()`. The clock enters as a broken-down UTC time.
 */
module Telemetry {

  import opened Options
  import opened Text

  /** The year range of a JavaScript Date. */
  type Year = y: int | -271821 <= y <= 275760
  type Month = m: int | 1 <= m <= 12 witness 1
  type Day = d: int | 1 <= d <= 31 witness 1
  type Hour = h: int | 0 <= h < 24
  type Minute = m: int | 0 <= m < 60
  type Second = s: int | 0 <= s < 60
  type Millisecond = ms: int | 0 <= ms < 1000

  /** A reading of `new Date()` in UTC. */
  datatype DateTime = DateTime(year: Year, month: Month, day: Day,
                               hour: Hour, minute: Minute, second: Second, millis: Millisecond)

  datatype Sample = Sample(temp: int, humd: int, time: string)

  const Temperature: int := 22
  const Humidity: int := 50

  /**
   * The year of ECMAScript's Date Time String Format: four digits for years
   * 0 to 9999, otherwise an expanded year of a sign and six digits.
   */
  function YearText(year: Year): string
  {
    if 0 <= year <= 9999 then PadDigits(year, 4)
    else (if year < 0 then "-" else "+") + PadDigits(if year < 0 then -year else year, 6)
  }

  function DateText(now: DateTime): string
  {
    YearText(now.year) + "-" + PadDigits(now.month, 2) + "-" + PadDigits(now.day, 2)
  }

  function ClockText(now: DateTime): string
  {
    PadDigits(now.hour, 2) + ":" + PadDigits(now.minute, 2) + ":" + PadDigits(now.second, 2)
  }

  /** `Date.prototype.toISOString`: `YYYY-MM-DDTHH:mm:ss.sssZ`. */
  function IsoString(now: DateTime): string
  {
    DateText(now) + "T" + ClockText(now) + "." + PadDigits(now.millis, 3) + "Z"
  }

  /** `fetchData`: `toISOString().slice(0, 19).replace('T', ' ')` with the fixed readings. */
  function FetchData(now: DateTime): Sample
  {
    Sample(Temperature, Humidity, ReplaceFirst(Take(IsoString(now), 19), 'T', ' '))
  }

  /** The characters a time is made of: digits, a sign, '-', ':' and a space. */
  predicate TimeChar(c: char)
  {
    IsDigit(c) || c == '-' || c == '+' || c == ':' || c == ' '
  }

  predicate TimeChars(s: string)
  {
    forall i :: 0 <= i < |s| ==> TimeChar(s[i])
  }

  lemma TimeCharsJoin(a: string, b: string)
    requires TimeChars(a) && TimeChars(b)
    ensures TimeChars(a + b)
  {
    forall i | 0 <= i < |a + b| ensures TimeChar((a + b)[i]) {
      if i < |a| { assert (a + b)[i] == a[i]; } else { assert (a + b)[i] == b[i - |a|]; }
    }
  }

  lemma YearTextChars(year: Year)
    ensures TimeChars(YearText(year))
    ensures |YearText(year)| == if 0 <= year <= 9999 then 4 else 7
  {
    if !(0 <= year <= 9999) {
      var digits := PadDigits(if year < 0 then -year else year, 6);
      TimeCharsJoin(if year < 0 then "-" else "+", digits);
    }
  }

  lemma DateChars(y: string, mo: string, d: string)
    requires TimeChars(y) && AllDigits(mo) && AllDigits(d)
    ensures TimeChars(y + "-" + mo + "-" + d)
  {
    TimeCharsJoin(y, "-");
    TimeCharsJoin(y + "-", mo);
    TimeCharsJoin(y + "-" + mo, "-");
    TimeCharsJoin(y + "-" + mo + "-", d);
  }

  lemma ClockChars(h: string, mi: string, s: string)
    requires AllDigits(h) && AllDigits(mi) && AllDigits(s)
    ensures TimeChars(h + ":" + mi)
    ensures TimeChars(h + ":" + mi + ":" + s)
  {
    TimeCharsJoin(h, ":");
    TimeCharsJoin(h + ":", mi);
    TimeCharsJoin(h + ":" + mi, ":");
    TimeCharsJoin(h + ":" + mi + ":", s);
  }

  lemma SpacedChars(date: string, clock: string)
    requires TimeChars(date) && TimeChars(clock)
    ensures TimeChars(date + " " + clock)
  {
    TimeCharsJoin(date, " ");
    TimeCharsJoin(date + " ", clock);
  }

  /** The head of a text whose first `|a|` characters are `a`. */
  lemma TakeOfAppend(a: string, b: string)
    ensures Take(a + b, |a|) == a
  {
    assert (a + b)[..|a|] == a;
  }

  /** Solver aid: regroups the ISO string's concatenation in the two ways the 19-character cut needs. */
  lemma IsoSplit(date: string, h: string, mi: string, sec: string, ms: string)
    ensures date + "T" + (h + ":" + mi + ":" + sec) + "." + ms + "Z"
         == (date + "T" + (h + ":" + mi + ":" + sec)) + ("." + ms + "Z")
    ensures date + "T" + (h + ":" + mi + ":" + sec) + "." + ms + "Z"
         == (date + "T" + (h + ":" + mi)) + (":" + sec + "." + ms + "Z")
  {
  }

  /** The first 19 characters of the ISO string: the date, 'T', and as much of the clock as fits. */
  lemma IsoPrefix(now: DateTime)
    ensures 0 <= now.year <= 9999 ==> Take(IsoString(now), 19) == DateText(now) + "T" + ClockText(now)
    ensures !(0 <= now.year <= 9999) ==>
      Take(IsoString(now), 19) == DateText(now) + "T" + (PadDigits(now.hour, 2) + ":" + PadDigits(now.minute, 2))
  {
    YearTextChars(now.year);
    var date := DateText(now);
    var h, mi, sec, ms := PadDigits(now.hour, 2), PadDigits(now.minute, 2), PadDigits(now.second, 2), PadDigits(now.millis, 3);
    IsoSplit(date, h, mi, sec, ms);
    if 0 <= now.year <= 9999 {
      TakeOfAppend(date + "T" + ClockText(now), "." + ms + "Z");
    } else {
      TakeOfAppend(date + "T" + (h + ":" + mi), ":" + sec + "." + ms + "Z");
    }
  }

  /** The time is the date and the clock separated by a space; an expanded year leaves no room for the seconds. */
  lemma TimeText(now: DateTime)
    ensures 0 <= now.year <= 9999 ==> FetchData(now).time == DateText(now) + " " + ClockText(now)
    ensures !(0 <= now.year <= 9999) ==>
      FetchData(now).time == DateText(now) + " " + (PadDigits(now.hour, 2) + ":" + PadDigits(now.minute, 2))
  {
    IsoPrefix(now);
    YearTextChars(now.year);
    var y, mo, d := YearText(now.year), PadDigits(now.month, 2), PadDigits(now.day, 2);
    var h, mi := PadDigits(now.hour, 2), PadDigits(now.minute, 2);
    DateChars(y, mo, d);
    var date := DateText(now);
    assert 'T' !in date by { assert !TimeChar('T'); }
    if 0 <= now.year <= 9999 {
      ReplaceFirstAt(date, 'T', ' ', ClockText(now));
    } else {
      ReplaceFirstAt(date, 'T', ' ', h + ":" + mi);
    }
  }

  /** Where the fields of `Y-M-D h:m:s` stand, for two-digit fields and a four-digit year. */
  lemma FieldPositions(y: string, mo: string, d: string, h: string, mi: string, s: string)
    requires |y| == 4 && |mo| == 2 && |d| == 2 && |h| == 2 && |mi| == 2 && |s| == 2
    ensures var t := (y + "-" + mo + "-" + d) + " " + (h + ":" + mi + ":" + s);
      && |t| == 19 && t[4] == '-' && t[7] == '-' && t[10] == ' ' && t[13] == ':' && t[16] == ':'
      && t[0..4] == y && t[5..7] == mo && t[8..10] == d && t[11..13] == h && t[14..16] == mi && t[17..19] == s
  {
  }

  /** Where the fields of `Y-M-D h:m` stand, for a seven-character expanded year. */
  lemma ExpandedFieldPositions(y: string, mo: string, d: string, h: string, mi: string)
    requires |y| == 7 && |mo| == 2 && |d| == 2 && |h| == 2 && |mi| == 2
    ensures var t := (y + "-" + mo + "-" + d) + " " + (h + ":" + mi);
      && |t| == 19 && t[7] == '-' && t[10] == '-' && t[13] == ' ' && t[16] == ':'
      && t[0..7] == y && t[14..16] == h && t[17..19] == mi
  {
  }

  /**
   * For a four-digit year the time reads `YYYY-MM-DD HH:MM:SS`, and its digit
   * fields give back the clock reading to the second.
   */
  lemma TimeFormat(now: DateTime)
    requires 0 <= now.year <= 9999
    ensures var t := FetchData(now).time;
      && |t| == 19 && t[4] == '-' && t[7] == '-' && t[10] == ' ' && t[13] == ':' && t[16] == ':'
      && AllDigits(t[0..4]) && DigitsValue(t[0..4]) == now.year
      && AllDigits(t[5..7]) && DigitsValue(t[5..7]) == now.month
      && AllDigits(t[8..10]) && DigitsValue(t[8..10]) == now.day
      && AllDigits(t[11..13]) && DigitsValue(t[11..13]) == now.hour
      && AllDigits(t[14..16]) && DigitsValue(t[14..16]) == now.minute
      && AllDigits(t[17..19]) && DigitsValue(t[17..19]) == now.second
  {
    TimeText(now);
    var y, mo, d := PadDigits(now.year, 4), PadDigits(now.month, 2), PadDigits(now.day, 2);
    var h, mi, s := PadDigits(now.hour, 2), PadDigits(now.minute, 2), PadDigits(now.second, 2);
    assert DateText(now) == y + "-" + mo + "-" + d;
    assert ClockText(now) == h + ":" + mi + ":" + s;
    FieldPositions(y, mo, d, h, mi, s);
  }

  /**
   * A year outside 0 to 9999 lengthens the ISO string by three characters,
   * so the 19-character cut turns the 'T' at index 13 into the space, keeps
   * the minutes and drops the seconds.
   */
  lemma ExpandedYearTime(now: DateTime)
    requires !(0 <= now.year <= 9999)
    ensures var t := FetchData(now).time;
      && |t| == 19 && t[7] == '-' && t[10] == '-' && t[13] == ' ' && t[16] == ':'
      && t[0..7] == YearText(now.year)
      && AllDigits(t[14..16]) && DigitsValue(t[14..16]) == now.hour
      && AllDigits(t[17..19]) && DigitsValue(t[17..19]) == now.minute
  {
    TimeText(now);
    YearTextChars(now.year);
    var y, mo, d := YearText(now.year), PadDigits(now.month, 2), PadDigits(now.day, 2);
    var h, mi := PadDigits(now.hour, 2), PadDigits(now.minute, 2);
    assert DateText(now) == y + "-" + mo + "-" + d;
    ExpandedFieldPositions(y, mo, d, h, mi);
  }

  // ---------------------------------------------------------------------------
  // JSON.stringify of the sample
  // ---------------------------------------------------------------------------

  /** A character that a JSON string holds as itself. */
  predicate Plain(c: char)
  {
    c != '"' && c != '\\' && c as int >= 0x20
  }

  predicate PlainText(s: string)
  {
    forall i :: 0 <= i < |s| ==> Plain(s[i])
  }

  function HexChar(d: nat): char
    requires d < 16
  {
    if d < 10 then DigitChar(d) else ('a' as int + (d - 10)) as char
  }

  /** How `JSON.stringify` writes one character inside a string. */
  function EscapeChar(c: char): string
  {
    if c == '"' then "\\\""
    else if c == '\\' then "\\\\"
    else if c as int == 0x08 then "\\b"
    else if c as int == 0x0C then "\\f"
    else if c == '\n' then "\\n"
    else if c == '\r' then "\\r"
    else if c == '\t' then "\\t"
    else if c as int < 0x20 then "\\u00" + [HexChar(c as int / 16), HexChar(c as int % 16)]
    else [c]
  }

  function Escape(s: string): string
  {
    if s == [] then "" else EscapeChar(s[0]) + Escape(s[1..])
  }

  lemma {:induction false} EscapePlain(s: string)
    requires PlainText(s)
    ensures Escape(s) == s
  {
    if s != [] {
      assert PlainText(s[1..]) by {
        forall i | 0 <= i < |s[1..]| ensures Plain(s[1..][i]) { assert s[1..][i] == s[i + 1]; }
      }
      EscapePlain(s[1..]);
      assert s == [s[0]] + s[1..];
    }
  }

  const TempKey: string := "{\"temp\":"
  const HumdKey: string := ",\"humd\":"
  const TimeKey: string := ",\"time\":\""
  const Closing: string := "\"}"

  /** `JSON.stringify(sample)`: the keys in insertion order, no spaces. */
  function Serialize(s: Sample): string
  {
    TempKey + IntText(s.temp) + (HumdKey + IntText(s.humd) + (TimeKey + Escape(s.time) + Closing))
  }

  /** Reads `key` and then an integer off the front of `text`. */
  function ReadNumber(text: string, key: string): Option<(int, string)>
  {
    if StartsWith(text, key) then ParseInt(text[|key|..]) else None
  }

  /** Reads the quoted, unescaped time that ends the text. */
  function ReadTime(text: string): Option<string>
  {
    if !StartsWith(text, TimeKey) then None
    else
      var body := text[|TimeKey|..];
      if |body| < |Closing| || body[|body| - |Closing|..] != Closing then None
      else
        var time := body[..|body| - |Closing|];
        if PlainText(time) then Some(time) else None
  }

  /** A reader for the one shape of text `Serialize` writes, with an unescaped time. */
  function ParseSample(text: string): Option<Sample>
  {
    match ReadNumber(text, TempKey)
    case None => None
    case Some((temp, afterTemp)) =>
      match ReadNumber(afterTemp, HumdKey)
      case None => None
      case Some((humd, afterHumd)) =>
        match ReadTime(afterHumd)
        case None => None
        case Some(time) => Some(Sample(temp, humd, time))
  }

  lemma ReadNumberOf(key: string, i: int, rest: string)
    requires rest == [] || !IsDigit(rest[0])
    ensures ReadNumber(key + IntText(i) + rest, key) == Some((i, rest))
  {
    var text := key + IntText(i) + rest;
    assert text[..|key|] == key;
    assert text[|key|..] == IntText(i) + rest;
    ParseIntText(i, rest);
  }

  lemma ReadTimeOf(time: string)
    requires PlainText(time)
    ensures ReadTime(TimeKey + time + Closing) == Some(time)
  {
    var text := TimeKey + time + Closing;
    assert text[..|TimeKey|] == TimeKey;
    var body := text[|TimeKey|..];
    assert body == time + Closing;
    assert body[|body| - |Closing|..] == Closing;
    assert body[..|body| - |Closing|] == time;
  }

  /** Serializing a sample whose time needs no escapes and reading it back gives the sample. */
  lemma SerializeRoundTrip(s: Sample)
    requires PlainText(s.time)
    ensures ParseSample(Serialize(s)) == Some(s)
  {
    EscapePlain(s.time);
    var timePart := TimeKey + s.time + Closing;
    var humdPart := HumdKey + IntText(s.humd) + timePart;
    assert Serialize(s) == TempKey + IntText(s.temp) + humdPart;
    ReadNumberOf(TempKey, s.temp, humdPart);
    ReadNumberOf(HumdKey, s.humd, timePart);
    ReadTimeOf(s.time);
  }

  lemma TimeCharsArePlain(s: string)
    requires TimeChars(s)
    ensures PlainText(s)
  {
    forall i | 0 <= i < |s| ensures Plain(s[i]) { assert TimeChar(s[i]); }
  }

  /** The time of every sample is made of digits, a sign, '-', ':' and a space. */
  lemma TimeOfTimeChars(now: DateTime)
    ensures TimeChars(FetchData(now).time)
  {
    TimeText(now);
    YearTextChars(now.year);
    var h, mi, s := PadDigits(now.hour, 2), PadDigits(now.minute, 2), PadDigits(now.second, 2);
    DateChars(YearText(now.year), PadDigits(now.month, 2), PadDigits(now.day, 2));
    ClockChars(h, mi, s);
    if 0 <= now.year <= 9999 {
      SpacedChars(DateText(now), ClockText(now));
    } else {
      SpacedChars(DateText(now), h + ":" + mi);
    }
  }

  /** The time of every sample is plain text, which `JSON.stringify` writes unchanged. */
  lemma TimeIsPlain(now: DateTime)
    ensures PlainText(FetchData(now).time)
  {
    TimeOfTimeChars(now);
    TimeCharsArePlain(FetchData(now).time);
  }

  /** Every published payload reads back as the sample it was made from. */
  lemma FetchDataRoundTrip(now: DateTime)
    ensures ParseSample(Serialize(FetchData(now))) == Some(FetchData(now))
  {
    TimeIsPlain(now);
    SerializeRoundTrip(FetchData(now));
  }

  /** The text of a sample with the fixed readings, when its time needs no escapes. */
  lemma SerializeFixedReadings(s: Sample)
    requires s.temp == Temperature && s.humd == Humidity && PlainText(s.time)
    ensures Serialize(s) == "{\"temp\":22,\"humd\":50,\"time\":\"" + s.time + "\"}"
  {
    EscapePlain(s.time);
    FixedReadingsText();
    SerializeRegroup(TempKey, IntText(22), HumdKey, IntText(50), TimeKey, s.time, Closing);
  }

  lemma FixedReadingsText()
    ensures TempKey + IntText(22) + HumdKey + IntText(50) + TimeKey == "{\"temp\":22,\"humd\":50,\"time\":\""
    ensures Closing == "\"}"
  {
    assert IntText(22) == "22";
    assert IntText(50) == "50";
  }

  /** Solver aid: regroups the serialized text's concatenation around the time. */
  lemma SerializeRegroup(a: string, b: string, c: string, d: string, e: string, f: string, g: string)
    ensures a + b + (c + d + (e + f + g)) == (a + b + c + d + e) + f + g
  {
  }

  /** Solver aid: the length of the fixed-readings text, apart from its time. */
  lemma FixedShapeLength(time: string)
    ensures |"{\"temp\":22,\"humd\":50,\"time\":\"" + time + "\"}"| == |time| + 31
  {
  }

  /** For a four-digit year the payload is a fixed-shape, 50-character JSON text. */
  lemma PayloadShape(now: DateTime)
    requires 0 <= now.year <= 9999
    ensures Serialize(FetchData(now)) == "{\"temp\":22,\"humd\":50,\"time\":\"" + FetchData(now).time + "\"}"
    ensures |Serialize(FetchData(now))| == 50
  {
    TimeIsPlain(now);
    TimeText(now);
    assert |FetchData(now).time| == 19;
    SerializeFixedReadings(FetchData(now));
    FixedShapeLength(FetchData(now).time);
  }
}
