/** The daily request log: one file per calendar date named
    `<year>-<MM>-<DD>.log`, to which each record is appended as its JSON
    text followed by a newline. The clock, `JSON.stringify` and the file
    system are parameters or state of the model. */
module LogFile {
  import opened Wrappers
  import opened JsString
  import opened JsValue

  /** The decimal digit for `d`. */
  function Digit(d: nat): char
    requires d < 10
  {
    ('0' as int + d) as char
  }

  predicate IsDigit(c: char)
  {
    '0' <= c <= '9'
  }

  /** `String(n)` for a natural number: its decimal digits, no leading zero. */
  function Digits(n: nat): (s: string)
    ensures |s| >= 1
    ensures forall k :: 0 <= k < |s| ==> IsDigit(s[k])
    ensures |s| > 1 ==> s[0] != '0'
  {
    if n < 10 then [Digit(n)] else Digits(n / 10) + [Digit(n % 10)]
  }

  /** `String(year)`: a minus sign before the digits of a negative year. */
  function DecimalString(n: int): (s: string)
    ensures |s| >= 1
    ensures n < 0 <==> s[0] == '-'
  {
    if n < 0 then "-" + Digits(-n) else Digits(n)
  }

  /** The value of a string of decimal digits; the empty string reads as 0. */
  function ParseDigits(s: string): nat
  {
    if s == [] then 0
    else
      var c := s[|s| - 1];
      ParseDigits(s[..|s| - 1]) * 10 + (if IsDigit(c) then c as int - '0' as int else 0)
  }

  /** Reads back `DecimalString`. */
  function ParseDecimal(s: string): int
  {
    if |s| > 0 && s[0] == '-' then -(ParseDigits(s[1..]) as int) else ParseDigits(s)
  }

  lemma {:induction false} DigitsRoundTrip(n: nat)
    ensures ParseDigits(Digits(n)) == n
  {
    if n >= 10 {
      var s := Digits(n);
      assert s[..|s| - 1] == Digits(n / 10);
      DigitsRoundTrip(n / 10);
    }
  }

  lemma DecimalRoundTrip(n: int)
    ensures ParseDecimal(DecimalString(n)) == n
  {
    if n < 0 {
      var d := Digits(-n);
      var s := "-" + d;
      assert DecimalString(n) == s;
      assert |s| > 0 && s[0] == '-' && s[1..] == d;
      DigitsRoundTrip(-n);
    } else {
      assert IsDigit(Digits(n)[0]);
      DigitsRoundTrip(n);
    }
  }

  /** A leading zero does not change the value read. */
  lemma {:induction false} LeadingZero(s: string)
    ensures ParseDigits("0" + s) == ParseDigits(s)
    decreases |s|
  {
    if s != [] {
      var t := "0" + s;
      assert t[..|t| - 1] == "0" + s[..|s| - 1];
      LeadingZero(s[..|s| - 1]);
    }
  }

  /** A month or day number, 1-based, left-padded with `0` to two
      characters. */
  function TwoDigits(n: nat): string
    requires 1 <= n <= 99
  {
    PadStart(Digits(n), 2, '0')
  }

  /** Two digit characters that read back as `n`. */
  lemma TwoDigitsRoundTrip(n: nat)
    requires 1 <= n <= 99
    ensures |TwoDigits(n)| == 2 && IsDigit(TwoDigits(n)[0]) && IsDigit(TwoDigits(n)[1])
    ensures ParseDigits(TwoDigits(n)) == n
  {
    DigitsRoundTrip(n);
    var s := TwoDigits(n);
    if n < 10 {
      assert Digits(n) == [Digit(n)];
      assert s == "0" + Digits(n);
      LeadingZero(Digits(n));
    } else {
      assert Digits(n) == Digits(n / 10) + [Digit(n % 10)];
      assert s == Digits(n);
    }
  }

  /** `generateLogFileName` for a local date: `month0` is the 0-based month
      of `getMonth()`, `day` the day of the month. The name is `String(year)`
      followed by `-MM-DD.log`, with the 1-based month and the day as two
      digits each. */
  function GenerateLogFileName(year: int, month0: int, day: int): (name: string)
    requires 0 <= month0 <= 11 && 1 <= day <= 31
    ensures |name| == |DecimalString(year)| + 10
    ensures name[..|DecimalString(year)|] == DecimalString(year)
    ensures name[|name| - 10] == '-' && name[|name| - 7] == '-' && name[|name| - 4..] == ".log"
    ensures IsDigit(name[|name| - 9]) && IsDigit(name[|name| - 8])
    ensures IsDigit(name[|name| - 6]) && IsDigit(name[|name| - 5])
    ensures ParseDigits(name[|name| - 9..|name| - 7]) == month0 + 1
    ensures ParseDigits(name[|name| - 6..|name| - 4]) == day
  {
    TwoDigitsRoundTrip(month0 + 1);
    TwoDigitsRoundTrip(day);
    NameLayout(DecimalString(year), TwoDigits(month0 + 1), TwoDigits(day));
    DecimalString(year) + "-" + TwoDigits(month0 + 1) + "-" + TwoDigits(day) + ".log"
  }

  /** Where the parts sit in `y-mm-dd.log`, counting the last ten
      characters from the end. */
  lemma NameLayout(y: string, m: string, d: string)
    requires |m| == 2 && |d| == 2
    ensures var name := y + "-" + m + "-" + d + ".log"; var n := |name|;
      && n == |y| + 10 && name[..|y|] == y
      && name[n - 10] == '-' && name[n - 7] == '-' && name[n - 4..] == ".log"
      && name[n - 9..n - 7] == m && name[n - 9] == m[0] && name[n - 8] == m[1]
      && name[n - 6..n - 4] == d && name[n - 6] == d[0] && name[n - 5] == d[1]
  {
  }

  /** Reads a log file name back into (year, 1-based month, day). */
  function ParseLogFileName(name: string): Option<(int, nat, nat)>
  {
    var n := |name|;
    if n < 11 || name[n - 10] != '-' || name[n - 7] != '-' || name[n - 4..] != ".log" then None
    else Some((ParseDecimal(name[..n - 10]), ParseDigits(name[n - 9..n - 7]), ParseDigits(name[n - 6..n - 4])))
  }

  /** Any name of the generated shape reads back into its three parts. */
  lemma ParseNameParts(y: string, m: string, d: string)
    requires |y| >= 1 && |m| == 2 && |d| == 2
    ensures ParseLogFileName(y + "-" + m + "-" + d + ".log") ==
      Some((ParseDecimal(y), ParseDigits(m), ParseDigits(d)))
  {
    NameLayout(y, m, d);
  }

  /** The name records the date it was made for: the year unpadded, the
      month 1-based (so in 1..12) and the day. */
  lemma LogFileNameRoundTrip(year: int, month0: int, day: int)
    requires 0 <= month0 <= 11 && 1 <= day <= 31
    ensures ParseLogFileName(GenerateLogFileName(year, month0, day)) == Some((year, month0 + 1, day))
  {
    TwoDigitsRoundTrip(month0 + 1);
    TwoDigitsRoundTrip(day);
    DecimalRoundTrip(year);
    ParseNameParts(DecimalString(year), TwoDigits(month0 + 1), TwoDigits(day));
  }

  /** Two dates share a log file exactly when they are the same date. */
  lemma SameFileSameDate(y1: int, m1: int, d1: int, y2: int, m2: int, d2: int)
    requires 0 <= m1 <= 11 && 1 <= d1 <= 31
    requires 0 <= m2 <= 11 && 1 <= d2 <= 31
    ensures GenerateLogFileName(y1, m1, d1) == GenerateLogFileName(y2, m2, d2) <==>
      y1 == y2 && m1 == m2 && d1 == d2
  {
    LogFileNameRoundTrip(y1, m1, d1);
    LogFileNameRoundTrip(y2, m2, d2);
  }

  /** The text appended for one record. */
  function LogEntry(json: string): string
  {
    json + "\n"
  }

  /** The contents of a file to which `entries` were appended in order. */
  function Appended(entries: seq<string>): string
  {
    if entries == [] then "" else Appended(entries[..|entries| - 1]) + LogEntry(entries[|entries| - 1])
  }

  /** A file of appended records is newline-delimited: as long as no JSON
      text contains a raw newline, splitting the file on newlines gives back
      the records, then one empty piece after the last newline. */
  lemma {:induction false} EntriesSplitBack(entries: seq<string>)
    requires forall i :: 0 <= i < |entries| ==> '\n' !in entries[i]
    ensures Split(Appended(entries), "\n") == entries + [""]
  {
    AppendedIsJoin(entries);
    forall i | 0 <= i < |entries + [""]| ensures '\n' !in (entries + [""])[i] {
    }
    SplitOnChar(entries + [""], '\n');
  }

  lemma {:induction false} AppendedIsJoin(entries: seq<string>)
    ensures Appended(entries) == Join(entries + [""], "\n")
    decreases |entries|
  {
    if entries != [] {
      var init := entries[..|entries| - 1];
      var last := entries[|entries| - 1];
      AppendedIsJoin(init);
      JoinSnoc(init, last);
      assert entries == init + [last];
    }
  }

  /** Moving the trailing empty piece one record along. */
  lemma {:induction false} JoinSnoc(init: seq<string>, last: string)
    ensures Join(init + [last] + [""], "\n") == Join(init + [""], "\n") + last + "\n"
    decreases |init|
  {
    if init == [] {
      assert [last] + [""] == [last, ""];
      assert Join([last, ""], "\n") == last + "\n" + Join([""], "\n");
    } else {
      JoinSnoc(init[1..], last);
      assert init + [last] + [""] == [init[0]] + (init[1..] + [last] + [""]);
      assert init + [""] == [init[0]] + (init[1..] + [""]);
    }
  }

  /** The log directory: file name to contents. */
  class LogDirectory {
    var files: map<string, string>

    constructor ()
      ensures files == map[]
    {
      files := map[];
    }

    /** `writeLog` of a record serialised as `json` on the given local
      date: the entry is appended to that date's file; no other file
      changes. */
    method WriteLog(year: int, month0: int, day: int, json: string)
      requires 0 <= month0 <= 11 && 1 <= day <= 31
      modifies this
      ensures var name := GenerateLogFileName(year, month0, day);
        files == old(files)[name := Initial(old(files), name) + LogEntry(json)]
    {
      var name := GenerateLogFileName(year, month0, day);
      var entry := json + "\n";
      var existing := if name in files then files[name] else "";
      files := files[name := existing + entry];
    }
  }

  /** A record written on some date, in writing order. */
  datatype Write = Write(year: int, month0: int, day: int, json: string)

  predicate ValidDate(w: Write)
  {
    0 <= w.month0 <= 11 && 1 <= w.day <= 31
  }

  function FileOf(w: Write): string
    requires ValidDate(w)
  {
    GenerateLogFileName(w.year, w.month0, w.day)
  }

  /** The directory after `writes`, appended in order. */
  function AfterWrites(files: map<string, string>, writes: seq<Write>): map<string, string>
    requires forall i :: 0 <= i < |writes| ==> ValidDate(writes[i])
    decreases |writes|
  {
    if writes == [] then files
    else
      var w := writes[|writes| - 1];
      var before := AfterWrites(files, writes[..|writes| - 1]);
      before[FileOf(w) := Initial(before, FileOf(w)) + LogEntry(w.json)]
  }

  /** The JSON texts of the writes that fall on the date of file `name`. */
  function EntriesFor(name: string, writes: seq<Write>): seq<string>
    requires forall i :: 0 <= i < |writes| ==> ValidDate(writes[i])
    decreases |writes|
  {
    if writes == [] then []
    else
      var w := writes[|writes| - 1];
      EntriesFor(name, writes[..|writes| - 1]) + (if FileOf(w) == name then [w.json] else [])
  }

  /** The contents of file `name`, empty if it does not exist yet. */
  function Initial(files: map<string, string>, name: string): string
  {
    if name in files then files[name] else ""
  }

  /** One append to file `target` keeps the invariant of `WritesOnlyAppend`
      for file `name`. */
  lemma AppendOne(files: map<string, string>, before: map<string, string>, es: seq<string>,
                  target: string, json: string, name: string)
    requires name in before <==> name in files || es != []
    requires name in before ==> before[name] == Initial(files, name) + Appended(es)
    ensures var after := before[target := Initial(before, target) + LogEntry(json)];
      var es' := es + (if target == name then [json] else []);
      && (name in after <==> name in files || es' != [])
      && (name in after ==> after[name] == Initial(files, name) + Appended(es'))
  {
    if target == name {
      var es' := es + [json];
      assert es'[..|es'| - 1] == es;
    } else {
      assert es + [] == es;
    }
  }

  /** Writes only append: every file's old contents are a prefix of its
      new contents, followed by exactly the entries written on its date, in
      order; a file no write fell on is untouched. */
  lemma {:induction false} WritesOnlyAppend(files: map<string, string>, writes: seq<Write>, name: string)
    requires forall i :: 0 <= i < |writes| ==> ValidDate(writes[i])
    ensures var after := AfterWrites(files, writes);
      && (name in after <==> name in files || EntriesFor(name, writes) != [])
      && (name in after ==> after[name] == Initial(files, name) + Appended(EntriesFor(name, writes)))
    decreases |writes|
  {
    if writes != [] {
      var init := writes[..|writes| - 1];
      var w := writes[|writes| - 1];
      WritesOnlyAppend(files, init, name);
      AppendOne(files, AfterWrites(files, init), EntriesFor(name, init), FileOf(w), w.json, name);
    }
  }
}
