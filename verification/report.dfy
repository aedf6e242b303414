/** The mail the function composes for one water-quality report: a subject
    naming the sampling point and a four-line plain-text body, both marked
    when the report is a test send. Also their inverses, which read the
    fields back out of a composed subject or body. */
module Report {
  import opened Wrappers
  import opened Strings

  /** The sampling point used when the request names none. */
  const DefaultLocation := "01"
  /** Subject title; the full-width parenthesis opens, an ASCII one closes. */
  const SubjectTitle := "毎日検査報告（地点"
  const SubjectClose := ")"
  const TestSubjectMarker := "[テスト送信] "
  const LocationLabel := "地点: "
  const MonthDayLabel := "月日: "
  const TimeLabel := "測定時刻: "
  const ChlorineLabel := "残留塩素: "
  const TestNoticeLine := "※ これはテスト送信です ※"
  /** Appended to the body of a test send. */
  const TestNotice := "\n" + TestNoticeLine + "\n"

  /** JavaScript truthiness of an optional string: present and non-empty. */
  predicate Truthy(o: Option<string>) {
    o.Some? && o.value != ""
  }

  /** `locationNumber || "01"`. */
  function LocationOrDefault(locationNumber: Option<string>): (loc: string)
    ensures loc != ""
    ensures Truthy(locationNumber) ==> loc == locationNumber.value
    ensures !Truthy(locationNumber) ==> loc == DefaultLocation
  {
    if Truthy(locationNumber) then locationNumber.value else DefaultLocation
  }

  /** The report fields a composed mail carries. */
  datatype ReportFields = ReportFields(location: string, monthDay: string, time: string,
                                       chlorine: string, debug: bool)

  /** The subject of the report mail. */
  function Subject(locationNumber: Option<string>, debugMode: bool): (r: string)
    ensures TestSubjectMarker <= r <==> debugMode
    ensures EndsWith(r, SubjectTitle + LocationOrDefault(locationNumber) + SubjectClose)
  {
    var loc := LocationOrDefault(locationNumber);
    var plain := SubjectTitle + loc + SubjectClose;
    assert plain[0] != TestSubjectMarker[0];
    if debugMode then TestSubjectMarker + plain else plain
  }

  /** The plain-text body of the report mail. */
  function Body(locationNumber: Option<string>, monthDay: string, time: string,
                chlorine: string, debugMode: bool): (r: string)
    ensures LocationLabel + LocationOrDefault(locationNumber) + "\n" <= r
    ensures debugMode ==> EndsWith(r, TestNotice)
    ensures !debugMode ==> EndsWith(r, ChlorineLabel + chlorine + "\n")
  {
    var body := Line(LocationLabel, LocationOrDefault(locationNumber)) +
                Line(MonthDayLabel, monthDay) +
                Line(TimeLabel, time) +
                Line(ChlorineLabel, chlorine);
    if debugMode then body + TestNotice else body
  }

  /** One labelled, newline-terminated body line. */
  function Line(name: string, value: string): string {
    name + value + "\n"
  }

  /** The sampling point and test flag recovered from a subject. */
  datatype SubjectFields = SubjectFields(location: string, debug: bool)

  /** Reads a subject back: strips the optional test marker, then the title
      and the closing parenthesis. */
  function ParseSubject(s: string): Option<SubjectFields> {
    var debug := TestSubjectMarker <= s;
    var rest := if debug then s[|TestSubjectMarker|..] else s;
    if |SubjectTitle| + |SubjectClose| <= |rest| && SubjectTitle <= rest && EndsWith(rest, SubjectClose)
    then Some(SubjectFields(rest[|SubjectTitle|..|rest| - |SubjectClose|], debug))
    else None
  }

  /** The label-prefixed value of one body line. */
  function StripLabel(name: string, line: string): Option<string> {
    if name <= line then Some(line[|name|..]) else None
  }

  /** Reads a body back: four labelled lines, then nothing, or the test
      notice after a blank line. */
  function ParseBody(body: string): Option<ReportFields> {
    ParseLines(Split(body, '\n'))
  }

  /** `ParseBody` on a body already split into lines. */
  function ParseLines(lines: seq<string>): Option<ReportFields> {
    var debug := |lines| == 7;
    if (|lines| == 5 || (debug && lines[5] == TestNoticeLine && lines[6] == "")) && lines[4] == "" then
      var loc := StripLabel(LocationLabel, lines[0]);
      var md := StripLabel(MonthDayLabel, lines[1]);
      var time := StripLabel(TimeLabel, lines[2]);
      var cl := StripLabel(ChlorineLabel, lines[3]);
      if loc.Some? && md.Some? && time.Some? && cl.Some? then
        Some(ReportFields(loc.value, md.value, time.value, cl.value, debug))
      else None
    else None
  }

  /** The subject always gives back the defaulted sampling point and the test
      flag, whatever the location string holds. */
  lemma SubjectRoundTrip(locationNumber: Option<string>, debugMode: bool)
    ensures ParseSubject(Subject(locationNumber, debugMode))
            == Some(SubjectFields(LocationOrDefault(locationNumber), debugMode))
  {
    var loc := LocationOrDefault(locationNumber);
    var plain := SubjectTitle + loc + SubjectClose;
    var s := Subject(locationNumber, debugMode);
    if debugMode {
      assert s == TestSubjectMarker + plain;
      assert s[|TestSubjectMarker|..] == plain;
    } else {
      assert s == plain;
      assert s[0] == SubjectTitle[0] != TestSubjectMarker[0];
    }
    assert plain[|SubjectTitle|..|plain| - |SubjectClose|] == loc;
  }

  /** Two report mails with the same subject agree on sampling point and on
      being a test send. */
  lemma SubjectDeterminesLocationAndMode(a: Option<string>, da: bool, b: Option<string>, db: bool)
    requires Subject(a, da) == Subject(b, db)
    ensures LocationOrDefault(a) == LocationOrDefault(b) && da == db
  {
    SubjectRoundTrip(a, da);
    SubjectRoundTrip(b, db);
  }

  /** Reading one body line back. */
  lemma StripLabelOf(name: string, value: string)
    ensures StripLabel(name, name + value) == Some(value)
  {
    assert (name + value)[..|name|] == name;
    assert (name + value)[|name|..] == value;
  }

  /** The lines that follow the four field lines: none for a normal send,
      a blank line and the notice for a test send. */
  function TailLines(debugMode: bool): seq<string> {
    if debugMode then ["", TestNoticeLine, ""] else [""]
  }

  /** The tail of a body splits into its lines. */
  lemma SplitTail(debugMode: bool)
    ensures Split(if debugMode then TestNotice else "", '\n') == TailLines(debugMode)
  {
    if debugMode {
      assert '\n' !in TestNoticeLine;
      assert TestNotice == "" + ['\n'] + (TestNoticeLine + ['\n'] + "");
      SplitLine("", TestNoticeLine + ['\n'] + "", '\n');
      SplitLine(TestNoticeLine, "", '\n');
    }
  }

  /** Four newline-free lines split off one by one. */
  lemma SplitFourLines(l1: string, l2: string, l3: string, l4: string, tail: string)
    requires '\n' !in l1 && '\n' !in l2 && '\n' !in l3 && '\n' !in l4
    ensures Split(l1 + "\n" + (l2 + "\n" + (l3 + "\n" + (l4 + "\n" + tail))), '\n')
            == [l1, l2, l3, l4] + Split(tail, '\n')
  {
    var r4 := l4 + ['\n'] + tail;
    var r3 := l3 + ['\n'] + r4;
    var r2 := l2 + ['\n'] + r3;
    SplitLine(l4, tail, '\n');
    SplitLine(l3, r4, '\n');
    SplitLine(l2, r3, '\n');
    SplitLine(l1, r2, '\n');
  }

  /** Concatenation of five pieces, regrouped to the right. */
  lemma Regroup(a1: string, a2: string, a3: string, a4: string, tail: string)
    ensures a1 + a2 + a3 + a4 + tail == a1 + (a2 + (a3 + (a4 + tail)))
  {
  }

  /** With newline-free fields, the body splits into its four field lines
      and the tail lines. */
  lemma SplitBody(locationNumber: Option<string>, monthDay: string, time: string,
                  chlorine: string, debugMode: bool)
    requires '\n' !in LocationOrDefault(locationNumber)
    requires '\n' !in monthDay && '\n' !in time && '\n' !in chlorine
    ensures Split(Body(locationNumber, monthDay, time, chlorine, debugMode), '\n')
            == [LocationLabel + LocationOrDefault(locationNumber), MonthDayLabel + monthDay,
                TimeLabel + time, ChlorineLabel + chlorine] + TailLines(debugMode)
  {
    var l1 := LocationLabel + LocationOrDefault(locationNumber);
    var l2 := MonthDayLabel + monthDay;
    var l3 := TimeLabel + time;
    var l4 := ChlorineLabel + chlorine;
    var tail := if debugMode then TestNotice else "";
    assert Body(locationNumber, monthDay, time, chlorine, debugMode)
           == Line(LocationLabel, LocationOrDefault(locationNumber)) + Line(MonthDayLabel, monthDay)
              + Line(TimeLabel, time) + Line(ChlorineLabel, chlorine) + tail;
    Regroup(l1 + "\n", l2 + "\n", l3 + "\n", l4 + "\n", tail);
    SplitFourLines(l1, l2, l3, l4, tail);
    SplitTail(debugMode);
  }

  /** Labelled lines followed by the tail lines parse to their values. */
  lemma ParseLabelledLines(loc: string, monthDay: string, time: string, chlorine: string, debugMode: bool)
    ensures ParseLines([LocationLabel + loc, MonthDayLabel + monthDay, TimeLabel + time,
                        ChlorineLabel + chlorine] + TailLines(debugMode))
            == Some(ReportFields(loc, monthDay, time, chlorine, debugMode))
  {
    var lines := [LocationLabel + loc, MonthDayLabel + monthDay, TimeLabel + time,
                  ChlorineLabel + chlorine] + TailLines(debugMode);
    assert lines[4] == "";
    assert |lines| == 7 <==> debugMode;
    StripLabelOf(LocationLabel, loc);
    StripLabelOf(MonthDayLabel, monthDay);
    StripLabelOf(TimeLabel, time);
    StripLabelOf(ChlorineLabel, chlorine);
  }

  /** With newline-free fields, the body gives back exactly the four fields,
      in order, and the test flag: the notice appears if and only if the
      report is a test send. */
  lemma BodyRoundTrip(locationNumber: Option<string>, monthDay: string, time: string,
                      chlorine: string, debugMode: bool)
    requires '\n' !in LocationOrDefault(locationNumber)
    requires '\n' !in monthDay && '\n' !in time && '\n' !in chlorine
    ensures ParseBody(Body(locationNumber, monthDay, time, chlorine, debugMode))
            == Some(ReportFields(LocationOrDefault(locationNumber), monthDay, time, chlorine, debugMode))
  {
    SplitBody(locationNumber, monthDay, time, chlorine, debugMode);
    ParseLabelledLines(LocationOrDefault(locationNumber), monthDay, time, chlorine, debugMode);
  }
}
