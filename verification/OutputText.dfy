/**
 * The output as the parser gets it: text with one event a line. The reader
 * ends a line at a newline only; the parser's splitlines ends one at every
 * line separator of Unicode, and JSON written without ASCII folding leaves
 * three of those inside its strings.
 */
module OutputText {
  import opened Wrappers
  import opened Json
  import opened Texts
  import opened ClaudeStream
  import JsonText

  /** json.loads of one line; None when it raises or gives no object. */
  type Reading = string -> Option<Event>

  /** json.dumps of one retained event. */
  type Writing = Event -> string

  // ----- splitting into lines -----

  predicate LineEnd(c: char) {
    var n := c as int;
    10 <= n <= 13 || 28 <= n <= 30 || n == 0x85 || n == 0x2028 || n == 0x2029
  }

  predicate Unbroken(line: string) {
    forall i :: 0 <= i < |line| ==> !LineEnd(line[i])
  }

  function FirstEnd(s: string): (k: nat)
    ensures k <= |s| && Unbroken(s[..k]) && (k < |s| ==> LineEnd(s[k]))
  {
    if s == "" || LineEnd(s[0]) then 0
    else
      var rest := FirstEnd(s[1..]);
      assert s[..rest + 1] == [s[0]] + s[1..][..rest];
      rest + 1
  }

  /** str.splitlines: a carriage return takes the newline after it along, and no empty line follows the last end. */
  function SplitLines(s: string): seq<string>
    decreases |s|
  {
    if s == "" then []
    else
      var k := FirstEnd(s);
      if k == |s| then [s]
      else [s[..k]] + SplitLines(s[if s[k] == '\r' && k + 1 < |s| && s[k + 1] == '\n' then k + 2 else k + 1..])
  }

  // ----- parse_claude_stream over text -----

  function ReadLines(read: Reading, lines: seq<string>): Option<seq<Event>> {
    if lines == [] then Some([])
    else if Blank(lines[0]) then ReadLines(read, lines[1..])
    else
      var event, rest := read(lines[0]), ReadLines(read, lines[1..]);
      if event.None? || rest.None? then None else Some([event.value] + rest.value)
  }

  function ParseText(read: Reading, output: string, mode: Mode, expected: Option<string>, requested: Option<string>,
                     returncode: int): Verdict
  {
    var events := ReadLines(read, SplitLines(output));
    if events.None? then Refused
    else Parse(events.value, JsonText.Size(output), mode, expected, requested, returncode)
  }

  method ParseClaudeStream(read: Reading, output: string, mode: Mode, expected: Option<string>,
                           requested: Option<string>, returncode: int) returns (v: Verdict)
    ensures v == ParseText(read, output, mode, expected, requested, returncode)
  {
    hide Blank, CheckAll, Terminal, ValidateTerminal, Notes, FailureCode, Strip;
    if JsonText.Size(output) > ByteLimit(mode) {
      return Refused;
    }
    var lines := SplitLines(output);
    var events: seq<Event> := [];
    assert lines[0..] == lines;
    for i := 0 to |lines|
      invariant var all, rest := ReadLines(read, lines), ReadLines(read, lines[i..]);
                all.Some? == rest.Some? && (all.Some? ==> all.value == events + rest.value)
    {
      assert lines[i..][1..] == lines[i + 1..];
      if !Blank(lines[i]) {
        var event := read(lines[i]);
        if event.None? {
          return Refused;
        }
        events := events + [event.value];
      }
    }
    assert lines[|lines|..] == [] && events + [] == events;
    v := ParseEvents(events, JsonText.Size(output), mode, expected, requested, returncode);
  }

  // ----- when the lines come back -----

  /** A whole JSON object, no proper beginning of which is one. */
  ghost predicate OneObject(read: Reading, line: string, e: Event) {
    && read(line) == Some(e)
    && line != "" && !IsSpace(line[0])
    && forall k :: 0 <= k < |line| ==> read(line[..k]).None?
  }

  function TextOf(lines: seq<string>): string {
    if lines == [] then "" else lines[0] + "\n" + TextOf(lines[1..])
  }

  predicate AllUnbroken(lines: seq<string>) {
    forall i :: 0 <= i < |lines| ==> Unbroken(lines[i])
  }

  ghost predicate AllObjects(read: Reading, lines: seq<string>, events: seq<Event>) {
    |lines| == |events| && forall i :: 0 <= i < |lines| ==> OneObject(read, lines[i], events[i])
  }

  lemma FirstEndIs(s: string, k: nat)
    requires k < |s| && Unbroken(s[..k]) && LineEnd(s[k])
    ensures FirstEnd(s) == k
  {
    var found := FirstEnd(s);
    assert forall i :: 0 <= i < k ==> s[i] == s[..k][i];
    assert forall i :: 0 <= i < found ==> s[i] == s[..found][i];
  }

  /** The first line of the joined text, and what splitting it off leaves. */
  lemma SplitFirst(line: string, rest: string)
    requires line != "" && !IsSpace(line[0])
    ensures var lines := SplitLines(line + "\n" + rest);
            && lines != []
            && if Unbroken(line) then lines == [line] + SplitLines(rest)
               else exists k :: 0 < k < |line| && lines[0] == line[..k]
  {
    var s := line + "\n" + rest;
    if Unbroken(line) {
      assert s[..|line|] == line && s[|line|] == '\n' && s[|line| + 1..] == rest;
      FirstEndIs(s, |line|);
    } else {
      var k := FirstEnd(line);
      assert k < |line| by {
        assert line[..|line|] == line;
      }
      assert s[..k] == line[..k] && s[k] == line[k];
      FirstEndIs(s, k);
      assert SplitLines(s)[0] == line[..k];
    }
  }

  /** OneObject lines come back as their events exactly if no line is broken inside. */
  lemma {:induction false} ObjectLinesReadBack(read: Reading, lines: seq<string>, events: seq<Event>)
    requires AllObjects(read, lines, events)
    ensures ReadLines(read, SplitLines(TextOf(lines))) == if AllUnbroken(lines) then Some(events) else None
  {
    hide SplitLines, Unbroken, OneObject, Blank;
    if lines == [] {
      NoLines();
    } else {
      var line, rest := lines[0], TextOf(lines[1..]);
      assert OneObject(read, line, events[0]);
      assert forall i :: 0 <= i < |lines[1..]| ==> lines[1..][i] == lines[i + 1] && events[1..][i] == events[i + 1];
      FirstOfObject(read, line, events[0]);
      ObjectLinesReadBack(read, lines[1..], events[1..]);
      SplitFirst(line, rest);
      FirstReads(read, line, events[0], SplitLines(TextOf(lines)), SplitLines(rest));
      assert AllUnbroken(lines) <==> Unbroken(line) && AllUnbroken(lines[1..]);
      assert [events[0]] + events[1..] == events;
    }
  }

  lemma NoLines()
    ensures SplitLines("") == []
  {
  }

  lemma FirstOfObject(read: Reading, line: string, e: Event)
    requires OneObject(read, line, e)
    ensures line != "" && !IsSpace(line[0])
  {
  }

  lemma FirstReads(read: Reading, line: string, e: Event, split: seq<string>, rest: seq<string>)
    requires OneObject(read, line, e) && split != []
    requires if Unbroken(line) then split == [line] + rest else exists k :: 0 < k < |line| && split[0] == line[..k]
    ensures ReadLines(read, split)
         == if !Unbroken(line) || ReadLines(read, rest).None? then None else Some([e] + ReadLines(read, rest).value)
  {
    hide Unbroken;
    assert split[0][0] == line[0];
    assert !Blank(split[0]);
    if Unbroken(line) {
      assert split[1..] == rest;
    }
  }

  /** For any output of whole lines, raw or written again, the parser's refusals through splitting are exactly these. */
  lemma ObjectLinesParse(read: Reading, lines: seq<string>, events: seq<Event>, mode: Mode, expected: Option<string>,
                        requested: Option<string>, returncode: int)
    requires AllObjects(read, lines, events)
    ensures ParseText(read, TextOf(lines), mode, expected, requested, returncode)
         == if !AllUnbroken(lines) then Refused
            else Parse(events, JsonText.Size(TextOf(lines)), mode, expected, requested, returncode)
  {
    hide AllObjects, AllUnbroken, Parse;
    ObjectLinesReadBack(read, lines, events);
  }

  // ----- the retained output -----

  /** The three line ends that JSON leaves inside its strings. */
  const SEPARATORS: set<char> := {'\U{85}', '\U{2028}', '\U{2029}'}

  /** A character occurs in some string or key of the value. */
  predicate Spells(v: Value, c: char) {
    match v
    case Text(text) => c in text
    case Items(items) => exists i :: 0 <= i < |items| && Spells(items[i], c)
    case Object(fields) => exists key :: key in fields && (c in key || Spells(fields[key], c))
    case _ => false
  }

  predicate Breakless(e: Event) {
    forall c :: c in SEPARATORS ==> !Spells(Object(e), c)
  }

  predicate AllBreakless(events: seq<Event>) {
    forall i :: 0 <= i < |events| ==> Breakless(events[i])
  }

  /** The event is written as one whole object, control characters escaped and no others. */
  ghost predicate Writes(write: Writing, read: Reading, e: Event) {
    && OneObject(read, write(e), e)
    && (forall i :: 0 <= i < |write(e)| ==> write(e)[i] as int >= 32)
    && (forall c :: c in SEPARATORS ==> (c in write(e) <==> Spells(Object(e), c)))
  }

  function LinesFor(write: Writing, events: seq<Event>): (lines: seq<string>)
    ensures |lines| == |events|
  {
    seq(|events|, i requires 0 <= i < |events| => write(events[i]))
  }

  lemma WrittenUnbroken(write: Writing, read: Reading, e: Event)
    requires Writes(write, read, e)
    ensures Unbroken(write(e)) <==> Breakless(e)
  {
    hide OneObject, Spells;
    var line := write(e);
    assert forall c :: c in SEPARATORS ==> LineEnd(c);
    assert forall i :: 0 <= i < |line| && LineEnd(line[i]) ==> line[i] in SEPARATORS;
    assert forall c :: c in line <==> exists i :: 0 <= i < |line| && line[i] == c;
  }

  /** The bytes one retained event takes when it is written out. */
  function SizeOf(write: Writing): Event -> nat {
    (e: Event) => JsonText.Size(write(e) + "\n")
  }

  lemma {:induction false} OutputIsWritten(write: Writing, r: Reader, events: seq<Event>)
    requires r.size == SizeOf(write) && Lines(r, events).Some?
    ensures Lines(r, events).value.output
         == r.output + JsonText.Size(TextOf(LinesFor(write, Projection(events))))
    decreases |events|
  {
    hide Project, Retained, Check, ValidateTerminal, SessionId;
    if events != [] {
      var next := Line(r, events[0]).value;
      OutputIsWritten(write, next, events[1..]);
      if Retained(events[0]) {
        var line, rest := write(Project(events[0])), LinesFor(write, Projection(events[1..]));
        assert LinesFor(write, Projection(events)) == [line] + rest;
        JsonText.SizeAppend(line + "\n", TextOf(rest));
      } else {
        assert Projection(events) == Projection(events[1..]);
      }
    }
  }

  ghost predicate AllWritten(write: Writing, read: Reading, events: seq<Event>) {
    forall i :: 0 <= i < |events| ==> Writes(write, read, events[i])
  }

  /** The text written for a list of events parses as the events do, unless a string holds a separator. */
  lemma WrittenParses(write: Writing, read: Reading, events: seq<Event>, mode: Mode, expected: Option<string>,
                      requested: Option<string>, returncode: int)
    requires AllWritten(write, read, events)
    ensures var text := TextOf(LinesFor(write, events));
            ParseText(read, text, mode, expected, requested, returncode)
            == if AllBreakless(events) then Parse(events, JsonText.Size(text), mode, expected, requested, returncode)
               else Refused
  {
    hide OneObject, Breakless, Unbroken, Parse, ParseText;
    var lines := LinesFor(write, events);
    forall i | 0 <= i < |events|
      ensures OneObject(read, lines[i], events[i]) && (Unbroken(lines[i]) <==> Breakless(events[i]))
    {
      assert Writes(write, read, events[i]);
      WrittenUnbroken(write, read, events[i]);
    }
    ObjectLinesParse(read, lines, events, mode, expected, requested, returncode);
  }

  /** A stream without a result, or a successful one whose process failed, is refused in any case. */
  predicate NoVerdict(events: seq<Event>, returncode: int) {
    || (forall e :: e in events ==> !Is(e, "result"))
    || (returncode != 0 && exists e :: e in events && Is(e, "result") && ValidateTerminal(e) == Some(false))
  }

  /**
   * What the worker is told of an accepted stream: the parse of the retained
   * text is the verdict of the full event list if and only if no retained
   * string holds a separator, or there was no verdict to lose. A text that
   * holds one makes the parser refuse a completed turn.
   */
  lemma RetainedTextIff(write: Writing, read: Reading, events: seq<Event>, bytes: nat, mode: Mode,
                        expected: Option<string>, requested: Option<string>, returncode: int)
    requires Lines(Fresh(expected, mode, SizeOf(write)), events).Some? && bytes <= ByteLimit(mode)
    requires AllWritten(write, read, Projection(events))
    ensures var text := TextOf(LinesFor(write, Projection(events)));
            var told := ParseText(read, text, mode, expected, requested, returncode);
            && (told == Parse(events, bytes, mode, expected, requested, returncode)
                <==> AllBreakless(Projection(events)) || NoVerdict(events, returncode))
            && (!AllBreakless(Projection(events)) ==> told.Refused?)
  {
    hide Parse, ParseText, Lines, Projection, LinesFor, AllBreakless, AllWritten, ValidateTerminal;
    var r := Fresh(expected, mode, SizeOf(write));
    OutputIsWritten(write, r, events);
    WrittenParses(write, read, Projection(events), mode, expected, requested, returncode);
    ProjectionKeepsTheVerdict(events, SizeOf(write), bytes, mode, expected, requested, returncode);
    AcceptedStreamsParse(events, SizeOf(write), bytes, mode, expected, requested, returncode);
  }

  // ----- a turn that is lost -----

  const SESSION: string := seq(32, _ => '0')

  /** A successful result whose text holds a line separator, as json.dumps writes it. */
  const ANSWER: Event := map[
    "type" := Text("result"), "subtype" := Text("success"), "is_error" := Flag(false),
    "session_id" := Text(SESSION), "result" := Text("a\U{2028}b")]

  const HEAD: string := "{\"type\": \"result\", " + "\"subtype\": \"success\", " + "\"is_error\": false, "
                        + "\"session_id\": \"" + SESSION + "\", \"result\": \"a"

  const LINE: string := HEAD + "\U{2028}" + "b\"}"

  predicate Ascii(s: string) {
    forall i :: 0 <= i < |s| ==> 32 <= s[i] as int < 128
  }

  lemma AsciiAppend(a: string, b: string)
    requires Ascii(a) && Ascii(b)
    ensures Ascii(a + b)
  {
  }

  lemma HeadIsAscii()
    ensures Ascii(HEAD) && HEAD != "" && HEAD[0] == '{'
  {
    hide Ascii;
    PiecesAreAscii();
    AsciiAppend("{\"type\": \"result\", ", "\"subtype\": \"success\", ");
    var two := "{\"type\": \"result\", " + "\"subtype\": \"success\", ";
    AsciiAppend(two, "\"is_error\": false, ");
    AsciiAppend(two + "\"is_error\": false, ", "\"session_id\": \"");
    AsciiAppend(two + "\"is_error\": false, " + "\"session_id\": \"", SESSION);
    AsciiAppend(two + "\"is_error\": false, " + "\"session_id\": \"" + SESSION, "\", \"result\": \"a");
  }

  lemma PiecesAreAscii()
    ensures Ascii("{\"type\": \"result\", ") && Ascii("\"subtype\": \"success\", ")
    ensures Ascii("\"is_error\": false, ") && Ascii("\"session_id\": \"") && Ascii(SESSION)
    ensures Ascii("\", \"result\": \"a")
  {
  }

  lemma AsciiSpellsNone(s: string, c: char)
    requires Ascii(s) && c in SEPARATORS
    ensures c !in s && !Spells(Text(s), c)
  {
  }

  lemma AnswerSpells(c: char)
    requires c in SEPARATORS
    ensures Spells(Object(ANSWER), c) <==> c == '\U{2028}'
  {
    hide Ascii;
    forall key | key in ANSWER
      ensures c !in key && (key != "result" ==> !Spells(ANSWER[key], c))
    {
      AnswerIsAscii(key);
      AsciiSpellsNone(key, c);
      if ANSWER[key].Text? && key != "result" {
        AsciiSpellsNone(ANSWER[key].text, c);
      }
    }
    assert "result" in ANSWER && ANSWER["result"] == Text("a\U{2028}b");
  }

  lemma AnswerIsAscii(key: string)
    requires key in ANSWER
    ensures Ascii(key)
    ensures key != "result" ==> ANSWER[key] == Flag(false) || (ANSWER[key].Text? && Ascii(ANSWER[key].text))
  {
  }

  lemma LineIsWritten(write: Writing, read: Reading)
    requires write(ANSWER) == LINE && OneObject(read, LINE, ANSWER)
    ensures Writes(write, read, ANSWER)
  {
    hide Spells, OneObject;
    HeadIsAscii();
    forall c | c in SEPARATORS
      ensures c in LINE <==> Spells(Object(ANSWER), c)
    {
      AnswerSpells(c);
    }
  }

  lemma {:induction false} NoHyphens(s: string)
    requires forall i :: 0 <= i < |s| ==> s[i] != '-'
    ensures WithoutHyphens(s) == s
  {
    if s != "" {
      NoHyphens(s[1..]);
    }
  }

  lemma AnswerIsAccepted(size: Event -> nat)
    requires size(ANSWER) <= MAX_OUTPUT_BYTES
    ensures Lines(Fresh(None, TextOnly, size), [ANSWER]).Some?
  {
    NoHyphens(SESSION);
    assert Project(ANSWER) == ANSWER;
    assert Get(ANSWER, "result").text[0] == 'a';
    assert ValidateTerminal(ANSWER) == Some(false);
    assert Line(Fresh(None, TextOnly, size), ANSWER).Some?;
  }

  /**
   * A turn the reader accepts and the full event list completes, and that the parse of its retained text refuses.
   */
  lemma SeparatorLosesTheTurn(write: Writing, read: Reading)
    requires write(ANSWER) == LINE && OneObject(read, LINE, ANSWER)
    ensures Lines(Fresh(None, TextOnly, SizeOf(write)), [ANSWER]).Some?
    ensures !Parse([ANSWER], 0, TextOnly, None, None, 0).Refused?
    ensures ParseText(read, TextOf(LinesFor(write, Projection([ANSWER]))), TextOnly, None, None, 0).Refused?
  {
    hide Parse, ParseText, Lines, Writes, OneObject;
    assert Project(ANSWER) == ANSWER;
    assert Projection([ANSWER]) == [ANSWER] by {
      assert Projection([]) == [];
    }
    LineSize();
    AnswerIsAccepted(SizeOf(write));
    LineIsWritten(write, read);
    AnswerSpells('\U{2028}');
    assert !Breakless(ANSWER);
    RetainedTextIff(write, read, [ANSWER], 0, TextOnly, None, None, 0);
    AcceptedStreamsParse([ANSWER], SizeOf(write), 0, TextOnly, None, None, 0);
  }

  lemma LineSize()
    ensures JsonText.Size(LINE + "\n") <= MAX_OUTPUT_BYTES
  {
    SizeIsBounded(LINE + "\n");
  }

  lemma {:induction false} SizeIsBounded(s: string)
    ensures JsonText.Size(s) <= 4 * |s|
  {
    if s != "" {
      SizeIsBounded(s[1..]);
    }
  }
}
