/** Message history as text: how a node writes it, and how the console client and the browser read it. */
module ChatHistory {
  import opened Bytes
  import opened Seqs
  import opened Decimal
  import WebPacket

  const NL: char := '\n'

  /** A stored message. The time is the signed 64-bit time_t. */
  datatype Message = Message(author: string, at: int, content: string)

  /** A line of chat, the time as the reader holds it. */
  datatype Row<T> = Row(author: string, time: T, text: string)

  // ---------------------------------------------------------------- writing

  function LineOf(m: Message): (s: string)
  {
    "[" + m.author + "][" + Text(m.at) + "] " + m.content
  }

  /** The lines of the messages, the last message first. */
  function HistoryText(ms: seq<Message>): (s: string)
  {
    if ms == [] then "" else HistoryText(ms[1..]) + LineOf(ms[0]) + [NL]
  }

  /** encodeHistory. */
  method EncodeHistory(ms: seq<Message>) returns (out: string)
    ensures out == HistoryText(ms)
  {
    hide LineOf;
    out := "";
    var i := |ms|;
    assert ms[i..] == [];
    while i > 0
      invariant 0 <= i <= |ms|
      invariant out == HistoryText(ms[i..])
    {
      i := i - 1;
      assert ms[i..][1..] == ms[i + 1..];
      var m := ms[i];
      out := out + LineOf(m) + [NL];
    }
    assert ms[0..] == ms;
  }

  // ---------------------------------------------------------------- reading

  /** One line that is not empty. Both readers take the same branches; they differ in how a time is read, and
      a time that cannot be read is zero. */
  function ReadLine<T>(line: string, time: string -> Option<T>, zero: T): (r: Row<T>)
  {
    var close := Find(line, ']');
    if line != "" && line[0] == '[' && close < |line| then
      var (stamp, rest) := ReadStamp(line[close + 1..], time, zero);
      Row(line[1..close], stamp, if rest != "" && rest[0] == ' ' then rest[1..] else rest)
    else Row("system", zero, line)
  }

  /** The time in brackets, when there is one, and what follows it. */
  function ReadStamp<T>(rest: string, time: string -> Option<T>, zero: T): (r: (T, string))
  {
    var close := Find(rest, ']');
    if rest != "" && rest[0] == '[' && close < |rest| then
      (match time(rest[1..close]) case Some(t) => t case None => zero, rest[close + 1..])
    else (zero, rest)
  }

  function ReadLines<T>(lines: seq<string>, time: string -> Option<T>, zero: T): (r: seq<Row<T>>)
    ensures |r| == |lines|
    ensures forall i :: 0 <= i < |r| ==> r[i] == ReadLine(lines[i], time, zero)
  {
    if lines == [] then [] else [ReadLine(lines[0], time, zero)] + ReadLines(lines[1..], time, zero)
  }

  function ReadHistory<T>(text: string, time: string -> Option<T>, zero: T): (r: seq<Row<T>>)
  {
    ReadLines(Pieces(text, NL), time, zero)
  }

  // ---------------------------------------------------------------- any line at all

  /** What a reader shows behind the brackets: without the one space that follows them. */
  function Shown(rest: string): (r: string) { if rest != "" && rest[0] == ' ' then rest[1..] else rest }

  /** A line that does not begin with a bracketed author is shown whole. */
  lemma PlainLine<T>(line: string, time: string -> Option<T>, zero: T)
    requires line == "" || line[0] != '[' || ']' !in line
    ensures ReadLine(line, time, zero) == Row("system", zero, line)
  {}

  /** An author in brackets, then no time in brackets. */
  lemma AuthoredLine<T>(author: string, rest: string, time: string -> Option<T>, zero: T)
    requires ']' !in author && (rest == "" || rest[0] != '[' || ']' !in rest)
    ensures ReadLine("[" + author + "]" + rest, time, zero) == Row(author, zero, Shown(rest))
  {
    hide Find;
    FindAt("[" + author, ']', rest);
    var line := "[" + author + "]" + rest;
    assert line[0] == '[' && line[1..|author| + 1] == author && line[|author| + 2..] == rest;
    assert Find(rest, ']') <= |rest|;
  }

  /** An author and a time in brackets; a time that cannot be read is zero. */
  lemma TimedLine<T>(author: string, stamp: string, tail: string, time: string -> Option<T>, zero: T)
    requires ']' !in author && ']' !in stamp
    ensures ReadLine("[" + author + "]" + ("[" + stamp + "]" + tail), time, zero)
         == Row(author, if time(stamp).Some? then time(stamp).value else zero, Shown(tail))
  {
    hide Find;
    var rest := "[" + stamp + "]" + tail;
    var line := "[" + author + "]" + rest;
    FindAt("[" + author, ']', rest);
    FindAt("[" + stamp, ']', tail);
    assert line[0] == '[' && line[1..|author| + 1] == author && line[|author| + 2..] == rest;
    assert rest[0] == '[' && rest[1..|stamp| + 1] == stamp && rest[|stamp| + 2..] == tail;
  }

  // ---------------------------------------------------------------- round trip

  predicate Plain(author: string, text: string)
  {
    ']' !in author && NL !in author && NL !in text
  }

  ghost predicate AllPlain(ms: seq<Message>)
  {
    forall m :: m in ms ==> Plain(m.author, m.content)
  }

  /** The rows a reader should show: the oldest message, which is last in the list, comes first. */
  function Rows<T>(ms: seq<Message>, stamp: int -> T): (r: seq<Row<T>>)
    ensures |r| == |ms|
    ensures forall i :: 0 <= i < |ms| ==> r[i] == RowOf(ms[|ms| - 1 - i], stamp)
  {
    if ms == [] then [] else Rows(ms[1..], stamp) + [RowOf(ms[0], stamp)]
  }

  function RowOf<T>(m: Message, stamp: int -> T): (r: Row<T>)
  {
    Row(m.author, stamp(m.at), m.content)
  }

  lemma LineShape(m: Message)
    ensures LineOf(m) == ("[" + m.author) + "]" + ("[" + Text(m.at) + "]" + (" " + m.content))
  {
    hide Text;
  }

  lemma ReadLineOf<T>(m: Message, time: string -> Option<T>, zero: T, stamp: int -> T)
    requires ']' !in m.author && time(Text(m.at)) == Some(stamp(m.at))
    ensures ReadLine(LineOf(m), time, zero) == RowOf(m, stamp)
  {
    hide *;
    LineShape(m);
    var text, tail := Text(m.at), " " + m.content;
    assert ']' !in text by { TextHasNoBracket(m.at); }
    var rest := "[" + text + "]" + tail;
    StampOf(text, tail, time, zero, stamp(m.at));
    AuthorOf(m.author, rest, time, zero, stamp(m.at), m.content);
    RowIs(m, stamp);
  }

  lemma TextHasNoBracket(t: int)
    ensures ']' !in Text(t)
  {}

  lemma RowIs<T>(m: Message, stamp: int -> T)
    ensures RowOf(m, stamp) == Row(m.author, stamp(m.at), m.content)
  {}

  lemma StampOf<T>(text: string, tail: string, time: string -> Option<T>, zero: T, t: T)
    requires ']' !in text && time(text) == Some(t)
    ensures ReadStamp("[" + text + "]" + tail, time, zero) == (t, tail)
  {
    hide Find;
    FindAt("[" + text, ']', tail);
    var rest := "[" + text + "]" + tail;
    assert rest[0] == '[' && rest[1..|text| + 1] == text;
  }

  lemma AuthorOf<T>(author: string, rest: string, time: string -> Option<T>, zero: T, t: T, content: string)
    requires ']' !in author && ReadStamp(rest, time, zero) == (t, " " + content)
    ensures ReadLine("[" + author + "]" + rest, time, zero) == Row(author, t, content)
  {
    hide Find, ReadStamp;
    FindAt("[" + author, ']', rest);
    var line := "[" + author + "]" + rest;
    assert line[0] == '[' && line[1..|author| + 1] == author;
    assert line[|author| + 2..] == rest && (" " + content)[1..] == content;
  }

  lemma LineClean(m: Message)
    requires Plain(m.author, m.content)
    ensures NL !in LineOf(m) && LineOf(m) != ""
  {
    hide Text;
    assert NL !in Text(m.at);
    assert NL !in "[" && NL !in "][" && NL !in "] ";
  }

  lemma {:induction false} PiecesOfHistory(ms: seq<Message>)
    requires AllPlain(ms)
    ensures ms == [] ==> Pieces(HistoryText(ms), NL) == []
    ensures ms != [] ==> Pieces(HistoryText(ms), NL) == Pieces(HistoryText(ms[1..]), NL) + [LineOf(ms[0])]
  {
    hide Pieces, LineOf;
    PiecesNil(NL);
    if ms != [] {
      LineClean(ms[0]);
      PiecesOne(LineOf(ms[0]), NL);
      var rest := HistoryText(ms[1..]);
      assert Pieces(rest + LineOf(ms[0]), NL) == Pieces(rest, NL) + [LineOf(ms[0])] by {
        if |ms| == 1 {
          assert rest == "" && rest + LineOf(ms[0]) == LineOf(ms[0]);
        } else {
          var before := HistoryText(ms[1..][1..]) + LineOf(ms[1]);
          assert rest == before + [NL] + "";
          PiecesConcat(before, "", NL);
          PiecesConcat(before, LineOf(ms[0]), NL);
          assert rest + LineOf(ms[0]) == before + [NL] + LineOf(ms[0]);
        }
      }
      PiecesConcat(rest + LineOf(ms[0]), "", NL);
      assert HistoryText(ms) == rest + LineOf(ms[0]) + [NL] + "";
    }
  }

  lemma {:induction false} ReadsBack<T>(ms: seq<Message>, time: string -> Option<T>, zero: T, stamp: int -> T)
    requires AllPlain(ms) && forall m :: m in ms ==> time(Text(m.at)) == Some(stamp(m.at))
    ensures ReadHistory(HistoryText(ms), time, zero) == Rows(ms, stamp)
  {
    hide Pieces, HistoryText, LineOf, ReadLine, Text;
    PiecesOfHistory(ms);
    if ms != [] {
      assert ms[0] in ms && ms == [ms[0]] + ms[1..];
      ReadsBack(ms[1..], time, zero, stamp);
      ReadLineOf(ms[0], time, zero, stamp);
    }
  }

  /** Every row read, from any text whatever, is plain. */
  lemma ReadIsPlain<T>(text: string, time: string -> Option<T>, zero: T)
    ensures forall r :: r in ReadHistory(text, time, zero) ==> Plain(r.author, r.text)
  {
    hide Pieces, ReadLine;
    PiecesClean(text, NL);
    var lines := Pieces(text, NL);
    forall i | 0 <= i < |lines|
      ensures Plain(ReadLine(lines[i], time, zero).author, ReadLine(lines[i], time, zero).text) {
      LineIsPlain(lines[i], time, zero);
    }
  }

  lemma LineIsPlain<T>(line: string, time: string -> Option<T>, zero: T)
    requires NL !in line
    ensures Plain(ReadLine(line, time, zero).author, ReadLine(line, time, zero).text)
  {
    hide Find;
    var close := Find(line, ']');
    if line != "" && line[0] == '[' && close < |line| {
      assert forall c :: c in line[1..close] ==> c in line[..close];
    } else {
      assert NL !in "system" && ']' !in "system";
    }
  }

  /** Reading a written history gives back authors, texts and times, oldest first, exactly when no author has a
      closing bracket or newline and no content has a newline. */
  lemma HistoryRoundTripIff<T>(ms: seq<Message>, time: string -> Option<T>, zero: T, stamp: int -> T)
    requires forall m :: m in ms ==> time(Text(m.at)) == Some(stamp(m.at))
    ensures ReadHistory(HistoryText(ms), time, zero) == Rows(ms, stamp) <==> AllPlain(ms)
  {
    hide ReadHistory, HistoryText, Text;
    if AllPlain(ms) {
      ReadsBack(ms, time, zero, stamp);
    }
    ReadIsPlain(HistoryText(ms), time, zero);
    if ReadHistory(HistoryText(ms), time, zero) == Rows(ms, stamp) {
      forall i | 0 <= i < |ms| ensures Plain(ms[i].author, ms[i].content) {
        assert Rows(ms, stamp)[|ms| - 1 - i] == RowOf(ms[i], stamp);
      }
    }
  }

  // ---------------------------------------------------------------- the console client

  /** stoull as the client applies it. */
  function Stoull(s: string): (r: Option<u64>) { Unsigned(s, TWO64) }

  function Wrapped(at: int): (t: u64) { at % TWO64 }

  ghost predicate Int64(at: int) { -0x8000_0000_0000_0000 <= at < 0x8000_0000_0000_0000 }

  /** The client's rows keep every time that is not before 1970; an earlier one wraps around. */
  lemma ClientRoundTripIff(ms: seq<Message>)
    requires forall m :: m in ms ==> Int64(m.at)
    ensures ReadHistory(HistoryText(ms), Stoull, 0) == Rows(ms, Wrapped) <==> AllPlain(ms)
    ensures forall m :: m in ms ==> (Wrapped(m.at) == m.at <==> m.at >= 0)
  {
    hide ReadHistory, HistoryText, Unsigned, Text;
    forall m | m in ms ensures Stoull(Text(m.at)) == Some(Wrapped(m.at)) {
      UnsignedText(m.at, TWO64);
    }
    HistoryRoundTripIff(ms, Stoull, 0, Wrapped);
  }

  /** A message of the second before 1970 comes back with the largest time there is. */
  lemma NegativeTimeWraps()
    ensures ReadHistory(HistoryText([Message("a", -1, "x")]), Stoull, 0) == [Row("a", TWO64 - 1, "x")]
  {
    var ms := [Message("a", -1, "x")];
    hide ReadHistory, HistoryText;
    assert AllPlain(ms);
    ClientRoundTripIff(ms);
    assert Rows(ms, Wrapped) == [Row("a", TWO64 - 1, "x")];
  }

  lemma LinesAppend<T>(a: seq<string>, b: seq<string>, time: string -> Option<T>, zero: T)
    ensures ReadLines(a + b, time, zero) == ReadLines(a, time, zero) + ReadLines(b, time, zero)
  {}

  /** One turn of the reading loop: the line at the position, then the rest. */
  lemma LinesStep<T>(text: string, start: nat, time: string -> Option<T>, zero: T)
    requires start < |text|
    ensures var end := start + Find(text[start..], NL);
            && start <= end <= |text|
            && ReadHistory(Rest(text, start), time, zero) ==
               LineAt(text[start..end], time, zero) + ReadHistory(Rest(text, end + 1), time, zero)
  {
    hide Pieces, Find, Rest, ReadLines, NonEmpty, LineAt;
    var s := text[start..];
    RestIs(text, start, Find(s, NL));
    PiecesStep(s, NL);
    LinesSkip(s[..Find(s, NL)], Pieces(Rest(text, start + Find(s, NL) + 1), NL), time, zero);
  }

  /** What one line, possibly empty, contributes. */
  function LineAt<T>(line: string, time: string -> Option<T>, zero: T): (r: seq<Row<T>>)
  {
    if line == "" then [] else [ReadLine(line, time, zero)]
  }

  lemma LinesSkip<T>(line: string, more: seq<string>, time: string -> Option<T>, zero: T)
    ensures ReadLines(NonEmpty([line]) + more, time, zero) == LineAt(line, time, zero) + ReadLines(more, time, zero)
  {
    hide ReadLine;
    NonEmptyOne(line);
    LinesAppend(NonEmpty([line]), more, time, zero);
  }

  lemma NoLines<T>(time: string -> Option<T>, zero: T)
    ensures ReadHistory("", time, zero) == [] && ReadLines([], time, zero) == []
  {
    PiecesNil(NL);
  }

  /** parseHistoryPayload. */
  method ParseHistoryPayload(payload: string) returns (rows: seq<Row<u64>>)
    ensures rows == ReadHistory(payload, Stoull, 0)
  {
    hide ReadHistory, ReadLine, Find, Rest, Unsigned;
    rows := [];
    var start := 0;
    RestEnds(payload, 0);
    while start < |payload|
      invariant 0 <= start <= |payload| + 1
      invariant ReadHistory(payload, Stoull, 0) == rows + ReadHistory(Rest(payload, start), Stoull, 0)
      decreases |payload| + 1 - start
    {
      LinesStep(payload, start, Stoull, 0);
      var end := start + Find(payload[start..], NL);
      var line := payload[start..end];
      start := end + 1;
      if line != "" {
        rows := rows + [ReadLine(line, Stoull, 0)];
      }
    }
    RestEnds(payload, start);
    NoLines(Stoull, 0);
  }

  // ---------------------------------------------------------------- the browser

  /** A whole number as a double. */
  function Double(at: int): (t: real)
  {
    if at >= 0 then WebPacket.Round(at) as real else -(WebPacket.Round(-at) as real)
  }

  /** With Number() reading the decimal integers of time_t to the nearest double, the browser's rows keep every time
      below 2^53 in magnitude. */
  lemma BrowserRoundTripIff(ms: seq<Message>, number: string -> Option<real>)
    requires forall m :: m in ms ==> Int64(m.at)
    requires forall at: int :: Int64(at) ==> number(Text(at)) == Some(Double(at))
    ensures ReadHistory(HistoryText(ms), number, 0.0) == Rows(ms, Double) <==> AllPlain(ms)
    ensures forall m :: m in ms && -WebPacket.TWO53 < m.at < WebPacket.TWO53 ==> Double(m.at) == m.at as real
  {
    hide ReadHistory, HistoryText, Text;
    HistoryRoundTripIff(ms, number, 0.0, Double);
    forall m | m in ms && -WebPacket.TWO53 < m.at < WebPacket.TWO53 ensures Double(m.at) == m.at as real {
      WebPacket.RoundExact(if m.at >= 0 then m.at else -m.at);
    }
  }

  /** parseHistory of the browser. */
  method ParseHistory(payload: string, number: string -> Option<real>) returns (rows: seq<Row<real>>)
    ensures rows == ReadHistory(payload, number, 0.0)
  {
    hide Split, NonEmpty, ReadLine, ReadLines;
    rows := [];
    var lines := Split(payload, NL);
    var i := 0;
    assert lines[0..] == lines;
    while i < |lines|
      invariant 0 <= i <= |lines|
      invariant ReadLines(NonEmpty(lines), number, 0.0) == rows + ReadLines(NonEmpty(lines[i..]), number, 0.0)
    {
      SplitTurn(lines, i, number, 0.0);
      if lines[i] != "" {
        rows := rows + [ReadLine(lines[i], number, 0.0)];
      }
      i := i + 1;
    }
    assert lines[i..] == [];
    NonEmptyAll<char>([]);
    NoLines(number, 0.0);
  }

  lemma SplitTurn<T>(lines: seq<string>, i: nat, time: string -> Option<T>, zero: T)
    requires i < |lines|
    ensures ReadLines(NonEmpty(lines[i..]), time, zero) ==
            LineAt(lines[i], time, zero) + ReadLines(NonEmpty(lines[i + 1..]), time, zero)
  {
    hide NonEmpty, ReadLine;
    assert lines[i..] == [lines[i]] + lines[i + 1..];
    NonEmptyAppend([lines[i]], lines[i + 1..]);
    LinesSkip(lines[i], NonEmpty(lines[i + 1..]), time, zero);
  }
}
