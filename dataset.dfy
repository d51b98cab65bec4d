/** The fine-tuning dataset the console builds from its training examples
    (`jsonl` in src/app/app/page.tsx): one JSON line per complete example,
    each holding the trimmed user and assistant texts as a two-message
    conversation, joined by newlines. */
module Dataset {
  import opened Values
  import opened Text
  import opened Arrays
  import opened JsonText

  datatype TrainingExample = TrainingExample(id: string, user: string, assistant: string)

  /** The filter: both trimmed texts are non-empty (truthy). */
  predicate Complete(e: TrainingExample) {
    Trim(e.user) != "" && Trim(e.assistant) != ""
  }

  const LineStart := "{\"messages\":[{\"role\":\"user\",\"content\":\""
  const LineMiddle := "},{\"role\":\"assistant\",\"content\":\""
  const LineEnd := "}]}"

  /** `JSON.stringify({messages: [{role: "user", content: user},
      {role: "assistant", content: assistant}]})`, members in insertion
      order. */
  function Line(user: string, assistant: string): string {
    Framed(LineStart, LineMiddle, LineEnd, user, assistant)
  }

  /** Two string literals between fixed texts. */
  function Framed(start: string, middle: string, end: string, first: string, second: string): string {
    start + Escape(first) + "\"" + middle + Escape(second) + "\"" + end
  }

  /** The line written for one example, from its trimmed texts. */
  function LineOf(e: TrainingExample): string {
    Line(Trim(e.user), Trim(e.assistant))
  }

  function LinesOf(es: seq<TrainingExample>): seq<string> {
    Map(es, LineOf)
  }

  /** `jsonl`: filter, map to lines, join with "\n". */
  function Jsonl(examples: seq<TrainingExample>): string {
    JoinLines(LinesOf(Filter(examples, Complete)))
  }

  /** Reads a line of the shape above back into its two texts; None for
      any text not of that shape. */
  function ParseLine(line: string): Option<(string, string)> {
    ParseFramed(LineStart, LineMiddle, LineEnd, line)
  }

  /** Reads `start`, a string literal, `middle`, a string literal, `end`. */
  function ParseFramed(start: string, middle: string, end: string, t: string): Option<(string, string)> {
    if !(start <= t) then None
    else
      match ReadString(t[|start|..])
      case None => None
      case Some((first, rest)) =>
        if !(middle <= rest) then None
        else
          match ReadString(rest[|middle|..])
          case None => None
          case Some((second, tail)) =>
            if tail == end then Some((first, second)) else None
  }

  lemma FramedRoundTrip(start: string, middle: string, end: string, first: string, second: string)
    ensures ParseFramed(start, middle, end, Framed(start, middle, end, first, second)) == Some((first, second))
  {
    var tail := Escape(second) + "\"" + end;
    var rest := middle + tail;
    var body := Escape(first) + "\"" + rest;
    var t := Framed(start, middle, end, first, second);
    FramedSplit(start, middle, end, Escape(first), Escape(second));
    assert t == start + body;
    AfterPrefix(start, body);
    ReadEscaped(first, rest);
    assert ReadString(t[|start|..]) == Some((first, rest));
    AfterPrefix(middle, tail);
    ReadEscaped(second, end);
    assert ReadString(rest[|middle|..]) == Some((second, end));
  }

  /** The frame regrouped around its first string literal. */
  lemma FramedSplit(start: string, middle: string, end: string, e1: string, e2: string)
    ensures start + e1 + "\"" + middle + e2 + "\"" + end
         == start + (e1 + "\"" + (middle + (e2 + "\"" + end)))
  {
  }

  lemma AfterPrefix(p: string, body: string)
    ensures p <= p + body && (p + body)[|p|..] == body
  {
  }

  /** A line holds no raw newline, so joining lines with "\n" keeps them
      apart. */
  lemma LineIsOneLine(user: string, assistant: string)
    ensures '\n' !in Line(user, assistant)
  {
    assert '\n' !in LineStart && '\n' !in LineMiddle && '\n' !in LineEnd;
    FramedIsOneLine(LineStart, LineMiddle, LineEnd, user, assistant);
  }

  lemma FramedIsOneLine(start: string, middle: string, end: string, first: string, second: string)
    requires '\n' !in start && '\n' !in middle && '\n' !in end
    ensures '\n' !in Framed(start, middle, end, first, second)
  {
    EscapeHasNoNewline(first);
    EscapeHasNoNewline(second);
  }

  /** A line reads back as exactly the two texts it was written from, user
      first. */
  lemma LineRoundTrip(user: string, assistant: string)
    ensures ParseLine(Line(user, assistant)) == Some((user, assistant))
  {
    FramedRoundTrip(LineStart, LineMiddle, LineEnd, user, assistant);
  }

  /** Splitting `jsonl` on newlines gives back its lines, one per complete
      example, when there is at least one. */
  lemma JsonlSplit(examples: seq<TrainingExample>)
    requires exists e | e in examples :: Complete(e)
    ensures SplitLines(Jsonl(examples)) == LinesOf(Filter(examples, Complete))
  {
    var kept := Filter(examples, Complete);
    assert kept != [] by {
      var e :| e in examples && Complete(e);
      assert e in kept;
    }
    forall e | e in kept ensures '\n' !in LineOf(e) {
      LineIsOneLine(Trim(e.user), Trim(e.assistant));
    }
    SplitJoinMap(kept, LineOf);
  }

  /** Each line written for complete examples reads back as that example's
      trimmed texts, both non-empty. */
  lemma LinesParse(kept: seq<TrainingExample>)
    requires forall e | e in kept :: Complete(e)
    ensures forall i | 0 <= i < |kept| ::
              && ParseLine(LinesOf(kept)[i]) == Some((Trim(kept[i].user), Trim(kept[i].assistant)))
              && Trim(kept[i].user) != "" && Trim(kept[i].assistant) != ""
  {
    forall i | 0 <= i < |kept|
      ensures ParseLine(LinesOf(kept)[i]) == Some((Trim(kept[i].user), Trim(kept[i].assistant)))
      ensures Trim(kept[i].user) != "" && Trim(kept[i].assistant) != ""
    {
      assert kept[i] in kept;
      LineRoundTrip(Trim(kept[i].user), Trim(kept[i].assistant));
    }
  }

  /** Every line of `jsonl` has a complete example behind it, in the same
      order as the examples: splitting the file on newlines gives exactly
      one line per complete example, and each line reads back as that
      example's trimmed user and assistant texts, both non-empty. */
  lemma JsonlLines(examples: seq<TrainingExample>)
    requires exists e | e in examples :: Complete(e)
    ensures var kept := Filter(examples, Complete);
            && SplitLines(Jsonl(examples)) == LinesOf(kept)
            && forall i | 0 <= i < |kept| ::
                 && ParseLine(SplitLines(Jsonl(examples))[i]) == Some((Trim(kept[i].user), Trim(kept[i].assistant)))
                 && Trim(kept[i].user) != "" && Trim(kept[i].assistant) != ""
  {
    JsonlSplit(examples);
    LinesParse(Filter(examples, Complete));
  }

  /** A line ends with the closing brace of its object. */
  lemma LineEndsWithBrace(user: string, assistant: string)
    ensures Line(user, assistant) != [] && Line(user, assistant)[|Line(user, assistant)| - 1] == '}'
  {
    var front := LineStart + Escape(user) + "\"" + LineMiddle + Escape(assistant) + "\"";
    assert Line(user, assistant) == front + LineEnd;
    assert LineEnd[2] == '}';
  }

  /** `jsonl` is empty exactly when no example is complete (the download
      and upload buttons stay disabled), and otherwise ends with a line's
      closing brace, not a newline. */
  lemma {:induction false} JsonlEmptyIffNothingComplete(examples: seq<TrainingExample>)
    ensures Jsonl(examples) == [] <==> forall e | e in examples :: !Complete(e)
    ensures Jsonl(examples) != [] ==> Jsonl(examples)[|Jsonl(examples)| - 1] == '}'
  {
    var kept := Filter(examples, Complete);
    var lines := LinesOf(kept);
    if kept != [] {
      var k := kept[|kept| - 1];
      assert lines[|lines| - 1] == Line(Trim(k.user), Trim(k.assistant));
      LineEndsWithBrace(Trim(k.user), Trim(k.assistant));
      JoinLinesLast(lines);
      assert k in examples && Complete(k) by { assert k in kept; }
    }
  }

  /** Examples are independent: the lines for a concatenation are the two
      parts' lines in order. */
  lemma JsonlAppend(a: seq<TrainingExample>, b: seq<TrainingExample>)
    ensures LinesOf(Filter(a + b, Complete)) == LinesOf(Filter(a, Complete)) + LinesOf(Filter(b, Complete))
  {
    FilterAppend(a, b, Complete);
    MapAppend(Filter(a, Complete), Filter(b, Complete), LineOf);
  }
}
