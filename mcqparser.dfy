/** The chat front end's quiz formatter: `parse_mcq_response` reads the quiz agent's text line by
    line, grouping each question with its options and answer lines, and `format_mcq_question`
    renders one group as HTML. */
module McqParser {
  import opened Text
  import opened Collections

  const QuestionPrefixes: seq<string> := ["Q1:", "Q2:", "Q3:", "Q4:", "Q5:", "Q6:", "Q7:", "Q8:", "Q9:", "Q10:"]
  const OptionPrefixes: seq<string> := ["A.", "B.", "C.", "D."]
  const AnswerPrefixes: seq<string> := ["Correct Answer:", "Rationale:", "Answer:"]

  /** The prefixes of a line that is never appended to a question. */
  const StrayPrefixes: seq<string> := ["Q", "A.", "B.", "C.", "D."]

  predicate IsQuestionLine(line: string) { StartsWithAny(line, QuestionPrefixes) }
  predicate IsOptionLine(line: string) { StartsWithAny(line, OptionPrefixes) }
  predicate IsAnswerLine(line: string) { StartsWithAny(line, AnswerPrefixes) }
  predicate IsStrayLine(line: string) { StartsWithAny(line, StrayPrefixes) }

  // ---------------------------------------------------------------------------------------------
  // Rendering one question

  /** One question group. */
  datatype Block = Block(question: string, options: seq<string>, answers: seq<string>)

  /** `f'<div class="{cls}">{body}</div>'`; the body is not escaped. */
  function Div(cls: string, body: string): string {
    Open(cls) + body + Close
  }

  function Open(cls: string): string {
    "<div class=\"" + cls + "\">"
  }

  const Close := "</div>"

  /** The item divs, in order. */
  function Items(cls: string, items: seq<string>): string {
    if items == [] then "" else Items(cls, items[..|items| - 1]) + Div(cls, items[|items| - 1])
  }

  /** A wrapping div around the item divs, or nothing at all for no items. */
  function Group(groupClass: string, itemClass: string, items: seq<string>): string {
    if items == [] then "" else Open(groupClass) + Items(itemClass, items) + Close
  }

  const QuestionClass := "mcq-question"
  const OptionsClass := "mcq-options"
  const OptionClass := "mcq-option"
  const AnswersClass := "mcq-answers"
  const AnswerClass := "mcq-answer-item"

  /** The HTML of one group: the question div, the options group only when there are options, the
      answers group only when there are answers. */
  function Render(b: Block): (r: string)
    ensures StartsWith(r, Div(QuestionClass, b.question))
    ensures b.options == [] && b.answers == [] <==> r == Div(QuestionClass, b.question)
  {
    Div(QuestionClass, b.question) + Group(OptionsClass, OptionClass, b.options) + Group(AnswersClass, AnswerClass, b.answers)
  }

  /** Append an item div for each item to `html`, as the loops of `format_mcq_question` do. */
  method AppendItems(html: string, cls: string, items: seq<string>) returns (out: string)
    ensures out == html + Items(cls, items)
  {
    out := html;
    var i := 0;
    while i < |items|
      invariant 0 <= i <= |items|
      invariant out == html + Items(cls, items[..i])
    {
      assert items[..i + 1][..i] == items[..i];
      out := out + Div(cls, items[i]);
      i := i + 1;
    }
    assert items[..i] == items;
  }

  /** Append a group to `html`: nothing for no items, otherwise the opening tag, the item divs and
      the closing tag. */
  method AppendGroup(html: string, groupClass: string, itemClass: string, items: seq<string>) returns (out: string)
    ensures out == html + Group(groupClass, itemClass, items)
  {
    out := html;
    if items != [] {
      ghost var open := Open(groupClass);
      ghost var body := Items(itemClass, items);
      out := out + Open(groupClass);
      out := AppendItems(out, itemClass, items);
      assert out == html + open + body;
      out := out + Close;
      assert out == html + (open + body + Close);
    }
  }

  /** `format_mcq_question`. */
  method FormatMcqQuestion(question: string, options: seq<string>, answers: seq<string>) returns (html: string)
    ensures html == Render(Block(question, options, answers))
  {
    html := Div(QuestionClass, question);
    html := AppendGroup(html, OptionsClass, OptionClass, options);
    html := AppendGroup(html, AnswersClass, AnswerClass, answers);
  }

  // ---------------------------------------------------------------------------------------------
  // Parsing

  /** The parser's variables: the groups already rendered, the open question (empty when none),
      its options and answers, and whether an answer line has been seen since the question. */
  datatype ParserState = ParserState(
    done: seq<Block>, question: string, options: seq<string>, answers: seq<string>, inAnswers: bool)

  const Start := ParserState([], "", [], [], false)

  /** One iteration of the loop over the lines. */
  function Step(st: ParserState, raw: string): ParserState {
    var line := Strip(raw);
    if line == "" then st
    else if IsQuestionLine(line) then
      ParserState(
        if st.question != "" then st.done + [Block(st.question, st.options, st.answers)] else st.done,
        line, [], [], false)
    else if IsOptionLine(line) then st.(options := st.options + [line])
    else if IsAnswerLine(line) then st.(inAnswers := true, answers := st.answers + [line])
    else if st.inAnswers then st.(answers := st.answers + [line])
    else if st.question != "" && !IsStrayLine(line) then st.(question := st.question + " " + line)
    else st
  }

  /** The state after the given lines. */
  function Run(lines: seq<string>): ParserState {
    if lines == [] then Start else Step(Run(lines[..|lines| - 1]), lines[|lines| - 1])
  }

  /** The groups at the end: those rendered plus the open question, if any. */
  function Blocks(st: ParserState): seq<Block> {
    st.done + (if st.question != "" then [Block(st.question, st.options, st.answers)] else [])
  }

  function RenderAll(blocks: seq<Block>): string {
    if blocks == [] then "" else RenderAll(blocks[..|blocks| - 1]) + Render(blocks[|blocks| - 1])
  }

  lemma RenderAllSnoc(blocks: seq<Block>, b: Block)
    ensures RenderAll(blocks + [b]) == RenderAll(blocks) + Render(b)
  {
    assert (blocks + [b])[..|blocks|] == blocks;
  }

  /** What `parse_mcq_response` returns: the groups' HTML, or the message itself when that is empty. */
  function Formatted(message: string): string {
    var html := RenderAll(Blocks(Run(Split(message, '\n'))));
    if html != "" then html else message
  }

  /** One pass of the loop body of `parse_mcq_response` over the parser's variables: a new question
      line renders the open question into the HTML and starts a fresh group. */
  method ReadLine(html: string, question: string, options: seq<string>, answers: seq<string>, inAnswers: bool,
                  ghost done: seq<Block>, raw: string)
    returns (html': string, question': string, options': seq<string>, answers': seq<string>, inAnswers': bool,
             ghost done': seq<Block>)
    requires html == RenderAll(done)
    ensures ParserState(done', question', options', answers', inAnswers') ==
      Step(ParserState(done, question, options, answers, inAnswers), raw)
    ensures html' == RenderAll(done')
  {
    html', question', options', answers', inAnswers', done' := html, question, options, answers, inAnswers, done;
    var line := Strip(raw);
    if line == "" {
      return;
    }
    if IsQuestionLine(line) {
      if question != "" {
        var block := FormatMcqQuestion(question, options, answers);
        RenderAllSnoc(done, Block(question, options, answers));
        html' := html + block;
        done' := done + [Block(question, options, answers)];
      }
      question', options', answers', inAnswers' := line, [], [], false;
    } else if IsOptionLine(line) {
      options' := options + [line];
    } else if IsAnswerLine(line) {
      inAnswers' := true;
      answers' := answers + [line];
    } else if inAnswers {
      answers' := answers + [line];
    } else if question != "" && !IsStrayLine(line) {
      question' := question + " " + line;
    }
  }

  /** `parse_mcq_response`: read each line in turn, render the open question at the end, and fall
      back to the message when nothing was rendered. */
  method ParseMcqResponse(message: string) returns (out: string)
    ensures out == Formatted(message)
  {
    var lines := Split(message, '\n');
    var formattedHtml := "";
    var currentQuestion := "";
    var currentOptions: seq<string> := [];
    var currentAnswers: seq<string> := [];
    var inAnswersSection := false;
    ghost var done: seq<Block> := [];
    var i := 0;
    while i < |lines|
      invariant 0 <= i <= |lines|
      invariant Run(lines[..i]) == ParserState(done, currentQuestion, currentOptions, currentAnswers, inAnswersSection)
      invariant formattedHtml == RenderAll(done)
    {
      assert lines[..i + 1][..i] == lines[..i];
      formattedHtml, currentQuestion, currentOptions, currentAnswers, inAnswersSection, done :=
        ReadLine(formattedHtml, currentQuestion, currentOptions, currentAnswers, inAnswersSection, done, lines[i]);
      i := i + 1;
    }
    assert lines[..i] == lines;
    ghost var final := Run(lines);
    assert final == ParserState(done, currentQuestion, currentOptions, currentAnswers, inAnswersSection);
    if currentQuestion != "" {
      var html := FormatMcqQuestion(currentQuestion, currentOptions, currentAnswers);
      RenderAllSnoc(done, Block(currentQuestion, currentOptions, currentAnswers));
      formattedHtml := formattedHtml + html;
      assert Blocks(final) == done + [Block(currentQuestion, currentOptions, currentAnswers)];
    } else {
      assert Blocks(final) == done;
    }
    out := if formattedHtml != "" then formattedHtml else message;
  }

  // ---------------------------------------------------------------------------------------------
  // Properties

  /** The stripped question lines, in order. */
  function QuestionLines(lines: seq<string>): seq<string> {
    if lines == [] then []
    else
      var line := Strip(lines[|lines| - 1]);
      QuestionLines(lines[..|lines| - 1]) + (if IsQuestionLine(line) then [line] else [])
  }

  lemma StartsWithExtend(a: string, p: string, b: string)
    requires StartsWith(a, p)
    ensures StartsWith(a + b, p)
  {
    assert (a + b)[..|p|] == a[..|p|];
  }

  /** There is exactly one group per question line, in input order, and each group's question
      starts with its question line. */
  lemma {:induction false} OneBlockPerQuestion(lines: seq<string>)
    ensures var st := Run(lines); var ql := QuestionLines(lines);
      |Blocks(st)| == |ql| && (st.question != "" <==> ql != []) &&
      forall i :: 0 <= i < |ql| ==> StartsWith(Blocks(st)[i].question, ql[i])
  {
    if lines != [] {
      var front := lines[..|lines| - 1];
      var raw := lines[|lines| - 1];
      OneBlockPerQuestion(front);
      var st := Run(front);
      var line := Strip(raw);
      var ql := QuestionLines(front);
      assert Run(lines) == Step(st, raw);
      if line != "" && IsQuestionLine(line) {
        assert Blocks(Run(lines)) == Blocks(st) + [Block(line, [], [])];
        assert QuestionLines(lines) == ql + [line];
      } else if line != "" && !IsOptionLine(line) && !IsAnswerLine(line) &&
                !st.inAnswers && st.question != "" && !IsStrayLine(line) {
        var q := st.question + " " + line;
        StartsWithExtend(st.question, ql[|ql| - 1], " " + line);
        assert q == st.question + (" " + line);
        assert Blocks(Run(lines)) == st.done + [Block(q, st.options, st.answers)];
      } else {
        assert Blocks(Run(lines)) ==
          st.done + (if st.question != "" then [Block(st.question, Run(lines).options, Run(lines).answers)] else []);
      }
    }
  }

  /** With no question line nothing is rendered and the message comes back unchanged. */
  lemma NoQuestionKeepsMessage(message: string)
    requires forall line :: line in Split(message, '\n') ==> !IsQuestionLine(Strip(line))
    ensures Formatted(message) == message
  {
    var lines := Split(message, '\n');
    NoQuestionLines(lines);
    OneBlockPerQuestion(lines);
  }

  lemma {:induction false} NoQuestionLines(lines: seq<string>)
    requires forall line :: line in lines ==> !IsQuestionLine(Strip(line))
    ensures QuestionLines(lines) == []
  {
    if lines != [] {
      NoQuestionLines(lines[..|lines| - 1]);
    }
  }

  /** With a question line the output is the rendered groups, one per question line. */
  lemma QuestionsAreRendered(message: string)
    requires exists line :: line in Split(message, '\n') && IsQuestionLine(Strip(line))
    ensures var blocks := Blocks(Run(Split(message, '\n')));
      Formatted(message) == RenderAll(blocks) && |blocks| == |QuestionLines(Split(message, '\n'))| > 0
  {
    var lines := Split(message, '\n');
    SomeQuestionLine(lines);
    OneBlockPerQuestion(lines);
    var blocks := Blocks(Run(lines));
    var last := Render(blocks[|blocks| - 1]);
    assert |Div(QuestionClass, blocks[|blocks| - 1].question)| > 0;
    assert |RenderAll(blocks)| >= |last| > 0;
  }

  lemma {:induction false} SomeQuestionLine(lines: seq<string>)
    requires exists line :: line in lines && IsQuestionLine(Strip(line))
    ensures QuestionLines(lines) != []
  {
    var front := lines[..|lines| - 1];
    if !IsQuestionLine(Strip(lines[|lines| - 1])) {
      var line :| line in lines && IsQuestionLine(Strip(line));
      var k :| 0 <= k < |lines| && lines[k] == line;
      assert front[k] == line;
      SomeQuestionLine(front);
    }
  }

  /** The classification rules of one line. An option line always joins the options, even after an
      answer line, because the option test comes first; an answer line opens the answer section,
      where every later unclassified line goes; outside it, a `Q` line that is not a question, such
      as `Q11:`, is dropped. */
  lemma LineRules(st: ParserState, raw: string)
    ensures Strip(raw) == "" ==> Step(st, raw) == st
    ensures var line := Strip(raw);
      line != "" && !IsQuestionLine(line) && IsOptionLine(line) ==>
        Step(st, raw) == st.(options := st.options + [line])
    ensures var line := Strip(raw);
      line != "" && !IsQuestionLine(line) && !IsOptionLine(line) &&
      IsAnswerLine(line) ==>
        Step(st, raw) == st.(inAnswers := true, answers := st.answers + [line])
    ensures var line := Strip(raw);
      line != "" && !IsQuestionLine(line) && !IsOptionLine(line) &&
      !IsAnswerLine(line) && st.inAnswers ==>
        Step(st, raw) == st.(answers := st.answers + [line])
    ensures var line := Strip(raw);
      line != "" && !IsQuestionLine(line) && !st.inAnswers && StartsWith(line, "Q") ==>
        Step(st, raw) == st
  {
    var line := Strip(raw);
    if line != "" && !IsQuestionLine(line) && !st.inAnswers && StartsWith(line, "Q") {
      assert StartsWith(line, StrayPrefixes[0]);
      assert line[0] == 'Q';
      assert !IsOptionLine(line) && !IsAnswerLine(line);
    }
  }

  /** `Q11:` is not a question line. */
  lemma Q11IsNotAQuestion(line: string)
    requires StartsWith(line, "Q11:")
    ensures !IsQuestionLine(line)
  {
    assert line[2] == '1' && line[3] == ':';
  }
}
