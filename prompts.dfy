/** Building the prompts of the benchmark run: the window of dataset lines
    that is evaluated, and one prompt per record that shows the model the
    first test and withholds the second. */
module Prompts {
  import opened PyStrings
  import opened Conversation

  /** A dataset record once its JSON line is parsed: the task description and
      its list of assertion tests. */
  datatype Record = Record(text: string, testList: seq<string>)

  /** The outcome of building the prompts: all of them, or the `IndexError`
      raised by the first record with fewer than two tests (its position). */
  datatype Built = Prompts(prompts: seq<Prompt>) | IndexError(record: nat)

  /** The sentence joining a task description to the test shown with it. */
  const TestHint := " The function should pass the following test: "

  /** The first dataset line evaluated, counted from 1. */
  const StartTestLine: nat := 11

  /** The last dataset line evaluated, counted from 1. */
  const EndTestLine: nat := 510

  /** A record can be turned into a prompt: it has the tests at index 0 and 1. */
  predicate HasTwoTests(record: Record)
  {
    |record.testList| >= 2
  }

  /** The user turn of a record: the description, the hint and the first test,
      closed by a full stop. */
  function Request(record: Record): string
    requires HasTwoTests(record)
  {
    record.text + TestHint + record.testList[0] + "."
  }

  /** A record's prompt: the system command and the user turn, with the second
      test withheld for validation. */
  function PromptOf(record: Record, systemCommand: Turn): Prompt
    requires HasTwoTests(record)
  {
    Prompt([systemCommand, Turn(User, Request(record))], record.testList[1])
  }

  /** `create_prompts`: one prompt per record, in order; the first record
      without two tests raises `IndexError` and no prompt list is returned. */
  method CreatePrompts(records: seq<Record>, systemCommand: Turn) returns (r: Built)
    ensures r.Prompts? <==> forall i :: 0 <= i < |records| ==> HasTwoTests(records[i])
    ensures r.Prompts? ==> |r.prompts| == |records|
                           && forall i :: 0 <= i < |records| ==> r.prompts[i] == PromptOf(records[i], systemCommand)
    ensures r.IndexError? ==> r.record < |records| && !HasTwoTests(records[r.record])
                              && forall i :: 0 <= i < r.record ==> HasTwoTests(records[i])
  {
    var prompts: seq<Prompt> := [];
    for index := 0 to |records|
      invariant |prompts| == index
      invariant forall i :: 0 <= i < index ==> HasTwoTests(records[i])
      invariant forall i :: 0 <= i < index ==> prompts[i] == PromptOf(records[i], systemCommand)
    {
      var record := records[index];
      if |record.testList| < 2 {
        return IndexError(index);
      }
      var content := record.text + TestHint + record.testList[0] + ".";
      prompts := prompts + [Prompt([systemCommand, Turn(User, content)], record.testList[1])];
    }
    return Prompts(prompts);
  }

  /** The prompt keeps the system command first, speaks as the user second,
      shows the first test inside the user turn and withholds the second. */
  lemma PromptShowsFirstTestWithholdsSecond(record: Record, systemCommand: Turn)
    requires HasTwoTests(record)
    ensures var p := PromptOf(record, systemCommand);
            && |p.messages| == 2 && p.messages[0] == systemCommand
            && p.messages[1].role == User
            && record.text <= p.messages[1].content
            && In(p.messages[1].content, record.testList[0])
            && p.test == record.testList[1]
  {
    var c := Request(record);
    var k := |record.text + TestHint|;
    assert c[k..k + |record.testList[0]|] == record.testList[0];
    assert OccursAt(c, record.testList[0], k);
  }

  /** `lines[start - 1:end]`: the lines numbered `start` to `end` counted from
      1, both included, as far as the file reaches. */
  function Window(lines: seq<string>, start: int, end: int): seq<string>
  {
    Slice(lines, start - 1, end)
  }

  /** For line numbers from 1 on, the window holds the numbered lines that
      exist, in order. */
  lemma WindowIsInclusiveRange(lines: seq<string>, start: int, end: int)
    requires 1 <= start && 0 <= end
    ensures var w := Window(lines, start, end);
            var last := if end <= |lines| then end else |lines|;
            && |w| == (if start - 1 <= last then last - (start - 1) else 0)
            && forall k :: 0 <= k < |w| ==> w[k] == lines[start - 1 + k]
  {
  }

  /** The evaluated window: lines 11 to 510, that is 500 records when the
      dataset is that long. */
  lemma EvaluatedWindow(lines: seq<string>)
    ensures |lines| >= EndTestLine ==> Window(lines, StartTestLine, EndTestLine) == lines[10..510]
    ensures |Window(lines, StartTestLine, EndTestLine)| <= 500
  {
    WindowIsInclusiveRange(lines, StartTestLine, EndTestLine);
  }
}
