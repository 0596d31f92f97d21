/** `CodeEvaluator.run`: for every prompt, generate a response, extract and
    validate its code, and with `few_shot` feed the failure back to the model
    for at most two more rounds; then update the run's counters. */
module Orchestrator {
  import opened PyStrings
  import opened Extraction
  import opened Validation
  import opened Conversation

  /** Greedy decoding: the response text is a function of the conversation. */
  type Generator = seq<Turn> -> string

  /** Running a program text under the alarm, reduced to what it did. */
  type Executor = string -> Outcome

  /** The label of the last retry round; round 0 is the first attempt. */
  const MaxShot: nat := 2

  /** The user turn that reports a failure back to the model. */
  function RetryRequest(message: string): string
  {
    " While running that code I received the following: " + message
    + ". Can you update the code and fix the problem?"
  }

  /** The two turns a failed round adds: the model's response, then the report. */
  function FeedbackTurns(response: string, message: string): seq<Turn>
  {
    [Turn(Assistant, response), Turn(User, RetryRequest(message))]
  }

  /** One generate/extract/validate round: its label, the conversation it was
      generated from, the response, the extracted code and the validation. */
  datatype Attempt = Attempt(shot: nat, request: seq<Turn>, response: string, code: string, passed: int, message: string)

  /** The round labelled `shot` on the conversation `request`. */
  function RunRound(request: seq<Turn>, test: string, shot: nat, generate: Generator, execute: Executor): Attempt
  {
    var response := generate(request);
    var code := ExtractCode(response);
    var v := ValidateCode(code, test, shot, execute);
    Attempt(shot, request, response, code, v.0, v.1)
  }

  /** A round as the retry loop sees it: from the conversation and the round
      label to what the round produced. */
  type Round = (seq<Turn>, nat) -> Attempt

  /** The rounds of a prompt whose withheld test is `test`. */
  function RoundOf(test: string, generate: Generator, execute: Executor): Round
  {
    (request: seq<Turn>, shot: nat) => RunRound(request, test, shot, generate, execute)
  }

  /** A round records the conversation and the label it was given. */
  ghost predicate Labelled(round: Round)
  {
    forall request, shot :: round(request, shot).request == request && round(request, shot).shot == shot
  }

  lemma RoundOfLabelled(test: string, generate: Generator, execute: Executor)
    ensures Labelled(RoundOf(test, generate, execute))
  {
  }

  /** How one prompt's evaluation ended: the last round's `passed`, the rounds
      in order, and the retry conversation as it stands after the loop (the
      prompt itself when no retry conversation was built). */
  datatype Evaluation = Evaluation(passed: int, attempts: seq<Attempt>, conversation: seq<Turn>)

  /** The retry loop `while not passed and shots <= 2`, from the state
      (`conversation`, `shots`, `passed`) with the rounds done so far. */
  function Retry(conversation: seq<Turn>, shots: nat, passed: int, attempts: seq<Attempt>, round: Round): Evaluation
    decreases MaxShot + 1 - shots
  {
    if passed != 0 || shots > MaxShot then
      Evaluation(passed, attempts, conversation)
    else
      var a := round(conversation, shots);
      Retry(conversation + FeedbackTurns(a.response, a.message), shots + 1, a.passed, attempts + [a], round)
  }

  /** Round 0 on `messages`, then the retry loop when `fewShot` is set and
      round 0 failed. */
  function Rounds(messages: seq<Turn>, fewShot: bool, round: Round): Evaluation
  {
    var first := round(messages, 0);
    if fewShot && first.passed == 0 then
      Retry(messages + FeedbackTurns(first.response, first.message), 1, first.passed, [first], round)
    else
      Evaluation(first.passed, [first], messages)
  }

  /** The evaluation of one prompt. */
  function Evaluate(prompt: Prompt, fewShot: bool, generate: Generator, execute: Executor): Evaluation
  {
    Rounds(prompt.messages, fewShot, RoundOf(prompt.test, generate, execute))
  }

  /** The last round of a non-empty list of rounds. */
  function Last(attempts: seq<Attempt>): Attempt
    requires attempts != []
  {
    attempts[|attempts| - 1]
  }

  /** The rounds follow the protocol: round `k` is what `round` gives for its
      conversation and the label `k`; round 0 ran on the prompt; each later
      round ran on its predecessor's conversation extended by exactly the
      predecessor's response and report; and every round but the last failed. */
  ghost predicate Chained(attempts: seq<Attempt>, messages: seq<Turn>, round: Round)
  {
    && attempts != []
    && attempts[0].request == messages
    && (forall k :: 0 <= k < |attempts| ==> attempts[k] == round(attempts[k].request, k))
    && (forall i, j :: 0 <= i && j == i + 1 && j < |attempts| ==>
          attempts[j].request == attempts[i].request + FeedbackTurns(attempts[i].response, attempts[i].message))
    && (forall k :: 0 <= k < |attempts| - 1 ==> attempts[k].passed == 0)
  }

  /** Each retry round keeps the protocol; the loop ends with the last round's
      result, after a pass or after round `MaxShot`, with that round's response
      and report appended to the conversation. */
  lemma {:induction false} RetryKeepsProtocol(conversation: seq<Turn>, shots: nat, passed: int,
                                              attempts: seq<Attempt>, messages: seq<Turn>, round: Round)
    requires Labelled(round)
    requires 1 <= shots <= MaxShot + 1 && |attempts| == shots
    requires Chained(attempts, messages, round)
    requires passed == Last(attempts).passed
    requires conversation == Last(attempts).request + FeedbackTurns(Last(attempts).response, Last(attempts).message)
    ensures var e := Retry(conversation, shots, passed, attempts, round);
            && Chained(e.attempts, messages, round)
            && attempts <= e.attempts && |e.attempts| <= MaxShot + 1
            && e.passed == Last(e.attempts).passed
            && (e.passed != 0 || |e.attempts| == MaxShot + 1)
            && e.conversation == Last(e.attempts).request + FeedbackTurns(Last(e.attempts).response, Last(e.attempts).message)
    decreases MaxShot + 1 - shots
  {
    if passed == 0 && shots <= MaxShot {
      var a := round(conversation, shots);
      var next := attempts + [a];
      assert next[shots] == a && next[..shots] == attempts;
      assert Chained(next, messages, round);
      RetryKeepsProtocol(conversation + FeedbackTurns(a.response, a.message), shots + 1, a.passed, next,
                         messages, round);
    }
  }

  /** Round `k` runs on the prompt followed by `2 * k` turns. */
  lemma {:induction false} RequestGrowth(attempts: seq<Attempt>, messages: seq<Turn>, round: Round, k: nat)
    requires Chained(attempts, messages, round)
    requires k < |attempts|
    ensures |attempts[k].request| == |messages| + 2 * k
    ensures messages <= attempts[k].request
  {
    if k > 0 {
      RequestGrowth(attempts, messages, round, k - 1);
    }
  }

  /** Under the protocol, round `k` carries the label `k`. */
  lemma ChainedLabels(attempts: seq<Attempt>, messages: seq<Turn>, round: Round)
    requires Labelled(round) && Chained(attempts, messages, round)
    ensures forall k :: 0 <= k < |attempts| ==> attempts[k].shot == k
  {
    forall k | 0 <= k < |attempts|
      ensures attempts[k].shot == k
    {
      assert attempts[k] == round(attempts[k].request, k);
    }
  }

  /** The rounds of one prompt: between one and three, labelled 0, 1, 2,
      stopping at the first pass; exactly one without `fewShot`; three when no
      round passes; the result is the last round's; and the retry
      conversation is the prompt followed by two turns per round. */
  lemma RoundsProtocol(messages: seq<Turn>, fewShot: bool, round: Round)
    requires Labelled(round)
    ensures var e := Rounds(messages, fewShot, round);
            && Chained(e.attempts, messages, round)
            && 1 <= |e.attempts| <= MaxShot + 1
            && (forall k :: 0 <= k < |e.attempts| ==> e.attempts[k].shot == k)
            && e.passed == Last(e.attempts).passed
            && (!fewShot ==> |e.attempts| == 1)
            && (fewShot ==> e.passed != 0 || |e.attempts| == MaxShot + 1)
            && (if fewShot && e.attempts[0].passed == 0
                then |e.conversation| == |messages| + 2 * |e.attempts| && messages <= e.conversation
                else |e.attempts| == 1 && e.conversation == messages)
  {
    var first := round(messages, 0);
    assert Chained([first], messages, round);
    var e := Rounds(messages, fewShot, round);
    if fewShot && first.passed == 0 {
      RetryKeepsProtocol(messages + FeedbackTurns(first.response, first.message), 1, first.passed, [first],
                         messages, round);
      assert e.attempts[0] == first;
      RequestGrowth(e.attempts, messages, round, |e.attempts| - 1);
    }
    ChainedLabels(e.attempts, messages, round);
  }

  /** The same protocol for a prompt, with its own rounds. */
  lemma EvaluateProtocol(prompt: Prompt, fewShot: bool, generate: Generator, execute: Executor)
    ensures var e := Evaluate(prompt, fewShot, generate, execute);
            && Chained(e.attempts, prompt.messages, RoundOf(prompt.test, generate, execute))
            && 1 <= |e.attempts| <= MaxShot + 1
            && (forall k :: 0 <= k < |e.attempts| ==> e.attempts[k].shot == k)
            && e.passed == Last(e.attempts).passed
            && (!fewShot ==> |e.attempts| == 1)
            && (fewShot ==> e.passed != 0 || |e.attempts| == MaxShot + 1)
            && (if fewShot && e.attempts[0].passed == 0
                then |e.conversation| == |prompt.messages| + 2 * |e.attempts| && prompt.messages <= e.conversation
                else |e.attempts| == 1 && e.conversation == prompt.messages)
  {
    RoundOfLabelled(prompt.test, generate, execute);
    RoundsProtocol(prompt.messages, fewShot, RoundOf(prompt.test, generate, execute));
  }

  /** Retrying only helps: a prompt that passes without `fewShot` passes with it. */
  lemma RetryNeverHurts(prompt: Prompt, generate: Generator, execute: Executor)
    ensures Evaluate(prompt, false, generate, execute).passed != 0 ==> Evaluate(prompt, true, generate, execute).passed != 0
  {
  }

  /** The number of prompts whose evaluation passed. */
  function PassedCount(prompts: seq<Prompt>, fewShot: bool, generate: Generator, execute: Executor): (n: nat)
    ensures n <= |prompts|
  {
    if prompts == [] then 0
    else
      PassedCount(prompts[..|prompts| - 1], fewShot, generate, execute)
      + (if Evaluate(prompts[|prompts| - 1], fewShot, generate, execute).passed != 0 then 1 else 0)
  }

  /** Over a whole run, `fewShot` never lowers the number of passed tests. */
  lemma {:induction false} RetryNeverLowersCount(prompts: seq<Prompt>, generate: Generator, execute: Executor)
    ensures PassedCount(prompts, false, generate, execute) <= PassedCount(prompts, true, generate, execute)
  {
    if prompts != [] {
      RetryNeverLowersCount(prompts[..|prompts| - 1], generate, execute);
      RetryNeverHurts(prompts[|prompts| - 1], generate, execute);
    }
  }

  /** One step of the retry loop: a failed state below round `MaxShot` runs
      the next round and appends its two turns. */
  lemma RetryStep(conversation: seq<Turn>, shots: nat, attempts: seq<Attempt>, round: Round, a: Attempt)
    requires shots <= MaxShot && a == round(conversation, shots)
    ensures Retry(conversation, shots, 0, attempts, round)
            == Retry(conversation + [Turn(Assistant, a.response)] + [Turn(User, RetryRequest(a.message))],
                     shots + 1, a.passed, attempts + [a], round)
  {
    assert conversation + [Turn(Assistant, a.response)] + [Turn(User, RetryRequest(a.message))]
           == conversation + FeedbackTurns(a.response, a.message);
  }

  /** The body of `run`'s loop for one prompt (round 0 and the retry loop),
      giving the final `passed`, the number of rounds and the final retry
      conversation. */
  method EvaluatePrompt(prompt: Prompt, fewShot: bool, generate: Generator, execute: Executor)
    returns (passed: int, rounds: nat, conversation: seq<Turn>)
    ensures var e := Evaluate(prompt, fewShot, generate, execute);
            passed == e.passed && rounds == |e.attempts| && conversation == e.conversation
  {
    ghost var round := RoundOf(prompt.test, generate, execute);
    ghost var target := Rounds(prompt.messages, fewShot, round);
    var response := generate(prompt.messages);
    var extractedCode := ExtractCode(response);
    var result := ValidateCode(extractedCode, prompt.test, 0, execute);
    var message;
    passed, message := result.0, result.1;
    rounds, conversation := 1, prompt.messages;
    ghost var attempts := [Attempt(0, prompt.messages, response, extractedCode, passed, message)];
    assert attempts[0] == round(prompt.messages, 0);
    if fewShot && passed == 0 {
      var shots: nat := 1;
      var fewShotPrompt := prompt.messages + FeedbackTurns(response, message);
      assert Retry(fewShotPrompt, shots, passed, attempts, round) == target;
      while passed == 0 && shots <= MaxShot
        invariant 1 <= shots <= MaxShot + 1 && |attempts| == shots
        invariant Retry(fewShotPrompt, shots, passed, attempts, round) == target
        decreases MaxShot + 1 - shots
      {
        response := generate(fewShotPrompt);
        extractedCode := ExtractCode(response);
        result := ValidateCode(extractedCode, prompt.test, shots, execute);
        passed, message := result.0, result.1;
        ghost var a := Attempt(shots, fewShotPrompt, response, extractedCode, passed, message);
        assert a == round(fewShotPrompt, shots);
        RetryStep(fewShotPrompt, shots, attempts, round, a);
        attempts := attempts + [a];
        fewShotPrompt := fewShotPrompt + [Turn(Assistant, response)];
        fewShotPrompt := fewShotPrompt + [Turn(User, RetryRequest(message))];
        shots := shots + 1;
      }
      rounds, conversation := shots, fewShotPrompt;
    } else {
      assert target == Evaluation(passed, attempts, prompt.messages);
    }
  }

  /** The evaluator's run-level state: the counters of attempted and passed
      tests. Model loading is not part of this model; the configuration is
      kept as given. */
  class CodeEvaluator {
    const modelId: string
    const hfToken: string
    const quantize: bool
    var numTest: int
    var passedTest: int

    /** No more tests passed than were attempted. */
    ghost predicate Valid()
      reads this
    {
      0 <= passedTest <= numTest
    }

    constructor (modelId: string, hfToken: string, quantize: bool)
      ensures Valid()
      ensures numTest == 0 && passedTest == 0
      ensures this.modelId == modelId && this.hfToken == hfToken && this.quantize == quantize
    {
      this.modelId, this.hfToken, this.quantize := modelId, hfToken, quantize;
      numTest, passedTest := 0, 0;
    }

    /** Evaluates the prompts in order: each adds one to `numTest`, and one to
        `passedTest` when its last round passed. */
    method Run(prompts: seq<Prompt>, fewShot: bool, generate: Generator, execute: Executor)
      requires Valid()
      modifies this
      ensures Valid()
      ensures numTest == old(numTest) + |prompts|
      ensures passedTest == old(passedTest) + PassedCount(prompts, fewShot, generate, execute)
    {
      for index := 0 to |prompts|
        invariant Valid()
        invariant numTest == old(numTest) + index
        invariant passedTest == old(passedTest) + PassedCount(prompts[..index], fewShot, generate, execute)
      {
        var passed, _, _ := EvaluatePrompt(prompts[index], fewShot, generate, execute);
        assert prompts[..index + 1][..index] == prompts[..index];
        numTest := numTest + 1;
        if passed != 0 {
          passedTest := passedTest + 1;
        }
      }
      assert prompts[..|prompts|] == prompts;
    }
  }
}
