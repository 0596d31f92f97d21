# Code-generation benchmark evaluator: a Dafny model

This project models the evaluation core of a small benchmark. The benchmark
asks a language model to write Python functions for MBPP tasks and checks
each answer against a withheld test. The model covers five things:

- building the prompts from the dataset records, over the window of dataset
  lines that is evaluated (`evaluate.py`);
- extracting the code from a response: the first ```` ```python ```` block,
  then `strip()` (`CodeEvaluator.preprocess_data`);
- mapping what running the candidate program did to the `(passed, message)`
  pair that `CodeEvaluator.validate_code` returns;
- the per-prompt loop of `CodeEvaluator.run`: round 0, then, with
  `few_shot`, up to two retry rounds that feed the failure message back to
  the model;
- the run-level counters `num_test` and `passed_test`.

The modules are:

- `PyStrings`: the Python string built-ins the code uses. These are `in`,
  `str.find`, slicing with negative and out-of-range bounds, and
  `str.strip()` with Python's whitespace set.
- `Conversation`: chat turns and prompts.
- `Extraction`: `preprocess_data` and the stripped code.
- `Validation`: the `except` clauses, taken in order, and the messages they return.
- `Orchestrator`: one prompt's rounds as specification functions, the lemmas
  about them, the method with the source's retry `while` loop, and the class
  `CodeEvaluator` with its counters and `Run`.
- `Prompts`: `create_prompts` as a method with a loop, and the line window.

The language model and `exec` are parameters:

- `Generator` maps a conversation to the response text. Decoding is greedy
  (`do_sample=False`), so the response is a function of the conversation.
- `Executor` maps a program text to an `Outcome`. The outcome is either that
  the program completed, or that it raised an exception with a given class
  and text.

A ten-second timeout is an `Outcome` raising `TimeoutError` with the text
`"Execution timed out!"`.

Three behaviours of the code differ from what a reader might expect. The
model keeps them as the code has them:

- A response with an opening ```` ```python ```` but no closing fence:
  `data.find("```")` returns -1, and `data[:-1]` drops the last character.
  The result is not the text to the end. So ```` "```python\nX" ```` gives
  `"\n"`, and after `strip()` it gives `""` (`Extraction.PreprocessUnclosed`,
  `Extraction.UnclosedBlockExample`).
- The newline right after the marker is kept. ```` "```python\nX\n```" ````
  gives `"\nX\n"` before `strip()`, and `"X"` after it
  (`Extraction.ClosedBlockExample`).
- The `except TimeoutError` clause comes after `except Exception`, so it can
  never run. A timeout is reported as `"ERROR: Execution timed out!"`, not
  with the `"FAILED: "` prefix (`Validation.TimeoutClauseUnreachable`,
  `Validation.TimeoutFeedback`).

## Model

| member | source | states |
|---|---|---|
| PyStrings.Find | code_evaluator.py:84-85 | `str.find` returns -1 exactly when the pattern does not occur; otherwise it returns an index where the pattern occurs, with no occurrence before it |
| PyStrings.FindFrom | code_evaluator.py:84-85 | the search from index `i` returns the first occurrence at or after `i`, or -1 when there is none from `i` on |
| PyStrings.FindAfter | code_evaluator.py:84-85 | the pattern is found right after a prefix that does not already contain it |
| PyStrings.FirstOccurrenceSplit | code_evaluator.py:84-85 | a string holding a pattern splits at the occurrence `find` returns into the text before, the pattern and the rest, with no occurrence ending before that one |
| PyStrings.SliceBound | code_evaluator.py:84-85 | Python's slice bound normalisation: a bound inside `0..n` is kept, a negative bound not below `-n` counts from the end, a bound above `n` becomes `n`, and one below `-n` becomes 0 |
| PyStrings.SliceTo | code_evaluator.py:85 | `s[:j]` is the first `j` elements for `j >= 0`; for `j == -1` it drops the last element, and it is empty when `s` is empty |
| PyStrings.SliceFrom | code_evaluator.py:84 | `s[i:]` for an index inside the sequence is the suffix from `i` |
| PyStrings.TrimStartSpec | code_evaluator.py:128 | the left trim leaves a suffix that does not start with whitespace, and removes only whitespace |
| PyStrings.TrimEndSpec | code_evaluator.py:128 | the right trim leaves a prefix that does not end with whitespace, and removes only whitespace |
| PyStrings.StripSpec | code_evaluator.py:128 | `strip()` leaves a contiguous part of the input that neither starts nor ends with whitespace; everything removed on both sides is whitespace |
| PyStrings.StripIdempotent | code_evaluator.py:128 | stripping an already stripped string changes nothing |
| Extraction.AfterMarker | code_evaluator.py:84 | the text after the marker starts right after the first occurrence of the marker |
| Extraction.PreprocessWithoutMarker | code_evaluator.py:82-86 | a response without the marker is returned unchanged |
| Extraction.PreprocessSplits | code_evaluator.py:83-85 | every response holding the marker is the text before its first marker, the marker and the rest; the rest either has a first closing fence, and the result is the body before it, or has no fence, and the result is the rest without its last character. The two cases meet the preconditions of `PreprocessFenced` and `PreprocessUnclosed`, so those lemmas cover every input |
| Extraction.PreprocessFenced | code_evaluator.py:83-85 | for a closed block, the result is exactly the block body, including the newline after the marker |
| Extraction.PreprocessUnclosed | code_evaluator.py:85 | with no closing fence, the result is the text after the marker minus its last character |
| Extraction.PreprocessHasNoMarker | code_evaluator.py:82-86 | the result never contains the marker |
| Extraction.PreprocessIdempotent | code_evaluator.py:82-86 | preprocessing an already preprocessed response changes nothing |
| Extraction.ExtractCodeFenced | code_evaluator.py:128 | the code extracted from a closed block is the stripped block body |
| Extraction.ClosedBlockExample | code_evaluator.py:82-86 | a closed block `` "```python\nX\n```" `` extracts to `"\nX\n"`, keeping the newline after the marker, and to the code `"X"` after `strip()` (line 128) |
| Extraction.UnclosedBlockExample | code_evaluator.py:82-86 | an unclosed block `` "```python\nX" `` extracts to `"\n"`, losing its last character, and to no code at all after `strip()` |
| Extraction.UnfencedExample | code_evaluator.py:128 | text without a fence is kept whole by the extraction and only trimmed by `strip()` |
| Validation.FirstHandler | code_evaluator.py:100-113 | the first `except` clause in written order that catches the class: no earlier clause catches it |
| Validation.Feedback | code_evaluator.py:100-118 | `passed` is 1 exactly when nothing was raised, with message `"PASSED"`; an `AssertionError` gives the logical-error message naming the test; every other exception gives `"ERROR: "` and its text |
| Validation.TimeoutClauseUnreachable | code_evaluator.py:106-113 | no exception reaches the `except TimeoutError` clause; a `TimeoutError` is caught by `except Exception` |
| Validation.TimeoutFeedback | code_evaluator.py:89-90 | the alarm's timeout yields `(0, "ERROR: Execution timed out!")` |
| Validation.ValidateCode | code_evaluator.py:93-118 | the run passes exactly when the program made of the code, a blank line and the test completes; a failure never reports `"PASSED"` |
| Orchestrator.RoundOfLabelled | code_evaluator.py:124-151 | each round records the conversation it was generated from and its round label |
| Orchestrator.RetryKeepsProtocol | code_evaluator.py:144-163 | the retry loop keeps the round protocol, ends with the last round's result after a pass or after round 2, and leaves the last response and report appended |
| Orchestrator.RequestGrowth | code_evaluator.py:133-161 | round `k` is generated from the prompt followed by exactly `2k` turns |
| Orchestrator.ChainedLabels | code_evaluator.py:129-151 | under the protocol, round `k` is validated with the round label `k` (0 for the first attempt, then `shots`) |
| Orchestrator.RoundsProtocol | code_evaluator.py:124-163 | one to three rounds labelled 0, 1, 2, stopping at the first pass; one round without `few_shot`; three when no round passes; the result is the last round's; the retry conversation is the prompt plus two turns per round |
| Orchestrator.EvaluateProtocol | code_evaluator.py:124-163 | the same protocol for one prompt with its withheld test, its generator and its executor |
| Orchestrator.RetryNeverHurts | code_evaluator.py:131 | a prompt that passes without `few_shot` also passes with it, for an executor that is a function of the program text alone (see "Left out") |
| Orchestrator.PassedCount | code_evaluator.py:165-166 | the number of passed prompts is at most the number of prompts |
| Orchestrator.RetryNeverLowersCount | code_evaluator.py:121-166 | over a whole run, `few_shot` never lowers the number of passed tests, for an executor that is a function of the program text alone (see "Left out") |
| Orchestrator.EvaluatePrompt | code_evaluator.py:124-163 | the loop over rounds gives the final `passed`, the number of rounds and the final retry conversation of the specified evaluation |
| Orchestrator.CodeEvaluator.constructor | code_evaluator.py:13-19 | the configuration is kept as given and both counters start at 0 |
| Orchestrator.CodeEvaluator.Run | code_evaluator.py:121-168 | `num_test` grows by the number of prompts and `passed_test` by the number of passed prompts; never more passed than attempted |
| Prompts.CreatePrompts | evaluate.py:14-29 | one prompt per record, in order, made of the system command and the user turn with the first test shown and the second withheld; the first record with fewer than two tests raises `IndexError` |
| Prompts.PromptShowsFirstTestWithholdsSecond | evaluate.py:18-26 | a prompt starts with the system command, then a user turn that starts with the task text and contains the first test; the withheld test is the second |
| Prompts.WindowIsInclusiveRange | evaluate.py:44 | `lines[start-1:end]` holds the lines numbered `start` to `end` from 1, both included, as far as the file reaches |
| Prompts.EvaluatedWindow | evaluate.py:41-44 | the evaluated window is dataset lines 11 to 510: 500 records when the file is that long, never more |

## Left out

- Model and tokenizer loading, quantisation and the pipeline set-up
  (code_evaluator.py:21-52): these are external libraries. The configuration
  fields are kept as given.
- `generate_response` and `handle_stream_output` (code_evaluator.py:69-79,
  171-193): threads, streaming, wall-clock times and time to first token.
  The response is a `Generator` parameter. So the `IndexError` from
  `ttft_list[-1]` when the stream yields no token is not modelled.
- `exec` and the `SIGALRM` alarm (code_evaluator.py:98-101, 114-115): the
  execution is an `Executor` parameter and a pure function of the program
  text. The real `exec` shares the module's `globals()` between runs, so one
  candidate's definitions are visible to later ones. The model does not
  capture this.
- An `exec` that never returns: a candidate that catches the alarm's
  `TimeoutError` and keeps running hangs the whole run. The `Executor`
  always gives an `Outcome`. So `RetryNeverHurts` and
  `RetryNeverLowersCount` hold only for a run that finishes, and with
  results that do not depend on earlier rounds.
- Exceptions that do not derive from `Exception`, such as `SystemExit` and
  `KeyboardInterrupt`: they escape `validate_code` and end the run. The
  model has no path for them.
- Printing, cursor control and the percentage in `print_test_status`
  (code_evaluator.py:55-66, 94, 97, 103-112, 117, 126, 145, 148, 168): output
  only. The round label passed to `validate_code` only chooses the print
  column.
- `json.loads` and the file reading in `evaluate.py`: records come already
  parsed. A malformed line or a missing `"text"`/`"test_list"` key is not
  modelled. Only the too-short test list (`IndexError`) is.
- `main` in `evaluate.py` is not part of this model. It passes `few_shot`
  and `verbose` keywords that the constructor does not accept, and it calls
  `print_summary`, which the class does not define.
- In-place list mutation: `few_shot_prompt.append` and `prompts.append` are
  modelled as reassigning a sequence. No other code holds these lists, so no
  aliasing is lost.
