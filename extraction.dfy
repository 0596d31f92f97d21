/** `CodeEvaluator.preprocess_data`: extracting the candidate program from a
    model response. */
module Extraction {
  import opened PyStrings

  /** The opening fence the extractor looks for. */
  const Marker: string := "```python"

  /** A closing fence. */
  const Fence: string := "```"

  /** Keeps what follows the first `Marker` and cuts it at the next `Fence`.
      When no `Fence` follows, `find` yields -1 and the slice `[:-1]` drops
      the last character. Without a `Marker` the data is returned unchanged. */
  function Preprocess(data: string): string
  {
    if In(data, Marker) then
      var rest := AfterMarker(data);
      Slice(rest, 0, Find(rest, Fence))
    else
      data
  }

  /** What follows the first marker, when there is one: `data[i + 9:]` for the
      first occurrence `i`, a bound that lies inside `data`. */
  function AfterMarker(data: string): (rest: string)
    requires In(data, Marker)
    ensures exists i :: FirstMarkerAt(data, i) && rest == data[i + |Marker|..]
  {
    var i := Find(data, Marker);
    assert FirstMarkerAt(data, i);
    data[i + |Marker|..]
  }

  /** The first occurrence of `Marker` in `data` starts at `i`. */
  ghost predicate FirstMarkerAt(data: string, i: int)
  {
    OccursAt(data, Marker, i) && forall j :: 0 <= j < i ==> !OccursAt(data, Marker, j)
  }

  /** Without the marker the response is returned unchanged. */
  lemma PreprocessWithoutMarker(data: string)
    requires !In(data, Marker)
    ensures Preprocess(data) == data
  {
  }

  /** A response `pre + "```python" + body + "```" + tail`, where the marker
      first occurs right after `pre` and the fence first occurs right after
      `body`, yields exactly `body`: the text before the marker and the text
      from the closing fence on are discarded. */
  lemma PreprocessFenced(pre: string, body: string, tail: string)
    requires !In(pre + Marker[..|Marker| - 1], Marker)
    requires !In(body + Fence[..|Fence| - 1], Fence)
    ensures Preprocess(pre + Marker + body + Fence + tail) == body
  {
    var data := pre + Marker + body + Fence + tail;
    assert data == pre + Marker + (body + Fence + tail);
    FindAfter(pre, Marker, body + Fence + tail);
    assert OccursAt(data, Marker, |pre|);
    var rest := body + Fence + tail;
    assert data[|pre| + |Marker|..] == rest;
    assert rest == body + Fence + tail;
    FindAfter(body, Fence, tail);
    SliceTo(rest, |body|);
    assert rest[..|body|] == body;
  }

  /** A response `pre + "```python" + rest` with no fence in `rest` loses the
      last character of `rest`: `find` returns -1 and `rest[:-1]` is taken. */
  lemma PreprocessUnclosed(pre: string, rest: string)
    requires !In(pre + Marker[..|Marker| - 1], Marker)
    requires !In(rest, Fence)
    ensures Preprocess(pre + Marker + rest) == if rest == [] then [] else rest[..|rest| - 1]
  {
    var data := pre + Marker + rest;
    FindAfter(pre, Marker, rest);
    assert OccursAt(data, Marker, |pre|);
    assert data[|pre| + |Marker|..] == rest;
    SliceTo(rest, -1);
  }

  /** Every response holding the marker has one of the two shapes above: the
      text before its first marker, the marker, and then either a first
      closing fence with the body before it, or no fence at all. So
      `PreprocessFenced` and `PreprocessUnclosed` between them cover every
      input, and the result is the body, or the rest without its last
      character. */
  lemma PreprocessSplits(data: string)
    requires In(data, Marker)
    ensures var i := Find(data, Marker);
            var pre, rest := data[..i], data[i + |Marker|..];
            && data == pre + Marker + rest
            && !In(pre + Marker[..|Marker| - 1], Marker)
            && (if In(rest, Fence) then
                  var k := Find(rest, Fence);
                  var body, tail := rest[..k], rest[k + |Fence|..];
                  && rest == body + Fence + tail
                  && !In(body + Fence[..|Fence| - 1], Fence)
                  && Preprocess(data) == body
                else
                  Preprocess(data) == if rest == [] then [] else rest[..|rest| - 1])
  {
    var i := Find(data, Marker);
    var pre, rest := data[..i], data[i + |Marker|..];
    FirstOccurrenceSplit(data, Marker);
    if In(rest, Fence) {
      FencedSplit(pre, rest);
    } else {
      PreprocessUnclosed(pre, rest);
    }
  }

  /** The fenced case of `PreprocessSplits`, once the marker is split off. */
  lemma FencedSplit(pre: string, rest: string)
    requires !In(pre + Marker[..|Marker| - 1], Marker)
    requires In(rest, Fence)
    ensures var k := Find(rest, Fence);
            var body, tail := rest[..k], rest[k + |Fence|..];
            && rest == body + Fence + tail
            && !In(body + Fence[..|Fence| - 1], Fence)
            && Preprocess(pre + Marker + rest) == body
  {
    var k := Find(rest, Fence);
    var body, tail := rest[..k], rest[k + |Fence|..];
    FirstOccurrenceSplit(rest, Fence);
    PreprocessFenced(pre, body, tail);
    assert pre + Marker + body + Fence + tail == pre + Marker + rest;
  }

  /** The fence is a prefix of the marker, so a string without fences has no
      marker either. */
  lemma NoFenceNoMarker(s: string)
    requires !In(s, Fence)
    ensures !In(s, Marker)
  {
    if In(s, Marker) {
      InPrefixPattern(s, Marker, Fence);
    }
  }

  /** The extracted program never contains the marker. */
  lemma {:induction false} PreprocessHasNoMarker(data: string)
    ensures !In(Preprocess(data), Marker)
  {
    if In(data, Marker) {
      var rest := AfterMarker(data);
      var k := Find(rest, Fence);
      var r := Preprocess(data);
      if k == -1 {
        SliceTo(rest, -1);
        if rest != [] && In(rest[..|rest| - 1], Marker) {
          InSlice(rest, 0, |rest| - 1, Marker);
          NoFenceNoMarker(rest);
        }
      } else {
        SliceTo(rest, k);
        assert r == rest[..k];
        forall j | 0 <= j <= |r| - |Fence|
          ensures !OccursAt(r, Fence, j)
        {
          assert r[j..j + |Fence|] == rest[j..j + |Fence|];
          assert !OccursAt(rest, Fence, j);
        }
        NoFenceNoMarker(r);
      }
    }
  }

  /** Extracting twice gives what extracting once gives. */
  lemma PreprocessIdempotent(data: string)
    ensures Preprocess(Preprocess(data)) == Preprocess(data)
  {
    PreprocessHasNoMarker(data);
  }

  /** Every fence starts with a backquote, so where no backquote stands at a
      position a fence could start from, there is neither fence nor marker. */
  lemma NoFenceStart(s: string)
    requires forall k :: 0 <= k < |s| - 2 ==> s[k] != '`'
    ensures !In(s, Fence) && !In(s, Marker)
  {
    forall j | 0 <= j <= |s| - |Fence|
      ensures !OccursAt(s, Fence, j)
    {
      assert s[j..j + |Fence|][0] == s[j];
    }
    NoFenceNoMarker(s);
  }

  /** The code the evaluator runs: the extracted block with the whitespace at
      both ends stripped. */
  function ExtractCode(response: string): string
  {
    Strip(Preprocess(response))
  }

  /** A closed block yields its body without surrounding whitespace. */
  lemma ExtractCodeFenced(pre: string, body: string, tail: string)
    requires !In(pre + Marker[..|Marker| - 1], Marker)
    requires !In(body + Fence[..|Fence| - 1], Fence)
    ensures ExtractCode(pre + Marker + body + Fence + tail) == Strip(body)
  {
    PreprocessFenced(pre, body, tail);
  }

  /** A closed block worked through: the newline after the marker is kept by
      the extraction and removed by `strip()`. */
  lemma ClosedBlockExample()
    ensures Preprocess("```python\nX\n```") == "\nX\n"
    ensures ExtractCode("```python\nX\n```") == "X"
  {
    assert [] + Marker[..|Marker| - 1] == "```pytho";
    NoFenceStart("\nX\n``");
    assert "\nX\n" + Fence[..|Fence| - 1] == "\nX\n``";
    PreprocessFenced([], "\nX\n", []);
    assert [] + Marker + "\nX\n" + Fence + [] == "```python\nX\n```";
    assert TrimStart("\nX\n") == "X\n";
    assert TrimEnd("X\n") == "X";
  }

  /** A block that is never closed loses its final character rather than
      running to the end of the text, and here leaves no code at all. */
  lemma UnclosedBlockExample()
    ensures Preprocess("```python\nX") == "\n"
    ensures ExtractCode("```python\nX") == ""
  {
    NoFenceStart("\nX");
    PreprocessUnclosed([], "\nX");
    assert [] + Marker + "\nX" == "```python\nX";
    assert TrimStart("\n") == "";
  }

  /** Text without any fence is kept whole by the extraction and only trimmed. */
  lemma UnfencedExample()
    ensures Preprocess(" no fence here\n") == " no fence here\n"
    ensures ExtractCode(" no fence here\n") == "no fence here"
  {
    NoFenceStart(" no fence here\n");
    PreprocessWithoutMarker(" no fence here\n");
    assert TrimStart(" no fence here\n") == "no fence here\n";
    assert TrimEnd("no fence here\n") == "no fence here";
  }
}
