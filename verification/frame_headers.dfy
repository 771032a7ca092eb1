/** Headers as any program may print them, and the comparison told path by path. */
module FrameHeaders {
  import opened Options
  import opened Text
  import opened Frames

  // ---- the words of a line -------------------------------------------------------------------------------------

  /** Tab to carriage return, the four separators, and the space. */
  ghost predicate White(gap: Text) {
    forall i :: 0 <= i < |gap| ==> 9 <= gap[i] <= 13 || 28 <= gap[i] <= 31 || gap[i] == 32
  }

  ghost predicate Word(w: Text) {
    && w != []
    && forall i :: 0 <= i < |w| ==> !(9 <= w[i] <= 13 || 28 <= w[i] <= 31 || w[i] == 32)
  }

  /** A gap before each word, and one behind the last. */
  function Line(gaps: seq<Text>, words: seq<Text>): Text
    requires |gaps| == |words| + 1
  {
    if words == [] then gaps[0] else gaps[0] + (words[0] + Line(gaps[1..], words[1..]))
  }

  /** Only the first and the last gap may be empty. */
  ghost predicate Spaced(gaps: seq<Text>, words: seq<Text>) {
    && |gaps| == |words| + 1
    && (forall i :: 0 <= i < |gaps| ==> White(gaps[i]))
    && (forall i :: 0 < i < |words| ==> gaps[i] != [])
    && (forall i :: 0 <= i < |words| ==> Word(words[i]))
  }

  lemma {:induction false} GapIsSkipped(gap: Text, rest: Text)
    requires White(gap)
    ensures Fields(gap + rest) == Fields(rest)
  {
    if gap == [] {
      assert gap + rest == rest;
    } else {
      assert (gap + rest)[0] == gap[0] && (gap + rest)[1..] == gap[1..] + rest;
      GapIsSkipped(gap[1..], rest);
    }
  }

  lemma LineStart(gaps: seq<Text>, words: seq<Text>)
    requires Spaced(gaps, words) && gaps[0] != []
    ensures Line(gaps, words) != [] && IsByteSpace(Line(gaps, words)[0])
  {
    assert Line(gaps, words)[0] == gaps[0][0];
  }

  /** However its words are spaced, a line has exactly them for fields. */
  lemma {:induction false} FieldsAreWords(gaps: seq<Text>, words: seq<Text>)
    requires Spaced(gaps, words)
    ensures Fields(Line(gaps, words)) == words
    decreases |words|
  {
    if words == [] {
      GapIsSkipped(gaps[0], []);
      assert gaps[0] + [] == gaps[0];
    } else {
      var rest := Line(gaps[1..], words[1..]);
      GapIsSkipped(gaps[0], words[0] + rest);
      FieldsAreWords(gaps[1..], words[1..]);
      if |words| > 1 || gaps[1] != [] { LineStart(gaps[1..], words[1..]); }
      FieldsOfWord(words[0], rest);
    }
  }

  // ---- a frame with any header -----------------------------------------------------------------------------------

  /** A header line of the given words, and what follows its newline. */
  function Headed(gaps: seq<Text>, words: seq<Text>, rest: Text): Text
    requires |gaps| == |words| + 1
  {
    Line(gaps, words) + [10] + rest
  }

  ghost predicate OneLine(s: Text) {
    forall i :: 0 <= i < |s| ==> s[i] != 10
  }

  ghost predicate Decimal(w: Text) {
    w != [] && forall i :: 0 <= i < |w| ==> 48 <= w[i] <= 57
  }

  /** What a reader makes of a frame is told by the third word of its header: without one, as for an object that
      is missing, there is an error, as for one that is no number; else that many bytes are the content, or as many
      as there are. */
  lemma HeaderDecides(gaps: seq<Text>, words: seq<Text>, rest: Text)
    requires Spaced(gaps, words) && OneLine(Line(gaps, words))
    ensures FirstFrame(Headed(gaps, words, rest))
         == if |words| < 3 then Err(ShortHeader)
            else if !Decimal(words[2]) then Err(BadSize)
            else
              var size := ValueOf(words[2]);
              Ok((if size <= |rest| then rest[..size] else rest, |Line(gaps, words)| + 1 + size + 1))
  {
    var line := Line(gaps, words);
    FieldsAreWords(gaps, words);
    NewlineThere(line, rest);
    HeaderCut(line, rest);
    if |words| >= 3 { assert AllDigits(words[2]) <==> Decimal(words[2]) by { DecimalIsDigits(words[2]); } }
  }

  lemma DecimalIsDigits(w: Text)
    requires w != []
    ensures AllDigits(w) <==> Decimal(w)
  {}

  lemma NoLineNoFrame(s: Text)
    requires OneLine(s)
    ensures FirstFrame(s) == Err(NoNewline)
  {
    NewlineIs(s, |s|);
  }

  /** Behind any frames that are read in full, the first header that does not say how long its object is ends the
      reading with its error. */
  lemma BadHeaderEnds(oids: seq<Text>, contents: seq<Text>, gaps: seq<Text>, words: seq<Text>, rest: Text, more: nat)
    requires |oids| == |contents| && forall i :: 0 <= i < |oids| ==> IsOid(oids[i])
    requires Spaced(gaps, words) && OneLine(Line(gaps, words)) && (|words| < 3 || !Decimal(words[2]))
    ensures Contents(Batch(oids, contents) + Headed(gaps, words, rest), |oids| + 1 + more)
         == Err(if |words| < 3 then ShortHeader else BadSize)
  {
    var bad := Headed(gaps, words, rest);
    HeaderDecides(gaps, words, rest);
    ErrorBehindFrames(oids, contents, bad, more, if |words| < 3 then ShortHeader else BadSize);
  }

  lemma ErrorBehindFrames(oids: seq<Text>, contents: seq<Text>, bad: Text, more: nat, e: Error)
    requires |oids| == |contents| && forall i :: 0 <= i < |oids| ==> IsOid(oids[i])
    requires FirstFrame(bad) == Err(e)
    ensures Contents(Batch(oids, contents) + bad, |oids| + 1 + more) == Err(e)
  {
    FirstFrameReads();
    ErrorBehind(FirstFrame, oids, contents, bad, more, e);
  }

  lemma ErrorBehind(read: Reader, oids: seq<Text>, contents: seq<Text>, bad: Text, more: nat, e: Error)
    requires |oids| == |contents| && forall i :: 0 <= i < |oids| ==> IsOid(oids[i])
    requires ReadsFrames(read) && read(bad) == Err(e)
    ensures ContentsBy(read, Batch(oids, contents) + bad, |oids| + 1 + more) == Err(e)
  {
    ReadsFront(read, oids, contents, bad, 1 + more);
    ErrorStops(read, bad, 1 + more, e);
  }

  lemma ErrorStops(read: Reader, bad: Text, count: nat, e: Error)
    requires read(bad) == Err(e) && 0 < count
    ensures ContentsBy(read, bad, count) == Err(e)
  {}

  /** Frames whose headers are spaced differently, or say more, are read as well. */
  lemma AnyHeaderReads(gaps: seq<Text>, words: seq<Text>, content: Text, rest: Text, more: nat)
    requires Spaced(gaps, words) && OneLine(Line(gaps, words)) && |words| >= 3
    requires Decimal(words[2]) && ValueOf(words[2]) == |content|
    ensures Contents(Headed(gaps, words, content + [10] + rest), 1 + more) == Prepend([content], Contents(rest, more))
  {
    var after := content + [10] + rest;
    var s := Headed(gaps, words, after);
    HeaderDecides(gaps, words, after);
    assert after[..|content|] == content;
    assert s == (Line(gaps, words) + [10] + content + [10]) + rest;
    assert Drop(s, |Line(gaps, words)| + 1 + |content| + 1) == rest;
  }

  // ---- the comparison ------------------------------------------------------------------------------------------------

  /** The path ends in ".bat". */
  predicate EndsInBat(path: Text) {
    |path| >= 4 && path[|path| - 4..] == [46, 98, 97, 116]
  }

  predicate Deserves(path: Text, archived: Text, blob: Text, v: Verdict) {
    match v
    case Identical => archived == blob
    case Waived => archived != blob && EndsInBat(path)
    case Mismatched => archived != blob && !EndsInBat(path)
  }

  /** The list of a verdict holds, in order, the paths that deserve it. */
  lemma {:induction false} ListHolds(paths: seq<Text>, archived: seq<Text>, blobs: seq<Text>, v: Verdict) returns (at: seq<nat>)
    requires |paths| == |archived| == |blobs|
    ensures |at| == |Judged(paths, archived, blobs, v)|
    ensures forall k :: 0 <= k < |at| ==> at[k] < |paths| && paths[at[k]] == Judged(paths, archived, blobs, v)[k]
    ensures forall k, l :: 0 <= k < l < |at| ==> at[k] < at[l]
    ensures forall i: nat :: i < |paths| ==> (i in at <==> Deserves(paths[i], archived[i], blobs[i], v))
  {
    at := [];
    if paths != [] {
      var last := |paths| - 1;
      at := ListHolds(paths[..last], archived[..last], blobs[..last], v);
      JudgedStep(paths, archived, blobs, v);
      if Judge(paths[last], archived[last], blobs[last]) == v { at := at + [last]; }
    }
  }
}
