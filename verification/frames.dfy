/** Reading the batch output of `git cat-file`, and comparing an archive with the blobs read. */
module Frames {
  import opened Counting
  import opened Options
  import opened Text

  const LF := 10
  const SPACE := 32
  const BLOB: Text := [98, 108, 111, 98]

  /** Why reading fails: no end of header, a header without a size, a size that is not a number. */
  datatype Error = NoNewline | ShortHeader | BadSize

  // ---- one frame, as functions ----------------------------------------------------------------------------------

  /** The place of the first newline, or the length when there is none. */
  function NewlineAt(s: Text): (k: nat)
    ensures k <= |s| && (k < |s| ==> s[k] == LF) && forall i :: 0 <= i < k ==> s[i] != LF
  {
    if s == [] || s[0] == LF then 0 else 1 + NewlineAt(s[1..])
  }

  predicate IsByteSpace(c: nat) {
    c == SPACE || 9 <= c <= 13 || 28 <= c <= 31
  }

  ghost predicate NoSpaces(s: Text) {
    forall i :: 0 <= i < |s| ==> !IsByteSpace(s[i])
  }

  function WordEnd(s: Text): (k: nat)
    ensures k <= |s| && NoSpaces(s[..k]) && (k < |s| ==> IsByteSpace(s[k]))
  {
    if s == [] || IsByteSpace(s[0]) then 0
    else
      assert s[..1 + WordEnd(s[1..])] == [s[0]] + s[1..][..WordEnd(s[1..])];
      1 + WordEnd(s[1..])
  }

  /** The words between runs of white space. */
  function Fields(s: Text): seq<Text>
    decreases |s|
  {
    if s == [] then []
    else if IsByteSpace(s[0]) then Fields(s[1..])
    else
      assert WordEnd(s) > 0;
      [s[..WordEnd(s)]] + Fields(s[WordEnd(s)..])
  }

  /** The size named in a header's third field. */
  function SizeOf(header: Text): Result<nat, Error> {
    var fields := Fields(header);
    if |fields| < 3 then Err(ShortHeader)
    else if fields[2] == [] || !AllDigits(fields[2]) then Err(BadSize)
    else Ok(ValueOf(fields[2]))
  }

  function Take(s: Text, k: nat): Text {
    if k <= |s| then s[..k] else s
  }

  function Drop(s: Text, k: nat): Text {
    if k <= |s| then s[k..] else []
  }

  /** The content of the first frame and how far it reaches; slicing past the end yields what there is. */
  function FirstFrame(s: Text): Result<(Text, nat), Error> {
    var nl := NewlineAt(s);
    if nl == |s| then Err(NoNewline)
    else
      match SizeOf(s[..nl])
      case Err(e) => Err(e)
      case Ok(size) => Ok((Take(s[nl + 1..], size), nl + 1 + size + 1))
  }

  type Reader = Text -> Result<(Text, nat), Error>

  /** The contents of `count` frames, each read off the front by `read`. */
  function ContentsBy(read: Reader, s: Text, count: nat): Result<seq<Text>, Error>
    decreases count
  {
    if count == 0 then Ok([])
    else
      match read(s)
      case Err(e) => Err(e)
      case Ok(frame) => Prepend([frame.0], ContentsBy(read, Drop(s, frame.1), count - 1))
  }

  function Contents(s: Text, count: nat): Result<seq<Text>, Error> {
    ContentsBy(FirstFrame, s, count)
  }

  /** What the rest yields, after the contents read so far. */
  function Prepend(contents: seq<Text>, rest: Result<seq<Text>, Error>): Result<seq<Text>, Error> {
    match rest case Ok(more) => Ok(contents + more) case Err(e) => Err(e)
  }

  // ---- the reading loop ----------------------------------------------------------------------------------------------

  lemma NewlineIs(s: Text, k: nat)
    requires k <= |s| && (k < |s| ==> s[k] == LF) && forall i :: 0 <= i < k ==> s[i] != LF
    ensures NewlineAt(s) == k
  {
  }

  method FindNewline(payload: Text, pos: nat) returns (found: Option<nat>)
    ensures var rest := Drop(payload, pos);
            found == if NewlineAt(rest) == |rest| then None else Some(pos + NewlineAt(rest))
  {
    ghost var rest := Drop(payload, pos);
    var k := 0;
    while pos + k < |payload| && payload[pos + k] != LF
      invariant k <= |rest| && forall j :: 0 <= j < k ==> rest[j] != LF
    {
      k := k + 1;
    }
    NewlineIs(rest, k);
    found := if pos + k < |payload| then Some(pos + k) else None;
  }

  /** `Take` as the slice of the payload it is. */
  function SliceUpTo(payload: Text, start: nat, size: nat): Text
    requires start <= |payload|
  {
    payload[start..if start + size <= |payload| then start + size else |payload|]
  }

  lemma FrameFrom(payload: Text, pos: nat, nl: nat)
    requires pos <= nl < |payload| && NewlineAt(Drop(payload, pos)) == nl - pos
    ensures FirstFrame(Drop(payload, pos))
         == match SizeOf(payload[pos..nl])
            case Err(e) => Err(e)
            case Ok(size) => Ok((SliceUpTo(payload, nl + 1, size), nl - pos + 1 + size + 1))
  {
    var rest := Drop(payload, pos);
    assert payload[pos..nl] == rest[..nl - pos];
    assert rest[nl - pos + 1..] == payload[nl + 1..];
    if SizeOf(payload[pos..nl]).Ok? {
      SliceIsTake(payload, nl + 1, SizeOf(payload[pos..nl]).value);
    }
  }

  lemma SliceIsTake(payload: Text, start: nat, size: nat)
    requires start <= |payload|
    ensures Take(payload[start..], size) == SliceUpTo(payload, start, size)
  {
  }

  ghost predicate IsFirstFrame(read: Reader) {
    forall s {:trigger FirstFrame(s)} :: read(s) == FirstFrame(s)
  }

  /** One turn of the loop: the frame at `pos`, and where the next one starts. */
  method ReadFrame(ghost read: Reader, payload: Text, pos: nat) returns (r: Result<(Text, nat), Error>)
    requires IsFirstFrame(read)
    ensures match read(Drop(payload, pos))
            case Err(e) => r == Err(e)
            case Ok(frame) => r == Ok((frame.0, pos + frame.1))
  {
    assert read(Drop(payload, pos)) == FirstFrame(Drop(payload, pos));
    var found := FindNewline(payload, pos);
    if found.None? {
      return Err(NoNewline);
    }
    var nl := found.value;
    FrameFrom(payload, pos, nl);
    var size := SizeOf(payload[pos..nl]);
    match size {
      case Err(e) =>
        r := Err(e);
      case Ok(k) =>
        r := Ok((SliceUpTo(payload, nl + 1, k), nl + 1 + k + 1));
    }
  }

  lemma DropTwice(s: Text, a: nat, b: nat)
    ensures Drop(Drop(s, a), b) == Drop(s, a + b)
  {
  }

  lemma PrependTwice(a: seq<Text>, b: Text, rest: Result<seq<Text>, Error>)
    ensures Prepend(a, Prepend([b], rest)) == Prepend(a + [b], rest)
  {
    if rest.Ok? {
      assert a + ([b] + rest.value) == a + [b] + rest.value;
    }
  }

  lemma PrependNothing(rest: Result<seq<Text>, Error>)
    ensures Prepend([], rest) == rest
  {
    if rest.Ok? {
      assert [] + rest.value == rest.value;
    }
  }

  lemma PrependEnd(contents: seq<Text>)
    ensures Prepend(contents, Ok([])) == Ok(contents)
  {
    assert contents + [] == contents;
  }

  /** With `contents` read, `k` frames are left, at `pos`, to make up `all`. */
  ghost predicate Left(read: Reader, all: Result<seq<Text>, Error>, contents: seq<Text>, payload: Text, pos: nat, k: nat) {
    all == Prepend(contents, ContentsBy(read, Drop(payload, pos), k))
  }

  lemma NothingRead(read: Reader, payload: Text, k: nat)
    ensures Left(read, ContentsBy(read, payload, k), [], payload, 0, k)
  {
    assert Drop(payload, 0) == payload;
    PrependNothing(ContentsBy(read, payload, k));
  }

  lemma OneFrame(read: Reader, all: Result<seq<Text>, Error>, contents: seq<Text>, payload: Text, pos: nat, k: nat)
    requires Left(read, all, contents, payload, pos, k) && k > 0
    ensures match read(Drop(payload, pos))
            case Err(e) => all == Err(e)
            case Ok(frame) => Left(read, all, contents + [frame.0], payload, pos + frame.1, k - 1)
  {
    match read(Drop(payload, pos))
    case Err(_) =>
    case Ok(frame) =>
      DropTwice(payload, pos, frame.1);
      PrependTwice(contents, frame.0, ContentsBy(read, Drop(payload, pos + frame.1), k - 1));
  }

  lemma AllRead(read: Reader, all: Result<seq<Text>, Error>, contents: seq<Text>, payload: Text, pos: nat)
    requires Left(read, all, contents, payload, pos, 0)
    ensures all == Ok(contents)
  {
    PrependEnd(contents);
  }

  /** One turn of the loop, with what it leaves to read. */
  method ReadNext(ghost read: Reader, ghost all: Result<seq<Text>, Error>, contents: seq<Text>, payload: Text, pos: nat,
                  ghost k: nat)
    returns (error: Option<Error>, more: seq<Text>, next: nat)
    requires Left(read, all, contents, payload, pos, k) && k > 0
    requires IsFirstFrame(read)
    ensures error.Some? ==> all == Err(error.value)
    ensures error.None? ==> Left(read, all, more, payload, next, k - 1)
  {
    OneFrame(read, all, contents, payload, pos, k);
    var frame := ReadFrame(read, payload, pos);
    match frame {
      case Err(e) => error, more, next := Some(e), contents, pos;
      case Ok(found) => error, more, next := None, contents + [found.0], found.1;
    }
  }

  method ReadBlobs(payload: Text, count: nat) returns (r: Result<seq<Text>, Error>)
    ensures r == Contents(payload, count)
  {
    ghost var all := Contents(payload, count);
    var contents: seq<Text>, pos := [], 0;
    NothingRead(FirstFrame, payload, count);
    for i := 0 to count
      invariant Left(FirstFrame, all, contents, payload, pos, count - i)
    {
      var error, more, next := ReadNext(FirstFrame, all, contents, payload, pos, count - i);
      if error.Some? {
        return Err(error.value);
      }
      contents, pos := more, next;
    }
    AllRead(FirstFrame, all, contents, payload, pos);
    r := Ok(contents);
  }

  // ---- the round trip --------------------------------------------------------------------------------------------------

  function Header(oid: Text, size: nat): Text {
    oid + [SPACE] + BLOB + [SPACE] + Digits(size)
  }

  function Frame(oid: Text, content: Text): Text {
    Header(oid, |content|) + [LF] + content + [LF]
  }

  function Batch(oids: seq<Text>, contents: seq<Text>): Text
    requires |oids| == |contents|
  {
    if oids == [] then [] else Frame(oids[0], contents[0]) + Batch(oids[1..], contents[1..])
  }

  ghost predicate IsOid(oid: Text) {
    oid != [] && NoSpaces(oid)
  }

  lemma {:induction false} WordEndsThere(w: Text, rest: Text)
    requires NoSpaces(w) && (rest == [] || IsByteSpace(rest[0]))
    ensures WordEnd(w + rest) == |w|
  {
    if w == [] {
      assert w + rest == rest;
    } else {
      WordEndsThere(w[1..], rest);
      assert (w + rest)[1..] == w[1..] + rest;
    }
  }

  lemma FieldsOfWord(w: Text, rest: Text)
    requires w != [] && NoSpaces(w) && (rest == [] || IsByteSpace(rest[0]))
    ensures Fields(w + rest) == [w] + Fields(rest)
  {
    var s := w + rest;
    WordEndsThere(w, rest);
    assert s[..|w|] == w && s[|w|..] == rest;
  }

  lemma FieldsOfSpace(s: Text)
    ensures Fields([SPACE] + s) == Fields(s)
  {
    assert ([SPACE] + s)[1..] == s;
  }

  lemma WordThenSpace(w: Text, rest: Text)
    requires w != [] && NoSpaces(w)
    ensures Fields(w + [SPACE] + rest) == [w] + Fields(rest)
  {
    FieldsOfWord(w, [SPACE] + rest);
    FieldsOfSpace(rest);
    assert w + [SPACE] + rest == w + ([SPACE] + rest);
  }

  lemma OnlyWord(w: Text)
    requires w != [] && NoSpaces(w)
    ensures Fields(w) == [w]
  {
    FieldsOfWord(w, []);
    assert w + [] == w;
  }

  lemma HeaderFields(oid: Text, size: nat)
    requires IsOid(oid)
    ensures Fields(Header(oid, size)) == [oid, BLOB, Digits(size)]
  {
    ThreeWords(oid, BLOB, Digits(size));
  }

  lemma ThreeWords(a: Text, b: Text, c: Text)
    requires a != [] && b != [] && c != [] && NoSpaces(a) && NoSpaces(b) && NoSpaces(c)
    ensures Fields(a + [SPACE] + b + [SPACE] + c) == [a, b, c]
  {
    OnlyWord(c);
    WordThenSpace(b, c);
    WordThenSpace(a, b + [SPACE] + c);
    assert a + [SPACE] + b + [SPACE] + c == a + [SPACE] + (b + [SPACE] + c);
  }

  lemma HeaderSize(oid: Text, size: nat)
    requires IsOid(oid)
    ensures SizeOf(Header(oid, size)) == Ok(size)
    ensures forall i :: 0 <= i < |Header(oid, size)| ==> Header(oid, size)[i] != LF
  {
    HeaderFields(oid, size);
    ValueOfDigits(size);
    assert NoSpaces(Digits(size));
  }

  lemma {:induction false} NewlineThere(s: Text, rest: Text)
    requires forall i :: 0 <= i < |s| ==> s[i] != LF
    ensures NewlineAt(s + [LF] + rest) == |s|
  {
    if s == [] {
      assert s + [LF] + rest == [LF] + rest;
    } else {
      NewlineThere(s[1..], rest);
      assert (s + [LF] + rest)[1..] == s[1..] + [LF] + rest;
    }
  }

  /** A frame at the start of the payload is read exactly, whatever its content looks like. */
  lemma FrameIsRead(oid: Text, content: Text, rest: Text)
    requires IsOid(oid)
    ensures FirstFrame(Frame(oid, content) + rest) == Ok((content, |Frame(oid, content)|))
    ensures Drop(Frame(oid, content) + rest, |Frame(oid, content)|) == rest
  {
    var h := Header(oid, |content|);
    var s := Frame(oid, content) + rest;
    HeaderSize(oid, |content|);
    NewlineThere(h, content + [LF] + rest);
    assert s == h + [LF] + (content + [LF] + rest);
    HeaderCut(h, content + [LF] + rest);
    assert (content + [LF] + rest)[..|content|] == content;
  }

  lemma HeaderCut(h: Text, body: Text)
    ensures (h + [LF] + body)[..|h|] == h && (h + [LF] + body)[|h| + 1..] == body
  {
  }

  lemma BatchStep(oids: seq<Text>, contents: seq<Text>, rest: Text)
    requires |oids| == |contents| && oids != []
    ensures Batch(oids, contents) + rest == Frame(oids[0], contents[0]) + (Batch(oids[1..], contents[1..]) + rest)
  {
  }

  // ---- whole frames at the front, for any way of reading one frame --------------------------------------------------------

  ghost predicate ReadsFrame(read: Reader, oid: Text, content: Text, after: Text) {
    read(Frame(oid, content) + after) == Ok((content, |Frame(oid, content)|))
  }

  ghost predicate ReadsFrames(read: Reader) {
    forall oid, content, after :: IsOid(oid) ==> ReadsFrame(read, oid, content, after)
  }

  lemma PrependBoth(contents: seq<Text>, rest: Result<seq<Text>, Error>)
    requires contents != []
    ensures Prepend([contents[0]], Prepend(contents[1..], rest)) == Prepend(contents, rest)
  {
    if rest.Ok? {
      assert [contents[0]] + (contents[1..] + rest.value) == contents + rest.value;
    }
  }

  lemma FirstOff(read: Reader, oid: Text, content: Text, after: Text, count: nat)
    requires ReadsFrames(read) && IsOid(oid) && count > 0
    ensures ContentsBy(read, Frame(oid, content) + after, count) == Prepend([content], ContentsBy(read, after, count - 1))
  {
    assert ReadsFrame(read, oid, content, after);
    assert Drop(Frame(oid, content) + after, |Frame(oid, content)|) == after;
  }

  lemma FirstFrameReads()
    ensures ReadsFrames(FirstFrame)
  {
    forall oid, content, after | IsOid(oid) ensures ReadsFrame(FirstFrame, oid, content, after) {
      FrameIsRead(oid, content, after);
    }
  }

  lemma {:induction false} ReadsFront(read: Reader, oids: seq<Text>, contents: seq<Text>, rest: Text, m: nat)
    requires |oids| == |contents|
    requires ReadsFrames(read) && forall i :: 0 <= i < |oids| ==> IsOid(oids[i])
    ensures ContentsBy(read, Batch(oids, contents) + rest, |oids| + m) == Prepend(contents, ContentsBy(read, rest, m))
  {
    if oids == [] {
      assert contents == [] && Batch(oids, contents) + rest == rest;
      PrependNothing(ContentsBy(read, rest, m));
    } else {
      var after := Batch(oids[1..], contents[1..]) + rest;
      ReadsFront(read, oids[1..], contents[1..], rest, m);
      BatchStep(oids, contents, rest);
      FirstOff(read, oids[0], contents[0], after, |oids| + m);
      PrependBoth(contents, ContentsBy(read, rest, m));
    }
  }

  /** For every list of byte strings, the reader returns exactly those strings, in order, even when they
      contain newlines or text that looks like a header; what follows the last frame is ignored. */
  lemma BatchRoundTrip(oids: seq<Text>, contents: seq<Text>, rest: Text)
    requires |oids| == |contents| && forall i :: 0 <= i < |oids| ==> IsOid(oids[i])
    ensures Contents(Batch(oids, contents) + rest, |oids|) == Ok(contents)
  {
    FirstFrameReads();
    ReadsFront(FirstFrame, oids, contents, rest, 0);
    PrependEnd(contents);
  }

  // ---- a payload that ends early -----------------------------------------------------------------------------------------

  /** How much of a batch the reader needs: every frame but the last, and the last header with its newline. */
  function Needed(oids: seq<Text>, contents: seq<Text>): nat
    requires |oids| == |contents|
  {
    if oids == [] then 0
    else if |oids| == 1 then |Header(oids[0], |contents[0]|)| + 1
    else |Frame(oids[0], contents[0])| + Needed(oids[1..], contents[1..])
  }

  lemma CutHeader(oid: Text, content: Text, k: nat)
    requires IsOid(oid) && k <= |Header(oid, |content|)|
    ensures FirstFrame(Frame(oid, content)[..k]) == Err(NoNewline)
  {
    var h := Header(oid, |content|);
    HeaderSize(oid, |content|);
    assert Frame(oid, content)[..k] == h[..k];
    NewlineIs(h[..k], k);
  }

  lemma CutContent(oid: Text, content: Text, k: nat)
    requires IsOid(oid) && |Header(oid, |content|)| < k <= |Frame(oid, content)|
    ensures FirstFrame(Frame(oid, content)[..k])
         == Ok((Take(content, k - |Header(oid, |content|)| - 1), |Frame(oid, content)|))
  {
    var h := Header(oid, |content|);
    var body := (content + [LF])[..k - |h| - 1];
    assert Frame(oid, content)[..k] == h + [LF] + body;
    HeaderSize(oid, |content|);
    NewlineThere(h, body);
    HeaderCut(h, body);
    assert Take(body, |content|) == Take(content, k - |h| - 1);
  }

  /** A cut inside a frame that is not the last. */
  lemma CutEarlier(oid: Text, content: Text, k: nat, count: nat)
    requires IsOid(oid) && k < |Frame(oid, content)| && 2 <= count
    ensures Contents(Frame(oid, content)[..k], count) == Err(NoNewline)
  {
    if k <= |Header(oid, |content|)| {
      CutHeader(oid, content, k);
    } else {
      CutContent(oid, content, k);
      assert FirstFrame([]) == Err(NoNewline);
      assert ContentsBy(FirstFrame, [], count - 1) == Err(NoNewline);
    }
  }

  lemma CutLast(oid: Text, content: Text, k: nat)
    requires IsOid(oid) && k <= |Frame(oid, content)|
    ensures Contents(Frame(oid, content)[..k], 1)
         == if k <= |Header(oid, |content|)| then Err(NoNewline)
            else Ok([Take(content, k - |Header(oid, |content|)| - 1)])
  {
    if k <= |Header(oid, |content|)| {
      CutHeader(oid, content, k);
    } else {
      CutContent(oid, content, k);
      assert [Take(content, k - |Header(oid, |content|)| - 1)] + [] == [Take(content, k - |Header(oid, |content|)| - 1)];
    }
  }

  /** A cut `i` bytes into frame `j`. */
  ghost predicate CutsAt(oids: seq<Text>, contents: seq<Text>, k: nat, j: nat, i: nat)
    requires |oids| == |contents|
  {
    && j < |oids| && i <= |Frame(oids[j], contents[j])|
    && (i == |Frame(oids[j], contents[j])| ==> j == |oids| - 1)
    && k <= |Batch(oids, contents)|
    && Batch(oids, contents)[..k] == Batch(oids[..j], contents[..j]) + Frame(oids[j], contents[j])[..i]
    && k == |Batch(oids[..j], contents[..j])| + i
    && (Needed(oids, contents) <= k <==> j == |oids| - 1 && |Header(oids[j], |contents[j]|)| < i)
    && (j == |oids| - 1 ==> Needed(oids, contents) + i == k + |Header(oids[j], |contents[j]|)| + 1)
  }

  lemma {:induction false} NeededAtLeast(oids: seq<Text>, contents: seq<Text>)
    requires |oids| == |contents| && 2 <= |oids|
    ensures |Frame(oids[0], contents[0])| < Needed(oids, contents)
    decreases |oids|
  {
    if |oids| > 2 { NeededAtLeast(oids[1..], contents[1..]); }
  }

  lemma CutInFirst(oids: seq<Text>, contents: seq<Text>, k: nat)
    requires |oids| == |contents| && oids != [] && k <= |Batch(oids, contents)|
    requires |oids| == 1 || k < |Frame(oids[0], contents[0])|
    ensures CutsAt(oids, contents, k, 0, k)
  {
    assert Batch(oids, contents)[..k] == Frame(oids[0], contents[0])[..k];
    if |oids| > 1 { NeededAtLeast(oids, contents); }
  }

  /** Every cut is somewhere in some frame. */
  lemma {:induction false} CutIsSomewhere(oids: seq<Text>, contents: seq<Text>, k: nat) returns (j: nat, i: nat)
    requires |oids| == |contents| && oids != [] && k <= |Batch(oids, contents)|
    ensures CutsAt(oids, contents, k, j, i)
    decreases |oids|
  {
    var first := Frame(oids[0], contents[0]);
    if |oids| == 1 || k < |first| {
      j, i := 0, k;
      CutInFirst(oids, contents, k);
    } else {
      j, i := CutIsSomewhere(oids[1..], contents[1..], k - |first|);
      OneFrameOn(oids, contents, k, j, i);
      j := j + 1;
    }
  }

  lemma OneFrameOn(oids: seq<Text>, contents: seq<Text>, k: nat, j: nat, i: nat)
    requires |oids| == |contents| && 2 <= |oids| && |Frame(oids[0], contents[0])| <= k
    requires CutsAt(oids[1..], contents[1..], k - |Frame(oids[0], contents[0])|, j, i)
    ensures CutsAt(oids, contents, k, j + 1, i)
  {
    var first := Frame(oids[0], contents[0]);
    var front := Batch(oids[1..][..j], contents[1..][..j]);
    assert oids[..j + 1][1..] == oids[1..][..j] && contents[..j + 1][1..] == contents[1..][..j];
    assert Batch(oids[..j + 1], contents[..j + 1]) == first + front;
    assert Batch(oids, contents)[..k] == first + Batch(oids[1..], contents[1..])[..k - |first|];
  }

  /** What a batch cut after `k` bytes is read as. */
  function CutResult(oids: seq<Text>, contents: seq<Text>, k: nat): Result<seq<Text>, Error>
    requires |oids| == |contents| && oids != []
  {
    var last := |contents| - 1;
    if k < Needed(oids, contents) then Err(NoNewline)
    else Ok(contents[..last] + [Take(contents[last], k - Needed(oids, contents))])
  }

  /** For every batch and every place to cut it: the reader returns without an error exactly when the cut keeps
      the newline of the last header.  Then every content before the last is intact, and the last is as much of
      it as there is, short or not; otherwise the error is the missing newline. */
  lemma CutBatch(oids: seq<Text>, contents: seq<Text>, k: nat)
    requires |oids| == |contents| && oids != [] && forall i :: 0 <= i < |oids| ==> IsOid(oids[i])
    requires k <= |Batch(oids, contents)|
    ensures Contents(Batch(oids, contents)[..k], |oids|) == CutResult(oids, contents, k)
  {
    var j, i := CutIsSomewhere(oids, contents, k);
    var part := Frame(oids[j], contents[j])[..i];
    FirstFrameReads();
    ReadsFront(FirstFrame, oids[..j], contents[..j], part, |oids| - j);
    CutFrame(oids[j], contents[j], i, |oids| - j);
    CutJoins(oids, contents, k, j, i, Contents(part, |oids| - j));
  }

  lemma CutFrame(oid: Text, content: Text, i: nat, count: nat)
    requires IsOid(oid) && i <= |Frame(oid, content)| && 1 <= count && (i == |Frame(oid, content)| ==> count == 1)
    ensures Contents(Frame(oid, content)[..i], count)
         == if count == 1 && |Header(oid, |content|)| < i then Ok([Take(content, i - |Header(oid, |content|)| - 1)])
            else Err(NoNewline)
  {
    if count == 1 {
      CutLast(oid, content, i);
    } else {
      CutEarlier(oid, content, i, count);
    }
  }

  lemma CutJoins(oids: seq<Text>, contents: seq<Text>, k: nat, j: nat, i: nat, last: Result<seq<Text>, Error>)
    requires |oids| == |contents| && CutsAt(oids, contents, k, j, i)
    requires last == if |oids| - j == 1 && |Header(oids[j], |contents[j]|)| < i
                     then Ok([Take(contents[j], i - |Header(oids[j], |contents[j]|)| - 1)])
                     else Err(NoNewline)
    ensures Prepend(contents[..j], last) == CutResult(oids, contents, k)
  {}

  // ---- the comparison ----------------------------------------------------------------------------------------------------

  const BAT: Text := [46, 98, 97, 116]

  /** Paths that may differ from their blob. */
  predicate Allowed(path: Text) {
    |BAT| <= |path| && path[|path| - |BAT|..] == BAT
  }

  datatype Verdict = Identical | Waived | Mismatched

  function Judge(path: Text, archived: Text, blob: Text): Verdict {
    if archived == blob then Identical else if Allowed(path) then Waived else Mismatched
  }

  /** The paths judged `v`, in order. */
  function Judged(paths: seq<Text>, archived: seq<Text>, blobs: seq<Text>, v: Verdict): seq<Text>
    requires |paths| == |archived| == |blobs|
  {
    if paths == [] then []
    else
      var last := |paths| - 1;
      Judged(paths[..last], archived[..last], blobs[..last], v)
      + (if Judge(paths[last], archived[last], blobs[last]) == v then [paths[last]] else [])
  }

  method Classify(paths: seq<Text>, archived: seq<Text>, blobs: seq<Text>) returns (mismatched: seq<Text>, waived: seq<Text>)
    requires |paths| == |archived| == |blobs|
    ensures mismatched == Judged(paths, archived, blobs, Mismatched)
    ensures waived == Judged(paths, archived, blobs, Waived)
    ensures |paths| - |mismatched| - |waived| == |Judged(paths, archived, blobs, Identical)|
  {
    mismatched, waived := [], [];
    for i := 0 to |paths|
      invariant mismatched == Judged(paths[..i], archived[..i], blobs[..i], Mismatched)
      invariant waived == Judged(paths[..i], archived[..i], blobs[..i], Waived)
    {
      assert paths[..i + 1][..i] == paths[..i] && archived[..i + 1][..i] == archived[..i];
      assert blobs[..i + 1][..i] == blobs[..i];
      if archived[i] == blobs[i] {
        continue;
      }
      if Allowed(paths[i]) {
        waived := waived + [paths[i]];
      } else {
        mismatched := mismatched + [paths[i]];
      }
    }
    assert paths[..|paths|] == paths && archived[..|paths|] == archived && blobs[..|paths|] == blobs;
    PartitionSizes(paths, archived, blobs);
  }

  lemma {:induction false} PartitionSizes(paths: seq<Text>, archived: seq<Text>, blobs: seq<Text>)
    requires |paths| == |archived| == |blobs|
    ensures |Judged(paths, archived, blobs, Identical)| + |Judged(paths, archived, blobs, Waived)|
              + |Judged(paths, archived, blobs, Mismatched)| == |paths|
  {
    if paths != [] {
      var last := |paths| - 1;
      PartitionSizes(paths[..last], archived[..last], blobs[..last]);
    }
  }

  /** Identical, waived and mismatched partition the compared paths: each path falls in exactly one of them
      each time it is compared. */
  lemma {:induction false} Partition(paths: seq<Text>, archived: seq<Text>, blobs: seq<Text>, p: Text)
    requires |paths| == |archived| == |blobs|
    ensures CountOf(Judged(paths, archived, blobs, Identical), p) + CountOf(Judged(paths, archived, blobs, Waived), p)
              + CountOf(Judged(paths, archived, blobs, Mismatched), p) == CountOf(paths, p)
  {
    if paths != [] {
      var last := |paths| - 1;
      var a, b, c := paths[..last], archived[..last], blobs[..last];
      Partition(a, b, c, p);
      CountAppend(Judged(a, b, c, Identical), paths[last], p);
      CountAppend(Judged(a, b, c, Waived), paths[last], p);
      CountAppend(Judged(a, b, c, Mismatched), paths[last], p);
      JudgedStep(paths, archived, blobs, Identical);
      JudgedStep(paths, archived, blobs, Waived);
      JudgedStep(paths, archived, blobs, Mismatched);
    }
  }

  lemma JudgedStep(paths: seq<Text>, archived: seq<Text>, blobs: seq<Text>, v: Verdict)
    requires |paths| == |archived| == |blobs| && paths != []
    ensures var last := |paths| - 1;
            Judged(paths, archived, blobs, v)
            == if Judge(paths[last], archived[last], blobs[last]) == v
               then Judged(paths[..last], archived[..last], blobs[..last], v) + [paths[last]]
               else Judged(paths[..last], archived[..last], blobs[..last], v)
  {
  }

  lemma {:induction false} JudgedMembers(paths: seq<Text>, archived: seq<Text>, blobs: seq<Text>, v: Verdict, p: Text)
    requires |paths| == |archived| == |blobs|
    ensures p in Judged(paths, archived, blobs, v) <==>
            exists i :: 0 <= i < |paths| && paths[i] == p && Judge(p, archived[i], blobs[i]) == v
  {
    if paths != [] {
      var last := |paths| - 1;
      JudgedMembers(paths[..last], archived[..last], blobs[..last], v, p);
      if p in Judged(paths[..last], archived[..last], blobs[..last], v) {
        var i :| 0 <= i < last && paths[..last][i] == p && Judge(p, archived[..last][i], blobs[..last][i]) == v;
        assert paths[i] == p && Judge(p, archived[i], blobs[i]) == v;
      }
      forall i | 0 <= i < last && paths[i] == p && Judge(p, archived[i], blobs[i]) == v
        ensures p in Judged(paths[..last], archived[..last], blobs[..last], v)
      {
        assert paths[..last][i] == p && Judge(p, archived[..last][i], blobs[..last][i]) == v;
      }
    }
  }

  /** The whole check on the frames git prints: it reports exactly the paths whose archived bytes are not
      the blob's and that are not allowed to differ. */
  method Compare(paths: seq<Text>, archived: seq<Text>, oids: seq<Text>, ghost blobs: seq<Text>, payload: Text)
    returns (mismatched: seq<Text>)
    requires |paths| == |archived| == |oids| == |blobs|
    requires forall i :: 0 <= i < |oids| ==> IsOid(oids[i])
    requires payload == Batch(oids, blobs)
    ensures forall p :: p in mismatched <==>
              exists i :: 0 <= i < |paths| && paths[i] == p && archived[i] != blobs[i] && !Allowed(p)
  {
    var contents := ReadBlobs(payload, |oids|);
    BatchRoundTrip(oids, blobs, []);
    assert payload + [] == payload;
    var waived;
    mismatched, waived := Classify(paths, archived, contents.value);
    forall p ensures p in mismatched <==>
                       exists i :: 0 <= i < |paths| && paths[i] == p && Judge(p, archived[i], blobs[i]) == Mismatched {
      JudgedMembers(paths, archived, blobs, Mismatched, p);
    }
  }
}
