/**
 * The transcription function (supabase/functions/transcribe-audio/index.ts):
 * decoding the base64 audio chunk by chunk into one byte array, and the
 * handler's checks and reply.
 *
 * `atob` follows the forgiving-base64 decode of the WHATWG Infra standard
 * over the alphabet of section 4 of RFC 4648. The configured key, the
 * gateway's reply and its transcription are parameters.
 */
module TranscribeAudio {
  import opened Wrappers
  import opened Text

  newtype byte = x: int | 0 <= x < 256

  predicate IsBase64Char(c: char) {
    ('A' <= c <= 'Z') || ('a' <= c <= 'z') || ('0' <= c <= '9') || c == '+' || c == '/'
  }

  predicate AllBase64(s: string) {
    forall i :: 0 <= i < |s| ==> IsBase64Char(s[i])
  }

  /** The 6-bit value of an alphabet character. */
  function Sextet(c: char): (v: nat)
    requires IsBase64Char(c)
    ensures v < 64
  {
    if 'A' <= c <= 'Z' then c as int - 'A' as int
    else if 'a' <= c <= 'z' then c as int - 'a' as int + 26
    else if '0' <= c <= '9' then c as int - '0' as int + 52
    else if c == '+' then 62
    else 63
  }

  /** One or two trailing `=` are dropped when the length is a multiple of four. */
  function StripPadding(s: string): (t: string)
    ensures |s| - 2 <= |t| <= |s| && t == s[..|t|]
  {
    if |s| % 4 == 0 && |s| >= 2 && s[|s| - 2] == '=' && s[|s| - 1] == '=' then s[..|s| - 2]
    else if |s| % 4 == 0 && |s| >= 1 && s[|s| - 1] == '=' then s[..|s| - 1]
    else s
  }

  /**
   * The bytes of unpadded base64 text: three per group of four characters,
   * then two for three trailing characters or one for two, the left-over
   * bits dropped.
   */
  function DecodeGroups(t: string): (b: seq<byte>)
    requires AllBase64(t) && |t| % 4 != 1
    decreases |t|
  {
    if |t| < 4 then DecodeTail(t)
    else DecodeQuad(t[0], t[1], t[2], t[3]) + DecodeGroups(t[4..])
  }

  /** Four characters, 24 bits, three bytes. */
  function DecodeQuad(a: char, b: char, c: char, d: char): (r: seq<byte>)
    requires IsBase64Char(a) && IsBase64Char(b) && IsBase64Char(c) && IsBase64Char(d)
    ensures |r| == 3
  {
    var x, y, z, w := Sextet(a), Sextet(b), Sextet(c), Sextet(d);
    [(x * 4 + y / 16) as byte, ((y % 16) * 16 + z / 4) as byte, ((z % 4) * 64 + w) as byte]
  }

  /** Zero, two or three final characters: no byte, one byte or two bytes. */
  function DecodeTail(t: string): (r: seq<byte>)
    requires AllBase64(t) && |t| < 4 && |t| != 1
    ensures |r| == (if |t| == 0 then 0 else |t| - 1)
  {
    if |t| == 0 then []
    else
      var x, y := Sextet(t[0]), Sextet(t[1]);
      if |t| == 2 then [(x * 4 + y / 16) as byte]
      else
        var z := Sextet(t[2]);
        [(x * 4 + y / 16) as byte, ((y % 16) * 16 + z / 4) as byte]
  }

  /** Three bytes per whole group, and one fewer than the characters of a partial group. */
  lemma {:induction false} DecodeGroupsLength(t: string)
    requires AllBase64(t) && |t| % 4 != 1
    ensures |DecodeGroups(t)| == (|t| / 4) * 3 + (if |t| % 4 == 0 then 0 else |t| % 4 - 1)
    decreases |t|
  {
    if |t| >= 4 {
      var t' := t[4..];
      assert AllBase64(t') by {
        forall i | 0 <= i < |t'| ensures IsBase64Char(t'[i]) {
          assert t'[i] == t[i + 4];
        }
      }
      assert |t'| % 4 == |t| % 4 && |t'| / 4 == |t| / 4 - 1;
      DecodeGroupsLength(t');
    }
  }

  /** `atob`: the decoded bytes, or None where it throws. */
  function Atob(s: string): (r: Option<seq<byte>>)
    ensures r.Some? <==> |StripPadding(s)| % 4 != 1 && AllBase64(StripPadding(s))
    ensures AllBase64(s) && |s| % 4 == 0 ==> r.Some?
  {
    var t := StripPadding(s);
    if |t| % 4 == 1 || !AllBase64(t) then None else Some(DecodeGroups(t))
  }

  lemma AllBase64Append(c: string, u: string)
    requires AllBase64(c) && AllBase64(u)
    ensures AllBase64(c + u)
  {
    forall i | 0 <= i < |c + u|
      ensures IsBase64Char((c + u)[i])
    {
      if i < |c| {
        assert (c + u)[i] == c[i];
      } else {
        assert (c + u)[i] == u[i - |c|];
      }
    }
  }

  lemma ModShift(a: nat, b: nat)
    requires a % 4 == 0 || b % 4 == 0
    ensures (a + b) % 4 == (if a % 4 == 0 then b % 4 else a % 4)
  {
  }

  /** Decoding whole groups then the rest decodes the two parts one after the other. */
  lemma {:induction false} DecodeGroupsAppend(c: string, u: string)
    requires |c| % 4 == 0 && AllBase64(c) && AllBase64(u) && |u| % 4 != 1
    ensures AllBase64(c + u) && |c + u| % 4 != 1
    ensures DecodeGroups(c + u) == DecodeGroups(c) + DecodeGroups(u)
    decreases |c|
  {
    AllBase64Append(c, u);
    ModShift(|c|, |u|);
    if |c| > 0 {
      var s := c + u;
      var c' := c[4..];
      assert s[0] == c[0] && s[1] == c[1] && s[2] == c[2] && s[3] == c[3];
      assert s[4..] == c' + u;
      ModShift(|c'|, 4);
      DecodeGroupsHead(c);
      DecodeGroupsAppend(c', u);
      DecodeGroupsHead(s);
      AppendAssoc(DecodeQuad(c[0], c[1], c[2], c[3]), DecodeGroups(c'), DecodeGroups(u));
    } else {
      assert c + u == u;
    }
  }

  /** A text of at least four characters decodes its first group, then the rest. */
  lemma DecodeGroupsHead(t: string)
    requires |t| >= 4 && AllBase64(t) && |t| % 4 != 1
    ensures AllBase64(t[4..]) && |t[4..]| % 4 != 1
    ensures DecodeGroups(t) == DecodeQuad(t[0], t[1], t[2], t[3]) + DecodeGroups(t[4..])
  {
    assert |t[4..]| % 4 == |t| % 4;
    forall i | 0 <= i < |t[4..]|
      ensures IsBase64Char(t[4..][i])
    {
      assert t[4..][i] == t[i + 4];
    }
  }

  /** Padding is only ever taken from the end, so a prefix of whole groups is kept. */
  lemma StripPaddingAfterPrefix(c: string, rest: string)
    requires |c| % 4 == 0 && |rest| >= 1
    ensures StripPadding(c + rest) == c + StripPadding(rest)
  {
    var s := c + rest;
    assert |s| % 4 == |rest| % 4;
    if |rest| >= 2 {
      assert s[|s| - 1] == rest[|rest| - 1];
      assert s[|s| - 2] == rest[|rest| - 2];
      assert s[..|s| - 2] == c + rest[..|rest| - 2];
      assert s[..|s| - 1] == c + rest[..|rest| - 1];
    }
  }

  /** `base64String.slice(position, position + chunkSize)` from 0: the first chunk. */
  function FirstChunk(s: string, chunkSize: nat): (c: string)
    requires chunkSize > 0
    ensures |c| == (if |s| < chunkSize then |s| else chunkSize) && c == s[..|c|]
  {
    if |s| < chunkSize then s else s[..chunkSize]
  }

  /** The text after the first chunk. */
  function AfterChunk(s: string, chunkSize: nat): (r: string)
    requires chunkSize > 0
    ensures FirstChunk(s, chunkSize) + r == s
  {
    if |s| < chunkSize then [] else s[chunkSize..]
  }

  /** The chunks the loop slices off, in order. */
  function Chunks(s: string, chunkSize: nat): (cs: seq<string>)
    requires chunkSize > 0
    ensures forall k :: 0 <= k < |cs| ==> 0 < |cs[k]| <= chunkSize
    ensures forall k :: 0 <= k < |cs| - 1 ==> |cs[k]| == chunkSize
    decreases |s|
  {
    if s == [] then [] else [FirstChunk(s, chunkSize)] + Chunks(AfterChunk(s, chunkSize), chunkSize)
  }

  function ConcatStrings(cs: seq<string>): string {
    if cs == [] then [] else cs[0] + ConcatStrings(cs[1..])
  }

  /** The chunks cover the input exactly, in order. */
  lemma {:induction false} ChunksCover(s: string, chunkSize: nat)
    requires chunkSize > 0
    ensures ConcatStrings(Chunks(s, chunkSize)) == s
    decreases |s|
  {
    if s != [] {
      ChunksCover(AfterChunk(s, chunkSize), chunkSize);
      var cs := Chunks(s, chunkSize);
      assert cs[1..] == Chunks(AfterChunk(s, chunkSize), chunkSize);
    }
  }

  /** `p + o` when `o` is present; absent otherwise. */
  function Prefixed(p: seq<byte>, o: Option<seq<byte>>): (r: Option<seq<byte>>)
    ensures r.Some? <==> o.Some?
  {
    if o.Some? then Some(p + o.value) else None
  }

  /** Each chunk decoded with `atob` and the results joined; absent when a chunk fails. */
  function ChunkedDecode(s: string, chunkSize: nat): (r: Option<seq<byte>>)
    requires chunkSize > 0
    decreases |s|
  {
    if s == [] then Some([])
    else
      var first := Atob(FirstChunk(s, chunkSize));
      if first.None? then None
      else Prefixed(first.value, ChunkedDecode(AfterChunk(s, chunkSize), chunkSize))
  }

  /**
   * With a chunk size that is a multiple of four, decoding chunk by chunk
   * gives exactly what decoding the whole text gives, whenever that succeeds.
   */
  lemma {:induction false} ChunkedMatchesWhole(s: string, chunkSize: nat)
    requires chunkSize > 0 && chunkSize % 4 == 0
    requires Atob(s).Some?
    ensures ChunkedDecode(s, chunkSize) == Atob(s)
    decreases |s|
  {
    if s == [] {
    } else if |s| <= chunkSize {
      assert FirstChunk(s, chunkSize) == s;
      assert AfterChunk(s, chunkSize) == [];
      assert Atob(s).value + [] == Atob(s).value;
    } else {
      var c := FirstChunk(s, chunkSize);
      var rest := AfterChunk(s, chunkSize);
      SplitDecode(c, rest);
      ChunkedMatchesWhole(rest, chunkSize);
    }
  }

  /** A valid text cut after a non-empty run of whole groups decodes as its two parts. */
  lemma SplitDecode(c: string, rest: string)
    requires |c| % 4 == 0 && |c| > 0 && |rest| >= 1 && Atob(c + rest).Some?
    ensures Atob(c).Some? && Atob(rest).Some?
    ensures Atob(c + rest).value == Atob(c).value + Atob(rest).value
  {
    StripPaddingAfterPrefix(c, rest);
    var u := StripPadding(rest);
    assert StripPadding(c + rest) == c + u;
    assert AllBase64(c) && AllBase64(u) by {
      forall i | 0 <= i < |c| ensures IsBase64Char(c[i]) {
        assert (c + u)[i] == c[i];
      }
      forall i | 0 <= i < |u| ensures IsBase64Char(u[i]) {
        assert (c + u)[|c| + i] == u[i];
      }
    }
    assert StripPadding(c) == c by {
      assert IsBase64Char(c[|c| - 1]);
    }
    assert |u| % 4 == |c + u| % 4;
    DecodeGroupsAppend(c, u);
  }

  /** `atob` accepts `=` only at the end of the whole text; at the end of a chunk it slips through. */
  lemma ChunkingAcceptsInnerPadding()
    ensures Atob("QQ==QUJD").None?
    ensures ChunkedDecode("QQ==QUJD", 4) == Some([65, 65, 66, 67])
  {
    assert Sextet('Q') == 16 && Sextet('U') == 20 && Sextet('J') == 9 && Sextet('D') == 3;
    assert StripPadding("QQ==QUJD") == "QQ==QUJD";
    assert !IsBase64Char("QQ==QUJD"[2]);
    assert FirstChunk("QQ==QUJD", 4) == "QQ==";
    assert AfterChunk("QQ==QUJD", 4) == "QUJD";
    assert StripPadding("QQ==") == "QQ";
    assert Atob("QQ==") == Some([65]);
    assert FirstChunk("QUJD", 4) == "QUJD";
    assert AfterChunk("QUJD", 4) == [];
    assert StripPadding("QUJD") == "QUJD";
    assert DecodeGroups("QUJD"[4..]) == [];
    assert DecodeQuad('Q', 'U', 'J', 'D') == [65, 66, 67];
    assert DecodeTail([]) == [];
    assert DecodeGroups("QUJD") == DecodeQuad('Q', 'U', 'J', 'D') + DecodeGroups([]);
    assert AllBase64("QUJD");
    assert Atob("QUJD") == Some(DecodeGroups("QUJD"));
    assert DecodeGroups("QUJD") == [65, 66, 67];
    assert Atob("QUJD") == Some([65, 66, 67]);
    assert ChunkedDecode("QUJD", 4) == Prefixed([65, 66, 67], ChunkedDecode([], 4));
    assert ChunkedDecode("QUJD", 4) == Some([65, 66, 67]);
    assert ChunkedDecode("QQ==QUJD", 4) == Prefixed([65], ChunkedDecode("QUJD", 4));
    var joined: seq<byte> := [65] + [65, 66, 67];
    assert joined == [65, 65, 66, 67];
    assert Prefixed([65], Some([65, 66, 67])) == Some(joined);
  }

  function Flatten(chunks: seq<seq<byte>>): seq<byte> {
    if chunks == [] then [] else Flatten(chunks[..|chunks| - 1]) + chunks[|chunks| - 1]
  }

  /** `chunks.reduce((acc, chunk) => acc + chunk.length, 0)`. */
  function TotalLength(chunks: seq<seq<byte>>): (n: nat)
    ensures n == |Flatten(chunks)|
  {
    if chunks == [] then 0 else TotalLength(chunks[..|chunks| - 1]) + |chunks[|chunks| - 1]|
  }

  /** The text from `position` on; empty once past the end. */
  function Suffix(s: string, position: nat): string {
    if position >= |s| then [] else s[position..]
  }

  /** The body of the chunk loop: `new Uint8Array(binaryChunk.length)` filled code by code. */
  method BytesOf(binary: seq<byte>) returns (bytes: array<byte>)
    ensures fresh(bytes) && bytes[..] == binary
  {
    bytes := new byte[|binary|];
    for i := 0 to |binary|
      invariant bytes[..i] == binary[..i]
    {
      bytes[i] := binary[i];
    }
  }

  /** `result.set(chunk, offset)`. */
  method SetAt(result: array<byte>, chunk: seq<byte>, offset: nat)
    requires offset + |chunk| <= result.Length
    modifies result
    ensures result[..offset + |chunk|] == old(result[..offset]) + chunk
  {
    for j := 0 to |chunk|
      invariant result[..offset + j] == old(result[..offset]) + chunk[..j]
    {
      result[offset + j] := chunk[j];
    }
  }

  /**
   * `processBase64Chunks`: the text decoded chunk by chunk into one byte
   * array; absent when `atob` throws on a chunk. A chunk size of 0 would
   * never advance, so it is positive.
   */
  method ProcessBase64Chunks(s: string, chunkSize: nat) returns (r: Option<array<byte>>)
    requires chunkSize > 0
    ensures r.None? <==> ChunkedDecode(s, chunkSize).None?
    ensures r.Some? ==> fresh(r.value) && r.value[..] == ChunkedDecode(s, chunkSize).value
  {
    var chunks := DecodeChunks(s, chunkSize);
    if chunks.None? {
      return None;
    }
    var result := Concatenate(chunks.value);
    return Some(result);
  }

  /** The `while` loop: each slice decoded with `atob` and kept as its bytes; absent when one throws. */
  method DecodeChunks(s: string, chunkSize: nat) returns (chunks: Option<seq<seq<byte>>>)
    requires chunkSize > 0
    ensures chunks.None? <==> ChunkedDecode(s, chunkSize).None?
    ensures chunks.Some? ==> ChunkedDecode(s, chunkSize).value == Flatten(chunks.value)
  {
    var acc: seq<seq<byte>> := [];
    var position := 0;
    DecodedSoFarStart(s, chunkSize);
    while position < |s|
      invariant 0 <= position
      invariant DecodedSoFar(s, chunkSize, acc, position)
      decreases |s| - position
    {
      var next := position + chunkSize;
      var end := if next <= |s| then next else |s|;
      var binaryChunk := Atob(s[position..end]);
      if binaryChunk.None? {
        DecodedSoFarFails(s, chunkSize, acc, position, end);
        return None;
      }
      var bytes := BytesOf(binaryChunk.value);
      DecodedSoFarStep(s, chunkSize, acc, position, next, end, bytes[..]);
      acc := acc + [bytes[..]];
      position := next;
    }
    DecodedSoFarEnd(s, chunkSize, acc, position);
    return Some(acc);
  }

  /** The loop invariant: the chunks kept so far, followed by the rest decoded chunk by chunk, are the whole result. */
  predicate DecodedSoFar(s: string, chunkSize: nat, acc: seq<seq<byte>>, position: nat)
    requires chunkSize > 0
  {
    ChunkedDecode(s, chunkSize) == Prefixed(Flatten(acc), ChunkedDecode(Suffix(s, position), chunkSize))
  }

  lemma DecodedSoFarStart(s: string, chunkSize: nat)
    requires chunkSize > 0
    ensures DecodedSoFar(s, chunkSize, [], 0)
  {
    assert Suffix(s, 0) == s;
    PrefixedEmpty(ChunkedDecode(s, chunkSize));
  }

  lemma DecodedSoFarFails(s: string, chunkSize: nat, acc: seq<seq<byte>>, position: nat, end: nat)
    requires chunkSize > 0 && position < |s| && DecodedSoFar(s, chunkSize, acc, position)
    requires end == (if position + chunkSize <= |s| then position + chunkSize else |s|)
    requires Atob(s[position..end]).None?
    ensures ChunkedDecode(s, chunkSize).None?
  {
    ChunkSlices(s, position, chunkSize, end);
  }

  /** One turn of the loop keeps its invariant. */
  lemma DecodedSoFarStep(s: string, chunkSize: nat, acc: seq<seq<byte>>, position: nat, next: nat, end: nat, bytes: seq<byte>)
    requires chunkSize > 0 && position < |s| && DecodedSoFar(s, chunkSize, acc, position)
    requires next == position + chunkSize && end == (if next <= |s| then next else |s|)
    requires Atob(s[position..end]) == Some(bytes)
    ensures DecodedSoFar(s, chunkSize, acc + [bytes], next)
  {
    var rest := ChunkedDecode(Suffix(s, next), chunkSize);
    ChunkDecoded(s, position, chunkSize, next, end, bytes);
    calc {
      ChunkedDecode(s, chunkSize);
      Prefixed(Flatten(acc), ChunkedDecode(Suffix(s, position), chunkSize));
      Prefixed(Flatten(acc), Prefixed(bytes, rest));
      { PrefixedStep(Flatten(acc), bytes, rest); }
      Prefixed(Flatten(acc) + bytes, rest);
      { FlattenSnoc(acc, bytes); }
      Prefixed(Flatten(acc + [bytes]), rest);
    }
  }

  lemma DecodedSoFarEnd(s: string, chunkSize: nat, acc: seq<seq<byte>>, position: nat)
    requires chunkSize > 0 && position >= |s| && DecodedSoFar(s, chunkSize, acc, position)
    ensures ChunkedDecode(s, chunkSize) == Some(Flatten(acc))
  {
    assert Suffix(s, position) == [];
    assert Flatten(acc) + [] == Flatten(acc);
  }

  /** The slice taken at `position` is the first chunk of the rest, and what follows it is the rest after that chunk. */
  lemma ChunkSlices(s: string, position: nat, chunkSize: nat, end: nat)
    requires chunkSize > 0 && position < |s|
    requires end == (if position + chunkSize <= |s| then position + chunkSize else |s|)
    ensures Suffix(s, position) != []
    ensures FirstChunk(Suffix(s, position), chunkSize) == s[position..end]
    ensures AfterChunk(Suffix(s, position), chunkSize) == Suffix(s, position + chunkSize)
  {
  }

  /** A chunk that decodes to `bytes` puts them in front of the decoding of what follows it. */
  lemma ChunkDecoded(s: string, position: nat, chunkSize: nat, next: nat, end: nat, bytes: seq<byte>)
    requires chunkSize > 0 && position < |s|
    requires next == position + chunkSize && end == (if next <= |s| then next else |s|)
    requires Atob(s[position..end]) == Some(bytes)
    ensures ChunkedDecode(Suffix(s, position), chunkSize) == Prefixed(bytes, ChunkedDecode(Suffix(s, next), chunkSize))
  {
    ChunkSlices(s, position, chunkSize, end);
  }

  lemma PrefixedStep(p: seq<byte>, b: seq<byte>, o: Option<seq<byte>>)
    ensures Prefixed(p, Prefixed(b, o)) == Prefixed(p + b, o)
  {
    if o.Some? {
      assert p + (b + o.value) == (p + b) + o.value;
    }
  }

  lemma FlattenSnoc(chunks: seq<seq<byte>>, b: seq<byte>)
    ensures Flatten(chunks + [b]) == Flatten(chunks) + b
  {
    assert (chunks + [b])[..|chunks|] == chunks;
  }

  /** `totalLength`, `new Uint8Array(totalLength)` and the `result.set` loop. */
  method Concatenate(chunks: seq<seq<byte>>) returns (result: array<byte>)
    ensures fresh(result) && result[..] == Flatten(chunks)
  {
    result := new byte[TotalLength(chunks)];
    var offset := 0;
    for k := 0 to |chunks|
      invariant offset == |Flatten(chunks[..k])| <= result.Length
      invariant result[..offset] == Flatten(chunks[..k])
    {
      FlattenPrefix(chunks, k);
      SetAt(result, chunks[k], offset);
      offset := offset + |chunks[k]|;
    }
    assert chunks[..|chunks|] == chunks;
    assert result[..] == result[..offset];
  }

  lemma PrefixedEmpty(o: Option<seq<byte>>)
    ensures Prefixed([], o) == o
  {
    if o.Some? {
      assert [] + o.value == o.value;
    }
  }

  lemma FlattenPrefix(chunks: seq<seq<byte>>, k: nat)
    requires k < |chunks|
    ensures Flatten(chunks[..k + 1]) == Flatten(chunks[..k]) + chunks[k]
    ensures |Flatten(chunks[..k + 1])| <= |Flatten(chunks)|
  {
    assert chunks[..k + 1][..k] == chunks[..k];
    FlattenPrefixLength(chunks, k + 1);
  }

  lemma {:induction false} FlattenPrefixLength(chunks: seq<seq<byte>>, k: nat)
    requires k <= |chunks|
    ensures |Flatten(chunks[..k])| <= |Flatten(chunks)|
    decreases |chunks| - k
  {
    if k < |chunks| {
      FlattenPrefixLength(chunks, k + 1);
      assert chunks[..k + 1][..k] == chunks[..k];
    } else {
      assert chunks[..k] == chunks;
    }
  }

  const ChunkSize: nat := 32768

  const AudioUnclear: string := "[AUDIO_UNCLEAR]"

  /** The gateway's answer: its status, and the message content when it is ok. */
  datatype GatewayReply = GatewayReply(ok: bool, status: int, content: Option<string>)

  datatype Body = Transcript(text: string, success: bool) | ErrorBody(message: string)

  datatype Response = Response(status: int, body: Body)

  /**
   * The handler: an empty or missing audio field and a missing key fail
   * with 500; a chunk `atob` rejects fails with 500; a rate limit and an
   * exhausted balance keep their statuses; another gateway failure is 500;
   * otherwise the trimmed transcription, successful unless it is the
   * unclear-audio marker.
   */
  method Transcribe(audio: Option<string>, apiKeyConfigured: bool, gateway: GatewayReply) returns (resp: Response)
    ensures (audio.None? || audio.value == []) ==> resp == Response(500, ErrorBody("No audio data provided"))
    ensures audio.Some? && audio.value != [] && !apiKeyConfigured ==>
      resp == Response(500, ErrorBody("LOVABLE_API_KEY is not configured"))
    ensures audio.Some? && audio.value != [] && apiKeyConfigured && ChunkedDecode(audio.value, ChunkSize).None? ==>
      resp.status == 500 && resp.body.ErrorBody?
    ensures resp.status == 200 <==>
      audio.Some? && audio.value != [] && apiKeyConfigured && ChunkedDecode(audio.value, ChunkSize).Some? && gateway.ok
    ensures resp.status == 200 ==>
      resp.body == Transcript(Trim(if gateway.content.Some? then gateway.content.value else []),
                              Trim(if gateway.content.Some? then gateway.content.value else []) != AudioUnclear)
    ensures resp.status == 429 ==> resp.body == ErrorBody("Rate limit exceeded. Please try again in a moment.")
    ensures audio.Some? && audio.value != [] && apiKeyConfigured && ChunkedDecode(audio.value, ChunkSize).Some? && !gateway.ok ==>
      resp.body.ErrorBody? && resp.status == (if gateway.status == 429 || gateway.status == 402 then gateway.status else 500)
    ensures resp.status == 402 ==> resp.body == ErrorBody("AI usage limit reached. Please add credits to continue.")
  {
    if audio.None? || audio.value == [] {
      return Response(500, ErrorBody("No audio data provided"));
    }
    if !apiKeyConfigured {
      return Response(500, ErrorBody("LOVABLE_API_KEY is not configured"));
    }
    var binaryAudio := ProcessBase64Chunks(audio.value, ChunkSize);
    if binaryAudio.None? {
      return Response(500, ErrorBody("Failed to decode base64"));
    }
    if !gateway.ok {
      if gateway.status == 429 {
        return Response(429, ErrorBody("Rate limit exceeded. Please try again in a moment."));
      }
      if gateway.status == 402 {
        return Response(402, ErrorBody("AI usage limit reached. Please add credits to continue."));
      }
      return Response(500, ErrorBody("Transcription failed: " + IntToString(gateway.status)));
    }
    var transcription := Trim(if gateway.content.Some? then gateway.content.value else []);
    return Response(200, Transcript(transcription, transcription != AudioUnclear));
  }
}
