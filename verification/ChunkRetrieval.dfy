/**
 Chunked retrieval of a large value over the broker: the server's `chunk` against the producer's
 `read` loop, while the value may change between any two requests.

 SHA-256 is a parameter: a function from bytes to 64 hexadecimal digits. Values are the bytes of
 their wire JSON.
 */
module ChunkRetrieval {
  import opened Common
  import opened Base64

  type Bytes = seq<Byte>

  predicate IsHex64(s: string) {
    |s| == 64 && forall i :: 0 <= i < |s| ==> '0' <= s[i] <= '9' || 'a' <= s[i] <= 'f'
  }

  ghost predicate IsDigest(digest: Bytes -> string) {
    forall b: Bytes :: IsHex64(digest(b))
  }

  /** The continuation fields of a parsed command; a digest that is given is never empty. */
  datatype Request = Request(offset: Option<nat>, digest: Option<string>)

  datatype Chunk = Chunk(digest: string, offset: nat, nextOffset: Option<nat>, totalBytes: nat, content: string)

  datatype ChunkError = DigestMismatch | DigestRequired | InvalidOffset | FramingExceeded

  const MIN_CAP := 1024

  /** Bytes of the value that fit in one chunk: framing is reserved and base64 expansion accounted for. */
  function StepSize(cap: nat): (r: nat)
    requires cap >= MIN_CAP
    ensures r >= 384 && 4 * r <= 3 * (cap - 512) < 4 * (r + 1)
  {
    (cap - 512) * 3 / 4
  }

  // ----- the wire form of a chunk -----------------------------------------------------------

  function Decimal(n: nat): string {
    if n < 10 then [('0' as int + n) as char] else Decimal(n / 10) + [('0' as int + n % 10) as char]
  }

  function EscapeChar(c: char): string {
    if c == '"' then ['\\', '"']
    else if c == '\\' then ['\\', '\\']
    else if c < ' ' then ['\\', 'u', '0', '0', HexDigit(c as int / 16), HexDigit(c as int % 16)]
    else [c]
  }

  function Escape(s: string): string {
    if s == [] then [] else EscapeChar(s[0]) + Escape(s[1..])
  }

  function JsonString(s: string): string {
    ['"'] + Escape(s) + ['"']
  }

  const KEYS := ["encoding", "digest", "offset", "nextOffset", "totalBytes", "content"]

  /** A JSON object's members: keys in order, values already rendered. */
  function Members(keys: seq<string>, values: seq<string>): string
    requires |keys| == |values|
  {
    if keys == [] then []
    else JsonString(keys[0]) + [':'] + values[0] + (if |keys| > 1 then [','] else []) + Members(keys[1..], values[1..])
  }

  function Values(c: Chunk): seq<string> {
    [JsonString("base64"), JsonString(c.digest), Decimal(c.offset),
     if c.nextOffset.Some? then Decimal(c.nextOffset.value) else "null", Decimal(c.totalBytes), JsonString(c.content)]
  }

  /** `JSON.stringify` of the chunk. */
  function WireJson(c: Chunk): string {
    ['{'] + Members(KEYS, Values(c)) + ['}']
  }

  /** The UTF-8 length of a string. */
  function ByteLength(s: string): nat {
    if s == [] then 0
    else (if s[0] as int < 0x80 then 1 else if s[0] as int < 0x800 then 2 else if s[0] as int < 0x10000 then 3 else 4)
         + ByteLength(s[1..])
  }

  predicate Ascii(s: string) {
    forall i :: 0 <= i < |s| ==> s[i] as int < 0x80
  }

  predicate Plain(s: string) {
    forall i :: 0 <= i < |s| ==> ' ' <= s[i] <= '~' && s[i] != '"' && s[i] != '\\'
  }

  lemma {:induction false} AsciiLength(s: string)
    requires Ascii(s)
    ensures ByteLength(s) == |s|
  {
    if s != [] {
      AsciiLength(s[1..]);
    }
  }

  lemma {:induction false} PlainNeedsNoEscape(s: string)
    requires Plain(s)
    ensures Escape(s) == s
  {
    if s != [] {
      PlainNeedsNoEscape(s[1..]);
      assert Escape(s) == [s[0]] + s[1..];
    }
  }

  function Pow10(k: nat): (r: nat)
    ensures r > 0
  {
    if k == 0 then 1 else 10 * Pow10(k - 1)
  }

  lemma {:induction false} DecimalLength(n: nat, k: nat)
    requires k > 0 && n < Pow10(k)
    ensures |Decimal(n)| <= k && Ascii(Decimal(n))
    decreases n
  {
    if n >= 10 {
      assert k > 1;
      DecimalLength(n / 10, k - 1);
    }
  }

  lemma Pow10Of16()
    ensures Pow10(16) == 10000000000000000
  {
    assert Pow10(4) == 10000;
    assert Pow10(8) == 10000 * Pow10(4);
    assert Pow10(12) == 10000 * Pow10(8);
    assert Pow10(16) == 10000 * Pow10(12);
  }

  const SAFE := 9007199254740992

  lemma SafeDecimal(n: nat)
    requires n < SAFE
    ensures |Decimal(n)| <= 16 && Ascii(Decimal(n))
  {
    Pow10Of16();
    DecimalLength(n, 16);
  }

  lemma {:induction false} ByteLengthConcat(s: string, t: string)
    ensures ByteLength(s + t) == ByteLength(s) + ByteLength(t)
  {
    if s == [] {
      assert s + t == t;
    } else {
      assert (s + t)[1..] == s[1..] + t;
      ByteLengthConcat(s[1..], t);
    }
  }

  lemma JsonStringLength(s: string)
    requires Plain(s)
    ensures ByteLength(JsonString(s)) == |s| + 2
  {
    PlainNeedsNoEscape(s);
    AsciiLength(JsonString(s));
  }

  function TotalBytes(values: seq<string>): nat {
    if values == [] then 0 else ByteLength(values[0]) + TotalBytes(values[1..])
  }

  /** What keys add to an object: themselves, their quotes and colon, and a comma after all but the last. */
  function KeyBytes(keys: seq<string>): nat {
    if keys == [] then 0 else |keys[0]| + 3 + (if |keys| > 1 then 1 else 0) + KeyBytes(keys[1..])
  }

  lemma {:induction false} MembersLength(keys: seq<string>, values: seq<string>)
    requires |keys| == |values|
    requires forall i :: 0 <= i < |keys| ==> Plain(keys[i])
    ensures ByteLength(Members(keys, values)) == KeyBytes(keys) + TotalBytes(values)
    decreases |keys|
  {
    if keys != [] {
      MembersLength(keys[1..], values[1..]);
      JsonStringLength(keys[0]);
      var comma := if |keys| > 1 then [','] else [];
      MemberLength(JsonString(keys[0]), values[0], comma, Members(keys[1..], values[1..]));
    }
  }

  lemma MemberLength(key: string, value: string, comma: string, rest: string)
    requires Ascii(comma)
    ensures ByteLength(key + [':'] + value + comma + rest) ==
              ByteLength(key) + 1 + ByteLength(value) + |comma| + ByteLength(rest)
  {
    ByteLengthConcat(key, [':']);
    ByteLengthConcat(key + [':'], value);
    ByteLengthConcat(key + [':'] + value, comma);
    ByteLengthConcat(key + [':'] + value + comma, rest);
    AsciiLength([':']);
    AsciiLength(comma);
  }

  lemma SixValues(v: seq<string>)
    requires |v| == 6
    ensures TotalBytes(v) == ByteLength(v[0]) + ByteLength(v[1]) + ByteLength(v[2])
            + ByteLength(v[3]) + ByteLength(v[4]) + ByteLength(v[5])
  {
    assert v[3..][1..] == v[4..] && v[4..][1..] == v[5..] && v[5..][1..] == [];
    assert TotalBytes(v[5..]) == ByteLength(v[5]);
    assert TotalBytes(v[4..]) == ByteLength(v[4]) + TotalBytes(v[5..]);
    assert TotalBytes(v[3..]) == ByteLength(v[3]) + TotalBytes(v[4..]);
    assert v[1..][1..] == v[2..] && v[2..][1..] == v[3..];
    assert TotalBytes(v[2..]) == ByteLength(v[2]) + TotalBytes(v[3..]);
    assert TotalBytes(v[1..]) == ByteLength(v[1]) + TotalBytes(v[2..]);
  }

  lemma LiteralBytes()
    ensures ByteLength(JsonString("base64")) == 8 && ByteLength("null") == 4
  {
    JsonStringLength("base64");
    AsciiLength("null");
  }

  /** The digits of the number, or `null`. */
  function NumberLength(n: Option<nat>): nat {
    if n.Some? then |Decimal(n.value)| else 4
  }

  lemma NumberBytes(n: nat)
    requires n < SAFE
    ensures ByteLength(Decimal(n)) == |Decimal(n)| <= 16
  {
    SafeDecimal(n);
    AsciiLength(Decimal(n));
  }

  lemma ValueBytes(c: Chunk)
    requires WellFormed(c)
    ensures TotalBytes(Values(c)) ==
              12 + |c.digest| + |Decimal(c.offset)| + NumberLength(c.nextOffset) + |Decimal(c.totalBytes)| + |c.content|
    ensures |Decimal(c.offset)| <= 16 && NumberLength(c.nextOffset) <= 16 && |Decimal(c.totalBytes)| <= 16
  {
    LiteralBytes();
    JsonStringLength(c.digest);
    JsonStringLength(c.content);
    NumberBytes(c.offset);
    NumberBytes(c.totalBytes);
    if c.nextOffset.Some? {
      NumberBytes(c.nextOffset.value);
    }
    SixValues(Values(c));
  }

  /** What `ServeChunk` builds: a digest, base64 content and sizes below 2^53. */
  predicate WellFormed(c: Chunk) {
    && IsHex64(c.digest) && Plain(c.content)
    && c.offset < SAFE && c.totalBytes < SAFE && (c.nextOffset.Some? ==> c.nextOffset.value < SAFE)
  }

  /** A way to measure a chunk on the wire that adds at most 256 bytes to its content. */
  ghost predicate Framed(size: Chunk -> nat) {
    forall c: Chunk :: WellFormed(c) ==> size(c) <= 256 + |c.content|
  }

  function WireSize(c: Chunk): nat {
    ByteLength(WireJson(c))
  }

  lemma KeysArePlain()
    ensures |KEYS| == 6 && (forall i :: 0 <= i < 6 ==> Plain(KEYS[i])) && KeyBytes(KEYS) == 70
  {
    assert KEYS[1..][1..] == KEYS[2..] && KEYS[2..][1..] == KEYS[3..] && KEYS[3..][1..] == KEYS[4..];
    assert KEYS[4..][1..] == KEYS[5..] && KEYS[5..][1..] == [];
    assert |KEYS[4]| == 10 && |KEYS[5]| == 7 && KEYS[5..][0] == KEYS[5] && KEYS[4..][0] == KEYS[4];
    assert KeyBytes(KEYS[5..]) == 10;
    assert KeyBytes(KEYS[4..]) == 24;
    assert KeyBytes(KEYS[2..]) == 48;
  }

  /** The size on the wire, to the byte. */
  lemma WireSizeExactly(c: Chunk)
    requires WellFormed(c)
    ensures WireSize(c) ==
              84 + |c.digest| + |Decimal(c.offset)| + NumberLength(c.nextOffset) + |Decimal(c.totalBytes)| + |c.content|
    ensures WireSize(c) <= 256 + |c.content|
  {
    KeysArePlain();
    ValueBytes(c);
    MembersLength(KEYS, Values(c));
    BracesLength(Members(KEYS, Values(c)));
  }

  lemma BracesLength(members: string)
    ensures ByteLength(['{'] + members + ['}']) == ByteLength(members) + 2
  {
    ByteLengthConcat(['{'], members);
    ByteLengthConcat(['{'] + members, ['}']);
    AsciiLength(['{']);
    AsciiLength(['}']);
  }

  /** The real wire form is one. */
  lemma WireSizeIsFramed()
    ensures Framed(WireSize)
  {
    forall c: Chunk | WellFormed(c) ensures WireSize(c) <= 256 + |c.content| {
      WireSizeExactly(c);
    }
  }

  // ----- the server -------------------------------------------------------------------------

  function End(total: nat, offset: nat, cap: nat): (r: nat)
    requires cap >= MIN_CAP && offset <= total
    ensures offset <= r <= total && r <= offset + StepSize(cap)
  {
    if total < offset + StepSize(cap) then total else offset + StepSize(cap)
  }

  /** The chunk of `bytes` at `offset`. */
  function ChunkAt(hash: string, bytes: Bytes, offset: nat, cap: nat): Chunk
    requires cap >= MIN_CAP && offset <= |bytes|
  {
    var end := End(|bytes|, offset, cap);
    Chunk(hash, offset, if end < |bytes| then Some(end) else None, |bytes|, Encode(bytes[offset..end]))
  }

  /** `chunk`; `size` measures its wire form, as `WireSize` does. */
  function ServeChunk(digest: Bytes -> string, size: Chunk -> nat, bytes: Bytes, request: Request, cap: nat)
    : Result<Chunk, ChunkError>
    requires cap >= MIN_CAP
  {
    var hash := digest(bytes);
    var offset := if request.offset.Some? then request.offset.value else 0;
    if request.digest.Some? && request.digest.value != hash then Err(DigestMismatch)
    else if offset > 0 && request.digest.None? then Err(DigestRequired)
    else if offset > |bytes| then Err(InvalidOffset)
    else
      var chunk := ChunkAt(hash, bytes, offset, cap);
      if size(chunk) > cap then Err(FramingExceeded) else Ok(chunk)
  }

  /** Base64 of one step's worth of bytes leaves room for the framing. */
  lemma StepFits(slice: Bytes, cap: nat)
    requires cap >= MIN_CAP && |slice| <= StepSize(cap)
    ensures 256 + |Encode(slice)| <= cap && Plain(Encode(slice))
  {
    EncodedShape(slice);
  }

  /**
   For every cap of at least 1024 and every value below 2^53 bytes, the framing check cannot fire:
   whatever is asked for, the serialized answer fits the cap or is a refusal of the request itself.
   */
  lemma EveryChunkFits(digest: Bytes -> string, bytes: Bytes, request: Request, cap: nat)
    requires cap >= MIN_CAP && IsDigest(digest) && |bytes| < SAFE
    ensures var r := ServeChunk(digest, WireSize, bytes, request, cap);
            r != Err(FramingExceeded) && (r.Ok? ==> ByteLength(WireJson(r.value)) <= cap)
  {
    WireSizeIsFramed();
    FramedChunkFits(digest, WireSize, bytes, request, cap);
  }

  /** The same for any framing of at most 256 bytes. */
  lemma FramedChunkFits(digest: Bytes -> string, size: Chunk -> nat, bytes: Bytes, request: Request, cap: nat)
    requires cap >= MIN_CAP && IsDigest(digest) && Framed(size) && |bytes| < SAFE
    ensures var r := ServeChunk(digest, size, bytes, request, cap);
            r != Err(FramingExceeded) && (r.Ok? ==> size(r.value) <= cap)
  {
    var offset := if request.offset.Some? then request.offset.value else 0;
    if offset <= |bytes| {
      var chunk := ChunkAt(digest(bytes), bytes, offset, cap);
      assert IsHex64(digest(bytes));
      StepFits(bytes[offset..End(|bytes|, offset, cap)], cap);
      assert WellFormed(chunk);
    }
  }

  /** What is wrong with a request, in the order it is looked at. */
  function Refusal(hash: string, total: nat, request: Request): Option<ChunkError> {
    match (request.offset, request.digest)
    case (None, None) => None
    case (Some(offset), None) => if offset == 0 then None else Some(DigestRequired)
    case (None, Some(known)) => if known == hash then None else Some(DigestMismatch)
    case (Some(offset), Some(known)) =>
      if known != hash then Some(DigestMismatch) else if offset <= total then None else Some(InvalidOffset)
  }

  /** The last byte after the slice: as many as fit the step, up to the end. */
  predicate IsSlice(total: nat, offset: nat, end: nat, cap: nat) {
    offset <= end <= total && 4 * (end - offset) <= 3 * (cap - 512)
    && (end < total ==> 3 * (cap - 512) < 4 * (end - offset + 1))
  }

  /**
   For every request: it is refused exactly for one of three reasons, each with its error; otherwise the chunk
   starts at the requested offset, or at the first byte, carries the value's digest and size, and decodes to
   exactly the bytes up to its next offset.
   */
  lemma ServedExactly(digest: Bytes -> string, bytes: Bytes, request: Request, cap: nat)
    requires cap >= MIN_CAP && IsDigest(digest) && |bytes| < SAFE
    ensures var r := ServeChunk(digest, WireSize, bytes, request, cap);
            var refusal := Refusal(digest(bytes), |bytes|, request);
            && (refusal.Some? ==> r == Err(refusal.value))
            && (refusal.None? ==>
                  && r.Ok? && r.value.digest == digest(bytes) && r.value.totalBytes == |bytes|
                  && r.value.offset == (if request.offset.Some? then request.offset.value else 0)
                  && var end := if r.value.nextOffset.Some? then r.value.nextOffset.value else |bytes|;
                     && IsSlice(|bytes|, r.value.offset, end, cap)
                     && (r.value.nextOffset.Some? <==> end < |bytes|)
                     && Decode(r.value.content) == Some(bytes[r.value.offset..end]))
  {
    WireSizeIsFramed();
    ServedFramed(digest, WireSize, bytes, request, cap);
  }

  lemma ServedFramed(digest: Bytes -> string, size: Chunk -> nat, bytes: Bytes, request: Request, cap: nat)
    requires cap >= MIN_CAP && IsDigest(digest) && Framed(size) && |bytes| < SAFE
    ensures var r := ServeChunk(digest, size, bytes, request, cap);
            var refusal := Refusal(digest(bytes), |bytes|, request);
            && (refusal.Some? ==> r == Err(refusal.value))
            && (refusal.None? ==>
                  && r.Ok? && r.value.digest == digest(bytes) && r.value.totalBytes == |bytes|
                  && r.value.offset == (if request.offset.Some? then request.offset.value else 0)
                  && var end := if r.value.nextOffset.Some? then r.value.nextOffset.value else |bytes|;
                     && IsSlice(|bytes|, r.value.offset, end, cap)
                     && (r.value.nextOffset.Some? <==> end < |bytes|)
                     && Decode(r.value.content) == Some(bytes[r.value.offset..end]))
  {
    FramedChunkFits(digest, size, bytes, request, cap);
    var r := ServeChunk(digest, size, bytes, request, cap);
    if r.Ok? {
      RoundTrip(bytes[r.value.offset..End(|bytes|, r.value.offset, cap)]);
    }
  }

  // ----- the exact wire form ----------------------------------------------------------------

  /** The number a decimal numeral names. */
  function NumberOf(digits: string): int {
    if digits == [] then 0 else NumberOf(digits[..|digits| - 1]) * 10 + (digits[|digits| - 1] as int - '0' as int)
  }

  lemma {:induction false} DecimalIsExact(n: nat)
    ensures NumberOf(Decimal(n)) == n && (|Decimal(n)| > 1 ==> Decimal(n)[0] != '0')
  {
    if n < 10 {
      assert Decimal(n)[..0] == [];
    } else {
      DecimalIsExact(n / 10);
      assert Decimal(n)[..|Decimal(n)| - 1] == Decimal(n / 10);
      if |Decimal(n / 10)| == 1 {
        assert NumberOf(Decimal(n / 10)) == Decimal(n / 10)[0] as int - '0' as int;
      }
    }
  }

  // ----- the reader -------------------------------------------------------------------------

  /** How many requests a stable value of `total` bytes takes. */
  function Rounds(total: nat, step: nat): nat
    requires step > 0
  {
    if total <= step then 1 else 1 + Rounds(total - step, step)
  }

  /** `Rounds` is the ceiling of `total / step`, but at least one. */
  lemma {:induction false} RoundsIsCeiling(total: nat, step: nat)
    requires step > 0
    ensures var r := Rounds(total, step);
            r >= 1 && total <= r * step && (total > 0 ==> (r - 1) * step < total) && (total == 0 ==> r == 1)
    decreases total
  {
    if total > step {
      RoundsIsCeiling(total - step, step);
      var r := Rounds(total - step, step);
      assert (r + 1) * step == r * step + step;
      assert r * step == (r - 1) * step + step;
    }
  }

  /** What the server holds when the n-th request arrives; `None` if that request fails. */
  type Server = nat -> Option<Bytes>

  /** No later value has the digest of the first one without being it. */
  ghost predicate CollisionFree(digest: Bytes -> string, server: Server) {
    forall i: nat ::
      server(i).Some? && server(0).Some? && digest(server(i).value) == digest(server(0).value) ==>
        server(i) == server(0)
  }

  /** The value stays what it was for the first `n` requests. */
  ghost predicate Stable(server: Server, n: nat) {
    server(0).Some? && forall i: nat :: i < n ==> server(i) == server(0)
  }

  /** Where the slice that starts at `offset` ends, if it is not the last one. */
  function NextOffset(total: nat, offset: nat, step: nat): Option<nat> {
    if offset + step < total then Some(offset + step) else None
  }

  /** What one round of the loop keeps of a chunk. */
  datatype Part = Part(digest: string, slice: Bytes, nextOffset: Option<nat>, totalBytes: nat)

  /** The check of one round, on whatever chunk arrives: it starts where expected and has the digest that is known. */
  method Accept(chunk: Chunk, offset: nat, known: Option<string>, decode: string -> Bytes) returns (part: Option<Part>)
    ensures part.Some? <==> chunk.offset == offset && (known.None? || known == Some("") || known == Some(chunk.digest))
    ensures part.Some? ==>
              part.value == Part(chunk.digest, decode(chunk.content), chunk.nextOffset, chunk.totalBytes)
  {
    if chunk.offset != offset || (known.Some? && known.value != "" && known.value != chunk.digest) {
      return None;
    }
    part := Some(Part(chunk.digest, decode(chunk.content), chunk.nextOffset, chunk.totalBytes));
  }

  /** The check at the end: the parts add up to what was announced. */
  method Finish(digest: Bytes -> string, bytes: Bytes, part: Part) returns (result: Option<Bytes>)
    ensures result == if |bytes| == part.totalBytes && digest(bytes) == part.digest then Some(bytes) else None
  {
    if |bytes| != part.totalBytes || digest(bytes) != part.digest {
      return None;
    }
    result := Some(bytes);
  }

  // ----- any server -------------------------------------------------------------------------

  function Joined(decode: string -> Bytes, chunks: seq<Chunk>): Bytes {
    if chunks == [] then [] else Joined(decode, chunks[..|chunks| - 1]) + decode(chunks[|chunks| - 1].content)
  }

  /** Each chunk starts where the one before it said, with its digest; the first one starts at the beginning. */
  predicate Chained(chunks: seq<Chunk>) {
    && (chunks != [] ==> chunks[0].offset == 0)
    && forall i :: 0 <= i < |chunks| - 1 ==>
         chunks[i].nextOffset == Some(chunks[i + 1].offset)
         && (chunks[i].digest == "" || chunks[i].digest == chunks[i + 1].digest)
  }

  /** A complete value: chained chunks, the last of which says so, that add up to the announced size and digest. */
  predicate Complete(digest: Bytes -> string, decode: string -> Bytes, chunks: seq<Chunk>) {
    && chunks != [] && Chained(chunks) && chunks[|chunks| - 1].nextOffset.None?
    && |Joined(decode, chunks)| == chunks[|chunks| - 1].totalBytes
    && digest(Joined(decode, chunks)) == chunks[|chunks| - 1].digest
  }

  /**
   The loop of `read` against any server, honest or not, as far as its replies go: it returns bytes if and only
   if the chunks up to some point are a complete value, and then exactly those bytes.
   */
  method ReadReplies(digest: Bytes -> string, decode: string -> Bytes, replies: seq<Chunk>)
    returns (result: Option<Bytes>, used: nat)
    ensures used <= |replies|
    ensures result.Some? ==>
              Complete(digest, decode, replies[..used]) && result.value == Joined(decode, replies[..used])
    ensures result.None? ==> forall n :: 0 <= n <= |replies| ==> !Complete(digest, decode, replies[..n])
  {
    var bytes: Bytes := [];
    var offset: nat := 0;
    var known: Option<string> := None;
    used := 0;
    while used < |replies|
      invariant 0 <= used <= |replies| && Chained(replies[..used]) && bytes == Joined(decode, replies[..used])
      invariant if used == 0 then offset == 0 && known.None?
                else replies[used - 1].nextOffset == Some(offset) && known == Some(replies[used - 1].digest)
      invariant forall n :: 0 <= n <= used ==> !Complete(digest, decode, replies[..n])
    {
      var part := Accept(replies[used], offset, known, decode);
      ChainedStep(replies, used);
      if part.None? {
        NeverComplete(digest, decode, replies, used + 1);
        return None, used + 1;
      }
      assert replies[..used + 1][..used] == replies[..used];
      bytes := bytes + part.value.slice;
      known := Some(part.value.digest);
      used := used + 1;
      if part.value.nextOffset.None? {
        result := Finish(digest, bytes, part.value);
        if result.None? {
          EndedEarly(digest, decode, replies, used);
        }
        return;
      }
      offset := part.value.nextOffset.value;
    }
    result := None;
  }

  lemma ChainedStep(replies: seq<Chunk>, n: nat)
    requires n < |replies| && Chained(replies[..n])
    ensures Chained(replies[..n + 1]) <==>
              if n == 0 then replies[0].offset == 0
              else replies[n - 1].nextOffset == Some(replies[n].offset)
                   && (replies[n - 1].digest == "" || replies[n - 1].digest == replies[n].digest)
  {
    assert forall i :: 0 <= i < n ==> replies[..n + 1][i] == replies[..n][i];
    if n > 0 {
      assert replies[..n + 1][n - 1] == replies[n - 1] && replies[..n + 1][n] == replies[n];
      assert Chained(replies[..n + 1]) ==> replies[n - 1].nextOffset == Some(replies[n].offset);
    }
  }

  /** Chunks that do not chain are never complete, whatever comes after them. */
  lemma NeverComplete(digest: Bytes -> string, decode: string -> Bytes, replies: seq<Chunk>, n: nat)
    requires n <= |replies| && !Chained(replies[..n])
    ensures forall k :: n <= k <= |replies| ==> !Complete(digest, decode, replies[..k])
  {
    forall k | n <= k <= |replies| ensures !Chained(replies[..k]) {
      assert forall i :: 0 <= i < n ==> replies[..k][i] == replies[..n][i];
      if n > 0 && replies[..n][0].offset == 0 {
        var c := replies[..n];
        var i :| 0 <= i < n - 1 && !(c[i].nextOffset == Some(c[i + 1].offset)
                                     && (c[i].digest == "" || c[i].digest == c[i + 1].digest));
        assert replies[..k][i] == replies[..n][i] && replies[..k][i + 1] == replies[..n][i + 1];
      }
    }
  }

  /** Nothing follows a last chunk. */
  lemma EndedEarly(digest: Bytes -> string, decode: string -> Bytes, replies: seq<Chunk>, n: nat)
    requires 0 < n <= |replies| && replies[n - 1].nextOffset.None?
    ensures forall k :: n < k <= |replies| ==> !Complete(digest, decode, replies[..k])
  {
    forall k | n < k <= |replies| ensures !Chained(replies[..k]) {
      assert replies[..k][n - 1] == replies[n - 1] && replies[..k][n] == replies[n];
    }
  }

  // ----- an honest server -------------------------------------------------------------------

  /** What `Buffer.from` makes of base64 text; only what it makes of well-formed text matters. */
  function Bytes64(text: string): Bytes {
    var bytes := Decode(text);
    if bytes.Some? then bytes.value else []
  }

  lemma SliceComesBack(hash: string, held: Bytes, offset: nat, cap: nat)
    requires cap >= MIN_CAP && offset <= |held|
    ensures var chunk, next := ChunkAt(hash, held, offset, cap), NextOffset(|held|, offset, StepSize(cap));
            chunk.nextOffset == next
            && Bytes64(chunk.content) == held[offset..if next.Some? then next.value else |held|]
  {
    RoundTrip(held[offset..End(|held|, offset, cap)]);
  }

  /** Without a refusal, the reply is the chunk at this offset. */
  lemma RepliesWithChunk(
    digest: Bytes -> string, size: Chunk -> nat, held: Bytes, offset: nat, known: Option<string>, cap: nat)
    requires cap >= MIN_CAP && IsDigest(digest) && Framed(size) && |held| < SAFE
    ensures var reply := ServeChunk(digest, size, held, Request(Some(offset), known), cap);
            && (reply.Ok? <==> (known == Some(digest(held)) || (known.None? && offset == 0)) && offset <= |held|)
            && (reply.Ok? ==> reply.value == ChunkAt(digest(held), held, offset, cap))
  {
    FramedChunkFits(digest, size, held, Request(Some(offset), known), cap);
  }

  /** One round against the server: request the chunk at `offset`, and check it. */
  method Fetch(
    digest: Bytes -> string, size: Chunk -> nat, held: Bytes, offset: nat, known: Option<string>, cap: nat)
    returns (part: Option<Part>)
    requires cap >= MIN_CAP && IsDigest(digest) && Framed(size) && |held| < SAFE
    requires known.Some? ==> known.value != ""
    ensures part.Some? <==> (known == Some(digest(held)) || (known.None? && offset == 0)) && offset <= |held|
    ensures part.Some? ==>
              var next := NextOffset(|held|, offset, StepSize(cap));
              part.value == Part(digest(held), held[offset..if next.Some? then next.value else |held|], next, |held|)
  {
    var request := Request(Some(offset), known);
    var reply := ServeChunk(digest, size, held, request, cap);
    RepliesWithChunk(digest, size, held, offset, known, cap);
    if reply.Err? {
      return None;
    }
    SliceComesBack(digest(held), held, offset, cap);
    part := Accept(reply.value, offset, known, Bytes64);
  }

  /**
   The whole first value, after as many requests as its size takes, if and only if the value stays the
   same for that long; otherwise a failure, after no more requests than that.
   */
  ghost predicate ReadsWhole(server: Server, cap: nat, result: Option<Bytes>, requests: nat)
    requires cap >= MIN_CAP
  {
    if server(0).None? then result.None? && requests == 1
    else
      var rounds := Rounds(|server(0).value|, StepSize(cap));
      && 1 <= requests <= rounds
      && (result.Some? <==> Stable(server, rounds))
      && (result.Some? ==> result == server(0) && requests == rounds)
  }

  /** The loop of `read`, for any framing of at most 256 bytes. */
  method ReadFramed(digest: Bytes -> string, size: Chunk -> nat, cap: nat, server: Server)
    returns (result: Option<Bytes>, requests: nat)
    requires cap >= MIN_CAP && IsDigest(digest) && Framed(size) && CollisionFree(digest, server)
    requires forall i: nat :: server(i).Some? ==> |server(i).value| < SAFE
    ensures ReadsWhole(server, cap, result, requests)
  {
    var bytes: Bytes := [];
    var offset: nat := 0;
    var known: Option<string> := None;
    requests := 0;
    var step := StepSize(cap);
    ghost var value := if server(0).Some? then server(0).value else [];
    while true
      invariant known.None? ==> offset == requests == 0
      invariant known.Some? ==>
                  known.value != "" && Stable(server, requests) && requests > 0
                  && known.value == digest(value) && offset < |value|
      invariant offset <= |value| && bytes == value[..offset]
      invariant requests + Rounds(|value| - offset, step) == Rounds(|value|, step)
      decreases |value| - offset
    {
      var held := server(requests);
      requests := requests + 1;
      if held.None? {
        return None, requests;
      }
      var part := Fetch(digest, size, held.value, offset, known, cap);
      if part.None? {
        return None, requests;
      }
      assert held == server(0);
      known := Some(part.value.digest);
      bytes := bytes + part.value.slice;
      if part.value.nextOffset.None? {
        assert bytes == value;
        result := Finish(digest, bytes, part.value);
        return;
      }
      offset := part.value.nextOffset.value;
    }
  }

  /**
   `read`, over the real wire form. However the server's value changes between requests, nothing torn
   is ever returned.
   */
  method Read(digest: Bytes -> string, cap: nat, server: Server) returns (result: Option<Bytes>, requests: nat)
    requires cap >= MIN_CAP && IsDigest(digest) && CollisionFree(digest, server)
    requires forall i: nat :: server(i).Some? ==> |server(i).value| < SAFE
    ensures ReadsWhole(server, cap, result, requests)
  {
    WireSizeIsFramed();
    result, requests := ReadFramed(digest, WireSize, cap, server);
  }
}
