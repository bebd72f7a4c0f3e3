/**
 * The ANT serial frame used on the trainer's USB link:
 *
 *   [0xA4 sync] [length] [message id] [content ...] [XOR checksum]
 *
 * `Encode` builds a frame the way `Message.encode` does; `Parse` is the
 * specification of `_receiveMessage`, which skips bytes up to the next sync
 * byte and then reads one whole frame; `ReceiveMessage` is that loop.
 */
module AntFrame {

  type byte = bv8

  const SYNC: byte := 0xA4

  /** A message as built for sending or as read back: its ANT message id and its content. */
  datatype Message = Message(msgType: byte, content: seq<byte>)

  /** The XOR of all bytes, folded from the left from 0 (as `reduce((prev, cur) => prev ^ cur, 0)`). */
  function XorFold(s: seq<byte>): byte
  {
    if s == [] then 0 else XorFold(s[..|s| - 1]) ^ s[|s| - 1]
  }

  lemma {:induction false} XorFoldAppend(a: seq<byte>, b: seq<byte>)
    ensures XorFold(a + b) == XorFold(a) ^ XorFold(b)
    decreases |b|
  {
    if b == [] {
      assert a + b == a;
    } else {
      var b' := b[..|b| - 1];
      assert (a + b)[..|a + b| - 1] == a + b';
      assert (a + b)[|a + b| - 1] == b[|b| - 1];
      XorFoldAppend(a, b');
    }
  }

  lemma XorFoldSingleton(x: byte)
    ensures XorFold([x]) == x
  {
    assert [x][..0] == [];
  }

  lemma XorFoldSplit(pre: seq<byte>, x: byte, post: seq<byte>)
    ensures XorFold(pre + [x] + post) == (XorFold(pre) ^ x) ^ XorFold(post)
  {
    XorFoldAppend(pre + [x], post);
    XorFoldAppend(pre, [x]);
    XorFoldSingleton(x);
  }

  lemma XorFoldSnoc(s: seq<byte>, x: byte)
    ensures XorFold(s + [x]) == XorFold(s) ^ x
  {
    assert (s + [x])[..|s|] == s;
  }

  lemma XorFoldOf4(a: byte, b: byte, c: byte, d: byte)
    ensures XorFold([a, b, c, d]) == a ^ b ^ c ^ d
  {
    XorFoldSingleton(a);
    XorFoldSnoc([a], b);
    assert [a] + [b] == [a, b];
    XorFoldSnoc([a, b], c);
    assert [a, b] + [c] == [a, b, c];
    XorFoldSnoc([a, b, c], d);
    assert [a, b, c] + [d] == [a, b, c, d];
  }

  /** Overwriting one byte changes the fold by exactly the old and the new value. */
  lemma XorFoldUpdate(s: seq<byte>, k: nat, v: byte)
    requires k < |s|
    ensures XorFold(s[k := v]) == XorFold(s) ^ s[k] ^ v
  {
    var pre, post := s[..k], s[k + 1..];
    assert s == pre + [s[k]] + post;
    assert s[k := v] == pre + [v] + post;
    XorFoldSplit(pre, s[k], post);
    XorFoldSplit(pre, v, post);
    XorAlgebra(XorFold(pre), XorFold(post), s[k], v);
  }

  lemma XorAlgebra(a: byte, p: byte, x: byte, v: byte)
    ensures (a ^ v) ^ p == ((a ^ x) ^ p) ^ x ^ v
  {
  }

  /** Sync byte, length and message id; the length is one byte, so only `|content| % 256` reaches the wire. */
  function Header(m: Message): (h: seq<byte>)
    ensures |h| == 3 && h[0] == SYNC && h[2] == m.msgType
    ensures h[1] as int == |m.content| % 256
  {
    ByteOfInt(|m.content| % 256);
    [SYNC, (|m.content| % 256) as byte, m.msgType]
  }

  /** `checksum()`: the XOR of header and content. */
  function Checksum(m: Message): byte
  {
    XorFold(Header(m) + m.content)
  }

  /** Appended to header and content, the checksum and no other byte makes the frame fold to zero. */
  lemma ChecksumUnique(m: Message, x: byte)
    ensures XorFold(Header(m) + m.content + [x]) == 0 <==> x == Checksum(m)
  {
    XorFoldSnoc(Header(m) + m.content, x);
  }

  function Encode(m: Message): (frame: seq<byte>)
    ensures |frame| == |m.content| + 4
  {
    Header(m) + m.content + [Checksum(m)]
  }

  /**
   * The frame layout: sync, length, id, content, then a checksum that is the
   * fold of everything before it, so that the whole frame folds to zero.
   */
  lemma EncodeLayout(m: Message)
    requires |m.content| <= 255
    ensures var f := Encode(m);
      && f[0] == SYNC && f[1] as int == |m.content| && f[2] == m.msgType
      && f[3..|f| - 1] == m.content
      && f[|f| - 1] == XorFold(f[..|f| - 1])
      && XorFold(f) == 0
  {
    var f := Encode(m);
    var body := Header(m) + m.content;
    LengthByte(m);
    assert f == body + [Checksum(m)];
    assert f[..|f| - 1] == body;
    assert f[3..|f| - 1] == m.content;
    XorFoldAppend(body, [Checksum(m)]);
    assert XorFold([Checksum(m)]) == Checksum(m) by { assert [Checksum(m)][..0] == []; }
  }

  lemma LengthByte(m: Message)
    requires |m.content| <= 255
    ensures Encode(m)[1] as int == |m.content|
  {
    assert Encode(m)[1] == (|m.content| % 256) as byte;
    ByteOfInt(|m.content|);
  }

  /** What one read of a frame yields. */
  datatype ParseResult =
    | Parsed(message: Message, rest: seq<byte>)
      // MessageChecksumError: the trailing byte is not the fold of the frame
    | ChecksumError
      // the input ends before a whole frame; the source's read would still be waiting
    | Starved

  /**
   * One `_receiveMessage`: drop bytes until a sync byte, then read the frame
   * that starts there.
   */
  function Parse(input: seq<byte>): (r: ParseResult)
    ensures r.Parsed? ==> |r.message.content| + 4 + |r.rest| <= |input|
    decreases |input|
  {
    if |input| == 0 then Starved
    else if input[0] != SYNC then Parse(input[1..])
    else ReadFrame(input)
  }

  /**
   * The frame at a sync byte: read the length byte, then length + 2 bytes
   * (id, content, checksum).
   */
  function ReadFrame(input: seq<byte>): (r: ParseResult)
    requires |input| > 0 && input[0] == SYNC
    ensures r.Parsed? ==> |r.message.content| + 4 + |r.rest| <= |input|
  {
    if |input| < 2 then Starved
    else
      var size := input[1] as int;
      if |input| < size + 4 then Starved
      else
        var body := input[2..size + 4];
        var m := Message(body[0], body[1..size + 1]);
        if Checksum(m) != body[size + 1] then ChecksumError
        else Parsed(m, input[size + 4..])
  }

  /** `_receiveMessage` as a loop over the inbound byte stream. */
  method ReceiveMessage(input: seq<byte>) returns (r: ParseResult)
    ensures r == Parse(input)
  {
    var pos := 0;
    while true
      invariant 0 <= pos <= |input|
      invariant Parse(input[pos..]) == Parse(input)
      decreases |input| - pos
    {
      if pos == |input| {
        return Starved;
      }
      var frame := input[pos..];
      var transType := frame[0];
      assert frame[1..] == input[pos + 1..];
      pos := pos + 1;
      if transType == SYNC {
        if |frame| < 2 {
          return Starved;
        }
        var size := frame[1] as int;
        if |frame| < size + 4 {
          return Starved;
        }
        var body := frame[2..size + 4];
        var m := Message(body[0], body[1..size + 1]);
        if Checksum(m) != body[size + 1] {
          return ChecksumError;
        }
        return Parsed(m, frame[size + 4..]);
      }
    }
  }

  lemma ByteOfInt(n: int)
    requires 0 <= n < 256
    ensures ((n % 256) as byte) as int == n
  {
  }

  /** Reading a frame that starts right at the sync byte: the message, or a checksum error. */
  lemma ParseFrameAt(m: Message, c: byte, rest: seq<byte>)
    requires |m.content| <= 255
    ensures Parse(Header(m) + m.content + [c] + rest)
         == if c == Checksum(m) then Parsed(m, rest) else ChecksumError
  {
    var n := |m.content|;
    var input := Header(m) + m.content + [c] + rest;
    FrameFields(m, c, rest);
    ByteOfInt(n);
    assert input[0] == SYNC && input[1] as int == n && |input| >= n + 4;
    var body := input[2..n + 4];
    assert Message(body[0], body[1..n + 1]) == m && body[n + 1] == c;
  }

  lemma FrameFields(m: Message, c: byte, rest: seq<byte>)
    requires |m.content| <= 255
    ensures var n := |m.content|;
      var input := Header(m) + m.content + [c] + rest;
      && |input| == n + 4 + |rest|
      && input[0] == SYNC && input[1] == (n % 256) as byte
      && input[2..n + 4] == [m.msgType] + m.content + [c]
      && input[n + 4..] == rest
  {
    var lead: seq<byte> := [SYNC, (|m.content| % 256) as byte];
    assert Header(m) == lead + [m.msgType];
    Regroup5(lead, [m.msgType], m.content, [c], rest);
    SliceParts(lead, [m.msgType] + m.content + [c], rest);
  }

  lemma Regroup5<T>(a: seq<T>, b: seq<T>, c: seq<T>, d: seq<T>, e: seq<T>)
    ensures (a + b) + c + d + e == a + (b + c + d) + e
  {
  }

  lemma SliceParts<T>(a: seq<T>, b: seq<T>, c: seq<T>)
    ensures (a + b + c)[|a|..|a| + |b|] == b && (a + b + c)[|a| + |b|..] == c
    ensures (a + b + c)[..|a|] == a
  {
  }

  /**
   * The converse of the round trip: whatever is read is an encoded frame,
   * preceded only by bytes other than the sync byte and followed by the
   * unread rest.
   */
  lemma {:induction false} ParseDecomposes(input: seq<byte>)
    requires Parse(input).Parsed?
    ensures var m := Parse(input).message;
      var rest := Parse(input).rest;
      var k := |input| - |rest| - |m.content| - 4;
      && |m.content| <= 255 && 0 <= k
      && input[k..] == Encode(m) + rest
      && forall i :: 0 <= i < k ==> input[i] != SYNC
    decreases |input|
  {
    if input[0] != SYNC {
      ParseDecomposes(input[1..]);
      var m := Parse(input).message;
      var k := |input| - |Parse(input).rest| - |m.content| - 4;
      assert input[1..][k - 1..] == input[k..];
      forall i | 0 <= i < k
        ensures input[i] != SYNC
      {
        if i > 0 {
          assert input[i] == input[1..][i - 1];
        }
      }
    } else {
      ParsedAtSync(input);
    }
  }

  /** A frame read right at the sync byte is the encoding of the message read. */
  lemma ParsedAtSync(input: seq<byte>)
    requires |input| > 0 && input[0] == SYNC && Parse(input).Parsed?
    ensures |Parse(input).message.content| <= 255
    ensures input == Encode(Parse(input).message) + Parse(input).rest
  {
    var size := input[1] as int;
    ByteBelow(input[1]);
    ParseAtSync(input);
    FrameOfParts(input, Message(input[2], input[3..size + 3]));
  }

  /** Reading at the sync byte: the fields of the frame, as positions in the input. */
  lemma ParseAtSync(input: seq<byte>)
    requires |input| > 0 && input[0] == SYNC && ReadFrame(input).Parsed?
    ensures var size := input[1] as int; var m := Message(input[2], input[3..size + 3]);
      && |input| >= size + 4
      && ReadFrame(input) == Parsed(m, input[size + 4..])
      && Checksum(m) == input[size + 3]
  {
    var size := input[1] as int;
    SliceOfSlice(input, 2, size + 4, 1, size + 1);
  }

  /** Sync, a length byte, the id, that many content bytes and the checksum make one encoded frame. */
  lemma FrameOfParts(input: seq<byte>, m: Message)
    requires |input| >= 3 && input[0] == SYNC
    requires |m.content| == input[1] as int && |input| >= |m.content| + 4
    requires m.msgType == input[2] && m.content == input[3..|m.content| + 3]
    requires Checksum(m) == input[|m.content| + 3]
    ensures input == Encode(m) + input[|m.content| + 4..]
  {
    var j := |m.content| + 3;
    HeaderOf(m, input[1]);
    assert input[..3] == Header(m);
    assert Encode(m) == input[..3] + input[3..j] + [input[j]];
    SplitAround(input, 3, j);
  }

  lemma SliceOfSlice<T>(s: seq<T>, a: nat, b: nat, c: nat, d: nat)
    requires a <= b <= |s| && c <= d <= b - a
    ensures s[a..b][c..d] == s[a + c..a + d]
    ensures d < b - a ==> s[a..b][d] == s[a + d]
  {
    forall i | 0 <= i < d - c
      ensures s[a..b][c..d][i] == s[a + c..a + d][i]
    {
      assert s[a..b][c..d][i] == s[a..b][c + i];
    }
  }

  lemma SplitAround<T>(s: seq<T>, i: nat, j: nat)
    requires i <= j < |s|
    ensures s == s[..i] + s[i..j] + [s[j]] + s[j + 1..]
  {
  }

  lemma HeaderOf(m: Message, len: byte)
    requires |m.content| == len as int
    ensures Header(m) == [SYNC, len, m.msgType]
  {
    LengthOfByte(len);
  }

  lemma LengthOfByte(b: byte)
    ensures ((b as int % 256) as byte) == b
  {
    ByteBelow(b);
    ModSmall(b as int);
    ByteRoundTrip(b);
  }

  lemma ByteBelow(b: byte)
    ensures b as int < 256
  {
  }

  lemma ModSmall(n: int)
    requires 0 <= n < 256
    ensures n % 256 == n
  {
  }

  lemma ByteRoundTrip(b: byte)
    ensures (b as int) as byte == b
  {
  }

  /** Bytes that are not the sync byte are skipped. */
  lemma {:induction false} ParseSkips(junk: seq<byte>, input: seq<byte>)
    requires forall i :: 0 <= i < |junk| ==> junk[i] != SYNC
    ensures Parse(junk + input) == Parse(input)
    decreases |junk|
  {
    if junk != [] {
      assert (junk + input)[1..] == junk[1..] + input;
      ParseSkips(junk[1..], input);
    } else {
      assert junk + input == input;
    }
  }

  /**
   * Round trip: any bytes other than the sync byte, then an encoded message,
   * read back as that message, leaving what follows unread.
   */
  lemma ParseEncode(junk: seq<byte>, m: Message, rest: seq<byte>)
    requires |m.content| <= 255
    requires forall i :: 0 <= i < |junk| ==> junk[i] != SYNC
    ensures Parse(junk + Encode(m) + rest) == Parsed(m, rest)
  {
    assert junk + Encode(m) + rest == junk + (Header(m) + m.content + [Checksum(m)] + rest);
    ParseSkips(junk, Header(m) + m.content + [Checksum(m)] + rest);
    ParseFrameAt(m, Checksum(m), rest);
  }

  /** A frame whose trailing byte is not the fold of the rest is refused. */
  lemma ParseBadChecksum(junk: seq<byte>, m: Message, c: byte, rest: seq<byte>)
    requires |m.content| <= 255
    requires forall i :: 0 <= i < |junk| ==> junk[i] != SYNC
    requires c != Checksum(m)
    ensures Parse(junk + Header(m) + m.content + [c] + rest) == ChecksumError
  {
    assert junk + Header(m) + m.content + [c] + rest == junk + (Header(m) + m.content + [c] + rest);
    ParseSkips(junk, Header(m) + m.content + [c] + rest);
    ParseFrameAt(m, c, rest);
  }

  /**
   * Changing any one byte of the message id or the content of a frame makes
   * the read fail with a checksum error.
   */
  lemma CorruptedFrameRejected(m: Message, k: nat, v: byte, rest: seq<byte>)
    requires |m.content| <= 255
    requires 2 <= k < |m.content| + 3
    requires v != Encode(m)[k]
    ensures Parse(Encode(m)[k := v] + rest) == ChecksumError
  {
    var body := Header(m) + m.content;
    var body' := body[k := v];
    var m' := Message(body'[2], body'[3..]);
    assert Encode(m)[k := v] == body' + [Checksum(m)];
    assert Header(m') == body'[..3];
    assert Header(m') + m'.content == body';
    XorFoldUpdate(body, k, v);
    assert Checksum(m') != Checksum(m);
    ParseFrameAt(m', Checksum(m), rest);
  }
}
