// The GIF writer: scripts/preview_slime.py, `gif_data`. Its pixels come from `indexed_frame`
// and are palette indices below 4; sizes and delays are parameters that `struct.pack` accepts.
module GifCodec {
  import opened Prelude
  import opened GifReader

  // ---------------------------------------------------------------- shifting and or-ing

  function Or(a: nat, b: nat): nat
    decreases a + b
  {
    if a == 0 && b == 0 then 0 else 2 * Or(a / 2, b / 2) + if a % 2 == 1 || b % 2 == 1 then 1 else 0
  }

  lemma {:induction false} OrZero(x: nat)
    ensures Or(0, x) == x
  {
    if x > 0 { OrZero(x / 2); }
  }

  lemma DoubleHalf(x: nat, p: nat)
    ensures x * (2 * p) / 2 == x * p && x * (2 * p) % 2 == 0
  {
    assert x * (2 * p) == 2 * (x * p);
  }

  // Or-ing a value shifted past the bits in use adds it.
  lemma {:induction false} OrShifted(a: nat, x: nat, n: nat)
    requires a < Pow2(n)
    ensures Or(a, x * Pow2(n)) == a + x * Pow2(n)
  {
    if n == 0 {
      OrZero(x);
    } else {
      DoubleHalf(x, Pow2(n - 1));
      OrShifted(a / 2, x, n - 1);
    }
  }

  lemma {:induction false} BitsJoined(a: nat, x: nat, n: nat, m: nat)
    requires a < Pow2(n)
    ensures Bits(a + x * Pow2(n), n + m) == Bits(a, n) + Bits(x, m)
  {
    if n > 0 {
      var p := x * Pow2(n - 1);
      DoubleHalf(x, Pow2(n - 1));
      assert (a + x * Pow2(n)) / 2 == a / 2 + p && (a + x * Pow2(n)) % 2 == a % 2;
      BitsJoined(a / 2, x, n - 1, m);
    }
  }

  lemma {:induction false} ByteBitsAppend(bytes: seq<Byte>, b: Byte)
    ensures ByteBits(bytes + [b]) == ByteBits(bytes) + Bits(b, 8)
  {
    if bytes != [] {
      ByteBitsAppend(bytes[1..], b);
      assert (bytes + [b])[1..] == bytes[1..] + [b];
    }
  }

  lemma {:induction false} ValueOfBits(n: nat, length: nat)
    requires n < Pow2(length)
    ensures Value(Bits(n, length)) == n
  {
    if length > 0 {
      ValueOfBits(n / 2, length - 1);
      assert Bits(n, length)[1..] == Bits(n / 2, length - 1);
    }
  }

  // ---------------------------------------------------------------- the packed codes

  const CLEAR: nat := 4
  const END: nat := 5

  predicate Palette(pixels: seq<nat>) {
    forall p | p in pixels :: p < 4
  }

  // A clear code before every pixel, three bits each.
  function PixelBits(pixels: seq<nat>): seq<bool> {
    if pixels == [] then []
    else PixelBits(pixels[..|pixels| - 1]) + (Bits(CLEAR, 3) + Bits(pixels[|pixels| - 1], 3))
  }

  function Zeros(n: nat): seq<bool> {
    seq(n, _ => false)
  }

  // The bytes hold the codes and the end code; what is left of the last byte is unused.
  ghost predicate Packed(pixels: seq<nat>, bytes: seq<Byte>) {
    exists unused: nat :: unused < 8 && ByteBits(bytes) == PixelBits(pixels) + Bits(END, 3) + Zeros(unused)
  }

  lemma PixelCode(p: nat)
    requires p < 4
    ensures Or(4, p * 8) == 4 + p * 8 && 4 + p * 8 < 64 && Bits(4 + p * 8, 6) == Bits(CLEAR, 3) + Bits(p, 3)
  {
    assert Pow2(3) == 8;
    OrShifted(4, p, 3);
    BitsJoined(4, p, 3, 3);
  }

  lemma {:induction false} ZeroBits(n: nat)
    ensures Bits(0, n) == Zeros(n)
  {
    if n > 0 {
      ZeroBits(n - 1);
      assert Zeros(n) == [false] + Zeros(n - 1);
    }
  }

  // Taking the low byte off.
  lemma LowByte(bits: nat, count: nat)
    requires count >= 8 && bits < Pow2(count)
    ensures Bits(bits, count) == Bits(bits % 256, 8) + Bits(bits / 256, count - 8) && bits / 256 < Pow2(count - 8)
  {
    Pow2Sum(8, count - 8);
    assert Pow2(8) == 256;
    assert bits == bits % 256 + bits / 256 * 256;
    BitsJoined(bits % 256, bits / 256, 8, count - 8);
  }

  lemma {:induction false} Pow2Sum(m: nat, n: nat)
    ensures Pow2(m + n) == Pow2(m) * Pow2(n)
  {
    if m > 0 { Pow2Sum(m - 1, n); }
  }

  lemma {:induction false} Pow2Grows(m: nat, n: nat)
    requires m <= n
    ensures Pow2(m) <= Pow2(n)
  {
    if m < n { Pow2Grows(m, n - 1); }
  }

  // The last byte, filled up with zero bits.
  lemma LastByte(bits: nat, count: nat)
    requires count <= 8 && bits < Pow2(count)
    ensures bits < 256 && Bits(bits, 8) == Bits(bits, count) + Zeros(8 - count)
  {
    Pow2Grows(count, 8);
    assert Pow2(8) == 256;
    BitsJoined(bits, 0, count, 8 - count);
    assert bits + 0 * Pow2(count) == bits;
    ZeroBits(8 - count);
  }

  lemma Added(bits: nat, x: nat, count: nat, n: nat)
    requires bits < Pow2(count) && x < Pow2(n)
    ensures Or(bits, x * Pow2(count)) < Pow2(count + n)
    ensures Bits(Or(bits, x * Pow2(count)), count + n) == Bits(bits, count) + Bits(x, n)
  {
    OrShifted(bits, x, count);
    BitsJoined(bits, x, count, n);
    Pow2Sum(n, count);
    AddedBound(bits, x, Pow2(count), Pow2(n));
    assert n + count == count + n;
  }

  lemma AddedBound(bits: nat, x: nat, p: nat, q: nat)
    requires bits < p && x < q
    ensures bits + x * p < q * p
  {
    assert (x + 1) * p <= q * p;
  }

  // One byte out of the low end.
  method Shift(encoded: seq<Byte>, bits: nat, count: nat) returns (encoded': seq<Byte>, bits': nat, count': nat)
    requires count >= 8 && bits < Pow2(count)
    ensures count' == count - 8 && bits' < Pow2(count')
    ensures ByteBits(encoded') + Bits(bits', count') == ByteBits(encoded) + Bits(bits, count)
  {
    var low: Byte := bits % 256;
    LowByte(bits, count);
    ByteBitsAppend(encoded, low);
    encoded' := encoded + [low];
    bits', count' := bits / 256, count - 8;
    Regrouped(ByteBits(encoded), Bits(low, 8), Bits(bits', count'));
  }

  lemma Regrouped(a: seq<bool>, b: seq<bool>, c: seq<bool>)
    ensures (a + b) + c == a + (b + c)
  {
  }

  method Drain(encoded: seq<Byte>, bits: nat, count: nat) returns (encoded': seq<Byte>, bits': nat, count': nat)
    requires bits < Pow2(count)
    ensures count' < 8 && bits' < Pow2(count')
    ensures ByteBits(encoded') + Bits(bits', count') == ByteBits(encoded) + Bits(bits, count)
  {
    encoded', bits', count' := encoded, bits, count;
    while count' >= 8
      invariant bits' < Pow2(count')
      invariant ByteBits(encoded') + Bits(bits', count') == ByteBits(encoded) + Bits(bits, count)
    {
      encoded', bits', count' := Shift(encoded', bits', count');
    }
  }

  method Pack(pixels: seq<nat>) returns (encoded: seq<Byte>)
    requires Palette(pixels)
    ensures Packed(pixels, encoded)
  {
    encoded := [];
    var bits: nat, count: nat := 0, 0;
    for i := 0 to |pixels|
      invariant count < 8 && bits < Pow2(count)
      invariant ByteBits(encoded) + Bits(bits, count) == PixelBits(pixels[..i])
    {
      var pixel := pixels[i];
      assert pixel in pixels;
      assert pixels[..i + 1][..i] == pixels[..i];
      bits, count := Push(encoded, bits, count, pixel);
      encoded, bits, count := Drain(encoded, bits, count);
    }
    assert pixels[..|pixels|] == pixels;
    assert Pow2(3) == 8;
    Added(bits, END, count, 3);
    Regrouped(ByteBits(encoded), Bits(bits, count), Bits(END, 3));
    bits := Or(bits, END * Pow2(count));
    encoded := Flush(encoded, bits, count + 3, PixelBits(pixels) + Bits(END, 3));
  }

  // A clear code and a pixel behind the bits not yet written.
  method Push(ghost encoded: seq<Byte>, bits: nat, count: nat, pixel: nat) returns (bits': nat, count': nat)
    requires pixel < 4 && bits < Pow2(count)
    ensures count' == count + 6 && bits' < Pow2(count')
    ensures ByteBits(encoded) + Bits(bits', count') ==
      ByteBits(encoded) + Bits(bits, count) + (Bits(CLEAR, 3) + Bits(pixel, 3))
  {
    PushedBits(bits, count, pixel);
    bits', count' := Or(bits, Or(4, pixel * 8) * Pow2(count)), count + 6;
    Regrouped(ByteBits(encoded), Bits(bits, count), Bits(CLEAR, 3) + Bits(pixel, 3));
  }

  lemma PushedBits(bits: nat, count: nat, pixel: nat)
    requires pixel < 4 && bits < Pow2(count)
    ensures var after := Or(bits, Or(4, pixel * 8) * Pow2(count));
      after < Pow2(count + 6) && Bits(after, count + 6) == Bits(bits, count) + (Bits(CLEAR, 3) + Bits(pixel, 3))
  {
    PixelCode(pixel);
    assert Pow2(6) == 64;
    Added(bits, 4 + pixel * 8, count, 6);
  }

  // What is still to be written; below zero, `todo` counts the unused bits of the last byte.
  ghost predicate Pending(out: seq<Byte>, left: nat, todo: int, all: seq<bool>) {
    if todo > 0 then left < Pow2(todo) && ByteBits(out) + Bits(left, todo) == all
    else todo > -8 && ByteBits(out) == all + Zeros(-todo)
  }

  lemma FullByte(out: seq<Byte>, left: nat, todo: nat, all: seq<bool>, low: Byte, high: nat)
    requires Pending(out, left, todo, all) && todo >= 8 && low == left % 256 && high == left / 256
    ensures Pending(out + [low], high, todo - 8, all)
  {
    LowByte(left, todo);
    ByteBitsAppend(out, low);
    Regrouped(ByteBits(out), Bits(low, 8), Bits(high, todo - 8));
    if todo == 8 {
      assert ByteBits(out + [low]) + Bits(high, 0) == ByteBits(out + [low]) + Zeros(0);
      assert all + Zeros(0) == all;
    }
  }

  lemma FinalByte(out: seq<Byte>, left: nat, todo: nat, all: seq<bool>, low: Byte)
    requires left < Pow2(todo) && ByteBits(out) + Bits(left, todo) == all && 0 < todo < 8 && low == left % 256
    ensures ByteBits(out + [low]) == all + Zeros(8 - todo)
  {
    LowIsAll(left, todo);
    Filled(out, Bits(left, todo), Zeros(8 - todo), all, low);
  }

  lemma LowIsAll(left: nat, todo: nat)
    requires left < Pow2(todo) && 0 < todo < 8
    ensures left % 256 == left && Bits(left % 256, 8) == Bits(left, todo) + Zeros(8 - todo)
  {
    LastByte(left, todo);
  }

  lemma Filled(out: seq<Byte>, b: seq<bool>, z: seq<bool>, all: seq<bool>, low: Byte)
    requires ByteBits(out) + b == all && Bits(low, 8) == b + z
    ensures ByteBits(out + [low]) == all + z
  {
    ByteBitsAppend(out, low);
    Regrouped(ByteBits(out), b, z);
  }

  // The rest of the bits in whole bytes.
  method Flush(encoded: seq<Byte>, bits: nat, count: nat, ghost all: seq<bool>) returns (out: seq<Byte>)
    requires 0 < count && bits < Pow2(count) && ByteBits(encoded) + Bits(bits, count) == all
    ensures exists unused: nat :: unused < 8 && ByteBits(out) == all + Zeros(unused)
  {
    var left: nat, todo: int := bits, count;
    out := encoded;
    while todo > 0
      invariant Pending(out, left, todo, all)
    {
      if todo >= 8 {
        FullByte(out, left, todo, all, left % 256, left / 256);
      } else {
        FinalByte(out, left, todo, all, left % 256);
      }
      out := out + [left % 256];
      left, todo := left / 256, todo - 8;
    }
  }

  // ---------------------------------------------------------------- reading the codes back

  lemma {:induction false} FirstPixel(pixels: seq<nat>)
    requires pixels != []
    ensures PixelBits(pixels) == Bits(CLEAR, 3) + (Bits(pixels[0], 3) + PixelBits(pixels[1..]))
  {
    var n := |pixels| - 1;
    var last := Bits(CLEAR, 3) + Bits(pixels[n], 3);
    if n == 0 {
      assert PixelBits(pixels[1..]) == [] && PixelBits(pixels[..0]) == [];
      assert PixelBits(pixels) == Bits(CLEAR, 3) + Bits(pixels[0], 3);
    } else {
      FirstPixel(pixels[..n]);
      assert pixels[..n][1..] == pixels[1..][..n - 1];
      Reassociated(Bits(CLEAR, 3), Bits(pixels[0], 3), PixelBits(pixels[..n][1..]), last);
    }
  }

  lemma Reassociated(a: seq<bool>, b: seq<bool>, c: seq<bool>, d: seq<bool>)
    ensures (a + (b + c)) + d == a + (b + (c + d))
  {
  }

  lemma OneCode(code: nat, rest: seq<bool>, bits: seq<bool>)
    requires code < 8 && bits == Bits(code, 3) + rest
    ensures |bits| >= 3 && Value(bits[..3]) == code && bits[3..] == rest
  {
    assert Pow2(3) == 8;
    ValueOfBits(code, 3);
    assert bits[..3] == Bits(code, 3);
  }

  lemma StartTable()
    ensures Pow2(2) == 4 && Start(2).width == 3 && Start(2).last == []
    ensures forall p: nat | p < 4 :: WordOf(Start(2), p) == Some([p])
  {
    assert Pow2(1) == 2;
    var words := seq(Pow2(2), i => [i]);
    forall p: nat | p < 4
      ensures WordOf(Start(2), p) == Some([p])
    {
      assert Start(2).words[p] == words[p] == [p];
    }
  }

  // One clear code and one pixel.
  lemma DecodePixel(p: nat, rest: seq<bool>, bits: seq<bool>, t: Table)
    requires p < 4 && t.width == 3 && bits == Bits(CLEAR, 3) + (Bits(p, 3) + rest)
    ensures Decode(bits, 2, t) == Widened(Widened(Decode(rest, 2, Start(2).(last := [p])), [p], 3), [], 3)
  {
    StartTable();
    OneCode(CLEAR, Bits(p, 3) + rest, bits);
    OneCode(p, rest, Bits(p, 3) + rest);
    assert Decode(bits, 2, t) == Widened(Decode(Bits(p, 3) + rest, 2, Start(2)), [], 3);
  }

  lemma {:induction false} DecodePixels(pixels: seq<nat>, tail: seq<bool>, bits: seq<bool>, t: Table)
    requires Palette(pixels) && t.width == 3 && |tail| >= 3 && tail[..3] == Bits(END, 3)
    requires bits == PixelBits(pixels) + tail
    ensures Decode(bits, 2, t) == Some(Decoded(pixels, 3))
    decreases |pixels|
  {
    if pixels == [] {
      StartTable();
      assert bits == tail == Bits(END, 3) + tail[3..];
      OneCode(END, tail[3..], tail);
    } else {
      var p, rest := pixels[0], PixelBits(pixels[1..]) + tail;
      assert p in pixels && forall q | q in pixels[1..] :: q in pixels;
      StartTable();
      FirstPixel(pixels);
      Reassociated(Bits(CLEAR, 3), Bits(p, 3), PixelBits(pixels[1..]), tail);
      DecodePixel(p, rest, bits, t);
      DecodePixels(pixels[1..], tail, rest, Start(2).(last := [p]));
      assert [p] + pixels[1..] == pixels && [] + pixels == pixels;
    }
  }

  // The packed bytes decode to the pixels, and the codes never get wider than three bits.
  lemma PackedDecodes(pixels: seq<nat>, bytes: seq<Byte>)
    requires Palette(pixels) && Packed(pixels, bytes)
    ensures Decode(ByteBits(bytes), 2, Start(2)) == Some(Decoded(pixels, 3))
  {
    var unused: nat :| unused < 8 && ByteBits(bytes) == PixelBits(pixels) + Bits(END, 3) + Zeros(unused);
    StartTable();
    var tail := Bits(END, 3) + Zeros(unused);
    assert PixelBits(pixels) + Bits(END, 3) + Zeros(unused) == PixelBits(pixels) + tail;
    DecodePixels(pixels, tail, ByteBits(bytes), Start(2));
  }

  // ---------------------------------------------------------------- sub-blocks

  const MOST := 255

  function Blocks(data: seq<Byte>): seq<Byte> {
    if data == [] then [0]
    else
      var n := if |data| < MOST then |data| else MOST;
      [n as Byte] + data[..n] + Blocks(data[n..])
  }

  lemma {:induction false} BlocksRead(data: seq<Byte>, rest: seq<Byte>)
    ensures Unblocked(Blocks(data) + rest) == Some((data, rest))
    decreases |data|
  {
    var bytes := Blocks(data) + rest;
    if data != [] {
      var n := if |data| < MOST then |data| else MOST;
      BlocksRead(data[n..], rest);
      assert bytes[1 + n..] == Blocks(data[n..]) + rest;
      assert bytes[1..1 + n] == data[..n];
      assert data[..n] + data[n..] == data;
    }
  }

  method Block(data: seq<Byte>, encoded: seq<Byte>) returns (out: seq<Byte>)
    ensures out == data + Blocks(encoded)
  {
    out := data;
    var offset := 0;
    while offset < |encoded|
      invariant offset <= |encoded| && out + Blocks(encoded[offset..]) == data + Blocks(encoded)
    {
      var end := if offset + MOST < |encoded| then offset + MOST else |encoded|;
      var block := encoded[offset..end];
      ghost var left := encoded[offset..];
      assert left[..end - offset] == block && left[end - offset..] == encoded[end..];
      assert Blocks(left) == [|block| as Byte] + block + Blocks(encoded[end..]);
      assert out + Blocks(left) == out + [|block| as Byte] + block + Blocks(encoded[end..]);
      out := out + [|block| as Byte] + block;
      offset := end;
    }
    out := out + [0];
  }

  // ---------------------------------------------------------------- the file

  datatype Frame = Frame(delay: nat, pixels: seq<nat>)

  predicate Short(n: nat) {
    n < 65536
  }

  function Low(n: nat): Byte {
    n % 256
  }

  function High(n: nat): Byte
    requires Short(n)
  {
    n / 256
  }

  function Header(width: nat, height: nat): seq<Byte>
    requires Short(width) && Short(height)
  {
    SIGNATURE + [Low(width), High(width), Low(height), High(height), 0xF1, 0, 0]
  }

  const COLORS: seq<Byte> := [24, 25, 25, 220, 121, 95, 232, 184, 102, 255, 255, 255]

  const LOOP: seq<Byte> := [0x21, 0xFF, 11, 78, 69, 84, 83, 67, 65, 80, 69, 50, 46, 48, 3, 1, 0, 0, 0]

  function Control(delay: nat): seq<Byte>
    requires Short(delay)
  {
    [0x21, 0xF9, 4, 4, Low(delay), High(delay), 0, 0]
  }

  function Descriptor(width: nat, height: nat): seq<Byte>
    requires Short(width) && Short(height)
  {
    [0x2C, 0, 0, 0, 0, Low(width), High(width), Low(height), High(height), 0]
  }

  predicate Writable(frame: Frame) {
    Short(frame.delay) && Palette(frame.pixels)
  }

  function Shown(width: nat, height: nat, frames: seq<Frame>): (images: seq<Image>)
    ensures |images| == |frames|
  {
    seq(|frames|, i requires 0 <= i < |frames| => Image(frames[i].delay, width, height, frames[i].pixels))
  }

  // The bytes of one frame.
  ghost predicate Holds(width: nat, height: nat, frame: Frame, bytes: seq<Byte>)
    requires Short(width) && Short(height)
  {
    Writable(frame) && exists encoded ::
      Packed(frame.pixels, encoded)
        && bytes == Control(frame.delay) + (Descriptor(width, height) + ([2] + Blocks(encoded)))
  }

  ghost predicate HoldAll(width: nat, height: nat, frames: seq<Frame>, chunks: seq<seq<Byte>>)
    requires Short(width) && Short(height)
  {
    |chunks| == |frames| && forall k | 0 <= k < |frames| :: Holds(width, height, frames[k], chunks[k])
  }

  ghost predicate Written(data: seq<Byte>, out: seq<Byte>, width: nat, height: nat, frames: seq<Frame>,
                          chunks: seq<seq<Byte>>)
    requires Short(width) && Short(height)
  {
    out == data + Joined(chunks) && HoldAll(width, height, frames, chunks)
  }

  lemma WrittenMore(data: seq<Byte>, out: seq<Byte>, width: nat, height: nat, frames: seq<Frame>,
                    chunks: seq<seq<Byte>>,
                    chunk: seq<Byte>, i: nat)
    requires Short(width) && Short(height) && i < |frames|
    requires Written(data, out, width, height, frames[..i], chunks) && Holds(width, height, frames[i], chunk)
    ensures Written(data, out + chunk, width, height, frames[..i + 1], chunks + [chunk])
  {
    JoinedAppend(chunks, chunk);
    HoldOneMore(width, height, frames, chunks, chunk, i);
  }

  lemma HoldOneMore(width: nat, height: nat, frames: seq<Frame>, chunks: seq<seq<Byte>>, chunk: seq<Byte>, i: nat)
    requires Short(width) && Short(height) && i < |frames|
    requires HoldAll(width, height, frames[..i], chunks) && Holds(width, height, frames[i], chunk)
    ensures HoldAll(width, height, frames[..i + 1], chunks + [chunk])
  {
    forall k | 0 <= k < i + 1
      ensures Holds(width, height, frames[..i + 1][k], (chunks + [chunk])[k])
    {
      if k < i { assert Holds(width, height, frames[..i][k], chunks[k]); }
    }
  }

  function Joined(chunks: seq<seq<Byte>>): seq<Byte> {
    if chunks == [] then [] else chunks[0] + Joined(chunks[1..])
  }

  lemma {:induction false} JoinedAppend(chunks: seq<seq<Byte>>, chunk: seq<Byte>)
    ensures Joined(chunks + [chunk]) == Joined(chunks) + chunk
  {
    if chunks == [] {
      assert chunks + [chunk] == [chunk] && Joined([chunk]) == chunk + Joined([]);
    } else {
      JoinedAppend(chunks[1..], chunk);
      assert (chunks + [chunk])[1..] == chunks[1..] + [chunk];
    }
  }

  lemma WordBack(n: nat)
    requires Short(n)
    ensures Word(Low(n), High(n)) == n
  {
  }

  lemma ControlRead(delay: nat, rest: seq<Byte>, before: nat)
    requires Short(delay)
    ensures Images(Control(delay) + rest, before) == Images(rest, delay)
  {
    var bytes := Control(delay) + rest;
    var data: seq<Byte> := [4, Low(delay), High(delay), 0];
    assert bytes[2..] == [4 as Byte] + data + ([0 as Byte] + rest);
    assert bytes[2..][5..] == [0 as Byte] + rest && ([0 as Byte] + rest)[1..] == rest;
    assert bytes[2..][1..5] == data;
    assert data + [] == data;
    assert Unblocked(bytes[2..]) == Some((data, rest));
    WordBack(delay);
  }

  lemma PixelsRead(pixels: seq<nat>, encoded: seq<Byte>, rest: seq<Byte>)
    requires Palette(pixels) && Packed(pixels, encoded)
    ensures ImageData([2] + Blocks(encoded) + rest, 0) == Some((pixels, rest))
  {
    var bytes: seq<Byte> := [2] + Blocks(encoded) + rest;
    assert bytes[1..] == Blocks(encoded) + rest;
    BlocksRead(encoded, rest);
    PackedDecodes(pixels, encoded);
  }

  lemma ImageRead(width: nat, height: nat, pixels: seq<nat>, encoded: seq<Byte>, rest: seq<Byte>, delay: nat)
    requires Short(width) && Short(height) && Palette(pixels) && Packed(pixels, encoded)
    ensures var images := Images(rest, 0);
      Images(Descriptor(width, height) + ([2] + Blocks(encoded) + rest), delay) ==
        if images.None? then None else Some([Image(delay, width, height, pixels)] + images.value)
  {
    var more: seq<Byte> := [2] + Blocks(encoded) + rest;
    var bytes := Descriptor(width, height) + more;
    assert bytes[10..] == more;
    PixelsRead(pixels, encoded, rest);
    WordBack(width);
    WordBack(height);
  }

  lemma FrameRead(width: nat, height: nat, frame: Frame, bytes: seq<Byte>, rest: seq<Byte>)
    requires Short(width) && Short(height) && Holds(width, height, frame, bytes)
    ensures var images := Images(rest, 0);
      Images(bytes + rest, 0) == if images.None? then None
        else Some([Image(frame.delay, width, height, frame.pixels)] + images.value)
  {
    var encoded :| Packed(frame.pixels, encoded)
      && bytes == Control(frame.delay) + (Descriptor(width, height) + ([2] + Blocks(encoded)));
    var more := Descriptor(width, height) + ([2] + Blocks(encoded) + rest);
    assert bytes + rest == Control(frame.delay) + more;
    ControlRead(frame.delay, more, 0);
    ImageRead(width, height, frame.pixels, encoded, rest, frame.delay);
  }

  lemma {:induction false} FramesRead(width: nat, height: nat, frames: seq<Frame>, chunks: seq<seq<Byte>>)
    requires Short(width) && Short(height) && HoldAll(width, height, frames, chunks)
    ensures Images(Joined(chunks) + [TRAILER], 0) == Some(Shown(width, height, frames))
    decreases |frames|
  {
    if frames == [] {
      assert Joined(chunks) + [TRAILER] == [TRAILER];
    } else {
      var rest := Joined(chunks[1..]) + [TRAILER];
      FramesRead(width, height, frames[1..], chunks[1..]);
      assert Joined(chunks) + [TRAILER] == chunks[0] + rest;
      FrameRead(width, height, frames[0], chunks[0], rest);
      assert [Image(frames[0].delay, width, height, frames[0].pixels)] + Shown(width, height, frames[1..]) ==
        Shown(width, height, frames);
    }
  }

  lemma LoopRead(rest: seq<Byte>)
    ensures Images(LOOP + rest, 0) == Images(rest, 0)
  {
    var bytes := LOOP + rest;
    var second := bytes[14..];
    assert second == [3, 1, 0, 0] + ([0 as Byte] + rest);
    assert second[4..] == [0 as Byte] + rest && ([0 as Byte] + rest)[1..] == rest;
    assert Unblocked(second[4..]) == Some(([], rest));
    assert Unblocked(second) == Some((second[1..4] + [], rest));
    assert bytes[2..][12..] == second;
    assert Unblocked(bytes[2..]) == Some((bytes[2..][1..12] + (second[1..4] + []), rest));
  }

  // The whole file: a reader finds the size, and every frame with its delay and its pixels, in
  // order.
  method GifData(width: nat, height: nat, frames: seq<Frame>) returns (data: seq<Byte>)
    requires Short(width) && Short(height) && forall f | f in frames :: Writable(f)
    ensures Read(data) == Some(Movie(width, height, Shown(width, height, frames)))
  {
    data := Opening(width, height);
    ghost var start := data;
    ghost var chunks: seq<seq<Byte>>;
    data, chunks := AddFrames(data, width, height, frames);
    FramesRead(width, height, frames, chunks);
    ghost var body := Joined(chunks) + [TRAILER];
    data := data + [TRAILER];
    assert data == start + body;
  }

  method AddFrames(data: seq<Byte>, width: nat, height: nat, frames: seq<Frame>)
    returns (out: seq<Byte>, ghost chunks: seq<seq<Byte>>)
    requires Short(width) && Short(height) && forall f | f in frames :: Writable(f)
    ensures Written(data, out, width, height, frames, chunks)
  {
    out, chunks := data, [];
    for i := 0 to |frames|
      invariant Written(data, out, width, height, frames[..i], chunks)
    {
      assert frames[i] in frames;
      ghost var chunk: seq<Byte>;
      out, chunk := AddFrame(out, width, height, frames[i]);
      WrittenMore(data, out[..|out| - |chunk|], width, height, frames, chunks, chunk, i);
      chunks := chunks + [chunk];
    }
    assert frames[..|frames|] == frames;
  }

  // The bytes before the first frame.
  method Opening(width: nat, height: nat) returns (data: seq<Byte>)
    requires Short(width) && Short(height)
    ensures forall body :: Read(data + body) == OpeningRead(width, height, Images(body, 0))
  {
    data := Header(width, height);
    data := data + COLORS;
    data := data + LOOP;
    forall body
      ensures Read(data + body) == OpeningRead(width, height, Images(body, 0))
    {
      HeaderRead(width, height, body);
    }
  }

  function OpeningRead(width: nat, height: nat, images: Option<seq<Image>>): Option<Movie> {
    if images.None? then None else Some(Movie(width, height, images.value))
  }

  method AddFrame(data: seq<Byte>, width: nat, height: nat, frame: Frame)
    returns (out: seq<Byte>, ghost chunk: seq<Byte>)
    requires Short(width) && Short(height) && Writable(frame)
    ensures out == data + chunk && Holds(width, height, frame, chunk)
  {
    var encoded := Pack(frame.pixels);
    out := data + Control(frame.delay);
    out := out + Descriptor(width, height);
    out := out + [2];
    chunk := Control(frame.delay) + (Descriptor(width, height) + ([2] + Blocks(encoded)));
    Appended(data, Control(frame.delay), Descriptor(width, height), [2], Blocks(encoded));
    out := Block(out, encoded);
  }

  lemma Appended(data: seq<Byte>, a: seq<Byte>, b: seq<Byte>, c: seq<Byte>, d: seq<Byte>)
    ensures data + a + b + c + d == data + (a + (b + (c + d)))
  {
  }

  lemma HeaderRead(width: nat, height: nat, body: seq<Byte>)
    requires Short(width) && Short(height)
    ensures Read(Header(width, height) + COLORS + LOOP + body) == OpeningRead(width, height, Images(body, 0))
  {
    var bytes := Header(width, height) + COLORS + LOOP + body;
    assert bytes[..6] == SIGNATURE;
    assert bytes[10] == 0xF1;
    ColorsSize();
    assert bytes[25..] == LOOP + body;
    LoopRead(body);
    WordBack(width);
    WordBack(height);
    assert Word(bytes[6], bytes[7]) == width && Word(bytes[8], bytes[9]) == height;
  }

  lemma ColorsSize()
    ensures TableSize(0xF1) == 12 == |COLORS|
  {
    assert Pow2(2) == 4;
  }
}
