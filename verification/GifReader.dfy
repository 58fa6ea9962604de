// How a reader of animated GIF files understands one: GIF89a, section 15 (data sub-blocks),
// sections 18 to 27 (the blocks of a file), and Appendix F (variable-length-code LZW).
module GifReader {
  import opened Prelude

  type Byte = b: nat | b < 256

  function Pow2(n: nat): (p: nat)
    ensures p >= 1
  {
    if n == 0 then 1 else 2 * Pow2(n - 1)
  }

  // ---------------------------------------------------------------- bits, least significant first

  function Bits(n: nat, length: nat): (bits: seq<bool>)
    ensures |bits| == length
  {
    if length == 0 then [] else [n % 2 == 1] + Bits(n / 2, length - 1)
  }

  function Value(bits: seq<bool>): nat {
    if bits == [] then 0 else (if bits[0] then 1 else 0) + 2 * Value(bits[1..])
  }

  function ByteBits(bytes: seq<Byte>): seq<bool> {
    if bytes == [] then [] else Bits(bytes[0], 8) + ByteBits(bytes[1..])
  }

  // ---------------------------------------------------------------- Appendix F

  // `last` is the word of the code before, if there was one since the last clear code.
  datatype Table = Table(words: seq<seq<nat>>, width: nat, last: seq<nat>)

  datatype Decoded = Decoded(pixels: seq<nat>, widest: nat)

  const MOST_CODES := 4096
  const MOST_BITS := 12

  function Start(size: nat): Table {
    Table(seq(Pow2(size), i => [i]) + [[], []], size + 1, [])
  }

  // A new word, and one more bit when the codes of the present width are used up.
  function Grown(t: Table, word: seq<nat>): Table {
    if |t.words| >= MOST_CODES then t
    else
      var words := t.words + [word];
      t.(words := words, width := if |words| == Pow2(t.width) && t.width < MOST_BITS then t.width + 1 else t.width)
  }

  // The word of a code, which may be the one about to be added.
  function WordOf(t: Table, code: nat): Option<seq<nat>> {
    if code < |t.words| then if t.words[code] == [] then None else Some(t.words[code])
    else if code == |t.words| && t.last != [] then Some(t.last + [t.last[0]])
    else None
  }

  function Decode(bits: seq<bool>, size: nat, t: Table): Option<Decoded>
    requires 0 < t.width
    decreases |bits|
  {
    if |bits| < t.width then None
    else
      var code, rest := Value(bits[..t.width]), bits[t.width..];
      if code == Pow2(size) then Widened(Decode(rest, size, Start(size)), [], t.width)
      else if code == Pow2(size) + 1 then Some(Decoded([], t.width))
      else match WordOf(t, code)
        case None => None
        case Some(word) =>
          var next := if t.last == [] then t else Grown(t, t.last + [word[0]]);
          Widened(Decode(rest, size, next.(last := word)), word, t.width)
  }

  function Widened(d: Option<Decoded>, word: seq<nat>, width: nat): Option<Decoded> {
    if d.None? then None
      else Some(Decoded(word + d.value.pixels, if width > d.value.widest then width else d.value.widest))
  }

  // ---------------------------------------------------------------- section 15

  // The data of a chain of sub-blocks and what follows its terminator.
  function Unblocked(bytes: seq<Byte>): (r: Option<(seq<Byte>, seq<Byte>)>)
    ensures r.Some? ==> |r.value.1| < |bytes|
    decreases |bytes|
  {
    if bytes == [] then None
    else if bytes[0] == 0 then Some(([], bytes[1..]))
    else
      var end: nat := 1 + bytes[0] as nat;
      if |bytes| < end then None
      else
        var rest := Unblocked(bytes[end..]);
        if rest.None? then None else Some((bytes[1..end] + rest.value.0, rest.value.1))
  }

  // ---------------------------------------------------------------- a file

  const EXTENSION: Byte := 0x21
  const CONTROL: Byte := 0xF9
  const IMAGE: Byte := 0x2C
  const TRAILER: Byte := 0x3B

  datatype Image = Image(delay: nat, width: nat, height: nat, pixels: seq<nat>)

  datatype Movie = Movie(width: nat, height: nat, images: seq<Image>)

  function Word(low: Byte, high: Byte): nat {
    low + 256 * high
  }

  // The size of the color table announced by a packed byte.
  function TableSize(flags: Byte): nat {
    if flags >= 128 then 3 * Pow2(flags % 8 + 1) else 0
  }

  predicate Interlaced(flags: Byte) {
    flags / 64 % 2 == 1
  }

  // The rest of an image: its color table, if any, the code size and the coded pixels.
  function ImageData(bytes: seq<Byte>, table: nat): (r: Option<(seq<nat>, seq<Byte>)>)
    ensures r.Some? ==> |r.value.1| < |bytes|
  {
    if |bytes| < table + 1 then None
    else
      var size, data := bytes[table], Unblocked(bytes[table + 1..]);
      if data.None? then None
      else
        var decoded := Decode(ByteBits(data.value.0), size, Start(size));
        if decoded.None? then None else Some((decoded.value.pixels, data.value.1))
  }

  // Images up to the trailer; a control extension gives the delay of the next image.
  function Images(bytes: seq<Byte>, delay: nat): Option<seq<Image>>
    decreases |bytes|
  {
    if bytes == [] then None
    else if bytes[0] == TRAILER then Some([])
    else if bytes[0] == EXTENSION && |bytes| > 1 then
      var data := Unblocked(bytes[2..]);
      if data.None? then None
      else if bytes[1] == CONTROL
        && |data.value.0| == 4 then Images(data.value.1, Word(data.value.0[1], data.value.0[2]))
      else Images(data.value.1, delay)
    else if bytes[0] == IMAGE && |bytes| >= 10 && !Interlaced(bytes[9]) then
      var image := ImageData(bytes[10..], TableSize(bytes[9]));
      if image.None? then None
      else
        var rest := Images(image.value.1, 0);
        if rest.None? then None
        else Some([Image(delay, Word(bytes[5], bytes[6]), Word(bytes[7], bytes[8]), image.value.0)] + rest.value)
    else None
  }

  const SIGNATURE: seq<Byte> := [0x47, 0x49, 0x46, 0x38, 0x39, 0x61]

  function Read(bytes: seq<Byte>): Option<Movie> {
    if |bytes| < 13 || bytes[..6] != SIGNATURE then None
    else
      var table := TableSize(bytes[10]);
      if |bytes| < 13 + table then None
      else
        var images := Images(bytes[13 + table..], 0);
        if images.None? then None else Some(Movie(Word(bytes[6], bytes[7]), Word(bytes[8], bytes[9]), images.value))
  }
}
