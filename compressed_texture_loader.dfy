/** Loading of an ETC1 texture stored in a PKM container: the 16-byte header gives
    the big-endian width (bytes 8-9) and height (bytes 10-11); the rest is the
    compressed image, uploaded with the ETC1_RGB8_OES format. */
module CompressedTextureLoader {
  import opened Wrappers
  import opened GlConst
  import opened Host

  const PKM_HEADER_SIZE: nat := 16
  const PKM_HEADER_WIDTH_OFFSET: nat := 8
  const PKM_HEADER_HEIGHT_OFFSET: nat := 10
  const NO_TEXTURE_DATA: string := "No texture data received"

  /** What the loader takes from a PKM file. */
  datatype PkmImage = PkmImage(width: nat, height: nat, payload: seq<byte>)

  /** The value of two bytes read most significant first. */
  function BigEndian16(hi: byte, lo: byte): nat
  {
    hi as nat * 256 + lo as nat
  }

  /** The two bytes, most significant first, that hold `v`. */
  function BigEndianBytes(v: nat): (b: seq<byte>)
    requires v < 0x1_0000
    ensures |b| == 2 && BigEndian16(b[0], b[1]) == v
  {
    [(v / 256) as byte, (v % 256) as byte]
  }

  /** The header decode of `loadETC1`. Empty data is the error the loader throws;
      1 to 15 bytes make one of its typed-array views fall outside the buffer. */
  function DecodeHeader(data: seq<byte>): (r: Result<PkmImage>)
    ensures r == Err(Thrown(NO_TEXTURE_DATA)) <==> |data| == 0
    ensures r == Err(RangeError) <==> 0 < |data| < PKM_HEADER_SIZE
    ensures r.Ok? <==> |data| >= PKM_HEADER_SIZE
    ensures r.Ok? ==> r.value.width == data[8] as nat * 256 + data[9] as nat
    ensures r.Ok? ==> r.value.height == data[10] as nat * 256 + data[11] as nat
    ensures r.Ok? ==> r.value.width < 0x1_0000 && r.value.height < 0x1_0000
    ensures r.Ok? ==> r.value.payload == data[PKM_HEADER_SIZE..]
                      && |r.value.payload| == |data| - PKM_HEADER_SIZE
  {
    if |data| == 0 then Err(Thrown(NO_TEXTURE_DATA))
    else if |data| < PKM_HEADER_SIZE then Err(RangeError)
    else
      var width := BigEndian16(data[PKM_HEADER_WIDTH_OFFSET], data[PKM_HEADER_WIDTH_OFFSET + 1]);
      var height := BigEndian16(data[PKM_HEADER_HEIGHT_OFFSET], data[PKM_HEADER_HEIGHT_OFFSET + 1]);
      Ok(PkmImage(width, height, data[PKM_HEADER_SIZE..]))
  }

  /** A PKM file of an ETC1 image without mipmaps: magic "PKM ", version "10",
      type 0, the padded width and height, then the original width and height. */
  function EncodePkm(width: nat, height: nat, payload: seq<byte>): (data: seq<byte>)
    requires width < 0x1_0000 && height < 0x1_0000
    ensures |data| == PKM_HEADER_SIZE + |payload|
  {
    [0x50, 0x4B, 0x4D, 0x20] + [0x31, 0x30] + [0, 0]
    + BigEndianBytes(width) + BigEndianBytes(height)
    + BigEndianBytes(width) + BigEndianBytes(height)
    + payload
  }

  lemma BigEndianRoundTrip(hi: byte, lo: byte)
    ensures BigEndianBytes(BigEndian16(hi, lo)) == [hi, lo]
  {
    var v := BigEndian16(hi, lo);
    assert v / 256 == hi as nat && v % 256 == lo as nat by {
      DivModUnique(v, hi as nat, lo as nat);
    }
  }

  /** A value written as q·256 + r with r < 256 has quotient q and remainder r. */
  lemma DivModUnique(v: nat, q: nat, r: nat)
    requires r < 256 && v == q * 256 + r
    ensures v / 256 == q && v % 256 == r
  {
  }

  /** Any buffer of at least 16 bytes that holds w and h, most significant byte
      first, at offsets 8-11 decodes to w and h and the bytes after the header. */
  lemma DecodeFindsDimensions(data: seq<byte>, w: nat, h: nat)
    requires |data| >= PKM_HEADER_SIZE && w < 0x1_0000 && h < 0x1_0000
    requires data[8..10] == BigEndianBytes(w) && data[10..12] == BigEndianBytes(h)
    ensures DecodeHeader(data) == Ok(PkmImage(w, h, data[PKM_HEADER_SIZE..]))
  {
    assert data[8] == data[8..10][0] && data[9] == data[8..10][1];
    assert data[10] == data[10..12][0] && data[11] == data[10..12][1];
  }

  /** Encoding then decoding gives back the dimensions and the payload. */
  lemma DecodeEncode(w: nat, h: nat, payload: seq<byte>)
    requires w < 0x1_0000 && h < 0x1_0000
    ensures DecodeHeader(EncodePkm(w, h, payload)) == Ok(PkmImage(w, h, payload))
  {
    var data := EncodePkm(w, h, payload);
    assert data[8..10] == BigEndianBytes(w);
    assert data[10..12] == BigEndianBytes(h);
    assert data[PKM_HEADER_SIZE..] == payload;
    DecodeFindsDimensions(data, w, h);
  }

  /** Decoding loses nothing the loader reads: writing the decoded dimensions back
      over bytes 8-11 and the payload after the header rebuilds the buffer. */
  lemma DecodeReencodes(data: seq<byte>)
    requires DecodeHeader(data).Ok?
    ensures var img := DecodeHeader(data).value;
      data == data[..8] + BigEndianBytes(img.width) + BigEndianBytes(img.height)
              + data[12..PKM_HEADER_SIZE] + img.payload
  {
    var img := DecodeHeader(data).value;
    BigEndianRoundTrip(data[8], data[9]);
    BigEndianRoundTrip(data[10], data[11]);
    assert data == data[..8] + [data[8], data[9]] + [data[10], data[11]]
                   + data[12..PKM_HEADER_SIZE] + data[PKM_HEADER_SIZE..];
  }

  /** The calls `loadETC1` makes for a decoded image, once the texture exists. */
  function UploadCalls(texture: Option<Handle>, img: PkmImage): seq<Event>
  {
    [ BindTexture(TEXTURE_2D, texture),
      CompressedTexImage2D(TEXTURE_2D, 0, ETC1_RGB8_OES, img.width, img.height, 0, img.payload),
      TexParameteri(TEXTURE_2D, TEXTURE_MAG_FILTER, LINEAR),
      TexParameteri(TEXTURE_2D, TEXTURE_MIN_FILTER, LINEAR),
      BindTexture(TEXTURE_2D, None) ]
  }

  /** `CompressedTextureLoader.loadETC1(url, gl)`. The texture is created before the
      data is fetched, so it is created on every path; nothing else reaches the
      context unless the header decodes. */
  method LoadEtc1(url: string, gl: Context) returns (r: Result<Option<Handle>>)
    modifies gl
    ensures gl.errors == old(gl.errors) && gl.nextHandle == old(gl.nextHandle) + 1
    ensures var texture := old(gl.Next(TextureObject));
      var prefix := old(gl.trace) + [Create(TextureObject, texture), Fetch(url)];
      if url !in gl.oracle.files then
        r == Err(NetworkError) && gl.trace == prefix
      else
        var decoded := DecodeHeader(gl.oracle.files[url]);
        match decoded
        case Err(f) => r == Err(f) && gl.trace == prefix
        case Ok(img) =>
          r == Ok(texture)
          && gl.trace == prefix + UploadCalls(texture, img)
                         + [Console(Log, LoadedTexture(url, img.width, img.height))]
  {
    var texture := gl.CreateObject(TextureObject);
    var data := gl.FetchFile(url);
    if data.None? {
      return Err(NetworkError);
    }
    var decoded := DecodeHeader(data.value);
    if decoded.Err? {
      return Err(decoded.failure);
    }
    var img := decoded.value;
    gl.Emit(BindTexture(TEXTURE_2D, texture));
    gl.Emit(CompressedTexImage2D(TEXTURE_2D, 0, ETC1_RGB8_OES, img.width, img.height, 0, img.payload));
    gl.Emit(TexParameteri(TEXTURE_2D, TEXTURE_MAG_FILTER, LINEAR));
    gl.Emit(TexParameteri(TEXTURE_2D, TEXTURE_MIN_FILTER, LINEAR));
    gl.Emit(BindTexture(TEXTURE_2D, None));
    gl.Emit(Console(Log, LoadedTexture(url, img.width, img.height)));
    r := Ok(texture);
  }

  /** Header bytes [0x01, 0x00] at offset 8 and [0x00, 0x02] at offset 10
      give a 256 x 2 texture. */
  lemma HeaderExample(data: seq<byte>)
    requires |data| == PKM_HEADER_SIZE
    requires data[8] == 0x01 && data[9] == 0x00 && data[10] == 0x00 && data[11] == 0x02
    ensures DecodeHeader(data).Ok?
    ensures DecodeHeader(data).value.width == 256 && DecodeHeader(data).value.height == 2
    ensures DecodeHeader(data).value.payload == []
  {
  }
}
