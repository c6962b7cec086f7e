/** Which codec the proxy picks: the encoder for a cache hit
    (cmd/main.go:289-325), chosen by substring tests on Accept-Encoding
    rather than by the quality values of section 12.5.3 of RFC 9110, and
    the decoder for an origin response (cmd/main.go:348-358), chosen by an
    exact match on its Content-Encoding. The codecs themselves are not
    modelled. */
module Codec {
  import opened Wrappers
  import opened Text

  datatype Encoder = Brotli | Gzip | Identity

  /** strings.Contains(encodings, "br"), then "gzip", else no compression. */
  function EncoderFor(acceptEncoding: string): (e: Encoder)
    ensures e == Brotli <==> Contains(acceptEncoding, "br")
    ensures e == Gzip <==> !Contains(acceptEncoding, "br") && Contains(acceptEncoding, "gzip")
    ensures e == Identity <==> !Contains(acceptEncoding, "br") && !Contains(acceptEncoding, "gzip")
  {
    if Contains(acceptEncoding, "br") then Brotli
    else if Contains(acceptEncoding, "gzip") then Gzip
    else Identity
  }

  /** The Content-Encoding value set for an encoder; none for Identity. */
  function EncodingName(e: Encoder): Option<string>
  {
    match e
    case Brotli => Some("br")
    case Gzip => Some("gzip")
    case Identity => None
  }

  datatype Decoder = GzipReader | FlateReader | BrotliReader | Passthrough

  /** The switch on response.Header.Get("Content-Encoding"): only the exact
      tokens select a decoder; anything else, including a list of codings
      or another letter case, is read as it is. */
  function DecoderFor(contentEncoding: string): (d: Decoder)
    ensures d == GzipReader <==> contentEncoding == "gzip"
    ensures d == FlateReader <==> contentEncoding == "deflate"
    ensures d == BrotliReader <==> contentEncoding == "br"
    ensures d == Passthrough <==> contentEncoding !in {"gzip", "deflate", "br"}
  {
    match contentEncoding
    case "gzip" => GzipReader
    case "deflate" => FlateReader
    case "br" => BrotliReader
    case _ => Passthrough
  }

  /** The decoder that undoes an encoder. */
  function DecoderOf(e: Encoder): Decoder
  {
    match e
    case Brotli => BrotliReader
    case Gzip => GzipReader
    case Identity => Passthrough
  }

  /** The Content-Encoding the proxy sends for an encoder selects, on the
      way back in, the decoder of that same encoder; Identity sets none,
      and a missing header reads as "", which is passed through. */
  lemma NameSelectsDecoder(e: Encoder)
    ensures DecoderFor(EncodingName(e).GetOr("")) == DecoderOf(e)
  {
  }

  /** Substring tests ignore quality values: a client that refuses br with
      q=0 still gets br, and "gzip" anywhere in the list is enough for
      gzip. */
  lemma QualityValuesIgnored()
    ensures EncoderFor("gzip;q=1, br;q=0") == Brotli
    ensures EncoderFor("gzip") == Gzip
    ensures EncoderFor("") == Identity
  {
    var refusing := "gzip;q=1, br;q=0";
    assert refusing[10..12] == "br";
    ContainsAt(refusing, "br", 10);
    var plain := "gzip";
    assert plain[..4] == "gzip";
    PrefixContained(plain, "gzip");
    assert 'b' !in plain;
    forall j ensures !OccursAt(plain, "br", j) {
      if 0 <= j && j + 2 <= |plain| {
        assert plain[j..j + 2][0] == plain[j];
      }
    }
  }

  /** Only exact tokens are decoded. */
  lemma DecoderExamples()
    ensures DecoderFor("gzip") == GzipReader
    ensures DecoderFor("GZIP") == Passthrough
    ensures DecoderFor("gzip, br") == Passthrough
    ensures DecoderFor("") == Passthrough
  {
  }
}
