/** The ordered text-decoding fallback used when the host reads files that
    the sandbox wrote (src/utils.py and the inlined copy in save_patch).
    Real codecs are not modelled: a `Codec` gives, for each encoding, the
    strict decoding of a byte string (or `None` when it raises a
    `UnicodeError`), and the lossy utf-8 decoding that drops bad bytes. */
module Codecs {
  import opened Wrappers
  import PyText

  type Bytes = seq<bv8>

  datatype Encoding = Utf8 | Utf16 | Utf16Le | Utf16Be | Latin1

  /** The order in which encodings are tried. */
  const FallbackOrder: seq<Encoding> := [Utf8, Utf16, Utf16Le, Utf16Be, Latin1]

  datatype Codec = Codec(decode: (Encoding, Bytes) -> Option<string>, lossy: Bytes -> string)

  /** Index of the first encoding of `encs` that decodes `b`, or `|encs|`. */
  function FirstDecodable(c: Codec, encs: seq<Encoding>, b: Bytes): (k: nat)
    ensures k <= |encs|
    ensures k < |encs| ==> c.decode(encs[k], b).Some?
    ensures forall j :: 0 <= j < k ==> c.decode(encs[j], b).None?
    decreases |encs|
  {
    if encs == [] || c.decode(encs[0], b).Some? then 0
    else 1 + FirstDecodable(c, encs[1..], b)
  }

  /** The decoding `read_with_encoding_problem` settles on for the bytes of
      an existing file. */
  function Decoded(c: Codec, b: Bytes): string
  {
    var k := FirstDecodable(c, FallbackOrder, b);
    if k < |FallbackOrder| then c.decode(FallbackOrder[k], b).value else c.lossy(b)
  }

  /** The text it returns: every branch opens the file in text mode, so line
      endings arrive as `"\n"`. */
  function DecodeWithFallback(c: Codec, b: Bytes): string
  {
    PyText.UniversalNewlines(Decoded(c, b))
  }

  /** The first strict decoding that succeeds wins, in the fixed order;
      the lossy decoding is used only when all five fail. */
  lemma DecodeWithFallbackChoice(c: Codec, b: Bytes)
    ensures forall k :: (0 <= k < |FallbackOrder| && c.decode(FallbackOrder[k], b).Some?
                          && (forall j :: 0 <= j < k ==> c.decode(FallbackOrder[j], b).None?))
                        ==> Decoded(c, b) == c.decode(FallbackOrder[k], b).value
    ensures (forall j :: 0 <= j < |FallbackOrder| ==> c.decode(FallbackOrder[j], b).None?)
      <==> Decoded(c, b) == c.lossy(b) && FirstDecodable(c, FallbackOrder, b) == |FallbackOrder|
  {
  }

  /** Latin-1 decodes every byte string, so with a faithful latin-1 codec
      the lossy branch is never reached. */
  lemma Latin1MakesLossyUnreachable(c: Codec, b: Bytes)
    requires c.decode(Latin1, b).Some?
    ensures FirstDecodable(c, FallbackOrder, b) < |FallbackOrder|
  {
    assert FallbackOrder[4] == Latin1;
  }
}
