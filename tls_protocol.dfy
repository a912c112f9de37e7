/**
 * The negotiated application protocol (ALPN) of a TLS session, in its owned and
 * borrowed forms, and the way both are shown by `Debug`.
 */
module TlsProtocol {
  import Utf8

  type Byte = Utf8.Byte

  /** `NegotiatedProtocol(Vec<u8>)`: an owned copy of the ALPN protocol id. */
  datatype NegotiatedProtocol = NegotiatedProtocol(bytes: seq<Byte>)

  /** `NegotiatedProtocolRef<'t>(&'t [u8])`: a borrowed view of the same bytes. */
  datatype NegotiatedProtocolRef = NegotiatedProtocolRef(bytes: seq<Byte>)

  /**
   * What `Debug` writes, up to the formatter's own rendering: the bytes as a string
   * literal when they are UTF-8, otherwise as a list of byte values.
   */
  datatype DebugView = Text(text: string) | ByteList(list: seq<Byte>)

  /** `NegotiatedProtocol::as_ref`: borrows the owned bytes. */
  function AsRef(p: NegotiatedProtocol): (r: NegotiatedProtocolRef)
    ensures r.bytes == p.bytes
  {
    NegotiatedProtocolRef(p.bytes)
  }

  /** `NegotiatedProtocolRef::to_owned`: copies the borrowed bytes. */
  function ToOwned(r: NegotiatedProtocolRef): (p: NegotiatedProtocol)
    ensures p.bytes == r.bytes
  {
    NegotiatedProtocol(r.bytes)
  }

  /** `From<NegotiatedProtocolRef> for NegotiatedProtocol`: defined by `to_owned`. */
  function FromRef(r: NegotiatedProtocolRef): (p: NegotiatedProtocol)
    ensures p.bytes == r.bytes
    ensures p == ToOwned(r)
  {
    ToOwned(r)
  }

  /** Borrowing and copying back gives the protocol one started with, and the converse. */
  lemma AsRefToOwned(p: NegotiatedProtocol, r: NegotiatedProtocolRef)
    ensures ToOwned(AsRef(p)) == p
    ensures AsRef(ToOwned(r)) == r
    ensures FromRef(AsRef(p)) == p
  {
  }

  /** The selection `Debug` makes for a byte string: text when it is UTF-8, a byte list otherwise. */
  function DebugBytes(b: seq<Byte>): (d: DebugView)
    ensures d.Text? <==> Utf8.Decode(b).Some?
    ensures d.Text? ==> Utf8.Encode(d.text) == b
    ensures d.ByteList? ==> d.list == b
  {
    match Utf8.Decode(b)
    case Some(s) =>
      Utf8.EncodeDecode(b);
      Text(s)
    case None => ByteList(b)
  }

  /** `Debug for NegotiatedProtocolRef`. */
  function DebugRef(r: NegotiatedProtocolRef): (d: DebugView)
    ensures d == DebugBytes(r.bytes)
  {
    DebugBytes(r.bytes)
  }

  /** `Debug for NegotiatedProtocol`: formats through a ref over the same bytes. */
  function Debug(p: NegotiatedProtocol): (d: DebugView)
    ensures d == DebugRef(AsRef(p))
  {
    DebugRef(NegotiatedProtocolRef(p.bytes))
  }

  /** The owned and borrowed forms agree under `Debug`, and `Debug` shows every byte. */
  lemma DebugAgrees(p: NegotiatedProtocol)
    ensures Debug(p) == DebugRef(AsRef(p)) == Debug(ToOwned(AsRef(p)))
    ensures Debug(p).Text? ==> Utf8.Encode(Debug(p).text) == p.bytes
    ensures Debug(p).ByteList? ==> Debug(p).list == p.bytes
  {
  }

  /** An ASCII protocol id such as `h2` or `http/1.1` is shown as text, character for byte. */
  lemma DebugOfAscii(p: NegotiatedProtocol)
    requires forall i :: 0 <= i < |p.bytes| ==> p.bytes[i] < 0x80
    ensures Debug(p).Text? && |Debug(p).text| == |p.bytes|
    ensures forall i :: 0 <= i < |p.bytes| ==> Debug(p).text[i] as int == p.bytes[i]
  {
    Utf8.DecodeAscii(p.bytes);
  }

  /** A lone continuation byte is not UTF-8, so it is shown as a byte list. */
  lemma DebugOfInvalid(p: NegotiatedProtocol)
    requires |p.bytes| > 0 && 0x80 <= p.bytes[0] < 0xC0
    ensures Debug(p) == ByteList(p.bytes)
  {
  }
}
