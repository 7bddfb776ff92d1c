/**
 * `canvasToBlob` (src/util.ts lines 143-179): which encoder call it makes
 * and with which defaults, and the fallback's byte copy from the decoded
 * binary string into a `Uint8Array`.
 */
module Blob {
  import opened Wrappers
  import opened Js
  import opened Options
  import Urls

  newtype byte = x: int | 0 <= x < 256

  /** `new Blob([bytes], { type })`. */
  datatype BlobValue = BlobValue(bytes: seq<byte>, mimeType: string)

  /** The encoding call made on the canvas. */
  datatype EncodeCall =
    | ToBlob(blobType: string, blobQuality: real)                   // canvas.toBlob(resolve, type, quality)
    | ToDataUrl(urlType: Option<string>, urlQuality: Option<real>)   // canvas.toDataURL(type, quality)

  const DefaultType := "image/png"

  /** The type the resulting blob is labelled with: `options.type ? options.type : 'image/png'`. */
  function BlobType(options: ConversionOptions): (t: string)
    ensures t != ""
    ensures StringTruthy(options.imageType) ==> t == options.imageType.value
  {
    OrString(options.imageType, DefaultType)
  }

  /**
   * The call `canvasToBlob` makes: the native `toBlob` with defaults
   * filled in when the canvas has one, otherwise `toDataURL` with absent
   * or falsy options passed as `undefined`.
   */
  function EncodeRequest(options: ConversionOptions, hasToBlob: bool): (c: EncodeCall)
    ensures c.ToBlob? <==> hasToBlob
  {
    if hasToBlob then
      ToBlob(OrString(options.imageType, DefaultType), OrNumber(options.quality, 1.0))
    else
      ToDataUrl(if StringTruthy(options.imageType) then options.imageType else None,
                if NumberTruthy(options.quality) then options.quality else None)
  }

  /**
   * The arguments of the two encode calls. The native call asks for the
   * type the fallback labels its own blob with, `image/png` when
   * `options.type` is falsy; the fallback passes a truthy type through and
   * leaves a falsy one `undefined`. An absent quality becomes 1 on the
   * native call and is left to the host's default on the fallback.
   */
  lemma EncodeDefaults(options: ConversionOptions)
    ensures EncodeRequest(options, true).blobType == BlobType(options)
    ensures !StringTruthy(options.imageType) ==>
      EncodeRequest(options, true).blobType == "image/png" && EncodeRequest(options, false).urlType == None
    ensures StringTruthy(options.imageType) ==>
      EncodeRequest(options, true).blobType == options.imageType.value
      && EncodeRequest(options, false).urlType == options.imageType
    ensures !NumberTruthy(options.quality) ==>
      EncodeRequest(options, true).blobQuality == 1.0 && EncodeRequest(options, false).urlQuality == None
    ensures NumberTruthy(options.quality) ==>
      EncodeRequest(options, true).blobQuality == options.quality.value
      && EncodeRequest(options, false).urlQuality == options.quality
  {
  }

  /**
   * The fallback reads the base64 text of the canvas's data URL with
   * `.split(',')[1]`; since the base64 alphabet has no comma, it gets the
   * whole payload.
   */
  lemma FallbackPayload(payload: string, mimeType: string)
    requires ',' !in mimeType
    requires forall i :: 0 <= i < |payload| ==>
      IsDecimalDigit(payload[i]) || 'a' <= payload[i] <= 'z' || 'A' <= payload[i] <= 'Z'
      || payload[i] == '+' || payload[i] == '/' || payload[i] == '='
    ensures Urls.ParseDataUrlContent(Urls.MakeDataUrl(payload, mimeType)) == Some(payload)
  {
    assert ',' !in payload;
    Urls.DataUrlRoundTrip(payload, mimeType);
  }

  /** What a `Uint8Array` stores for each character code: the code modulo 256. */
  function CodeUnitBytes(binary: string): (b: seq<byte>)
    ensures |b| == |binary|
    ensures forall i :: 0 <= i < |binary| ==> b[i] as int == binary[i] as int % 256
  {
    seq(|binary|, i requires 0 <= i < |binary| => (binary[i] as int % 256) as byte)
  }

  /** The binary string whose character codes are the given bytes, as `atob` produces. */
  function BinaryString(bytes: seq<byte>): (s: string)
    ensures |s| == |bytes|
    ensures forall i :: 0 <= i < |bytes| ==> s[i] as int == bytes[i] as int
  {
    seq(|bytes|, i requires 0 <= i < |bytes| => (bytes[i] as int) as char)
  }

  /** Copying a binary string's codes into bytes loses nothing: the bytes read back as the same string. */
  lemma BinaryStringRoundTrip(bytes: seq<byte>)
    ensures CodeUnitBytes(BinaryString(bytes)) == bytes
  {
    var s := BinaryString(bytes);
    assert forall i :: 0 <= i < |bytes| ==> CodeUnitBytes(s)[i] == bytes[i];
  }

  /** And a string of codes below 256 is recovered from its bytes. */
  lemma BytesRoundTrip(binary: string)
    requires forall i :: 0 <= i < |binary| ==> binary[i] as int < 256
    ensures BinaryString(CodeUnitBytes(binary)) == binary
  {
    var b := CodeUnitBytes(binary);
    assert forall i :: 0 <= i < |binary| ==> BinaryString(b)[i] as int == binary[i] as int;
  }

  /**
   * The fallback's copy loop: a `Uint8Array` of the string's length, the
   * i-th character code written at index i, wrapped in a blob labelled
   * with the requested type.
   */
  method FallbackBlob(binary: string, options: ConversionOptions) returns (blob: BlobValue)
    ensures blob == BlobValue(CodeUnitBytes(binary), BlobType(options))
  {
    var len := |binary|;
    var binaryArray := new byte[len];
    for i := 0 to len
      invariant forall k :: 0 <= k < i ==> binaryArray[k] as int == binary[k] as int % 256
    {
      binaryArray[i] := (binary[i] as int % 256) as byte;
    }
    assert binaryArray[..] == CodeUnitBytes(binary);
    blob := BlobValue(binaryArray[..], BlobType(options));
  }
}
