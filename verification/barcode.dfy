/** Values handed from the decoder to the capture screen: com.google.zxing.Result,
    its ResultPoint array and its BarcodeFormat. */
module Barcode {

  /** Java's nullable reference: None stands for null. */
  datatype Option<+T> = None | Some(value: T)

  /** A point reported by the decoder in preview coordinates. The coordinates are carried
      along but never computed on: the model records WHICH point is drawn, not where. */
  datatype ResultPoint = ResultPoint(x: real, y: real)

  /** The barcode formats the decoder can report. */
  datatype BarcodeFormat =
    | Aztec | Codabar | Code39 | Code93 | Code128 | DataMatrix | Ean8 | Ean13 | Itf
    | MaxiCode | Pdf417 | QrCode | Rss14 | RssExpanded | UpcA | UpcE | UpcEanExtension

  /** A decode result: its text, its result-point array (itself nullable, and holding
      nullable entries) and the format that was recognised. */
  datatype DecodeResult = DecodeResult(
    text: string,
    points: Option<seq<Option<ResultPoint>>>,
    format: BarcodeFormat)
}
