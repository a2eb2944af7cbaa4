/**
 * The barcode shown in the detail view. The JsBarcode library is not part of
 * this model: whether it can draw a code in a symbology is a parameter.
 */
module Barcode {

  datatype Symbology = EAN13 | CODE128

  /** The drawing options openDetail passes for both attempts. */
  datatype DrawOptions = DrawOptions(width: nat, height: nat, displayValue: bool, margin: nat)

  const DetailOptions: DrawOptions := DrawOptions(2, 80, false, 10)

  /** What ends up in the detail view's barcode element. */
  datatype BarcodeImage = Drawn(symbology: Symbology) | Blank

  /**
   * The fallback chain of openDetail: EAN-13 when the library accepts the
   * number, otherwise CODE128, otherwise an emptied element.
   */
  function ChooseBarcode(draws: (Symbology, DrawOptions, string) -> bool, code: string): (img: BarcodeImage)
    ensures img == Drawn(EAN13) <==> draws(EAN13, DetailOptions, code)
    ensures img == Drawn(CODE128) <==> !draws(EAN13, DetailOptions, code) && draws(CODE128, DetailOptions, code)
    ensures img == Blank <==> !draws(EAN13, DetailOptions, code) && !draws(CODE128, DetailOptions, code)
  {
    if draws(EAN13, DetailOptions, code) then Drawn(EAN13)
    else if draws(CODE128, DetailOptions, code) then Drawn(CODE128)
    else Blank
  }

  /** Whatever is drawn is drawable, and nothing is left blank that some symbology could draw. */
  lemma ChosenBarcodeIsDrawable(draws: (Symbology, DrawOptions, string) -> bool, code: string)
    ensures ChooseBarcode(draws, code).Drawn? ==>
              draws(ChooseBarcode(draws, code).symbology, DetailOptions, code)
    ensures ChooseBarcode(draws, code) == Blank <==>
              forall s: Symbology :: !draws(s, DetailOptions, code)
  {
    if ChooseBarcode(draws, code) == Blank {
      forall s: Symbology
        ensures !draws(s, DetailOptions, code)
      {
        assert s == EAN13 || s == CODE128;
      }
    } else {
      var s := ChooseBarcode(draws, code).symbology;
      assert draws(s, DetailOptions, code);
    }
  }
}
