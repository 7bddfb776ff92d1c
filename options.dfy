/**
 * The conversion options the utilities read. Every field may be absent;
 * numbers are JavaScript numbers taken as exact reals.
 */
module Options {
  import opened Wrappers

  datatype ConversionOptions = ConversionOptions(
    width: Option<real>,
    height: Option<real>,
    canvasWidth: Option<real>,
    canvasHeight: Option<real>,
    pixelRatio: Option<real>,
    backgroundColor: Option<string>,
    quality: Option<real>,
    imageType: Option<string>,      // `options.type`
    skipAutoScale: Option<bool>)

  /** `{}`: no option given. */
  const NoOptions := ConversionOptions(None, None, None, None, None, None, None, None, None)
}
