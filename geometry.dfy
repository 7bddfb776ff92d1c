/**
 * Size resolution and the process-wide device pixel ratio:
 * `getNodeWidth`, `getNodeHeight`, `getImageSize` and `getPixelRatio`
 * (src/util.ts lines 108-141 and 181-186).
 */
module Geometry {
  import opened Wrappers
  import opened Js
  import opened Options

  /**
   * What the host reports about a node: its client box and the four
   * border widths as `px` reads them from the computed style.
   */
  datatype NodeMetrics = NodeMetrics(
    clientWidth: int,
    clientHeight: int,
    borderLeft: real,
    borderRight: real,
    borderTop: real,
    borderBottom: real)

  datatype Dimensions = Dimensions(width: real, height: real)

  /** `getNodeWidth`: the client width plus the left and right borders. */
  function NodeWidth(node: NodeMetrics): (w: real)
    ensures w - node.borderLeft - node.borderRight == node.clientWidth as real
    ensures node.borderLeft >= 0.0 && node.borderRight >= 0.0 ==> w >= node.clientWidth as real
  {
    node.clientWidth as real + node.borderLeft + node.borderRight
  }

  /** `getNodeHeight`: the client height plus the top and bottom borders. */
  function NodeHeight(node: NodeMetrics): (h: real)
    ensures h - node.borderTop - node.borderBottom == node.clientHeight as real
    ensures node.borderTop >= 0.0 && node.borderBottom >= 0.0 ==> h >= node.clientHeight as real
  {
    node.clientHeight as real + node.borderTop + node.borderBottom
  }

  /**
   * `getImageSize`: `options.width || getNodeWidth(node)`, and likewise
   * for the height. A truthy option wins; an absent or zero one is
   * measured from the node's border box.
   */
  function ImageSize(node: NodeMetrics, options: ConversionOptions): (d: Dimensions)
    ensures NumberTruthy(options.width) ==> d.width == options.width.value
    ensures !NumberTruthy(options.width) ==> d.width == node.clientWidth as real + node.borderLeft + node.borderRight
    ensures NumberTruthy(options.height) ==> d.height == options.height.value
    ensures !NumberTruthy(options.height) ==> d.height == node.clientHeight as real + node.borderTop + node.borderBottom
  {
    Dimensions(OrNumber(options.width, NodeWidth(node)), OrNumber(options.height, NodeHeight(node)))
  }

  /** With both sizes given explicitly, the node's geometry does not matter. */
  lemma ImageSizeExplicit(node: NodeMetrics, other: NodeMetrics, options: ConversionOptions)
    requires NumberTruthy(options.width) && NumberTruthy(options.height)
    ensures ImageSize(node, options) == ImageSize(other, options)
  {
  }

  /**
   * `getPixelRatio` as a choice among its inputs. `env` is
   * `process.env.devicePixelRatio` (`None` when there is no `process`, no
   * `env` or no such variable); `windowRatio` is `window.devicePixelRatio`.
   * A non-empty env value is read with `parseInt(_, 10)`, NaN becomes 1,
   * and then `ratio || window.devicePixelRatio || 1`.
   */
  function PixelRatio(env: Option<string>, windowRatio: Option<real>): (r: real)
    ensures r != 0.0
  {
    var fromEnv: Option<real> :=
      if StringTruthy(env) then
        match ParseInt10(env.value)
        case None => Some(1.0)
        case Some(n) => Some(n as real)
      else None;
    OrNumber(fromEnv, OrNumber(windowRatio, 1.0))
  }

  /** An env value that is the decimal text of a non-zero integer gives that integer. */
  lemma PixelRatioFromEnv(n: int, windowRatio: Option<real>)
    requires n != 0
    ensures PixelRatio(Some(IntegerText(n)), windowRatio) == n as real
  {
    var text := IntegerText(n);
    ParseIntOfIntegerText("", n, "");
    assert "" + text + "" == text;
    PixelRatioOfParsed(text, n, windowRatio);
  }

  /** A non-empty env value that parses to a non-zero integer gives that integer. */
  lemma PixelRatioOfParsed(env: string, n: int, windowRatio: Option<real>)
    requires env != "" && ParseInt10(env) == Some(n) && n != 0
    ensures PixelRatio(Some(env), windowRatio) == n as real
  {
  }

  /** An env value that does not parse as a number gives 1, whatever the window says. */
  lemma PixelRatioNonNumericEnv(env: string, windowRatio: Option<real>)
    requires env != "" && ParseInt10(env) == None
    ensures PixelRatio(Some(env), windowRatio) == 1.0
  {
  }

  /** An env value that begins with a letter (after any blanks) is non-numeric. */
  lemma PixelRatioLetterEnv(ws: string, rest: string, windowRatio: Option<real>)
    requires AllWhiteSpace(ws) && rest != "" && ('a' <= rest[0] <= 'z' || 'A' <= rest[0] <= 'Z')
    ensures PixelRatio(Some(ws + rest), windowRatio) == 1.0
  {
    ParseIntNaN(ws, rest);
  }

  /** No env value, an empty one, or one that parses to 0 falls through to `window.devicePixelRatio || 1`. */
  lemma PixelRatioFromWindow(env: Option<string>, windowRatio: Option<real>)
    requires env == None || env == Some("") || ParseInt10(env.value) == Some(0)
    ensures PixelRatio(env, windowRatio) == (if NumberTruthy(windowRatio) then windowRatio.value else 1.0)
  {
  }

  /** `getPixelRatio` as it runs: a local `ratio`, undefined at first, updated through the branches. */
  method GetPixelRatio(env: Option<string>, windowRatio: Option<real>) returns (result: real)
    ensures result == PixelRatio(env, windowRatio)
  {
    var ratio: Option<real> := None;
    var val := env;
    if StringTruthy(val) {
      var parsed := ParseInt10(val.value);
      if parsed.None? {
        ratio := Some(1.0);
      } else {
        ratio := Some(parsed.value as real);
      }
    }
    if NumberTruthy(ratio) {
      result := ratio.value;
    } else if NumberTruthy(windowRatio) {
      result := windowRatio.value;
    } else {
      result := 1.0;
    }
  }
}
