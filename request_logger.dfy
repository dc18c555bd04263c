/**
 * The HTTP request logger: when a response finishes, one line is logged with
 * the truncated url, the method, the status code (coloured by a fixed table)
 * and the elapsed time, at a severity chosen by the status class.
 */
module RequestLogger {
  import opened Wrappers
  import opened Logger
  import opened Text

  // ---------------------------------------------------------------------
  // truncateUrl

  /** `s.slice(0, end)`: a negative end counts from the back, and the result never overruns. */
  function SlicePrefix(s: string, end: int): (r: string)
    ensures 0 <= end <= |s| ==> r == s[..end]
    ensures end > |s| ==> r == s
    ensures end < 0 ==> r == s[..if |s| + end < 0 then 0 else |s| + end]
  {
    if end > |s| then s
    else if end >= 0 then s[..end]
    else if |s| + end < 0 then []
    else s[..|s| + end]
  }

  const ELLIPSIS: string := "..."

  /** `truncateUrl`: a url longer than the limit keeps `maxLength - 3` characters and gets "...". */
  function TruncateUrl(url: string, maxLength: int): (r: string)
    ensures |url| <= maxLength ==> r == url
    ensures |url| > maxLength && maxLength >= 3 ==> |r| == maxLength && r == url[..maxLength - 3] + ELLIPSIS
    ensures |url| > maxLength && maxLength < 3 ==> r == SlicePrefix(url, maxLength - 3) + ELLIPSIS
  {
    if |url| > maxLength then SlicePrefix(url, maxLength - 3) + ELLIPSIS else url
  }

  /** With a limit of at least three, the result never exceeds the limit and keeps a prefix of the url. */
  lemma TruncateUrlBounded(url: string, maxLength: int)
    requires maxLength >= 3
    ensures |TruncateUrl(url, maxLength)| <= maxLength
    ensures |url| > maxLength ==> TruncateUrl(url, maxLength)[..maxLength - 3] == url[..maxLength - 3]
  {
  }

  /** Truncating an already truncated url changes nothing. */
  lemma TruncateUrlIdempotent(url: string, maxLength: int)
    requires maxLength >= 3
    ensures TruncateUrl(TruncateUrl(url, maxLength), maxLength) == TruncateUrl(url, maxLength)
  {
  }

  /** A limit below three makes the result longer than the limit: the ellipsis alone is three. */
  lemma SmallLimitOverruns(url: string, maxLength: int)
    requires |url| > maxLength && maxLength < 3
    ensures |TruncateUrl(url, maxLength)| > maxLength
  {
  }

  // ---------------------------------------------------------------------
  // Decimal rendering of the status code and the duration

  function DigitChar(d: nat): char
    requires d < 10
  {
    "0123456789"[d]
  }

  /** `n.toString()` for a non-negative integer. */
  function NatToString(n: nat): (r: string)
    ensures |r| >= 1
    ensures AllDigits(r)
    ensures |r| > 1 ==> r[0] != '0'
  {
    if n < 10 then [DigitChar(n)] else NatToString(n / 10) + [DigitChar(n % 10)]
  }

  /** The value of a string of decimal digits. */
  function DigitsValue(s: string): nat
    requires AllDigits(s)
  {
    if s == [] then 0
    else
      var last := s[|s| - 1];
      assert IsDigit(last);
      10 * DigitsValue(s[..|s| - 1]) + (last as int - '0' as int)
  }

  /** Reading the decimal text back gives the number. */
  lemma {:induction false} NatToStringRoundTrip(n: nat)
    ensures DigitsValue(NatToString(n)) == n
  {
    var r := NatToString(n);
    if n >= 10 {
      NatToStringRoundTrip(n / 10);
      assert r[..|r| - 1] == NatToString(n / 10);
    }
  }

  /** `i.toString()`. */
  function IntToString(i: int): (r: string)
    ensures i >= 0 ==> AllDigits(r) && |r| >= 1 && DigitsValue(r) == i
    ensures i >= 0 && |r| > 1 ==> r[0] != '0'
    ensures i < 0 ==> |r| >= 2 && r[0] == '-' && AllDigits(r[1..]) && DigitsValue(r[1..]) == -i
    ensures i < 0 && |r| > 2 ==> r[1] != '0'
  {
    if i < 0 then
      NatToStringRoundTrip(-i);
      DropSign(NatToString(-i));
      "-" + NatToString(-i)
    else
      NatToStringRoundTrip(i);
      NatToString(i)
  }

  lemma DropSign(digits: string)
    ensures ("-" + digits)[1..] == digits && ("-" + digits)[0] == '-'
  {
  }

  // ---------------------------------------------------------------------
  // The status colour table and the severity

  datatype StatusColour =
    | Green | GreenBright | Cyan | Blue | BlueBright
    | Yellow | YellowBright | Magenta | MagentaBright | Red | RedBright
    | Uncoloured

  const COLOURED_STATUSES: seq<int> := [200, 201, 204, 301, 302, 400, 401, 403, 404, 500, 503]

  /** The `switch (statusCode)`: eleven listed codes, and no colour for any other. */
  function StatusColourOf(statusCode: int): StatusColour {
    match statusCode
    case 200 => StatusColour.Green
    case 201 => StatusColour.GreenBright
    case 204 => StatusColour.Cyan
    case 301 => StatusColour.Blue
    case 302 => StatusColour.BlueBright
    case 400 => StatusColour.Yellow
    case 401 => StatusColour.YellowBright
    case 403 => StatusColour.Magenta
    case 404 => StatusColour.MagentaBright
    case 500 => StatusColour.Red
    case 503 => StatusColour.RedBright
    case _ => StatusColour.Uncoloured
  }

  /** Exactly the listed codes are coloured, and no two of them share a colour. */
  lemma StatusColourTable(a: int, b: int)
    ensures StatusColourOf(a) == Uncoloured <==> a !in COLOURED_STATUSES
    ensures a in COLOURED_STATUSES && a != b ==> StatusColourOf(a) != StatusColourOf(b)
  {
  }

  /** The severity of the finish line: 5xx and above error, 4xx warn, anything else log. */
  function SeverityFor(statusCode: int): (r: Level)
    ensures r == Error <==> statusCode >= 500
    ensures r == Warn <==> 400 <= statusCode < 500
    ensures r == Log <==> statusCode < 400
  {
    if statusCode >= 500 then Error
    else if statusCode >= 400 then Warn
    else Log
  }

  // ---------------------------------------------------------------------
  // The finish line

  const MAX_URL_LENGTH: int := 50
  const HTTP_CONTEXT: string := "HTTP"

  /** `🌐 {url, method} → status (durationms)`, without the colour codes around the status. */
  function RequestMessage(url: string, httpMethod: string, statusCode: int, duration: int): string {
    "\U{1F310} {" + TruncateUrl(url, MAX_URL_LENGTH) + ", " + httpMethod + "} \U{2192} "
      + IntToString(statusCode) + " (" + IntToString(duration) + "ms)"
  }

  /**
   * What the finish callback appends to the logger's output. On the error
   * path 'HTTP' is passed as the trace, not the context, so the line has an
   * empty context and the body ends in a newline and 'HTTP'.
   */
  function RequestLines(levels: seq<Level>, url: string, httpMethod: string, statusCode: int, duration: int): (r: seq<Line>)
    ensures |r| <= 1
    ensures |r| == 1 <==> SeverityFor(statusCode) in levels
    ensures r != [] ==> r[0].level.text == PaddedLevel(SeverityFor(statusCode))
    ensures r != [] && statusCode >= 500 ==>
      r[0].message == RequestMessage(url, httpMethod, statusCode, duration) + "\n" + HTTP_CONTEXT
      && r[0].context == FormatContext("")
    ensures r != [] && statusCode < 500 ==>
      r[0].message == RequestMessage(url, httpMethod, statusCode, duration)
      && r[0].context == FormatContext(HTTP_CONTEXT)
  {
    var message := RequestMessage(url, httpMethod, statusCode, duration);
    if statusCode >= 500 then Emit(levels, Error, message + "\n" + HTTP_CONTEXT, None)
    else if statusCode >= 400 then Emit(levels, Warn, message, Some(HTTP_CONTEXT))
    else Emit(levels, Log, message, Some(HTTP_CONTEXT))
  }

  /** The url in a finish line never exceeds the fifty-character limit. */
  lemma LoggedUrlBounded(url: string)
    ensures |TruncateUrl(url, MAX_URL_LENGTH)| <= MAX_URL_LENGTH
    ensures |url| <= MAX_URL_LENGTH ==> TruncateUrl(url, MAX_URL_LENGTH) == url
  {
    TruncateUrlBounded(url, MAX_URL_LENGTH);
  }

  class RequestLogger {
    const logger: CustomLogger

    constructor (logger: CustomLogger)
      ensures this.logger == logger
    {
      this.logger := logger;
    }

    /**
     * The 'finish' callback: `start` and `finish` are the two `Date.now()`
     * readings, so the duration is their difference.
     */
    method OnFinish(url: string, httpMethod: string, statusCode: int, start: int, finish: int)
      modifies logger
      ensures logger.logLevels == old(logger.logLevels)
      ensures logger.output == old(logger.output) + RequestLines(old(logger.logLevels), url, httpMethod, statusCode, finish - start)
    {
      var duration := finish - start;
      var truncatedUrl := TruncateUrl(url, MAX_URL_LENGTH);
      var message := "\U{1F310} {" + truncatedUrl + ", " + httpMethod + "} \U{2192} "
        + IntToString(statusCode) + " (" + IntToString(duration) + "ms)";
      if statusCode >= 500 {
        logger.Error(message, HTTP_CONTEXT, None);
      } else if statusCode >= 400 {
        logger.Warn(message, Some(HTTP_CONTEXT));
      } else {
        logger.Log(message, Some(HTTP_CONTEXT));
      }
    }
  }
}
