/**
 * Ticker resolution: the display symbol derived from the intent payload that
 * the transcription service returns (streamlit_app/app.py, lines 134-135).
 */
module Tickers {
  import opened Wrappers

  /** The fields of the intent object that the resolver reads; any other field is ignored. */
  datatype Intent = Intent(tickers: Option<seq<string>>, ticker: Option<string>)

  /** The intent used when the transcription reply has no `intent` field (`{}`). */
  const EmptyIntent := Intent(None, None)

  /** Label used when the intent names no ticker at all. */
  const Fallback := "This stock"

  predicate IsLowerAscii(c: char) { 'a' <= c <= 'z' }

  /** ASCII upper-casing of one character. */
  function UpperChar(c: char): (r: char)
    ensures !IsLowerAscii(r)
    ensures IsLowerAscii(c) ==> r as int == c as int - 32
    ensures !IsLowerAscii(c) ==> r == c
  {
    if IsLowerAscii(c) then (c as int - 32) as char else c
  }

  /** `str.upper()`, restricted to ASCII letters. */
  function Upper(s: string): (r: string)
    ensures |r| == |s|
    ensures forall i :: 0 <= i < |s| ==> r[i] == UpperChar(s[i])
  {
    if s == [] then [] else [UpperChar(s[0])] + Upper(s[1..])
  }

  /** No ASCII lower-case letter occurs in `s`. */
  predicate IsUpperCased(s: string) {
    forall i :: 0 <= i < |s| ==> !IsLowerAscii(s[i])
  }

  /**
   * `(ticker_list[0] if ticker_list else intent.get("ticker", "This stock")).upper()`
   * where `ticker_list = intent.get("tickers", [])`: a missing and an empty list are both falsy.
   */
  function ResolveTicker(intent: Intent): (r: string)
    ensures IsUpperCased(r)
    ensures intent.tickers.Some? && intent.tickers.value != [] ==> r == Upper(intent.tickers.value[0])
    ensures (intent.tickers.None? || intent.tickers.value == []) && intent.ticker.Some? ==> r == Upper(intent.ticker.value)
    ensures (intent.tickers.None? || intent.tickers.value == []) && intent.ticker.None? ==> r == Upper(Fallback)
  {
    var tickerList := intent.tickers.GetOr([]);
    var source := if tickerList != [] then tickerList[0] else intent.ticker.GetOr(Fallback);
    Upper(source)
  }

  /** `Upper` changes a string exactly when the string holds a lower-case ASCII letter. */
  lemma UpperFixedPoints(s: string)
    ensures Upper(s) == s <==> IsUpperCased(s)
  {
    if IsUpperCased(s) {
      assert forall i :: 0 <= i < |s| ==> Upper(s)[i] == s[i];
    } else {
      var i :| 0 <= i < |s| && IsLowerAscii(s[i]);
      assert Upper(s)[i] != s[i];
    }
  }

  /** Upper-casing twice is upper-casing once. */
  lemma {:induction false} UpperIdempotent(s: string)
    ensures Upper(Upper(s)) == Upper(s)
  {
    if s != [] {
      UpperIdempotent(s[1..]);
      assert Upper(s) == [UpperChar(s[0])] + Upper(s[1..]);
    }
  }

  /** A non-empty `tickers` list wins, and the singular `ticker` field is then ignored. */
  lemma TickersTakePrecedence(ts: seq<string>, t1: Option<string>, t2: Option<string>)
    requires ts != []
    ensures ResolveTicker(Intent(Some(ts), t1)) == ResolveTicker(Intent(Some(ts), t2)) == Upper(ts[0])
  {
  }

  /** A missing and an empty `tickers` list resolve the same way: through the `ticker` field. */
  lemma EmptyTickersLikeMissing(t: Option<string>)
    ensures ResolveTicker(Intent(Some([]), t)) == ResolveTicker(Intent(None, t))
    ensures ResolveTicker(Intent(None, t)) == Upper(t.GetOr(Fallback))
  {
  }

  /** A present `ticker` field is used even when it is the empty string: only absence falls back. */
  lemma EmptyTickerFieldIsKept()
    ensures ResolveTicker(Intent(None, Some(""))) == ""
  {
  }

  /** With neither field, the fallback label is shown — upper-cased like any other source. */
  lemma FallbackIsUpperCased()
    ensures ResolveTicker(EmptyIntent) == "THIS STOCK"
  {
    assert Upper(Fallback) == "THIS STOCK";
  }

  /** `{"ticker": "aapl"}` resolves to `AAPL`. */
  lemma SingularTickerExample()
    ensures ResolveTicker(Intent(None, Some("aapl"))) == "AAPL"
  {
    assert Upper("aapl") == "AAPL";
  }

  /** `{"tickers": ["TSLA", "AAPL"]}` resolves to `TSLA`. */
  lemma TickerListExample()
    ensures ResolveTicker(Intent(Some(["TSLA", "AAPL"]), None)) == "TSLA"
  {
    UpperFixedPoints("TSLA");
  }
}
