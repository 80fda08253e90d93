/**
 * `headline_html` (streamlit_app/app.py, lines 90-102): the carousel card for one
 * news article, with placeholder text for the fields the article lacks.
 */
module Headlines {
  import opened Wrappers

  /** One entry of `news_summary`; each field may be missing from the JSON object. */
  datatype Article = Article(title: Option<string>, summary: Option<string>, url: Option<string>)

  /** The three values the card shows. */
  datatype Fields = Fields(title: string, summary: string, url: string)

  const NoTitle := "No Title"
  const NoSummary := "No Summary"
  const NoUrl := "#"

  /** The `art.get(...)` lookups of lines 91-93. */
  function CardFields(art: Article): (f: Fields)
    ensures art.title.Some? ==> f.title == art.title.value
    ensures art.title.None? ==> f.title == NoTitle
    ensures art.summary.Some? ==> f.summary == art.summary.value
    ensures art.summary.None? ==> f.summary == NoSummary
    ensures art.url.Some? ==> f.url == art.url.value
    ensures art.url.None? ==> f.url == NoUrl
  {
    Fields(art.title.GetOr(NoTitle), art.summary.GetOr(NoSummary), art.url.GetOr(NoUrl))
  }

  /** `sub` occurs as a contiguous piece of `s`. */
  predicate Occurs(sub: string, s: string) {
    exists i, j :: 0 <= i <= j <= |s| && s[i..j] == sub
  }

  // The fixed markup of the f-string, between the interpolated values.
  const Open := "\n    <h4 style=\"margin:0 0 6px 0;\">What’s making headlines…</h4>\n    <div style=\"padding:10px;border:1px solid #e1e1e1;border-radius:6px;\">\n      <strong>"
  const AfterTicker := " in the news:</strong><br>\n      <span style=\"color:#f39c12;font-size:18px;\">"
  const AfterTitle := "</span><br>\n      <span style=\"font-size:14px;\">"
  const AfterSummary := "</span><br>\n      <a href=\""
  const Close := "\" target=\"_blank\">Read full article ↗︎</a>\n    </div>\n    "

  /** The card's text: the fixed markup with the ticker and the three defaulted fields spliced in. */
  function HeadlineHtml(ticker: string, art: Article): (html: string)
    ensures Occurs(ticker, html)
    ensures Occurs(CardFields(art).title, html)
    ensures Occurs(CardFields(art).summary, html)
    ensures Occurs(CardFields(art).url, html)
  {
    var f := CardFields(art);
    var fromUrl := f.url + Close;
    var fromSummary := f.summary + (AfterSummary + fromUrl);
    var fromTitle := f.title + (AfterTitle + fromSummary);
    var fromTicker := ticker + (AfterTicker + fromTitle);
    OccursAtStart(f.url, Close);
    OccursAtStart(f.summary, AfterSummary + fromUrl);
    OccursAtStart(f.title, AfterTitle + fromSummary);
    OccursAtStart(ticker, AfterTicker + fromTitle);
    OccursAfter(f.url, AfterSummary, fromUrl);
    OccursAfter(f.url, f.summary, AfterSummary + fromUrl);
    OccursAfter(f.url, AfterTitle, fromSummary);
    OccursAfter(f.summary, AfterTitle, fromSummary);
    OccursAfter(f.url, f.title, AfterTitle + fromSummary);
    OccursAfter(f.summary, f.title, AfterTitle + fromSummary);
    OccursAfter(f.url, AfterTicker, fromTitle);
    OccursAfter(f.summary, AfterTicker, fromTitle);
    OccursAfter(f.title, AfterTicker, fromTitle);
    OccursAfter(f.url, ticker, AfterTicker + fromTitle);
    OccursAfter(f.summary, ticker, AfterTicker + fromTitle);
    OccursAfter(f.title, ticker, AfterTicker + fromTitle);
    OccursAfter(f.url, Open, fromTicker);
    OccursAfter(f.summary, Open, fromTicker);
    OccursAfter(f.title, Open, fromTicker);
    OccursAfter(ticker, Open, fromTicker);
    Open + fromTicker
  }

  /** A string occurs at the start of any extension of it. */
  lemma OccursAtStart(x: string, rest: string)
    ensures Occurs(x, x + rest)
  {
    assert (x + rest)[0..|x|] == x;
  }

  /** An occurrence survives putting more text in front. */
  lemma OccursAfter(x: string, front: string, s: string)
    requires Occurs(x, s)
    ensures Occurs(x, front + s)
  {
    var i, j :| 0 <= i <= j <= |s| && s[i..j] == x;
    assert (front + s)[|front| + i..|front| + j] == s[i..j];
  }

  /** An article with every field present is shown as it is. */
  lemma PresentFieldsPassThrough(t: string, s: string, u: string)
    ensures CardFields(Article(Some(t), Some(s), Some(u))) == Fields(t, s, u)
  {
  }

  /** An article with no fields (`{}`) shows the three placeholders. */
  lemma EmptyArticlePlaceholders()
    ensures CardFields(Article(None, None, None)) == Fields("No Title", "No Summary", "#")
  {
  }
}
