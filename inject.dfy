/**
 * The response-rewriting middleware (`createAutoInjectMiddleware`): it replaces
 * the response's `send` with a wrapper that decides, per call, whether to splice
 * the toolbar bundle in front of the first `</body>` of an HTML page, and then
 * hands the (possibly rewritten) data to the `send` it replaced.
 *
 * The bundle (`getToolbarCode()`) is an opaque string parameter here; its markup
 * and styling are not modelled.
 */
module AutoInject {
  import opened Options
  import opened JsStrings
  import opened VisibilityPolicy

  /**
   * The argument of `res.send`: a string, or any other value (a Buffer, an
   * object, a number, `undefined`). The wrapper never looks inside a value of
   * the second kind, so it carries nothing here.
   */
  datatype Payload = Str(text: string) | NotString

  /** `(res.get('Content-Type') || '').includes('text/html')`: a missing header reads as empty. */
  predicate IsHtmlContentType(contentType: Option<string>) {
    Includes(contentType.GetOr(""), "text/html")
  }

  /** `typeof data === 'string' && data.includes('<html') && data.includes('</body>')`. */
  predicate IsHtmlDocument(data: Payload) {
    data.Str? && Includes(data.text, "<html") && Includes(data.text, "</body>")
  }

  /** `data.replace('</body>', toolbarCode + '\n</body>')`. */
  function InjectBundle(page: string, bundle: string): string {
    ReplaceFirst(page, "</body>", bundle + "\n</body>")
  }

  /** Replacing the first `</body>` by the bundle, a newline and `</body>` is inserting them in front of it. */
  lemma InjectBundleSplices(page: string, bundle: string)
    requires Includes(page, "</body>")
    ensures var i := IndexOf(page, "</body>").value;
      InjectBundle(page, bundle) == page[..i] + bundle + "\n" + page[i..]
  {
    var i := IndexOf(page, "</body>").value;
    assert page[i..i + 7] == "</body>";
    assert page[i..] == page[i..i + 7] + page[i + 7..];
    assert bundle + "\n</body>" == bundle + "\n" + "</body>";
  }

  /**
   * The body of the wrapped `send`: what it hands to the original `send`.
   * Unless the policy allows, the Content-Type header names HTML and the data
   * is an HTML page, the data goes through untouched; otherwise the bundle and
   * a newline are inserted directly before the first `</body>`.
   */
  function WrappedSend(allowed: bool, contentType: Option<string>, data: Payload, bundle: string): (forwarded: Payload)
    ensures !(allowed && IsHtmlContentType(contentType) && IsHtmlDocument(data)) ==> forwarded == data
    ensures allowed && IsHtmlContentType(contentType) && IsHtmlDocument(data) ==>
              var i := IndexOf(data.text, "</body>").value;
              forwarded == Str(data.text[..i] + bundle + "\n" + data.text[i..])
  {
    if !allowed then data
    else if !IsHtmlContentType(contentType) then data
    else if data.Str? && Includes(data.text, "<html") && Includes(data.text, "</body>") then
      InjectBundleSplices(data.text, bundle);
      Str(InjectBundle(data.text, bundle))
    else data
  }

  /**
   * An injection changes nothing but the insertion point: everything before the
   * first `</body>` and everything from it on (later `</body>` tags included) is
   * kept, the bundle sits between them, and the page grows by the bundle and one
   * newline.
   */
  lemma InjectionPreservesPage(allowed: bool, contentType: Option<string>, page: string, bundle: string)
    requires allowed && IsHtmlContentType(contentType) && IsHtmlDocument(Str(page))
    ensures var out := WrappedSend(allowed, contentType, Str(page), bundle).text;
      var i := IndexOf(page, "</body>").value;
      && |out| == |page| + |bundle| + 1
      && out[..i] == page[..i]
      && out[i..i + |bundle|] == bundle
      && out[i + |bundle|] == '\n'
      && out[i + |bundle| + 1..] == page[i..]
  {
    InjectBundleSplices(page, bundle);
  }

  /**
   * The first `</body>` of the rewritten page is the original first `</body>`,
   * now behind the bundle and the newline, provided the bundle holds no
   * `</body>` and does not begin with a character that could complete a
   * partial tag in front of it (the bundle of `getToolbarCode()` begins with a
   * newline).
   */
  lemma FirstBodyCloseKept(page: string, bundle: string)
    requires Includes(page, "</body>")
    requires !Includes(bundle, "</body>")
    requires bundle == [] || bundle[0] !in "/body>"
    ensures IndexOf(InjectBundle(page, bundle), "</body>") == Some(IndexOf(page, "</body>").value + |bundle| + 1)
  {
    var i := IndexOf(page, "</body>").value;
    var out := page[..i] + bundle + "\n" + page[i..];
    assert IndexOf(out, "</body>") == Some(i + |bundle| + 1) by {
      SpliceKeepsFirstBodyClose(page, i, bundle);
    }
    assert InjectBundle(page, bundle) == out by {
      InjectBundleSplices(page, bundle);
    }
  }

  /** The splice of `FirstBodyCloseKept`, at the page's first `</body>`, index `i`. */
  lemma SpliceKeepsFirstBodyClose(page: string, i: nat, bundle: string)
    requires OccursAt(page, "</body>", i)
    requires forall j :: 0 <= j < i ==> !OccursAt(page, "</body>", j)
    requires !Includes(bundle, "</body>")
    requires bundle == [] || bundle[0] !in "/body>"
    ensures IndexOf(page[..i] + bundle + "\n" + page[i..], "</body>") == Some(i + |bundle| + 1)
  {
    var pre, post := page[..i], page[i..];
    var out := pre + bundle + "\n" + post;
    var k := i + |bundle| + 1;
    assert out[k..] == post;
    assert OccursAt(out, "</body>", k);
    forall j | 0 <= j < k
      ensures !OccursAt(out, "</body>", j)
    {
      if j + 7 <= i {
        assert !OccursAt(page, "</body>", j);
        assert out[j..j + 7] == page[j..j + 7];
      } else {
        WindowAcrossInsertion(pre, bundle, post, j);
      }
    }
  }

  /**
   * No `</body>` starts before the end of the inserted text unless it lies in
   * the page prefix: a window reaching into the insertion meets either the
   * bundle's first character, a window of the bundle, or the newline.
   */
  lemma WindowAcrossInsertion(pre: string, bundle: string, post: string, j: nat)
    requires !Includes(bundle, "</body>")
    requires bundle == [] || bundle[0] !in "/body>"
    requires j < |pre| + |bundle| + 1 && |pre| < j + 7
    ensures !OccursAt(pre + bundle + "\n" + post, "</body>", j)
  {
    var out := pre + bundle + "\n" + post;
    var i := |pre|;
    if j + 7 <= |out| {
      if j < i {
        // the window would have to continue the tag with the bundle's first character (or the newline)
        assert out[i] == if bundle == [] then '\n' else bundle[0];
        assert out[j..j + 7][i - j] != "</body>"[i - j];
      } else if j + 7 <= i + |bundle| {
        assert out[j..j + 7] == bundle[j - i..j - i + 7];
        assert !OccursAt(bundle, "</body>", j - i);
      } else {
        var w := out[j..j + 7];
        assert w[i + |bundle| - j] == '\n' != "</body>"[i + |bundle| - j];
        assert w != "</body>";
      }
    }
  }

  /** A handler that sends its page before setting Content-Type never gets the toolbar: the header is read before the framework's own `send` fills it in. */
  lemma NoContentTypeNoInjection(allowed: bool, data: Payload, bundle: string)
    ensures WrappedSend(allowed, None, data, bundle) == data
  {
  }

  /** A page whose text before its `</body>` holds no `/` has its first `</body>` right after that text. */
  lemma FirstBodyCloseAfterSlashFreeText(pre: string, post: string)
    requires '/' !in pre
    ensures IndexOf(pre + "</body>" + post, "</body>") == Some(|pre|)
  {
    var page := pre + "</body>" + post;
    assert page[|pre|..|pre| + 7] == "</body>";
    forall j | 0 <= j < |pre|
      ensures !OccursAt(page, "</body>", j)
    {
      if j + 1 < |pre| {
        assert page[j + 1] == pre[j + 1];
      } else {
        assert page[j + 1] == '<';
      }
      assert j + 7 <= |page| ==> page[j..j + 7][1] == page[j + 1];
    }
    assert OccursAt(page, "</body>", |pre|);
  }

  /** In `<html><body>X</body></html>` with X free of `/`, the page is an HTML document whose first `</body>` follows X. */
  lemma MinimalPageShape(text: string)
    requires '/' !in text
    ensures var page := "<html><body>" + text + "</body></html>";
      IsHtmlDocument(Str(page)) && IndexOf(page, "</body>") == Some(12 + |text|)
  {
    var pre := "<html><body>" + text;
    var page := "<html><body>" + text + "</body></html>";
    assert page == pre + "</body>" + "</html>";
    assert '/' !in pre by {
      assert forall k :: 0 <= k < 12 ==> pre[k] == "<html><body>"[k];
    }
    FirstBodyCloseAfterSlashFreeText(pre, "</html>");
    assert page[0..5] == "<html";
    IncludesIffOccurs(page, "<html");
  }

  /** When the first `</body>` of an injected page starts right after `pre`, the bundle goes exactly there. */
  lemma InjectionAtBoundary(contentType: Option<string>, pre: string, post: string, bundle: string)
    requires IsHtmlContentType(contentType) && IsHtmlDocument(Str(pre + post))
    requires IndexOf(pre + post, "</body>") == Some(|pre|)
    ensures WrappedSend(true, contentType, Str(pre + post), bundle) == Str(pre + bundle + "\n" + post)
  {
    var page := pre + post;
    assert page[..|pre|] == pre && page[|pre|..] == post;
  }

  /**
   * A development request for `<html><body>X</body></html>` (any text X without
   * `/`) served as HTML gets the bundle between X and `</body></html>`.
   */
  lemma DevelopmentPageGetsBundle(text: string, contentType: Option<string>, bundle: string)
    requires '/' !in text
    requires IsHtmlContentType(contentType)
    ensures WrappedSend(ShouldShowToolbar(Some("development"), Absent), contentType,
                        Str("<html><body>" + text + "</body></html>"), bundle)
         == Str("<html><body>" + text + bundle + "\n</body></html>")
  {
    var pre := "<html><body>" + text;
    var post := "</body></html>";
    assert "<html><body>" + text + "</body></html>" == pre + post;
    assert "<html><body>" + text + bundle + "\n</body></html>" == pre + bundle + "\n" + post;
    assert ShouldShowToolbar(Some("development"), Absent);
    assert WrappedSend(true, contentType, Str(pre + post), bundle) == Str(pre + bundle + "\n" + post) by {
      MinimalPageShape(text);
      InjectionAtBoundary(contentType, pre, post, bundle);
    }
  }

  /** In production, or with `?stagewise=false` or `?stagewise=0`, the same page goes out unchanged. */
  lemma SuppressedPageUnchanged(nodeEnv: Option<string>, query: QueryValue, contentType: Option<string>, data: Payload, bundle: string)
    requires nodeEnv == Some("production") || Suppresses(query)
    ensures WrappedSend(ShouldShowToolbar(nodeEnv, query), contentType, data, bundle) == data
  {
  }

  /**
   * Each layer of the middleware mounted on one response wraps the `send`
   * installed before it; a send runs through all of them, and every layer
   * decides and injects on its own (see `TwoLayersInjectTwice`).
   */
  function ThroughLayers(layers: nat, allowed: bool, contentType: Option<string>, data: Payload, bundle: string): (forwarded: Payload)
    ensures layers == 0 ==> forwarded == data
    ensures layers == 1 ==> forwarded == WrappedSend(allowed, contentType, data, bundle)
    ensures !(allowed && IsHtmlContentType(contentType)) ==> forwarded == data
    ensures !IsHtmlDocument(data) ==> forwarded == data
  {
    if layers == 0 then data
    else ThroughLayers(layers - 1, allowed, contentType, WrappedSend(allowed, contentType, data, bundle), bundle)
  }

  /** The first `</body>` cannot start inside an occurrence of `<html`: it begins with `<`, which `html` lacks. */
  lemma BodyCloseOutsideHtmlOpen(page: string, h: nat, i: nat)
    requires OccursAt(page, "<html", h) && OccursAt(page, "</body>", i)
    ensures h + 5 <= i || i <= h
  {
    forall t | h < t < h + 5
      ensures page[t] != '<'
    {
      assert page[t] == page[h..h + 5][t - h];
    }
    assert page[i] == page[i..i + 7][0];
  }

  /** Inserting text at `|pre|` keeps an occurrence that lies wholly on one side of that point. */
  lemma InsertionKeepsOccurrence(pre: string, ins: string, post: string, pat: string, h: nat)
    requires OccursAt(pre + post, pat, h)
    requires h + |pat| <= |pre| || |pre| <= h
    ensures h + |pat| <= |pre| ==> OccursAt(pre + ins + post, pat, h)
    ensures |pre| <= h ==> OccursAt(pre + ins + post, pat, h + |ins|)
  {
    var page, out := pre + post, pre + ins + post;
    if h + |pat| <= |pre| {
      assert out[h..h + |pat|] == pre[h..h + |pat|] == page[h..h + |pat|];
    } else {
      var k := h + |ins|;
      assert out[k..k + |pat|] == post[h - |pre|..h - |pre| + |pat|] == page[h..h + |pat|];
    }
  }

  /** Text inserted at the first `</body>` leaves an occurrence of `<html` in place, or shifts it whole. */
  lemma InsertionAtBodyCloseKeepsHtmlOpen(page: string, h: nat, i: nat, ins: string)
    requires OccursAt(page, "<html", h) && OccursAt(page, "</body>", i)
    ensures exists k: nat :: OccursAt(page[..i] + ins + page[i..], "<html", k)
  {
    BodyCloseOutsideHtmlOpen(page, h, i);
    assert page == page[..i] + page[i..];
    InsertionKeepsOccurrence(page[..i], ins, page[i..], "<html", h);
    if h + 5 <= i {
      assert OccursAt(page[..i] + ins + page[i..], "<html", h);
    } else {
      assert OccursAt(page[..i] + ins + page[i..], "<html", h + |ins|);
    }
  }

  /**
   * An injection never breaks the page's `<html`: an occurrence of it lies
   * wholly before or wholly after the first `</body>`, where the insertion is.
   */
  lemma InjectionKeepsHtmlOpen(page: string, bundle: string)
    requires IsHtmlDocument(Str(page))
    ensures Includes(InjectBundle(page, bundle), "<html")
  {
    var h := IndexOf(page, "<html").value;
    var i := IndexOf(page, "</body>").value;
    var out := InjectBundle(page, bundle);
    assert out == page[..i] + (bundle + "\n") + page[i..] by {
      InjectBundleSplices(page, bundle);
    }
    InsertionAtBodyCloseKeepsHtmlOpen(page, h, i, bundle + "\n");
    IncludesIffOccurs(out, "<html");
  }

  /**
   * An injected page is again an HTML page whose first `</body>` is the
   * original one, pushed back by the bundle and its newline.
   */
  lemma InjectedPageStillHtml(page: string, bundle: string)
    requires IsHtmlDocument(Str(page))
    requires !Includes(bundle, "</body>")
    requires bundle == [] || bundle[0] !in "/body>"
    ensures var out := InjectBundle(page, bundle);
      && IsHtmlDocument(Str(out))
      && IndexOf(out, "</body>") == Some(IndexOf(page, "</body>").value + |bundle| + 1)
  {
    InjectionKeepsHtmlOpen(page, bundle);
    FirstBodyCloseKept(page, bundle);
  }

  /**
   * The middleware mounted twice on one response injects twice: each wrapper
   * finds the first `</body>` in what it is given, so the page reaches the
   * framework with two copies of the bundle, each followed by a newline, in
   * front of its first `</body>`.
   */
  lemma TwoLayersInjectTwice(allowed: bool, contentType: Option<string>, page: string, bundle: string)
    requires allowed && IsHtmlContentType(contentType) && IsHtmlDocument(Str(page))
    requires !Includes(bundle, "</body>")
    requires bundle == [] || bundle[0] !in "/body>"
    ensures var i := IndexOf(page, "</body>").value;
      ThroughLayers(2, allowed, contentType, Str(page), bundle)
        == Str(page[..i] + bundle + "\n" + bundle + "\n" + page[i..])
  {
    var i := IndexOf(page, "</body>").value;
    var once := page[..i] + bundle + "\n" + page[i..];
    assert WrappedSend(allowed, contentType, Str(page), bundle) == Str(once);
    InjectBundleSplices(page, bundle);
    InjectedPageStillHtml(page, bundle);
    var k := i + |bundle| + 1;
    assert IndexOf(once, "</body>") == Some(k);
    assert ThroughLayers(2, allowed, contentType, Str(page), bundle)
        == WrappedSend(allowed, contentType, Str(once), bundle);
    assert once[..k] == page[..i] + bundle + "\n";
    assert once[k..] == page[i..];
  }

  /**
   * The response object as far as the middleware sees it: the request's query
   * value, the Content-Type header the handler has set so far, how many times
   * the middleware has replaced `send`, and the data the framework's own `send`
   * has received, in order.
   */
  class Response {
    const query: QueryValue
    var contentType: Option<string>
    var wrapLayers: nat
    var delivered: seq<Payload>

    constructor (query: QueryValue)
      ensures this.query == query && contentType == None && wrapLayers == 0 && delivered == []
    {
      this.query := query;
      contentType := None;
      wrapLayers := 0;
      delivered := [];
    }

    /** `res.set('Content-Type', value)` by a handler before it sends. */
    method SetContentType(value: string)
      modifies this`contentType
      ensures contentType == Some(value)
    {
      contentType := Some(value);
    }

    /** The middleware function `autoInjectToolbar(req, res, next)`: it replaces `res.send` and passes control on. */
    method AutoInjectToolbar()
      modifies this`wrapLayers
      ensures wrapLayers == old(wrapLayers) + 1
    {
      wrapLayers := wrapLayers + 1;
    }

    /**
     * `res.send(data)` as a handler calls it: the original `send` is reached
     * exactly once, with the data every installed wrapper has passed on.
     */
    method Send(data: Payload, nodeEnv: Option<string>, bundle: string)
      modifies this`delivered
      ensures delivered == old(delivered) + [ThroughLayers(wrapLayers, ShouldShowToolbar(nodeEnv, query), contentType, data, bundle)]
    {
      var forwarded := ThroughLayers(wrapLayers, ShouldShowToolbar(nodeEnv, query), contentType, data, bundle);
      delivered := delivered + [forwarded];
    }
  }
}
