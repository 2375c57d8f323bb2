/**
 * The error-page middleware. It buffers what the rest of the pipeline
 * writes; when the status is an error and the client accepts HTML, it drops
 * the buffered body and sends an HTML page keyed by the status code (with a
 * picture from http.cat); otherwise it sends the buffered response unchanged.
 *
 * The stream swapping is abstracted to a function from the buffered
 * response and the Accept header to the response that leaves the server.
 */
module HttpCat {
  import opened Wrappers
  import opened Strings

  const HtmlContentType := "text/html; charset=utf-8"
  const CatBaseUrl := "https://http.cat/"
  const FallbackPrefix := "Erro HTTP "

  /** A response body: the bytes the inner pipeline buffered, or the error
      page's text (written out as UTF-8, which is not modelled). */
  datatype Body = Buffered(bytes: seq<bv8>) | Page(html: string)

  /** The parts of a response the middleware reads or sets. */
  datatype Response = Response(status: int, contentType: Option<string>, body: Body)

  // ---------------------------------------------------------------------------
  // The Accept test
  // ---------------------------------------------------------------------------

  /** The client wants an HTML page when the Accept header (its values joined
      into one string, "" when absent) is empty or mentions text/html or
      any media type. */
  function IsHtmlRequest(accept: string): (r: bool)
    ensures r <==> accept == ""
                   || (exists i: nat :: OccursAt(accept, "text/html", i))
                   || (exists i: nat :: OccursAt(accept, "*/*", i))
  {
    accept == "" || Contains(accept, "text/html") || Contains(accept, "*/*")
  }

  /** A header that lists text/html anywhere, among other types, asks for HTML. */
  lemma ListingHtmlIsHtmlRequest(before: string, after: string)
    ensures IsHtmlRequest(before + "text/html" + after)
  {
    ContainsInfix(before, "text/html", after);
  }

  /** A client that accepts only JSON gets the buffered body: neither 'x'
      nor '*' appears in "application/json". */
  lemma JsonIsNotHtmlRequest()
    ensures !IsHtmlRequest("application/json")
  {
    var json := "application/json";
    assert forall i | 0 <= i < |json| :: json[i] != 'x' && json[i] != '*';
    MissingCharNotContained(json, "text/html", 2);
    MissingCharNotContained(json, "*/*", 0);
  }

  // ---------------------------------------------------------------------------
  // The status phrase table
  // ---------------------------------------------------------------------------

  /** The sixteen codes with a fixed phrase. */
  predicate HasPhrase(code: int) {
    code in {400, 401, 403, 404, 405, 408, 409, 410, 418, 422, 429, 500, 501, 502, 503, 504}
  }

  /** A string begins with the fallback's "Erro HTTP ". */
  predicate StartsLikeFallback(m: string) {
    |FallbackPrefix| <= |m| && m[..|FallbackPrefix|] == FallbackPrefix
  }

  /** A string that begins like the fallback has 'E' first and 'H' sixth. */
  lemma FallbackShape(m: string)
    ensures StartsLikeFallback(m) ==> m[0] == 'E' && m[5] == 'H'
  {
    if StartsLikeFallback(m) {
      assert m[..|FallbackPrefix|][0] == m[0] && m[..|FallbackPrefix|][5] == m[5];
    }
  }

  /** The phrase shown under the heading of the error page: one of sixteen
      fixed phrases, or "Erro HTTP " and the decimal code for any other code. */
  function StatusMessage(code: int): (m: string)
    ensures HasPhrase(code) <==> !StartsLikeFallback(m)
    ensures !HasPhrase(code) ==> m == FallbackPrefix + IntToString(code)
  {
    var m := match code
    case 400 => "Requisição inválida"
    case 401 => "Não autorizado"
    case 403 => "Acesso negado"
    case 404 => "Página não encontrada"
    case 405 => "Método não permitido"
    case 408 => "Tempo limite da requisição"
    case 409 => "Conflito"
    case 410 => "Recurso não está mais disponível"
    case 418 => "Eu sou um bule de chá"
    case 422 => "Entidade não processável"
    case 429 => "Muitas requisições"
    case 500 => "Erro interno do servidor"
    case 501 => "Não implementado"
    case 502 => "Gateway inválido"
    case 503 => "Serviço indisponível"
    case 504 => "Timeout do gateway"
    case _ => FallbackPrefix + IntToString(code);
    FallbackShape(m);
    m
  }

  /** Every code outside the table gets "Erro HTTP " followed by its decimal
      numeral, from which the code can be read back. */
  lemma StatusMessageFallback(code: int)
    requires !HasPhrase(code)
    ensures var m := StatusMessage(code);
            |m| > |FallbackPrefix| && m[..|FallbackPrefix|] == FallbackPrefix
            && ParseInt(m[|FallbackPrefix|..]) == Some(code)
  {
    IntToStringRoundTrip(code);
    NatToStringRoundTrip(if code < 0 then -code else code);
    var m := StatusMessage(code);
    assert m == FallbackPrefix + IntToString(code);
    assert m[|FallbackPrefix|..] == IntToString(code);
  }

  /** The phrase identifies the status code: no two codes share one. */
  lemma StatusMessageInjective(a: int, b: int)
    requires StatusMessage(a) == StatusMessage(b)
    ensures a == b
  {
    if HasPhrase(a) && HasPhrase(b) {
      var m := StatusMessage(a);
      assert m[..|m|] == m;
    } else if HasPhrase(a) {
      StatusMessageFallback(b);
    } else if HasPhrase(b) {
      StatusMessageFallback(a);
    } else {
      StatusMessageFallback(a);
      StatusMessageFallback(b);
    }
  }

  // ---------------------------------------------------------------------------
  // The error page
  // ---------------------------------------------------------------------------

  /** The address of the picture for a status code. */
  function CatUrl(code: int): (url: string)
    ensures |url| > |CatBaseUrl| && url[..|CatBaseUrl|] == CatBaseUrl
    ensures ParseInt(url[|CatBaseUrl|..]) == Some(code)
  {
    IntToStringRoundTrip(code);
    NatToStringRoundTrip(if code < 0 then -code else code);
    var url := CatBaseUrl + IntToString(code);
    assert url[|CatBaseUrl|..] == IntToString(code);
    url
  }

  /** The page's title element. */
  function Title(code: int): string {
    "<title>Erro " + IntToString(code) + "</title>"
  }

  /** The page's main heading. */
  function Heading(code: int): string {
    "<h1>Erro " + IntToString(code) + "</h1>"
  }

  /** The page's phrase paragraph. */
  function Message(code: int): string {
    "<p>" + StatusMessage(code) + "</p>"
  }

  /** The start of the picture element, up to its address. */
  function PictureSource(code: int): string {
    "<img src='" + CatUrl(code) + "'"
  }

  /** The rest of the page after the picture's address. */
  function PageEnd(code: int): string {
    " alt='HTTP Cat " + IntToString(code)
    + "' onerror=\"this.alt='Imagem do gato não disponível'\" /></div>"
    + "<p><strong>HTTP Cat Status:</strong> " + IntToString(code) + "</p>"
    + "<a href='/' class='back-link'>🏠 Voltar ao Início</a>"
    + "<a href='/api/produto/listar' class='back-link'>📋 Ver Produtos</a>"
    + "</div></body></html>"
  }

  /** The page sent for an error status (its style sheet left out). It shows
      "Erro <code>" in its title and heading, the phrase for the code, and
      the picture from http.cat for the code. */
  function ErrorPage(code: int): (page: string)
    ensures Contains(page, "<title>Erro " + IntToString(code) + "</title>")
    ensures Contains(page, "<h1>Erro " + IntToString(code) + "</h1>")
    ensures Contains(page, "<p>" + StatusMessage(code) + "</p>")
    ensures Contains(page, "<img src='" + CatUrl(code) + "'")
  {
    var meta := "<meta charset=\"utf-8\"></head><body><div class='error-container'>";
    var cat := "<div class='cat-container'>";
    var picture := PictureSource(code) + PageEnd(code);
    var message := Message(code) + (cat + picture);
    var heading := Heading(code) + message;
    var title := Title(code) + (meta + heading);
    var page := "<!DOCTYPE html><html><head>" + title;

    ContainsPrefix(PictureSource(code), PageEnd(code));
    ContainsExtendLeft(cat, picture, PictureSource(code));
    ContainsExtendLeft(Message(code), cat + picture, PictureSource(code));
    ContainsPrefix(Message(code), cat + picture);
    ContainsExtendLeft(Heading(code), message, PictureSource(code));
    ContainsExtendLeft(Heading(code), message, Message(code));
    ContainsPrefix(Heading(code), message);
    ContainsExtendLeft(meta, heading, PictureSource(code));
    ContainsExtendLeft(meta, heading, Message(code));
    ContainsExtendLeft(meta, heading, Heading(code));
    ContainsExtendLeft(Title(code), meta + heading, PictureSource(code));
    ContainsExtendLeft(Title(code), meta + heading, Message(code));
    ContainsExtendLeft(Title(code), meta + heading, Heading(code));
    ContainsPrefix(Title(code), meta + heading);
    ContainsExtendLeft("<!DOCTYPE html><html><head>", title, PictureSource(code));
    ContainsExtendLeft("<!DOCTYPE html><html><head>", title, Message(code));
    ContainsExtendLeft("<!DOCTYPE html><html><head>", title, Heading(code));
    ContainsExtendLeft("<!DOCTYPE html><html><head>", title, Title(code));
    page
  }

  // ---------------------------------------------------------------------------
  // The per-request decision
  // ---------------------------------------------------------------------------

  /** What leaves the server, given what the rest of the pipeline buffered and
      the request's Accept header. */
  function Respond(buffered: Response, accept: string): (r: Response)
    ensures r.status == buffered.status
    ensures buffered.status < 400 || !IsHtmlRequest(accept) ==> r == buffered
    ensures buffered.status >= 400 && IsHtmlRequest(accept) ==>
      r.contentType == Some(HtmlContentType) && r.body == Page(ErrorPage(buffered.status))
  {
    if buffered.status >= 400 && IsHtmlRequest(accept) then
      Response(buffered.status, Some(HtmlContentType), Page(ErrorPage(buffered.status)))
    else
      buffered
  }

  /** An HTML client of a failing request sees a page naming the status and
      its phrase; the status code itself is kept. */
  lemma ErrorResponseShowsStatus(buffered: Response, accept: string)
    requires buffered.status >= 400 && IsHtmlRequest(accept)
    ensures var r := Respond(buffered, accept);
            r.status == buffered.status && r.body.Page?
            && Contains(r.body.html, "<h1>Erro " + IntToString(buffered.status) + "</h1>")
            && Contains(r.body.html, "<p>" + StatusMessage(buffered.status) + "</p>")
  {
  }
}
