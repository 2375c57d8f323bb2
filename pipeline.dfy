/**
 * The handlers' outcomes as they leave the server when the error-page
 * middleware wraps the catalog endpoints.
 */
module Pipeline {
  import opened Wrappers
  import opened Strings
  import Catalog
  import opened HttpCat

  /** The response a handler's outcome becomes before the middleware sees it. */
  function Buffer(o: Catalog.Outcome, contentType: Option<string>, bytes: seq<bv8>): Response {
    Response(o.StatusCode(), contentType, Buffered(bytes))
  }

  /** A successful handler's response passes through untouched, whatever the
      client accepts. */
  lemma SuccessPassesThrough(o: Catalog.Outcome, contentType: Option<string>, bytes: seq<bv8>, accept: string)
    requires o.Ok? || o.OkList? || o.Created?
    ensures Respond(Buffer(o, contentType, bytes), accept) == Buffer(o, contentType, bytes)
  {
  }

  /** The phrase for each failing outcome's status: "Requisição inválida"
      for 400, "Conflito" for 409, "Página não encontrada" for 404. */
  function FailurePhrase(o: Catalog.Outcome): (phrase: string)
    requires o.BadRequest? || o.Conflict? || o.NotFound?
    ensures phrase == StatusMessage(o.StatusCode())
  {
    match o
    case BadRequest(_) => "Requisição inválida"
    case Conflict(_) => "Conflito"
    case NotFound(_) => "Página não encontrada"
  }

  /** A failing handler's response, sent to an HTML client, keeps its status
      and becomes a page showing the phrase of that status. */
  lemma FailureShowsPhrase(o: Catalog.Outcome, contentType: Option<string>, bytes: seq<bv8>, accept: string)
    requires o.BadRequest? || o.Conflict? || o.NotFound?
    requires IsHtmlRequest(accept)
    ensures var r := Respond(Buffer(o, contentType, bytes), accept);
            && r.status == o.StatusCode()
            && r.contentType == Some(HtmlContentType)
            && r.body.Page?
            && Contains(r.body.html, "<p>" + FailurePhrase(o) + "</p>")
  {
    ErrorResponseShowsStatus(Buffer(o, contentType, bytes), accept);
  }

  /** A failing handler's response, sent to a client that does not accept
      HTML, keeps the handler's own body. */
  lemma FailureKeepsBodyForOtherClients(o: Catalog.Outcome, contentType: Option<string>, bytes: seq<bv8>, accept: string)
    requires !IsHtmlRequest(accept)
    ensures Respond(Buffer(o, contentType, bytes), accept).body == Buffered(bytes)
  {
  }
}
