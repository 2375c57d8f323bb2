# Product catalog backend and error-page middleware, modelled in Dafny

This project models the two pieces of logic in the e-commerce sample's ASP.NET
backend:

* **The product catalog** (`API/Program.cs`). The process holds one
  list of products (`Produto`: name, price, quantity), seeded with five
  games. Five handlers work on it by linear scan. `listar` lists it.
  `cadastrar` validates a new product and appends it unless its name is
  taken, ignoring case. `buscar/{nome}` finds by name, ignoring case.
  `remover` deletes by exact name. `alterar/{nome}` overwrites by exact name.
  Each handler returns one outcome: Ok, Created, BadRequest, Conflict or
  NotFound.
* **The HTTP Cat middleware** (`API/Middleware/HttpCatMiddleware.cs`). For an error status (400 or more)
  and a client that accepts HTML, it drops the buffered body. It sends
  instead an HTML page with the status code, a Portuguese phrase for it
  and a picture from `https://http.cat/<code>`. In every other case the
  buffered response goes out unchanged.

Files:

* `wrappers.dfy`: `Option`, standing for a nullable reference.
* `strings.dfy`: the .NET string operations used: `char.IsWhiteSpace`,
  `string.IsNullOrWhiteSpace`, ordinal `Contains`,
  `StringComparison.OrdinalIgnoreCase` (equality after a per-character
  case fold), and `int.ToString()` with a parser as its inverse.
* `catalog.dfy`: `Product`, `Outcome`, the seed, `FirstOrDefault` as
  `FirstIndex`, the `Store` class with the five handlers, and the lemmas
  about the uniqueness invariant and about lookup.
* `http_cat.dfy`: the Accept test, the phrase table, the page and the
  per-request decision `Respond`.
* `pipeline.dfy`: what a handler's outcome becomes after the middleware.
* `scenarios.dfy`: client methods. They derive, from the contracts alone,
  what a fresh process answers on the seed catalog.

The store is a `class` whose `products: seq<Product>` field is reassigned by
the handlers. Create keeps the source's scanning loop. List and find
change nothing. The middleware is a pure function from the buffered
response and the Accept header to the response that is sent.

Facts about the code that the model keeps:

* Find rejects a name made only of whitespace, not just an empty one
  (`API/Program.cs:79`).
* "Minecraft" is in the seed (`API/Program.cs:32`), so creating it answers
  409 (Conflict) the first time. `Scenarios.CreateOnSeedScenario` shows this.
* The middleware's registration is commented out
  (`API/Program.cs:22`). The model states what the middleware does when it
  wraps the handlers (`pipeline.dfy`). It does not claim the middleware is
  active.

## Model

| member | source | states |
|---|---|---|
| Catalog.Store.constructor | API/Program.cs:27-35 | a new process starts with exactly the five seed games, in order |
| Catalog.SeedIsUniqueAndValid | API/Program.cs:27-35 | the seed names are pairwise distinct ignoring case, and every seed entry passes create's checks |
| Catalog.Outcome.StatusCode | API/Program.cs:43-89 | Ok, list and Created outcomes are the 2xx codes; BadRequest, Conflict and NotFound are exactly the codes of 400 and above |
| Catalog.Store.List | API/Program.cs:39-46 | a non-empty catalog is returned whole and in order with 200; an empty one gives 404 "Nenhum produto encontrado"; the catalog is not modified |
| Catalog.Store.Create | API/Program.cs:48-75 | BadRequest with the catalog unchanged for a missing body or blank name, then a price of 0 or less, then a negative quantity, in that order; Conflict with the catalog unchanged when some entry's name equals the new one ignoring case; otherwise Created with the body, appended at the end with every earlier entry in place; name uniqueness and validity of all entries are preserved |
| Catalog.Store.Find | API/Program.cs:77-90 | BadRequest for a blank name; NotFound when no name matches ignoring case; otherwise Ok with the first entry whose name matches ignoring case; the catalog is not modified |
| Catalog.Store.Remove | API/Program.cs:92-101 | with no exact (case-sensitive) name match: NotFound and the catalog unchanged; otherwise the first exact match is returned and removed, the others keep their order and the length drops by one; uniqueness and validity are preserved |
| Catalog.Store.Update | API/Program.cs:103-116 | with no exact name match: NotFound and the catalog unchanged; otherwise the first exact match is replaced by the body's name, price and quantity, which is returned, and every other entry and the length are unchanged |
| Catalog.FirstIndex | API/Program.cs:84 | `FirstOrDefault`: the position found is the first whose name matches under the given comparison, and there is none exactly when no entry matches |
| Catalog.FirstMatchIsUnique | API/Program.cs:84 | two positions that are both the first match are the same position |
| Catalog.AppendKeepsUnique | API/Program.cs:66-73 | appending a product whose name matches no entry ignoring case keeps the names unique |
| Catalog.RemoveKeepsUnique | API/Program.cs:99 | removing one entry keeps the names unique |
| Catalog.UniqueMatchIsOnlyMatch | API/Program.cs:84 | in a catalog with unique names, at most one entry matches a given name ignoring case |
| Catalog.ExactMatchIsFoundIgnoringCase | API/Program.cs:94 | in a catalog with unique names, the entry that remove and update select by exact name is the one find selects ignoring case |
| Catalog.LookupIsCaseAsymmetric | API/Program.cs:84-105 | on the seed, "minecraft" is found ignoring case at position 3, but no entry matches it exactly, so remove and update would answer 404 |
| Catalog.UpdateCanBreakUniqueness | API/Program.cs:111 | update does not check the new name: renaming "Minecraft" to "ELDEN RING" in the unique seed gives a catalog whose names are not unique |
| Strings.Fold | API/Program.cs:68 | the case fold maps each lower-case ASCII letter to its capital (the code 32 below it) and leaves every other character unchanged |
| Strings.EqualsIgnoringCaseIsEquivalence | API/Program.cs:68 | comparison ignoring case is reflexive, symmetric and transitive |
| Strings.Contains | API/Middleware/HttpCatMiddleware.cs:24-25 | the substring test holds exactly when the pattern occurs at some position of the string |
| Strings.NatToStringRoundTrip | API/Middleware/HttpCatMiddleware.cs:43 | the decimal numeral of a natural number is non-empty, all digits, and parses back to the number |
| Strings.IntToStringRoundTrip | API/Middleware/HttpCatMiddleware.cs:43 | rendering any integer in decimal and parsing it back gives the integer |
| Strings.IntToStringInjective | API/Middleware/HttpCatMiddleware.cs:43 | distinct integers render as distinct numerals |
| HttpCat.IsHtmlRequest | API/Middleware/HttpCatMiddleware.cs:22-25 | the client wants HTML exactly when the Accept string is empty or "text/html" or "*/*" occurs in it |
| HttpCat.ListingHtmlIsHtmlRequest | API/Middleware/HttpCatMiddleware.cs:23-25 | an Accept header that lists text/html anywhere among other types asks for HTML |
| HttpCat.JsonIsNotHtmlRequest | API/Middleware/HttpCatMiddleware.cs:22-27 | "application/json" does not ask for HTML |
| HttpCat.StatusMessage | API/Middleware/HttpCatMiddleware.cs:119-141 | the phrase starts with "Erro HTTP " exactly when the code is not one of the sixteen listed ones, and for those other codes it is "Erro HTTP " followed by the decimal code |
| HttpCat.StatusMessageFallback | API/Middleware/HttpCatMiddleware.cs:139 | every code outside the sixteen listed ones gets "Erro HTTP " followed by a numeral that parses back to the code |
| HttpCat.StatusMessageInjective | API/Middleware/HttpCatMiddleware.cs:119-141 | two status codes with the same phrase are the same code, so the phrase identifies the status |
| HttpCat.CatUrl | API/Middleware/HttpCatMiddleware.cs:43 | the picture address is "https://http.cat/" followed by a numeral that parses back to the status code |
| HttpCat.ErrorPage | API/Middleware/HttpCatMiddleware.cs:49-114 | the page contains "Erro <code>" as its title and as its heading, the code's phrase in a paragraph, and an image whose source is the code's http.cat address |
| HttpCat.Respond | API/Middleware/HttpCatMiddleware.cs:12-47 | the status is never changed; below 400, or for a client that does not want HTML, the buffered response goes out unchanged; otherwise the content type is "text/html; charset=utf-8" and the body is the error page for the status |
| HttpCat.ErrorResponseShowsStatus | API/Middleware/HttpCatMiddleware.cs:40-47 | an HTML client of a failing request gets a page with the same status, "Erro <code>" in its heading and the code's phrase |
| Pipeline.SuccessPassesThrough | API/Middleware/HttpCatMiddleware.cs:20-37 | a 200 or 201 handler response passes through unchanged, whatever the client accepts |
| Pipeline.FailurePhrase | API/Middleware/HttpCatMiddleware.cs:123-129 | the phrase of a failing handler outcome is the table's phrase for its status: "Requisição inválida" for 400, "Conflito" for 409, "Página não encontrada" for 404 |
| Pipeline.FailureShowsPhrase | API/Middleware/HttpCatMiddleware.cs:40-47 | a failing handler outcome sent to an HTML client keeps its status and becomes an HTML page showing that outcome's phrase |
| Pipeline.FailureKeepsBodyForOtherClients | API/Middleware/HttpCatMiddleware.cs:27-37 | any handler response sent to a client that does not want HTML keeps the handler's own body |

## Left out

- Host and framework wiring (`API/Program.cs:5-25`, 37, 118): the builder, CORS, routing, JSON binding and `AddDbContext`. `AppDataContext` and the `Produto` class are not part of this model. A product is the three fields the handlers read and write.
- Concurrency: each handler is one atomic step. Two parallel creates can both pass the duplicate scan and both append. That race is not modelled.
- Aliasing in update: the source changes the stored record through the reference `FirstOrDefault` returned, and returns that reference. The model replaces the entry with a value holding the body's three fields and returns that value. The response is serialised at once, so nothing else can observe the difference.
- Null values are not modelled. A missing body or a null `Nome` on create answers 400 (`API/Program.cs:51`), which the model covers as a missing body or an empty name. The following cases stay outside the model. Remove with a null body throws in its lookup when the list is not empty and answers 404 when it is empty (`API/Program.cs:94`). Remove with a null `Nome` answers 404 unless a stored name is null, because string `==` is null-safe. Update with a null body answers 404 when nothing matches and throws at `API/Program.cs:111` after a match. Update stores a null body `Nome` without error. After that, create's scan (`API/Program.cs:68`) and find's lookup (`API/Program.cs:84`) throw when they reach that entry.
- Price is a C# `double` and is modelled as `real`. It is only compared with 0. NaN, which would pass the `<= 0` test, is not modelled.
- Quantity is a C# `int`. It is only compared with 0, so its 32-bit range is not modelled.
- `StringComparison.OrdinalIgnoreCase` is modelled as per-character equality after upper-casing ASCII letters. The invariant-culture upper-casing of other Unicode letters is not modelled.
- `int.ToString()` is modelled with the invariant culture's "-" sign.
- The middleware's stream handling (`MemoryStream` swap, `Seek`, `CopyToAsync`, `Response.Clear()` of headers other than the content type) is abstracted to `Respond`. The page is a string. Its UTF-8 encoding is not modelled.
- The page's style sheet and the template's line breaks and indentation are left out. The markup around the status, phrase, picture and links is kept.
- The Accept header is the single string `Headers.Accept.ToString()` gives, "" when absent. How several header values are joined is not modelled.
- `API/Extensions/HttpCatExtensions.cs` (a one-line `UseMiddleware` wrapper) and the React frontend (`front/src/...`) are UI and wiring, so they are not modelled. The form checks in `CadastrarProduto.tsx` repeat the backend validation.
- The response message strings are kept, but their JSON encoding in the response body is not modelled.
