# scrapi, modelled in Dafny

scrapi is a one-shot command-line scraper. It reads a URL, an optional prompt
and a yes/no proxy answer from the console. If the answer is yes, it picks the
first proxy from a public proxy list. It then visits the page and collects
headings, paragraphs, lists, links and images in document order. It sends that
text with the prompt to a chat-completion endpoint and writes the reply text
to `scrapi.json`.

The program is glue code around an HTML scraper, HTTP calls and the console.
This project models the pure decisions inside that glue. Each is a total
function over strings, sequences and a parsed-JSON datatype:

- `Text` (`text.dfy`): Go's `unicode.IsSpace` and `strings.TrimSpace`, and the
  letter-case folding used on the proxy answer.
- `Inputs` (`inputs.dfy`): what `getUserInputs` does after each console read.
  The URL is trimmed and must not be blank. The prompt becomes an instruction
  template. The proxy answer becomes a flag.
- `Extract` (`extract.dfy`): the element callback. Each matched element is
  rendered by tag (`Link: text (href)`, `Image: src`, or its text) and
  appended to the content with a newline.
- `Proxy` (`proxy.dfy`): the choice `setProxy` makes from a decoded candidate
  list.
- `Json` (`json.dfy`): the parsed JSON value. Object lookup keeps the last
  duplicate key, as Go's map decoding does. The module also walks paths of
  keys and indices.
- `Completion` (`completion.dfy`): the chat payload (model, system message,
  user message) and the abstract JSON value it is marshalled to. Also the
  decoding of the endpoint's reply down to `choices[0].message.content`,
  with one error per way the shape can fail.
- `Scraper` (`scraper.dfy`): the `ScrapedPage` record, the callback loop over
  the matched elements, and `main`'s run composed from the pieces above.
- `Wrappers` (`wrappers.dfy`): `Option` and `Result`.

The outside world enters only as parameters:
- Each console line is an `Option<string>`; `None` means the read failed.
- The proxy list arrives already decoded.
- The page arrives as its matched elements; `None` means the visit failed.
- The endpoint's reply is a status code plus a decoded body, or `None` when
  the request could not be created or sent, or its body read. A `None` body
  stands for any body that is not well-formed JSON to Go: malformed text, or
  a number outside the float64 range. Well-formed JSON that is not an object
  or `null` is kept, and decoding reports it as a malformed body.

A run returns a `Trace`: the proxy it installed on the page collector, the
payload it built for the endpoint, and either the file it writes or the failure that stopped it. The model is pure
functions, so two runs on identical inputs give identical traces.

Three behaviours of the code are worth knowing:
- The prompt's `%s` placeholder is never substituted. The page content goes
  into the system message, and the user message is the template verbatim,
  with a literal `%s` (`Completion.BuildPayload`).
- Nothing checks the number of placeholders. A typed prompt that already
  contains `%s` yields a template with more than one
  (`Inputs.PromptTemplatePlaceholders`). The default template's single
  placeholder sits in the middle of the text, not at the end.
- A reply body that is JSON `null` decodes without error into a nil map. It
  is therefore reported as "no choices", not as an unreadable body
  (`Completion.DecodeReply`).

## Model

| member | source | states |
|---|---|---|
| Text.TrimSpace | scraper.go:151 | The result has no white space at either end. Only white space surrounds it in the input. It is empty exactly when the input is all white space. White space is Go's `unicode.IsSpace` set. |
| Text.TrimSpaceUnique | scraper.go:165 | Any text with no white space at either end, padded with white space on both sides, trims back to itself. So the trimmed result is uniquely determined. |
| Text.TrimSpaceIdempotent | scraper.go:181 | Trimming an already trimmed line changes nothing. |
| Inputs.NormaliseUrl | scraper.go:151-156 | A URL line that is all white space is refused with `EmptyUrl`. Any other line is accepted. The accepted URL is non-empty, trimmed at both ends, and is the input with only white space removed around it. |
| Inputs.GetUserInputs | scraper.go:142-184 | A failed URL read gives `ReadFailed`. The result is `EmptyUrl` exactly when the URL line was read and is blank. Every other error, including a failed prompt or proxy read, is `ReadFailed`. The result is a value exactly when the URL is non-blank and both later reads succeed. That value holds the trimmed URL, the prompt template and the proxy flag computed from the three lines. |
| Inputs.BlankUrlDecides | scraper.go:153-156 | Once the URL line is blank, the prompt and proxy lines, read or not, cannot change the result `EmptyUrl`. |
| Inputs.PromptTemplate | scraper.go:165-172 | The template is never empty. A blank prompt gives the fixed default template. Any other prompt gives the trimmed text followed by a newline and `%s`. |
| Inputs.PromptTemplatePlaceholders | scraper.go:167-172 | The template has exactly one `%s` placeholder more than the user's trimmed text. So it has exactly one for the default template, or when the user typed none. |
| Inputs.UseProxyAnswerSpellsYes | scraper.go:181-182 | The proxy flag is true if and only if the trimmed answer is `yes` in some mix of letter case. |
| Inputs.UseProxyAnswerShouted | scraper.go:181-182 | The answer `" YES "` sets the proxy flag. |
| Inputs.UseProxyAnswerRefusals | scraper.go:181-182 | The answers `y`, the empty line and `yes please` leave the proxy flag false. |
| Extract.Attr | scraper.go:105-108 | A non-empty attribute value comes from a member with that name. When no member has the name, the value is the empty string. |
| Extract.AttrFirstWins | scraper.go:105-108 | The first attribute with the name gives the value; later duplicates are never consulted, and members with other names are skipped. |
| Extract.LinkLine | scraper.go:103-105 | An `a` element renders as `Link: ` + text + ` (` + href + `)`, whatever characters the text and href hold. |
| Extract.LinkRoundTrip | scraper.go:103-105 | When the href has no `(`, reading a link's line back recovers exactly the text and the href. |
| Extract.ImageLine | scraper.go:106-108 | An `img` element renders as `Image: ` followed by its `src` attribute. |
| Extract.TextLine | scraper.go:109-111 | Any other tag renders as its text, unchanged. |
| Extract.AppendElement | scraper.go:113 | The old content is a prefix of the new content. What follows it is exactly the rendered line plus a newline. |
| Extract.Accumulate | scraper.go:100-114 | Running the callback over a sequence of elements only extends the content: the old content stays a prefix. The content grows by at least one character per element. |
| Extract.AccumulateIsLines | scraper.go:113 | After the callbacks, the content is the earlier content followed by each element's rendered line and a newline, in document order. |
| Extract.AccumulateAppend | scraper.go:100-114 | Visiting the elements in two parts gives the same content as visiting them all at once. |
| Extract.LinesRoundTrip | scraper.go:100-114 | When no rendered line holds its own newline, splitting the content at newlines gives back exactly one rendered line per element, in order. |
| Scraper.VisitMatches | scraper.go:99-114 | Applying the callback to each matched element of a page record appends the rendered lines, agreeing with the fold `Extract.Accumulate`. It changes no other field of the record. |
| Proxy.SelectProxy | scraper.go:209-218 | An empty candidate list is refused with `NoProxyFound`, and only an empty list is refused. Otherwise the proxy URL is `http://` followed by the first candidate's `ipPort`. |
| Proxy.SelectProxyIgnoresRest | scraper.go:214-215 | Candidates after the first never change the chosen proxy. |
| Json.Get | scraper.go:287-290 | Looking up a missing key gives nothing. A found value belongs to a member with that key. |
| Json.GetLastWins | scraper.go:287-290 | A later duplicate key overrides an earlier one. Other keys are unaffected. |
| Completion.BuildPayload | scraper.go:234-247 | The payload names `gpt-3.5-turbo`. It has exactly two messages, system first and user second. The system content is the fixed preamble followed by the page content. The user content is the prompt template, unchanged. |
| Completion.ReadBuildPayload | scraper.go:238-245 | The page content and the prompt can be read back out of the payload unchanged. |
| Completion.PayloadJson | scraper.go:249-250 | The marshalled payload is an object with exactly two members, keys in ascending order, as `json.Marshal` writes a two-key map. Each message is likewise an object with exactly two members. With `PayloadJsonRoundTrip`, which needs the keys `messages` and `model`, and `content` and `role`, to be present, no other key can appear. |
| Completion.PayloadJsonRoundTrip | scraper.go:249-253 | Decoding the marshalled payload gives back the payload. |
| Completion.DecodeReply | scraper.go:281-290 | Any status other than 200 is an error carrying that status, whatever the body. A 200 reply whose body is not JSON, or is JSON other than an object or `null`, is a malformed-body error. |
| Completion.Complete | scraper.go:255-290 | A request that cannot be created or sent, or whose body cannot be read, is `RequestFailed`, and no other reply is. A reply that arrives is decoded by `DecodeReply`. |
| Completion.DecodeReplyFollowsPath | scraper.go:292-312 | A 200 reply yields text exactly when `choices[0].message.content` is a string. The text is that string, unchanged. |
| Completion.DecodeReplyErrorLocates | scraper.go:292-310 | For an object or `null` body, each of the four shape errors holds exactly when its step of `choices[0].message.content` is the first to fail. The steps are: choices missing, not an array, or empty; first choice not an object; message not an object; content not a string. |
| Completion.DecodeReplyJson | scraper.go:298-312 | A 200 reply built around a text decodes to that text. |
| Scraper.Run | scraper.go:66-139 | Failed inputs end the run with their error before any proxy is chosen or any payload built. A file is written only after a payload was built; the file is `scrapi.json` and holds exactly the decoded reply text. A payload is built only after the inputs were accepted and the page was visited. A completion failure happens only after a payload was built. Once the run gets that far, the page was visited through a proxy exactly when the proxy flag was set, with no fallback to a direct connection; the chat request never uses that proxy. |
| Scraper.RunBlankUrl | scraper.go:66-71 | A blank URL ends the run with `EmptyUrl`. No proxy is chosen and no payload is built, whatever the other inputs. |
| Scraper.RunWithoutProxyIgnoresList | scraper.go:79-86 | Without the proxy flag, the proxy list does not affect the run, and no proxy is configured. |
| Scraper.RunProxyUnavailable | scraper.go:79-86 | With the proxy flag, a failed lookup stops the run with `LookupFailed` and an empty list with `NoProxyFound`. Nothing is fetched, built or written. |
| Scraper.RunVisitFails | scraper.go:79-97 | A failed visit stops the run with `FetchFailed` after the proxy was configured. No payload is built and nothing is written. |
| Scraper.RunRequestFails | scraper.go:116-124 | A chat request that cannot be made stops the run with `RequestFailed`. No file is written. |
| Scraper.RunSendsPageLines | scraper.go:116-133 | Once past the inputs and the proxy, a run builds its payload from the page's rendered lines and the prompt template. It writes exactly the reply text, or stops with the request or decoding error. The proxy installed on the collector is `http://` followed by the first candidate. |
| Scraper.RunWritesReplyVerbatim | scraper.go:127-129 | A reply whose first choice says `HELLO` produces a file holding exactly `HELLO`. |

## Left out

- Console I/O: the banner, colours and prompts are not modelled. A read
  failure is `None`, and its error message is not modelled; the code uses
  the text "error reading proxy input" for all three reads.
- The scraper library's lifecycle is not modelled. This includes HTTP
  fetching, HTML parsing and CSS selector matching; the model takes the
  matched elements as input. The request callback that overwrites the page
  URL is left out because the URL is not used after the visit starts. The
  error callback is reduced to a failed visit that sends nothing.
- HTTP traffic is not modelled: the proxy-list GET, the chat POST, its
  headers and bearer token, and installing the proxy on the collector. Their
  failures enter as `None`: a failed lookup, a failed visit, or a chat
  request that could not be created, sent or read (`RequestFailed`). The
  "failed to set proxy" error path is absent. So is the payload marshalling
  error, which cannot occur for a payload of strings.
- Byte-level JSON is not modelled. This covers parsing the proxy list into
  candidates (including Go's case-insensitive struct field matching) and the
  payload's byte encoding, including HTML escaping. JSON numbers are reals.
- The error values carry no text. In particular `NonOkStatus` keeps the
  status but drops the raw body that the code's error message includes, and
  a decoding error drops the decoded value it prints.
- Loading `.env` and the environment, and the fatal exit when that fails, are
  not modelled; they are configuration side effects.
- File creation and writing are not modelled. A run returns the write it
  would perform. Write failures and the string-to-bytes conversion are out
  of scope.
- Text.ToLower: folds only ASCII letters, because full Unicode case mapping is
  out of scope. The only use compares the result with `yes`. No non-ASCII
  character lower-cases to `y`, `e` or `s`, so the flag is exact.
- Text.TrimSpace: works on Unicode scalar values. Invalid UTF-8 bytes, which
  Go treats as non-space, cannot occur in a Dafny string.
