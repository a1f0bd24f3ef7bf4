/**
 The run `main` drives: read the inputs, optionally pick a proxy, collect the
 page's matched elements, send the payload, and write the reply to a file.
 Everything the run receives from the outside is a parameter: the console
 lines, the decoded proxy list, the elements of the visited page and the
 completion endpoint's reply.
 */
module Scraper {
  import opened Wrappers
  import opened Text
  import opened Inputs
  import opened Extract
  import opened Proxy
  import opened Completion

  /** The record the callbacks fill in while the page is visited. */
  datatype ScrapedPage = ScrapedPage(url: string, content: string, prompt: string, proxy: bool)

  /**
   The element callback as the scraper runs it, updating the page record once
   per matched element in document order: the content gains one rendered line
   per element and nothing else changes. The result agrees with the fold
   `Accumulate` that `Run` uses.
   */
  method VisitMatches(page: ScrapedPage, es: seq<Element>) returns (visited: ScrapedPage)
    ensures visited.content == page.content + Lines(es)
    ensures visited.content == Accumulate(page.content, es)
    ensures visited.url == page.url && visited.prompt == page.prompt && visited.proxy == page.proxy
  {
    var content := page.content;
    var i := 0;
    while i < |es|
      invariant 0 <= i <= |es|
      invariant content == page.content + Lines(es[..i])
    {
      NextLine(page.content, content, es, i);
      content := AppendElement(content, es[i]);
      i := i + 1;
    }
    assert es[..|es|] == es;
    AccumulateIsLines(page.content, es);
    visited := page.(content := content);
  }

  lemma NextLine(start: string, content: string, es: seq<Element>, i: nat)
    requires i < |es|
    requires content == start + Lines(es[..i])
    ensures AppendElement(content, es[i]) == start + Lines(es[..i + 1])
  {
    assert es[..i + 1] == es[..i] + [es[i]];
    LinesSnoc(es[..i], es[i]);
  }

  datatype Failure =
    | InputFailed(input: InputError)
    | ProxyFailed(proxyError: ProxyError)
    | FetchFailed
    | CompletionFailed(completion: CompletionError)

  /** The file the reply is written to. */
  const OutputFile: string := "scrapi.json"

  datatype FileWrite = FileWrite(name: string, data: string)

  /**
   What a run did: the proxy it installed on the page collector (the chat
   request never uses it), the payload it built for the endpoint (kept even
   when the request then fails), and either the file it wrote or the failure
   that stopped it.
   */
  datatype Trace = Trace(proxy: Option<string>, payload: Option<Payload>, outcome: Result<FileWrite, Failure>)

  /**
   One run. `proxyList` is the decoded proxy list (`None` when it could not be
   fetched or decoded); `page` holds the matched elements of the visited page
   (`None` when the visit failed); `reply` is the completion endpoint's answer
   (`None` when the request could not be created or sent, or its body read).
   A file is written only after a payload was built and its reply decoded.
   */
  function Run(urlLine: Option<string>, promptLine: Option<string>, proxyLine: Option<string>,
               proxyList: Option<seq<Candidate>>, page: Option<seq<Element>>, reply: Option<Response>): (t: Trace)
    ensures GetUserInputs(urlLine, promptLine, proxyLine).Err? ==>
      t == Trace(None, None, Err(InputFailed(GetUserInputs(urlLine, promptLine, proxyLine).error)))
    ensures t.outcome.Ok? ==> t.payload.Some? && t.outcome.value.name == OutputFile && Complete(reply) == Ok(t.outcome.value.data)
    ensures t.payload.Some? ==> GetUserInputs(urlLine, promptLine, proxyLine).Ok? && page.Some?
    ensures t.outcome.Err? && t.outcome.error.CompletionFailed? ==> t.payload.Some?
    ensures t.payload.Some? ==> (GetUserInputs(urlLine, promptLine, proxyLine).value.useProxy <==> t.proxy.Some?)
  {
    match GetUserInputs(urlLine, promptLine, proxyLine)
    case Err(e) => Trace(None, None, Err(InputFailed(e)))
    case Ok(inputs) =>
      var chosen :=
        if !inputs.useProxy then Ok(None)
        else match proxyList
          case None => Err(LookupFailed)
          case Some(data) =>
            (match SelectProxy(data)
             case Err(e) => Err(e)
             case Ok(address) => Ok(Some(address)));
      match chosen
      case Err(e) => Trace(None, None, Err(ProxyFailed(e)))
      case Ok(proxy) =>
        match page
        case None => Trace(proxy, None, Err(FetchFailed))
        case Some(es) =>
          var scraped := ScrapedPage(inputs.url, Accumulate("", es), inputs.prompt, inputs.useProxy);
          var payload := BuildPayload(scraped.content, scraped.prompt);
          match Complete(reply)
          case Err(e) => Trace(proxy, Some(payload), Err(CompletionFailed(e)))
          case Ok(text) => Trace(proxy, Some(payload), Ok(FileWrite(OutputFile, text)))
  }

  /** A blank URL ends the run before anything else happens, whatever the other inputs. */
  lemma RunBlankUrl(u: string, promptLine: Option<string>, proxyLine: Option<string>,
                    proxyList: Option<seq<Candidate>>, page: Option<seq<Element>>, reply: Option<Response>)
    requires AllSpace(u)
    ensures Run(Some(u), promptLine, proxyLine, proxyList, page, reply) == Trace(None, None, Err(InputFailed(EmptyUrl)))
  {
  }

  /** Without the proxy flag the proxy list is never consulted. */
  lemma RunWithoutProxyIgnoresList(u: string, p: string, a: string,
                                   list1: Option<seq<Candidate>>, list2: Option<seq<Candidate>>,
                                   page: Option<seq<Element>>, reply: Option<Response>)
    requires !UseProxyAnswer(a)
    ensures Run(Some(u), Some(p), Some(a), list1, page, reply) == Run(Some(u), Some(p), Some(a), list2, page, reply)
    ensures Run(Some(u), Some(p), Some(a), list1, page, reply).proxy.None?
  {
  }

  /**
   With the proxy flag, a failed lookup or an empty list stops the run: there
   is no fallback to a direct connection, and nothing is fetched, built or written.
   */
  lemma RunProxyUnavailable(u: string, p: string, a: string, proxyList: Option<seq<Candidate>>,
                            page: Option<seq<Element>>, reply: Option<Response>)
    requires !AllSpace(u) && UseProxyAnswer(a)
    requires proxyList.None? || proxyList.value == []
    ensures Run(Some(u), Some(p), Some(a), proxyList, page, reply) ==
      Trace(None, None, Err(ProxyFailed(if proxyList.None? then LookupFailed else NoProxyFound)))
  {
  }

  /**
   A failed visit stops the run after the proxy is configured: nothing is
   built or written.
   */
  lemma RunVisitFails(u: string, p: string, a: string, proxyList: Option<seq<Candidate>>, reply: Option<Response>)
    requires !AllSpace(u)
    requires UseProxyAnswer(a) ==> proxyList.Some? && proxyList.value != []
    ensures Run(Some(u), Some(p), Some(a), proxyList, None, reply) ==
      Trace(if UseProxyAnswer(a) then Some(Scheme + proxyList.value[0].ipPort) else None, None, Err(FetchFailed))
  {
  }

  /**
   A chat request that cannot be made stops the run after the payload was
   built: nothing is written.
   */
  lemma RunRequestFails(u: string, p: string, a: string, proxyList: Option<seq<Candidate>>, es: seq<Element>)
    requires !AllSpace(u)
    requires UseProxyAnswer(a) ==> proxyList.Some? && proxyList.value != []
    ensures Run(Some(u), Some(p), Some(a), proxyList, Some(es), None).outcome == Err(CompletionFailed(RequestFailed))
  {
  }

  /**
   A run that gets past its inputs and proxy builds its payload from the
   page's rendered lines and the prompt template, and writes exactly the reply
   text, or nothing.
   */
  lemma RunSendsPageLines(u: string, p: string, a: string, proxyList: Option<seq<Candidate>>,
                          es: seq<Element>, reply: Option<Response>)
    requires !AllSpace(u)
    requires UseProxyAnswer(a) ==> proxyList.Some? && proxyList.value != []
    ensures Run(Some(u), Some(p), Some(a), proxyList, Some(es), reply).payload ==
      Some(BuildPayload(Lines(es), PromptTemplate(p)))
    ensures Run(Some(u), Some(p), Some(a), proxyList, Some(es), reply).outcome ==
      (match Complete(reply)
       case Ok(text) => Ok(FileWrite(OutputFile, text))
       case Err(e) => Err(CompletionFailed(e)))
    ensures UseProxyAnswer(a) ==>
      Run(Some(u), Some(p), Some(a), proxyList, Some(es), reply).proxy == Some(Scheme + proxyList.value[0].ipPort)
  {
    AccumulateIsLines("", es);
    assert "" + Lines(es) == Lines(es);
  }

  /** A reply whose first choice says "HELLO" leaves a file holding exactly "HELLO". */
  lemma RunWritesReplyVerbatim(u: string, p: string, a: string, es: seq<Element>)
    requires !AllSpace(u) && !UseProxyAnswer(a)
    ensures Run(Some(u), Some(p), Some(a), None, Some(es), Some(Response(StatusOK, Some(ReplyJson("HELLO"))))).outcome ==
      Ok(FileWrite(OutputFile, "HELLO"))
  {
    DecodeReplyJson("HELLO");
  }
}
