/**
 The decisions `getUserInputs` makes after each console read: the URL must not be
 blank, the optional prompt becomes an instruction template, and the proxy answer
 becomes a flag. A line the console could not deliver is `None`.
 */
module Inputs {
  import opened Wrappers
  import opened Text

  datatype InputError =
    | ReadFailed   // the console read returned an error
    | EmptyUrl     // the URL line was blank after trimming

  /** The three values handed on to the rest of the run. */
  datatype UserInputs = UserInputs(url: string, prompt: string, useProxy: bool)

  /**
   The instruction used when the user leaves the prompt blank:
   "Here is the scraped content from a webpage:\n%s\nPlease summarize the main points."
   */
  const DefaultPrompt: string := DefaultLead + "%s" + DefaultTail
  const DefaultLead: string := "Here is the scraped content from a webpage:\n"
  const DefaultTail: string := "\nPlease summarize the main points."

  /** The text appended to a prompt the user typed. */
  const PlaceholderSuffix: string := "\n%s"

  /** Number of `%s` placeholders in `s`. */
  function Placeholders(s: string): nat {
    if |s| < 2 then 0
    else (if s[0] == '%' && s[1] == 's' then 1 else 0) + Placeholders(s[1..])
  }

  /** The URL line, trimmed; a blank line is refused. */
  function NormaliseUrl(line: string): (r: Result<string, InputError>)
    ensures r.Err? <==> AllSpace(line)
    ensures r.Err? ==> r.error == EmptyUrl
    ensures r.Ok? ==> r.value != [] && Trimmed(r.value) && exists i :: Surrounded(line, r.value, i)
  {
    var url := TrimSpace(line);
    if url == "" then Err(EmptyUrl) else Ok(url)
  }

  /**
   The prompt line becomes an instruction template: a blank line selects the
   default template, any other text is kept, trimmed, and followed by a newline
   and one `%s` placeholder.
   */
  function PromptTemplate(line: string): (r: string)
    ensures r != []
    ensures AllSpace(line) ==> r == DefaultPrompt
    ensures !AllSpace(line) ==>
      |r| > |PlaceholderSuffix| && r[|r| - |PlaceholderSuffix|..] == PlaceholderSuffix
      && r[..|r| - |PlaceholderSuffix|] == TrimSpace(line)
  {
    var prompt := TrimSpace(line);
    if prompt == "" then DefaultPrompt else prompt + PlaceholderSuffix
  }

  /** The proxy answer is yes exactly when its trimmed, lower-cased text is "yes". */
  function UseProxyAnswer(line: string): bool {
    ToLower(TrimSpace(line)) == "yes"
  }

  /** One of the eight spellings of "yes" that differ only in letter case. */
  predicate SpellsYes(t: string) {
    && |t| == 3
    && (t[0] == 'y' || t[0] == 'Y')
    && (t[1] == 'e' || t[1] == 'E')
    && (t[2] == 's' || t[2] == 'S')
  }

  /**
   `getUserInputs` after its reads: each line is only consulted once the one
   before it was accepted, so a failed or blank URL decides the result alone.
   */
  function GetUserInputs(urlLine: Option<string>, promptLine: Option<string>, proxyLine: Option<string>)
    : (r: Result<UserInputs, InputError>)
    ensures urlLine.None? ==> r == Err(ReadFailed)
    ensures urlLine.Some? && AllSpace(urlLine.value) ==> r == Err(EmptyUrl)
    ensures r == Err(EmptyUrl) <==> urlLine.Some? && AllSpace(urlLine.value)
    ensures r.Err? && r != Err(EmptyUrl) ==> r == Err(ReadFailed)
    ensures r.Ok? <==> urlLine.Some? && !AllSpace(urlLine.value) && promptLine.Some? && proxyLine.Some?
    ensures r.Ok? ==> NormaliseUrl(urlLine.value) == Ok(r.value.url)
    ensures r.Ok? ==> r.value.prompt == PromptTemplate(promptLine.value)
    ensures r.Ok? ==> r.value.useProxy == UseProxyAnswer(proxyLine.value)
  {
    match urlLine
    case None => Err(ReadFailed)
    case Some(u) =>
      match NormaliseUrl(u)
      case Err(e) => Err(e)
      case Ok(url) =>
        match promptLine
        case None => Err(ReadFailed)
        case Some(p) =>
          match proxyLine
          case None => Err(ReadFailed)
          case Some(a) => Ok(UserInputs(url, PromptTemplate(p), UseProxyAnswer(a)))
  }

  /** Once the URL line is blank, neither later line can change the outcome. */
  lemma BlankUrlDecides(u: string, p1: Option<string>, a1: Option<string>, p2: Option<string>, a2: Option<string>)
    requires AllSpace(u)
    ensures GetUserInputs(Some(u), p1, a1) == GetUserInputs(Some(u), p2, a2) == Err(EmptyUrl)
  {
  }

  /** The proxy flag is set exactly by the case variants of "yes", surrounded by any white space. */
  lemma UseProxyAnswerSpellsYes(line: string)
    ensures UseProxyAnswer(line) <==> SpellsYes(TrimSpace(line))
  {
  }

  lemma UseProxyAnswerShouted()
    ensures UseProxyAnswer(" YES ")
  {
    assert TrimSpace(" YES ") == "YES" by {
      assert " " + "YES" + " " == " YES ";
      TrimSpaceUnique(" ", "YES", " ");
    }
    assert SpellsYes("YES");
    UseProxyAnswerSpellsYes(" YES ");
  }

  lemma UseProxyAnswerRefusals()
    ensures !UseProxyAnswer("y")
    ensures !UseProxyAnswer("")
    ensures !UseProxyAnswer("yes please")
  {
  }

  lemma {:induction false} PlaceholdersAppendSuffix(t: string)
    ensures Placeholders(t + PlaceholderSuffix) == Placeholders(t) + 1
    decreases |t|
  {
    if t == [] {
      assert t + PlaceholderSuffix == PlaceholderSuffix;
      assert PlaceholderSuffix[1..] == "%s";
      assert "%s"[1..] == "s";
      assert Placeholders("%s") == 1;
    } else {
      assert (t + PlaceholderSuffix)[1..] == t[1..] + PlaceholderSuffix;
      PlaceholdersAppendSuffix(t[1..]);
    }
  }

  lemma {:induction false} NoPercentNoPlaceholder(s: string)
    requires '%' !in s
    ensures Placeholders(s) == 0
    decreases |s|
  {
    if |s| >= 2 {
      assert s[0] in s;
      assert forall c :: c in s[1..] ==> c in s;
      NoPercentNoPlaceholder(s[1..]);
    }
  }

  lemma {:induction false} PlaceholdersAfterPercent(s: string, rest: string)
    requires '%' !in s
    ensures Placeholders(s + "%s" + rest) == 1 + Placeholders(rest)
    decreases |s|
  {
    if s == [] {
      assert ("%s" + rest)[1..] == "s" + rest;
      assert Placeholders("s" + rest) == Placeholders(rest) by {
        if |rest| >= 1 { assert ("s" + rest)[1..] == rest; }
      }
    } else {
      assert s[0] in s;
      assert forall c :: c in s[1..] ==> c in s;
      assert (s + "%s" + rest)[1..] == s[1..] + "%s" + rest;
      PlaceholdersAfterPercent(s[1..], rest);
    }
  }

  lemma DefaultLeadHasNoPercent()
    ensures '%' !in DefaultLead
  {
  }

  lemma DefaultTailHasNoPercent()
    ensures '%' !in DefaultTail
  {
  }

  lemma DefaultPromptPlaceholders()
    ensures Placeholders(DefaultPrompt) == 1
  {
    DefaultLeadHasNoPercent();
    DefaultTailHasNoPercent();
    PlaceholdersAfterPercent(DefaultLead, DefaultTail);
    NoPercentNoPlaceholder(DefaultTail);
  }

  /**
   The template holds exactly one placeholder more than the text the user
   typed: so exactly one when the user typed none, and exactly one for the
   default template.
   */
  lemma PromptTemplatePlaceholders(line: string)
    ensures Placeholders(PromptTemplate(line)) ==
      1 + (if AllSpace(line) then 0 else Placeholders(TrimSpace(line)))
  {
    if AllSpace(line) {
      DefaultPromptPlaceholders();
    } else {
      PlaceholdersAppendSuffix(TrimSpace(line));
    }
  }
}
