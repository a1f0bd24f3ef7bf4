/**
 The element callback of the page visit: each matched element (a heading,
 paragraph, list, list item, link or image, in document order) is rendered as
 one line and appended, with a newline, to the page's accumulated content.
 HTML parsing and selector matching happen before this point; the model takes
 the matched elements as its input.
 */
module Extract {
  import opened Wrappers

  /** A matched element: its tag name, its text and its attributes in document order. */
  datatype Element = Element(name: string, text: string, attrs: seq<(string, string)>)

  const LinkPrefix: string := "Link: "
  const ImagePrefix: string := "Image: "

  /** The value of the first attribute named `key`, or "" when there is none. */
  function Attr(e: Element, key: string): (v: string)
    ensures v != "" ==> exists k :: 0 <= k < |e.attrs| && e.attrs[k] == (key, v)
    ensures (forall k :: 0 <= k < |e.attrs| ==> e.attrs[k].0 != key) ==> v == ""
  {
    AttrIn(e.attrs, key)
  }

  function AttrIn(attrs: seq<(string, string)>, key: string): (v: string)
    ensures v != "" ==> exists k :: 0 <= k < |attrs| && attrs[k] == (key, v)
    ensures (forall k :: 0 <= k < |attrs| ==> attrs[k].0 != key) ==> v == ""
  {
    if attrs == [] then ""
    else if attrs[0].0 == key then attrs[0].1
    else AttrIn(attrs[1..], key)
  }

  /** The first attribute with the key decides; later duplicates are never seen. */
  lemma AttrFirstWins(key: string, v: string, rest: seq<(string, string)>, k: string, w: string)
    ensures AttrIn([(key, v)] + rest, key) == v
    ensures k != key ==> AttrIn([(k, w)] + rest, key) == AttrIn(rest, key)
  {
    assert ([(key, v)] + rest)[1..] == rest;
    assert ([(k, w)] + rest)[1..] == rest;
  }

  /** The line one element contributes, by tag. */
  function Render(e: Element): string {
    match e.name
    case "a" => LinkPrefix + e.text + " (" + Attr(e, "href") + ")"
    case "img" => ImagePrefix + Attr(e, "src")
    case _ => e.text
  }

  /** The element callback: the content grows by the rendered line and a newline. */
  function AppendElement(content: string, e: Element): (r: string)
    ensures content <= r
    ensures r[|content|..] == Render(e) + "\n"
  {
    content + Render(e) + "\n"
  }

  /** The content after the callback has run on each element of `es` in turn. */
  function Accumulate(content: string, es: seq<Element>): (r: string)
    ensures content <= r
    ensures |r| >= |content| + |es|
    decreases |es|
  {
    if es == [] then content else Accumulate(AppendElement(content, es[0]), es[1..])
  }

  /** The rendered lines, without their newlines. */
  function RenderAll(es: seq<Element>): (ls: seq<string>)
    ensures |ls| == |es|
    ensures forall k :: 0 <= k < |es| ==> ls[k] == Render(es[k])
  {
    seq(|es|, k requires 0 <= k < |es| => Render(es[k]))
  }

  /** Each string of `ls` in order, each followed by a newline. */
  function Terminated(ls: seq<string>): string {
    if ls == [] then "" else ls[0] + "\n" + Terminated(ls[1..])
  }

  /** Reference definition: the rendered lines of `es` in order, each ending in a newline. */
  function Lines(es: seq<Element>): string {
    Terminated(RenderAll(es))
  }

  lemma LinesCons(es: seq<Element>)
    requires es != []
    ensures Lines(es) == Render(es[0]) + "\n" + Lines(es[1..])
  {
    assert RenderAll(es)[1..] == RenderAll(es[1..]);
  }

  /** The accumulated content is the content so far followed by the lines of the new elements. */
  lemma {:induction false} AccumulateIsLines(content: string, es: seq<Element>)
    ensures Accumulate(content, es) == content + Lines(es)
    decreases |es|
  {
    if es != [] {
      AccumulateIsLines(AppendElement(content, es[0]), es[1..]);
      LinesCons(es);
    }
  }

  lemma {:induction false} TerminatedAppend(xs: seq<string>, ys: seq<string>)
    ensures Terminated(xs + ys) == Terminated(xs) + Terminated(ys)
    decreases |xs|
  {
    if xs == [] {
      assert xs + ys == ys;
    } else {
      assert (xs + ys)[1..] == xs[1..] + ys;
      TerminatedAppend(xs[1..], ys);
    }
  }

  lemma LinesAppend(xs: seq<Element>, ys: seq<Element>)
    ensures Lines(xs + ys) == Lines(xs) + Lines(ys)
  {
    assert RenderAll(xs + ys) == RenderAll(xs) + RenderAll(ys);
    TerminatedAppend(RenderAll(xs), RenderAll(ys));
  }

  /** One more element adds its rendered line and a newline at the end. */
  lemma LinesSnoc(xs: seq<Element>, e: Element)
    ensures Lines(xs + [e]) == Lines(xs) + Render(e) + "\n"
  {
    LinesAppend(xs, [e]);
    assert RenderAll([e]) == [Render(e)];
    assert [Render(e)][1..] == [];
    assert Terminated([Render(e)]) == Render(e) + "\n" + Terminated([]);
  }

  /** Visiting a page in two parts gives the same content as visiting it in one. */
  lemma AccumulateAppend(content: string, xs: seq<Element>, ys: seq<Element>)
    ensures Accumulate(content, xs + ys) == Accumulate(Accumulate(content, xs), ys)
  {
    AccumulateIsLines(content, xs + ys);
    AccumulateIsLines(content, xs);
    AccumulateIsLines(Accumulate(content, xs), ys);
    LinesAppend(xs, ys);
  }

  /** Index of the first occurrence of `c` in `s`. */
  function IndexOf(s: string, c: char): (r: Option<nat>)
    ensures r.Some? ==> r.value < |s| && s[r.value] == c && c !in s[..r.value]
    ensures r.None? ==> c !in s
  {
    if s == [] then None
    else if s[0] == c then Some(0)
    else match IndexOf(s[1..], c)
      case None => None
      case Some(i) => assert s[..i + 1] == [s[0]] + s[1..][..i]; Some(i + 1)
  }

  /** Index of the last occurrence of `c` in `s`. */
  function LastIndexOf(s: string, c: char): (r: Option<nat>)
    ensures r.Some? ==> r.value < |s| && s[r.value] == c && c !in s[r.value + 1..]
    ensures r.None? ==> c !in s
  {
    if s == [] then None
    else if s[|s| - 1] == c then Some(|s| - 1)
    else match LastIndexOf(s[..|s| - 1], c)
      case None => None
      case Some(i) => assert s[i + 1..] == s[..|s| - 1][i + 1..] + [s[|s| - 1]]; Some(i)
  }

  /** Cuts text into the lines it holds; a final newline ends the last line. */
  function SplitLines(s: string): seq<string>
    decreases |s|
  {
    if s == [] then []
    else match IndexOf(s, '\n')
      case None => [s]
      case Some(i) => [s[..i]] + SplitLines(s[i + 1..])
  }

  lemma SplitLinesCons(l: string, rest: string)
    requires '\n' !in l
    ensures SplitLines(l + "\n" + rest) == [l] + SplitLines(rest)
  {
    var s := l + "\n" + rest;
    var i := IndexOf(s, '\n');
    assert s[|l|] == '\n';
    assert s[..|l|] == l;
    assert i == Some(|l|);
    assert s[|l| + 1..] == rest;
  }

  lemma {:induction false} SplitTerminated(ls: seq<string>)
    requires forall k :: 0 <= k < |ls| ==> '\n' !in ls[k]
    ensures SplitLines(Terminated(ls)) == ls
    decreases |ls|
  {
    if ls != [] {
      SplitLinesCons(ls[0], Terminated(ls[1..]));
      SplitTerminated(ls[1..]);
    }
  }

  /**
   When no rendered line holds a newline of its own, the content can be cut
   back into exactly the rendered lines, one per element, in document order.
   */
  lemma LinesRoundTrip(es: seq<Element>)
    requires forall k :: 0 <= k < |es| ==> '\n' !in Render(es[k])
    ensures SplitLines(Lines(es)) == RenderAll(es)
  {
    SplitTerminated(RenderAll(es));
  }

  /**
   Reads a rendered link line back into its text and target, splitting at the
   last opening parenthesis.
   */
  function ParseLink(line: string): Option<(string, string)> {
    if |line| < |LinkPrefix| + 1 || line[..|LinkPrefix|] != LinkPrefix || line[|line| - 1] != ')' then None
    else
      var body := line[|LinkPrefix|..|line| - 1];
      match LastIndexOf(body, '(')
      case None => None
      case Some(i) =>
        if i == 0 || body[i - 1] != ' ' then None else Some((body[..i - 1], body[i + 1..]))
  }

  /** A link's text and target can be read back from its line when the target holds no '('. */
  lemma LinkRoundTrip(e: Element)
    requires e.name == "a"
    requires '(' !in Attr(e, "href")
    ensures ParseLink(Render(e)) == Some((e.text, Attr(e, "href")))
  {
    var href := Attr(e, "href");
    var line := Render(e);
    assert line == LinkPrefix + e.text + " (" + href + ")";
    assert line[..|LinkPrefix|] == LinkPrefix;
    var body := line[|LinkPrefix|..|line| - 1];
    assert body == e.text + " " + ("(" + href);
    var i := |e.text| + 1;
    assert body[i] == '(';
    assert body[i + 1..] == href;
    assert body[..i - 1] == e.text;
  }

  /** A link's line is its text and its target in a fixed frame, whatever characters they hold. */
  lemma LinkLine(e: Element)
    requires e.name == "a"
    ensures Render(e) == LinkPrefix + e.text + " (" + Attr(e, "href") + ")"
  {
  }

  /** An image's line is its source address after a fixed prefix. */
  lemma ImageLine(e: Element)
    requires e.name == "img"
    ensures Render(e)[..|ImagePrefix|] == ImagePrefix
    ensures Render(e)[|ImagePrefix|..] == Attr(e, "src")
  {
  }

  /** Every other tag contributes its text unchanged. */
  lemma TextLine(e: Element)
    requires e.name != "a" && e.name != "img"
    ensures Render(e) == e.text
  {
  }
}
