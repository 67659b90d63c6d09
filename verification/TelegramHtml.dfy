/**
 Telegram's HTML subset carried over to e-mail: the tag and link stacks, as a machine over parser events.
 A part is one piece of output; joining the parts and trimming white space is not modelled.
 */
module TelegramHtml {
  import opened Common

  datatype Tag = Strong | Em | Underline | Strike | Code | Pre | Blockquote | Anchor(href: string)

  datatype Part = Opening(tag: Tag) | Closing(tag: Tag) | Markup(escaped: string)

  datatype TextPart = Data(data: string) | LinkSuffix(href: string)

  /** `link` is what `safe_link` makes of the `href` attribute: none, or a text that is not empty. Names are lower case. */
  datatype Event = StartTag(name: string, link: Option<string>) | EndTag(name: string) | Text(data: string)

  datatype Parser = Parser(html: seq<Part>, text: seq<TextPart>, open: seq<Option<Tag>>, links: seq<Option<string>>)

  const Start := Parser([], [], [], [])

  /** `_INLINE_TAGS` and `_BLOCK_TAGS`. */
  function Mapped(name: string): Option<Tag> {
    if name == "b" || name == "strong" then Some(Strong)
    else if name == "i" || name == "em" then Some(Em)
    else if name == "u" || name == "ins" then Some(Underline)
    else if name == "s" || name == "strike" || name == "del" then Some(Strike)
    else if name == "code" then Some(Code)
    else if name == "pre" then Some(Pre)
    else if name == "blockquote" then Some(Blockquote)
    else None
  }

  function EscapedChar(c: char): string {
    if c == '&' then "&amp;"
    else if c == '<' then "&lt;"
    else if c == '>' then "&gt;"
    else if c == '\n' then "<br>\n"
    else [c]
  }

  function Escape(s: string): string {
    if s == [] then [] else EscapedChar(s[0]) + Escape(s[1..])
  }

  function AddData(p: Parser, data: string): Parser {
    p.(text := p.text + [Data(data)], html := p.html + [Markup(Escape(data))])
  }

  predicate Mailto(href: string) {
    |href| >= 7 && href[..7] == "mailto:"
  }

  function HandleStart(p: Parser, name: string, link: Option<string>): Parser {
    if name == "br" then AddData(p, "\n")
    else if name == "a" then
      var linked := p.(links := p.links + [link]);
      if link.Some? then
        linked.(html := p.html + [Opening(Anchor(link.value))], open := p.open + [Some(Anchor(link.value))])
      else linked.(open := p.open + [None])
    else
      var tag := Mapped(name);
      p.(html := if tag.Some? then p.html + [Opening(tag.value)] else p.html, open := p.open + [tag])
  }

  function Last<T>(s: seq<T>): T
    requires s != []
  {
    s[|s| - 1]
  }

  function Front<T>(s: seq<T>): seq<T>
    requires s != []
  {
    s[..|s| - 1]
  }

  function HandleEnd(p: Parser, name: string): Parser {
    if p.open == [] then p
    else
      var tag := Last(p.open);
      var popped := p.(open := Front(p.open));
      if name == "a" && p.links != [] then
        var href := Last(p.links);
        popped.(
          links := Front(p.links),
          html := if tag.Some? && tag.value.Anchor? then p.html + [Closing(tag.value)] else p.html,
          text := if href.Some? && !Mailto(href.value) then p.text + [LinkSuffix(href.value)] else p.text)
      else
        popped.(html := if tag.Some? then p.html + [Closing(tag.value)] else p.html)
  }

  function Handle(p: Parser, e: Event): Parser {
    match e
    case StartTag(name, link) => HandleStart(p, name, link)
    case EndTag(name) => HandleEnd(p, name)
    case Text(data) => AddData(p, data)
  }

  function Feed(p: Parser, events: seq<Event>): Parser
    decreases |events|
  {
    if events == [] then p else Feed(Handle(p, events[0]), events[1..])
  }

  /** The closing loop of `render_telegram_html`. */
  function CloseAll(p: Parser): Parser
    decreases |p.open|
  {
    if p.open == [] then p
    else
      var tag := Last(p.open);
      CloseAll(p.(open := Front(p.open), html := if tag.Some? then p.html + [Closing(tag.value)] else p.html))
  }

  function Render(events: seq<Event>): Parser {
    CloseAll(Feed(Start, events))
  }

  // ---------------------------------------------------------------- balance

  /** The stack of unclosed tags after some parts; `None` once a tag was closed that was not on top. */
  function Scan(parts: seq<Part>): Option<seq<Tag>> {
    if parts == [] then Some([])
    else
      var before := Scan(Front(parts));
      if before.None? then None
      else
        match Last(parts)
        case Opening(tag) => Some(before.value + [tag])
        case Closing(tag) => if before.value != [] && Last(before.value) == tag then Some(Front(before.value)) else None
        case Markup(_) => before
  }

  predicate Balanced(parts: seq<Part>) {
    Scan(parts) == Some([])
  }

  /** An `</a>` that pops a link but finds another mapped tag on top loses that tag's closing. */
  predicate LosesTag(p: Parser, e: Event) {
    && e.EndTag? && e.name == "a" && p.open != [] && p.links != []
    && Last(p.open).Some? && !Last(p.open).value.Anchor?
  }

  /** Every `</a>` seen with a link on the stack pops a link or an ignored tag. */
  predicate Clean(p: Parser, events: seq<Event>)
    decreases |events|
  {
    events == [] || (!LosesTag(p, events[0]) && Clean(Handle(p, events[0]), events[1..]))
  }

  function Tags(open: seq<Option<Tag>>): seq<Tag> {
    if open == [] then []
    else if Last(open).Some? then Tags(Front(open)) + [Last(open).value]
    else Tags(Front(open))
  }

  lemma TagsGrow(open: seq<Option<Tag>>, tag: Option<Tag>)
    ensures Tags(open + [tag]) == if tag.Some? then Tags(open) + [tag.value] else Tags(open)
  {
    assert Front(open + [tag]) == open;
  }

  lemma ScanGrows(parts: seq<Part>, part: Part)
    ensures Scan(parts + [part])
            == if Scan(parts).None? then None
               else
                 match part
                 case Opening(tag) => Some(Scan(parts).value + [tag])
                 case Closing(tag) =>
                   (if Scan(parts).value != [] && Last(Scan(parts).value) == tag then Some(Front(Scan(parts).value)) else None)
                 case Markup(_) => Scan(parts)
  {
    assert Front(parts + [part]) == parts;
  }

  lemma HandleKeepsStack(p: Parser, e: Event)
    requires Scan(p.html) == Some(Tags(p.open)) && !LosesTag(p, e)
    ensures Scan(Handle(p, e).html) == Some(Tags(Handle(p, e).open))
  {
    hide Mapped, Escape, Scan;
    if e.StartTag? && e.name != "br" {
      var tag := if e.name == "a" then (if e.link.Some? then Some(Anchor(e.link.value)) else None) else Mapped(e.name);
      TagsGrow(p.open, tag);
      if tag.Some? {
        ScanGrows(p.html, Opening(tag.value));
      }
    } else if e.EndTag? {
      if p.open != [] && Last(p.open).Some? {
        ScanGrows(p.html, Closing(Last(p.open).value));
        assert Front(Tags(p.open)) == Tags(Front(p.open));
      }
    } else {
      ScanGrows(p.html, Markup(Escape(if e.Text? then e.data else "\n")));
    }
  }

  lemma {:induction false} CloseAllBalances(p: Parser)
    requires Scan(p.html) == Some(Tags(p.open))
    ensures Balanced(CloseAll(p).html)
    decreases |p.open|
  {
    hide Scan;
    if p.open != [] {
      var tag := Last(p.open);
      if tag.Some? {
        ScanGrows(p.html, Closing(tag.value));
        assert Front(Tags(p.open)) == Tags(Front(p.open));
      }
      CloseAllBalances(p.(open := Front(p.open), html := if tag.Some? then p.html + [Closing(tag.value)] else p.html));
    }
  }

  lemma {:induction false} CleanKeepsStack(p: Parser, events: seq<Event>)
    requires Scan(p.html) == Some(Tags(p.open)) && Clean(p, events)
    ensures Scan(Feed(p, events).html) == Some(Tags(Feed(p, events).open))
    decreases |events|
  {
    hide Scan, Handle, LosesTag;
    if events != [] {
      HandleKeepsStack(p, events[0]);
      CleanKeepsStack(Handle(p, events[0]), events[1..]);
    }
  }

  // ---------------------------------------------------------------- and the other way: a lost tag stays lost

  /** Tags opened and not closed, whatever their order. */
  function Excess(parts: seq<Part>): int {
    if parts == [] then 0
    else Excess(Front(parts)) + match Last(parts) case Opening(_) => 1 case Closing(_) => -1 case Markup(_) => 0
  }

  lemma ExcessGrows(parts: seq<Part>, part: Part)
    ensures Excess(parts + [part]) == Excess(parts) + match part case Opening(_) => 1 case Closing(_) => -1 case Markup(_) => 0
  {
    assert Front(parts + [part]) == parts;
  }

  lemma {:induction false} ScanCounts(parts: seq<Part>)
    requires Scan(parts).Some?
    ensures Excess(parts) == |Scan(parts).value|
  {
    if parts != [] {
      ScanCounts(Front(parts));
    }
  }

  /** How many closings have been lost: the tags open in the output beyond those on the stack. */
  function Lost(p: Parser): int {
    Excess(p.html) - |Tags(p.open)|
  }

  lemma HandleLoses(p: Parser, e: Event)
    ensures Lost(Handle(p, e)) == Lost(p) + if LosesTag(p, e) then 1 else 0
  {
    hide Mapped, Escape, Excess;
    if e.StartTag? && e.name != "br" {
      var tag := if e.name == "a" then (if e.link.Some? then Some(Anchor(e.link.value)) else None) else Mapped(e.name);
      TagsGrow(p.open, tag);
      if tag.Some? {
        ExcessGrows(p.html, Opening(tag.value));
      }
    } else if e.EndTag? {
      if p.open != [] && Last(p.open).Some? {
        ExcessGrows(p.html, Closing(Last(p.open).value));
      }
    } else {
      ExcessGrows(p.html, Markup(Escape(if e.Text? then e.data else "\n")));
    }
  }

  lemma {:induction false} FeedLoses(p: Parser, events: seq<Event>)
    ensures Lost(Feed(p, events)) >= Lost(p)
    ensures !Clean(p, events) ==> Lost(Feed(p, events)) > Lost(p)
    decreases |events|
  {
    hide Handle, LosesTag, Lost;
    if events != [] {
      HandleLoses(p, events[0]);
      FeedLoses(Handle(p, events[0]), events[1..]);
    }
  }

  lemma {:induction false} CloseAllKeepsLost(p: Parser)
    ensures Lost(CloseAll(p)) == Lost(p) && CloseAll(p).open == []
    decreases |p.open|
  {
    hide Excess;
    if p.open != [] {
      var tag := Last(p.open);
      if tag.Some? {
        ExcessGrows(p.html, Closing(tag.value));
      }
      CloseAllKeepsLost(p.(open := Front(p.open), html := if tag.Some? then p.html + [Closing(tag.value)] else p.html));
    }
  }

  /** The rendered HTML is balanced exactly when no `</a>` loses a tag. */
  lemma BalancedIff(events: seq<Event>)
    ensures Balanced(Render(events).html) <==> Clean(Start, events)
  {
    hide Feed, CloseAll, Clean;
    if Clean(Start, events) {
      CleanKeepsStack(Start, events);
      CloseAllBalances(Feed(Start, events));
    } else {
      FeedLoses(Start, events);
      CloseAllKeepsLost(Feed(Start, events));
      if Balanced(Render(events).html) {
        ScanCounts(Render(events).html);
      }
    }
  }

  // ---------------------------------------------------------------- properly nested input

  /** Every end tag names the innermost open element; `br` has no end tag. */
  predicate Nested(events: seq<Event>, names: seq<string>)
    decreases |events|
  {
    if events == [] then true
    else
      match events[0]
      case StartTag(name, _) => Nested(events[1..], if name == "br" then names else names + [name])
      case EndTag(name) => names != [] && Last(names) == name && Nested(events[1..], Front(names))
      case Text(_) => Nested(events[1..], names)
  }

  /** The stacks mirror the open elements. */
  predicate Mirrors(p: Parser, names: seq<string>) {
    && |p.open| == |names| && |p.links| == Anchors(names)
    && forall i :: 0 <= i < |names| && names[i] == "a" ==> p.open[i].None? || p.open[i].value.Anchor?
  }

  function Anchors(names: seq<string>): nat {
    if names == [] then 0 else Anchors(Front(names)) + if Last(names) == "a" then 1 else 0
  }

  lemma HandleMirrors(p: Parser, e: Event, names: seq<string>)
    requires Mirrors(p, names)
    ensures e.StartTag? ==> Mirrors(Handle(p, e), if e.name == "br" then names else names + [e.name])
    ensures e.EndTag? && names != [] && Last(names) == e.name ==> Mirrors(Handle(p, e), Front(names)) && !LosesTag(p, e)
    ensures e.Text? ==> Mirrors(Handle(p, e), names) && !LosesTag(p, e)
  {
    hide Mapped, Escape;
    if e.StartTag? {
      assert Front(names + [e.name]) == names;
    }
  }

  lemma {:induction false} NestedIsClean(p: Parser, events: seq<Event>, names: seq<string>)
    requires Mirrors(p, names) && Nested(events, names)
    ensures Clean(p, events)
    decreases |events|
  {
    hide Mirrors, Handle;
    if events != [] {
      HandleMirrors(p, events[0], names);
      match events[0]
      case StartTag(name, _) =>
        NestedIsClean(Handle(p, events[0]), events[1..], if name == "br" then names else names + [name]);
      case EndTag(_) => NestedIsClean(Handle(p, events[0]), events[1..], Front(names));
      case Text(_) => NestedIsClean(Handle(p, events[0]), events[1..], names);
    }
  }

  lemma NestedInputIsBalanced(events: seq<Event>)
    requires Nested(events, [])
    ensures Balanced(Render(events).html)
  {
    NestedIsClean(Start, events, []);
    BalancedIff(events);
  }

  /** Badly nested input need not be: here `</a>` swallows the closing of a bold text. */
  lemma MisnestedLinkIsUnbalanced()
    ensures !Balanced(Render([StartTag("a", Some("https://x")), StartTag("b", None), EndTag("a")]).html)
  {
    var events := [StartTag("a", Some("https://x")), StartTag("b", None), EndTag("a")];
    var p1 := Handle(Start, events[0]);
    var p2 := Handle(p1, events[1]);
    assert LosesTag(p2, events[2]);
    assert !Clean(p2, events[1..][1..]);
    assert !Clean(p1, events[1..]);
    BalancedIff(events);
  }

  // ---------------------------------------------------------------- the text

  /** What the events say, a line break being a newline. */
  function Said(events: seq<Event>): seq<string> {
    if events == [] then [] else SaidOf(events[0]) + Said(events[1..])
  }

  function TextData(parts: seq<TextPart>): seq<string> {
    if parts == [] then [] else TextData(Front(parts)) + match Last(parts) case Data(d) => [d] case LinkSuffix(_) => []
  }

  function HtmlData(parts: seq<Part>): seq<string> {
    if parts == [] then []
    else HtmlData(Front(parts)) + match Last(parts) case Markup(d) => [d] case Opening(_) => [] case Closing(_) => []
  }

  function EscapeAll(texts: seq<string>): (escaped: seq<string>)
    ensures |escaped| == |texts| && forall i :: 0 <= i < |texts| ==> escaped[i] == Escape(texts[i])
  {
    seq(|texts|, i requires 0 <= i < |texts| => Escape(texts[i]))
  }

  lemma TextGrows(parts: seq<TextPart>, part: TextPart)
    ensures TextData(parts + [part]) == TextData(parts) + match part case Data(d) => [d] case LinkSuffix(_) => []
  {
    assert Front(parts + [part]) == parts;
  }

  lemma HtmlGrows(parts: seq<Part>, part: Part)
    ensures HtmlData(parts + [part])
            == HtmlData(parts) + match part case Markup(d) => [d] case Opening(_) => [] case Closing(_) => []
  {
    assert Front(parts + [part]) == parts;
  }

  function SaidOf(e: Event): seq<string> {
    match e
    case Text(data) => [data]
    case StartTag(name, _) => if name == "br" then ["\n"] else []
    case EndTag(_) => []
  }

  lemma HandleKeepsText(p: Parser, e: Event)
    ensures TextData(Handle(p, e).text) == TextData(p.text) + SaidOf(e)
    ensures HtmlData(Handle(p, e).html) == HtmlData(p.html) + EscapeAll(SaidOf(e))
  {
    hide Mapped, Escape, TextData, HtmlData;
    if e.StartTag? && e.name != "br" {
      var tag := if e.name == "a" then (if e.link.Some? then Some(Anchor(e.link.value)) else None) else Mapped(e.name);
      if tag.Some? {
        HtmlGrows(p.html, Opening(tag.value));
      }
    } else if e.EndTag? {
      if p.open != [] && Last(p.open).Some? {
        HtmlGrows(p.html, Closing(Last(p.open).value));
      }
      if p.links != [] && Last(p.links).Some? {
        TextGrows(p.text, LinkSuffix(Last(p.links).value));
      }
    } else {
      var data := if e.Text? then e.data else "\n";
      TextGrows(p.text, Data(data));
      HtmlGrows(p.html, Markup(Escape(data)));
      assert EscapeAll([data]) == [Escape(data)];
    }
  }

  lemma {:induction false} FeedKeepsText(p: Parser, events: seq<Event>)
    ensures TextData(Feed(p, events).text) == TextData(p.text) + Said(events)
    ensures HtmlData(Feed(p, events).html) == HtmlData(p.html) + EscapeAll(Said(events))
    decreases |events|
  {
    hide Handle, TextData, HtmlData, Escape;
    if events != [] {
      HandleKeepsText(p, events[0]);
      FeedKeepsText(Handle(p, events[0]), events[1..]);
      assert EscapeAll(SaidOf(events[0])) + EscapeAll(Said(events[1..])) == EscapeAll(Said(events));
    }
  }

  lemma {:induction false} CloseAllKeepsText(p: Parser)
    ensures CloseAll(p).text == p.text && HtmlData(CloseAll(p).html) == HtmlData(p.html)
    decreases |p.open|
  {
    if p.open != [] {
      var tag := Last(p.open);
      if tag.Some? {
        assert Front(p.html + [Closing(tag.value)]) == p.html;
      }
      CloseAllKeepsText(p.(open := Front(p.open), html := if tag.Some? then p.html + [Closing(tag.value)] else p.html));
    }
  }

  /** All text appears in order, in the plain text as it is and in the HTML escaped; nothing else does. */
  lemma TextIsKept(events: seq<Event>)
    ensures TextData(Render(events).text) == Said(events)
    ensures HtmlData(Render(events).html) == EscapeAll(Said(events))
  {
    hide Feed, CloseAll, Escape;
    FeedKeepsText(Start, events);
    CloseAllKeepsText(Feed(Start, events));
  }

  // ---------------------------------------------------------------- the tags

  /** The tags opened in the output, in order. */
  function Openings(parts: seq<Part>): seq<Tag> {
    if parts == [] then []
    else Openings(Front(parts)) + match Last(parts) case Opening(tag) => [tag] case Closing(_) => [] case Markup(_) => []
  }

  /** The tags the events ask for: a link's own target, and the tag each of Telegram's names stands for. */
  function Asked(events: seq<Event>): seq<Tag> {
    if events == [] then [] else AskedBy(events[0]) + Asked(events[1..])
  }

  function AskedBy(e: Event): seq<Tag> {
    match e
    case StartTag(name, link) =>
      if name == "a" then (match link case Some(href) => [Anchor(href)] case None => [])
      else if name in {"b", "strong"} then [Strong]
      else if name in {"i", "em"} then [Em]
      else if name in {"u", "ins"} then [Underline]
      else if name in {"s", "strike", "del"} then [Strike]
      else if name == "code" then [Code]
      else if name == "pre" then [Pre]
      else if name == "blockquote" then [Blockquote]
      else []
    case EndTag(_) => []
    case Text(_) => []
  }

  lemma OpeningsGrow(parts: seq<Part>, part: Part)
    ensures Openings(parts + [part])
            == Openings(parts) + match part case Opening(tag) => [tag] case Closing(_) => [] case Markup(_) => []
  {
    assert Front(parts + [part]) == parts;
  }

  lemma HandleOpens(p: Parser, e: Event)
    ensures Openings(Handle(p, e).html) == Openings(p.html) + AskedBy(e)
  {
    hide Escape, Openings;
    if e.StartTag? && e.name != "br" {
      var tag := if e.name == "a" then (if e.link.Some? then Some(Anchor(e.link.value)) else None) else Mapped(e.name);
      if tag.Some? {
        OpeningsGrow(p.html, Opening(tag.value));
      }
    } else if e.EndTag? {
      if p.open != [] && Last(p.open).Some? {
        OpeningsGrow(p.html, Closing(Last(p.open).value));
      }
    } else {
      OpeningsGrow(p.html, Markup(Escape(if e.Text? then e.data else "\n")));
    }
  }

  lemma {:induction false} FeedOpens(p: Parser, events: seq<Event>)
    ensures Openings(Feed(p, events).html) == Openings(p.html) + Asked(events)
    decreases |events|
  {
    hide Handle, Openings, AskedBy;
    if events != [] {
      HandleOpens(p, events[0]);
      FeedOpens(Handle(p, events[0]), events[1..]);
    }
  }

  lemma {:induction false} CloseAllOpensNothing(p: Parser)
    ensures Openings(CloseAll(p).html) == Openings(p.html)
    decreases |p.open|
  {
    hide Openings;
    if p.open != [] {
      var tag := Last(p.open);
      if tag.Some? {
        OpeningsGrow(p.html, Closing(tag.value));
      }
      CloseAllOpensNothing(p.(open := Front(p.open), html := if tag.Some? then p.html + [Closing(tag.value)] else p.html));
    }
  }

  /** Every tag asked for is opened, in order, and no other; every link keeps its own target. */
  lemma TagsAreKept(events: seq<Event>)
    ensures Openings(Render(events).html) == Asked(events)
  {
    hide Feed, CloseAll;
    FeedOpens(Start, events);
    CloseAllOpensNothing(Feed(Start, events));
  }

  // ---------------------------------------------------------------- escaping

  /** Every `<` of escaped text begins a line break, and every `>` ends one: no text becomes markup. */
  predicate OnlyBreaks(s: string)
    decreases |s|
  {
    if s == [] then true
    else if |s| >= 5 && s[..5] == "<br>\n" then OnlyBreaks(s[5..])
    else s[0] != '<' && s[0] != '>' && OnlyBreaks(s[1..])
  }

  lemma {:induction false} EscapedHasNoMarkup(s: string)
    ensures OnlyBreaks(Escape(s))
  {
    if s != [] {
      EscapedHasNoMarkup(s[1..]);
      PrependKeepsBreaks(s[0], Escape(s[1..]));
    }
  }

  lemma PlainKeepsBreaks(c: char, rest: string)
    requires OnlyBreaks(rest) && c != '<' && c != '>'
    ensures OnlyBreaks([c] + rest)
  {
    var s := [c] + rest;
    assert s[1..] == rest && (|s| >= 5 ==> s[..5][0] == c);
  }

  /** An escape sequence that is no line break. */
  lemma {:induction false} PlainTextKeepsBreaks(text: string, rest: string)
    requires OnlyBreaks(rest) && '<' !in text && '>' !in text
    ensures OnlyBreaks(text + rest)
    decreases |text|
  {
    if text == [] {
      assert text + rest == rest;
    } else {
      PlainTextKeepsBreaks(text[1..], rest);
      PlainKeepsBreaks(text[0], text[1..] + rest);
      assert text + rest == [text[0]] + (text[1..] + rest);
    }
  }

  lemma PrependKeepsBreaks(c: char, rest: string)
    requires OnlyBreaks(rest)
    ensures OnlyBreaks(EscapedChar(c) + rest)
  {
    var s := EscapedChar(c) + rest;
    if c == '\n' {
      assert s[..5] == "<br>\n" && s[5..] == rest;
    } else {
      PlainTextKeepsBreaks(EscapedChar(c), rest);
    }
  }

  /** How a reader of HTML sees escaped text. */
  function Seen(s: string): string
    decreases |s|
  {
    if s == [] then []
    else if "&amp;" <= s then ['&'] + Seen(s[5..])
    else if "&lt;" <= s then ['<'] + Seen(s[4..])
    else if "&gt;" <= s then ['>'] + Seen(s[4..])
    else if "<br>\n" <= s then ['\n'] + Seen(s[5..])
    else [s[0]] + Seen(s[1..])
  }

  /** Escaped text is seen as it was written. */
  lemma {:induction false} EscapedIsSeen(s: string)
    ensures Seen(Escape(s)) == s
  {
    if s != [] {
      EscapedIsSeen(s[1..]);
      var first, rest := EscapedChar(s[0]), Escape(s[1..]);
      assert (first + rest)[|first|..] == rest && first <= first + rest && (first + rest)[0] == first[0];
      assert |first| > 1 ==> (first + rest)[1] == first[1];
    }
  }

  /** So nothing is lost: different texts have different escapings. */
  lemma EscapeIsInjective(a: string, b: string)
    requires Escape(a) == Escape(b)
    ensures a == b
  {
    EscapedIsSeen(a);
    EscapedIsSeen(b);
  }

  // ---------------------------------------------------------------- the parser object

  class HtmlParser {
    var html: seq<Part>
    var text: seq<TextPart>
    var open: seq<Option<Tag>>
    var links: seq<Option<string>>

    function State(): Parser
      reads this
    {
      Parser(html, text, open, links)
    }

    constructor ()
      ensures State() == Start
    {
      html, text, open, links := [], [], [], [];
    }

    method HandleData(data: string)
      modifies this
      ensures State() == AddData(old(State()), data)
    {
      text := text + [Data(data)];
      html := html + [Markup(Escape(data))];
    }

    method HandleStartTag(name: string, link: Option<string>)
      modifies this
      ensures State() == Handle(old(State()), StartTag(name, link))
    {
      if name == "br" {
        HandleData("\n");
        return;
      }
      if name == "a" {
        links := links + [link];
        if link.Some? {
          html := html + [Opening(Anchor(link.value))];
          open := open + [Some(Anchor(link.value))];
        } else {
          open := open + [None];
        }
        return;
      }
      var tag := Mapped(name);
      if tag.Some? {
        html := html + [Opening(tag.value)];
      }
      open := open + [tag];
    }

    method HandleEndTag(name: string)
      modifies this
      ensures State() == Handle(old(State()), EndTag(name))
    {
      if open == [] {
        return;
      }
      var tag := Last(open);
      open := Front(open);
      if name == "a" && links != [] {
        var href := Last(links);
        links := Front(links);
        if tag.Some? && tag.value.Anchor? {
          html := html + [Closing(tag.value)];
        }
        if href.Some? && !Mailto(href.value) {
          text := text + [LinkSuffix(href.value)];
        }
        return;
      }
      if tag.Some? {
        html := html + [Closing(tag.value)];
      }
    }

    /** `render_telegram_html`: feed every event, then close what is still open. */
    method RenderEvents(events: seq<Event>)
      requires State() == Start
      modifies this
      ensures State() == Render(events) && open == []
      ensures Balanced(html) <==> Clean(Start, events)
      ensures TextData(text) == Said(events) && HtmlData(html) == EscapeAll(Said(events))
      ensures Openings(html) == Asked(events)
    {
      hide Handle, Clean, Escape, Mapped, Balanced, TextData, HtmlData, Said, Openings, Asked;
      var i := 0;
      while i < |events|
        invariant 0 <= i <= |events| && Feed(State(), events[i..]) == Feed(Start, events)
      {
        assert events[i..][1..] == events[i + 1..];
        match events[i] {
          case StartTag(name, link) => HandleStartTag(name, link);
          case EndTag(name) => HandleEndTag(name);
          case Text(data) =>
            HandleText(State(), data);
            HandleData(data);
        }
        i := i + 1;
      }
      BalancedIff(events);
      TextIsKept(events);
      TagsAreKept(events);
      CloseAllKeepsLost(State());
      while open != []
        invariant CloseAll(State()) == Render(events)
        decreases |open|
      {
        var tag := Last(open);
        open := Front(open);
        if tag.Some? {
          html := html + [Closing(tag.value)];
        }
      }
    }
  }

  lemma HandleText(p: Parser, data: string)
    ensures Handle(p, Text(data)) == AddData(p, data)
  {
  }
}
