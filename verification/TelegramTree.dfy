/** Telegram's HTML as the tree it stands for, and what it renders to, branch by branch. */
module TelegramTree {
  import opened Common
  import opened TelegramHtml

  /** An element's name is neither `a` nor `br`. */
  datatype Node =
    | Words(data: string)
    | Break
    | Link(href: Option<string>, inside: seq<Node>)
    | Element(name: string, inside: seq<Node>)

  predicate WellNamed(nodes: seq<Node>)
    decreases nodes
  {
    nodes == [] ||
    (&& (match nodes[0]
         case Words(_) => true
         case Break => true
         case Link(_, inside) => WellNamed(inside)
         case Element(name, inside) => name != "a" && name != "br" && WellNamed(inside))
     && WellNamed(nodes[1..]))
  }

  // ---------------------------------------------------------------- what the tokeniser reports of the tree

  function EventsOf(nodes: seq<Node>): seq<Event> {
    if nodes == [] then [] else EventsOfNode(nodes[0]) + EventsOf(nodes[1..])
  }

  function EventsOfNode(node: Node): seq<Event> {
    match node
    case Words(data) => [Text(data)]
    case Break => [StartTag("br", None)]
    case Link(href, inside) => [StartTag("a", href)] + (EventsOf(inside) + [EndTag("a")])
    case Element(name, inside) => [StartTag(name, None)] + (EventsOf(inside) + [EndTag(name)])
  }

  // ---------------------------------------------------------------- what the tree renders to

  /** An element around its contents, or the contents alone where there is no tag for it. */
  function Around(tag: Option<Tag>, inside: seq<Part>): seq<Part> {
    match tag
    case Some(t) => [Opening(t)] + inside + [Closing(t)]
    case None => inside
  }

  function HtmlOf(nodes: seq<Node>): seq<Part> {
    if nodes == [] then [] else HtmlOfNode(nodes[0]) + HtmlOf(nodes[1..])
  }

  function HtmlOfNode(node: Node): seq<Part> {
    match node
    case Words(data) => [Markup(Escape(data))]
    case Break => [Markup("<br>\n")]
    case Link(href, inside) => Around(match href case Some(h) => Some(Anchor(h)) case None => None, HtmlOf(inside))
    case Element(name, inside) => Around(Mapped(name), HtmlOf(inside))
  }

  function TextOf(nodes: seq<Node>): seq<TextPart> {
    if nodes == [] then [] else TextOfNode(nodes[0]) + TextOf(nodes[1..])
  }

  /** In plain text a link's target follows its words, unless it is a mail address. */
  function TextOfNode(node: Node): seq<TextPart> {
    match node
    case Words(data) => [Data(data)]
    case Break => [Data("\n")]
    case Link(href, inside) =>
      TextOf(inside) + (match href
                        case Some(h) => if "mailto:" <= h then [] else [LinkSuffix(h)]
                        case None => [])
    case Element(_, inside) => TextOf(inside)
  }

  // ---------------------------------------------------------------- the parser renders the tree

  /** The parser with more output, and the stacks as they were. */
  function Written(p: Parser, html: seq<Part>, text: seq<TextPart>): Parser {
    p.(html := p.html + html, text := p.text + text)
  }

  lemma WrittenTwice(p: Parser, html: seq<Part>, text: seq<TextPart>, moreHtml: seq<Part>, moreText: seq<TextPart>)
    ensures Written(Written(p, html, text), moreHtml, moreText) == Written(p, html + moreHtml, text + moreText)
  {
    assert (p.html + html) + moreHtml == p.html + (html + moreHtml);
    assert (p.text + text) + moreText == p.text + (text + moreText);
  }

  lemma FeedOne(p: Parser, e: Event, rest: seq<Event>)
    ensures Feed(p, [e] + rest) == Feed(Handle(p, e), rest)
  {
    assert ([e] + rest)[1..] == rest;
  }

  /** Feeding a tree writes its rendering and leaves the stacks as they were. */
  lemma {:induction false} FeedNodes(p: Parser, nodes: seq<Node>, rest: seq<Event>)
    requires WellNamed(nodes)
    ensures Feed(p, EventsOf(nodes) + rest) == Feed(Written(p, HtmlOf(nodes), TextOf(nodes)), rest)
    decreases nodes, 0
  {
    hide Feed, EventsOfNode, HtmlOfNode, TextOfNode;
    if nodes == [] {
      assert EventsOf(nodes) + rest == rest && Written(p, [], []) == p;
    } else {
      assert EventsOf(nodes) + rest == EventsOfNode(nodes[0]) + (EventsOf(nodes[1..]) + rest);
      FeedNode(p, nodes[0], EventsOf(nodes[1..]) + rest);
      FeedNodes(Written(p, HtmlOfNode(nodes[0]), TextOfNode(nodes[0])), nodes[1..], rest);
      WrittenTwice(p, HtmlOfNode(nodes[0]), TextOfNode(nodes[0]), HtmlOf(nodes[1..]), TextOf(nodes[1..]));
    }
  }

  lemma {:induction false} FeedNode(p: Parser, node: Node, rest: seq<Event>)
    requires WellNamed([node])
    ensures Feed(p, EventsOfNode(node) + rest) == Feed(Written(p, HtmlOfNode(node), TextOfNode(node)), rest)
    decreases node, 0
  {
    hide Feed, Escape, Mapped;
    match node
    case Words(data) => FeedOne(p, Text(data), rest);
    case Break =>
      BreakIsEscaped();
      FeedOne(p, StartTag("br", None), rest);
    case Link(href, inside) => FeedBranch(p, "a", href, inside, rest);
    case Element(name, inside) => FeedBranch(p, name, None, inside, rest);
  }

  lemma {:induction false} FeedBranch(p: Parser, name: string, href: Option<string>, inside: seq<Node>, rest: seq<Event>)
    requires WellNamed(inside) && name != "br" && (name != "a" ==> href == None)
    ensures var node := if name == "a" then Link(href, inside) else Element(name, inside);
            Feed(p, EventsOfNode(node) + rest) == Feed(Written(p, HtmlOfNode(node), TextOfNode(node)), rest)
    decreases inside, 1
  {
    hide Feed, Handle;
    var start, end := StartTag(name, href), EndTag(name);
    var node := if name == "a" then Link(href, inside) else Element(name, inside);
    assert EventsOfNode(node) + rest == [start] + (EventsOf(inside) + ([end] + rest));
    FeedOne(p, start, EventsOf(inside) + ([end] + rest));
    FeedNodes(Handle(p, start), inside, [end] + rest);
    FeedOne(Written(Handle(p, start), HtmlOf(inside), TextOf(inside)), end, rest);
    BranchCloses(p, name, href, HtmlOf(inside), TextOf(inside));
  }

  /** A start tag, output in between, and its end tag. */
  lemma BranchCloses(p: Parser, name: string, href: Option<string>, html: seq<Part>, text: seq<TextPart>)
    requires name != "br" && (name != "a" ==> href == None)
    ensures Handle(Written(Handle(p, StartTag(name, href)), html, text), EndTag(name))
            == if name == "a" then
                 Written(p, Around(match href case Some(h) => Some(Anchor(h)) case None => None, html),
                         text + (match href case Some(h) => if "mailto:" <= h then [] else [LinkSuffix(h)] case None => []))
               else Written(p, Around(Mapped(name), html), text)
  {
    hide Mapped;
    var tag := if name == "a" then (match href case Some(h) => Some(Anchor(h)) case None => None) else Mapped(name);
    var begun := Handle(p, StartTag(name, href));
    assert Last(begun.open) == tag && Front(begun.open) == p.open;
    if tag.Some? {
      assert ((p.html + [Opening(tag.value)]) + html) + [Closing(tag.value)]
             == p.html + ([Opening(tag.value)] + html + [Closing(tag.value)]);
    }
    if name == "a" {
      assert Last(begun.links) == href && Front(begun.links) == p.links;
      if href.Some? {
        assert (p.text + text) + [LinkSuffix(href.value)] == p.text + (text + [LinkSuffix(href.value)]);
        assert Mailto(href.value) <==> "mailto:" <= href.value;
      }
      assert text + [] == text;
    }
  }

  lemma BreakIsEscaped()
    ensures Escape("\n") == "<br>\n"
  {
  }

  /** Properly nested input renders to its tree: every element around its contents, every link with its target. */
  lemma TreeIsRendered(nodes: seq<Node>)
    requires WellNamed(nodes)
    ensures Render(EventsOf(nodes)) == Parser(HtmlOf(nodes), TextOf(nodes), [], [])
  {
    FeedNodes(Start, nodes, []);
    assert EventsOf(nodes) + [] == EventsOf(nodes);
  }
}
