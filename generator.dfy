/** `generateLandingPage`: the whole document for an agent card. The
    options choose the theme, switch three sections off and add meta
    tags, custom sections and a footer. The renderers of the other
    sections and the two preset themes are parameters (`Collaborators`),
    because their code is not part of this model; so are the fixed CSS
    rulesets and the copy-to-clipboard script, which interpolate nothing
    and are inserted as they are. */
module Generator {
  import opened Wrappers
  import opened Types
  import opened Text
  import Html
  import opened Styles
  import opened CustomSections
  import Quickstart

  datatype TwitterCard = Summary | SummaryLargeImage

  function CardName(card: TwitterCard): string {
    match card
    case Summary => "summary"
    case SummaryLargeImage => "summary_large_image"
  }

  /** `MetaOptions`: every field optional. */
  datatype MetaOptions = MetaOptions(ogImage: Option<string>, favicon: Option<string>, twitterCard: Option<TwitterCard>)

  /** The footer options, handed to the footer renderer unread; a link is
      `{ label, url }` (`label` is a reserved word here). */
  datatype FooterLink = FooterLink(labelText: string, url: string)
  datatype FooterOptions = FooterOptions(links: seq<FooterLink>)

  /** `GeneratorOptions`: every field optional. */
  datatype GeneratorOptions = GeneratorOptions(
    theme: ThemeChoice,
    showPaymentFlow: Option<bool>,
    showSymbols: Option<bool>,
    showAgentCard: Option<bool>,
    customSections: Option<seq<CustomSection>>,
    footer: Option<FooterOptions>,
    meta: Option<MetaOptions>)

  /** `options = {}`. */
  const DefaultOptions := GeneratorOptions(Absent, None, None, None, None, None, None)

  /** What the generator calls but this model does not define. */
  datatype Collaborators = Collaborators(
    darkTheme: Theme,
    lightTheme: Theme,
    renderHero: (AgentCard, Theme) -> string,
    renderSymbols: (AgentCard, Theme) -> string,
    renderSkills: (AgentCard, Theme) -> string,
    renderPaymentFlow: (AgentCard, Theme) -> string,
    renderAgentCardSection: (AgentCard, Theme) -> string,
    renderFooter: Option<FooterOptions> -> string,
    styleRules: nat -> string,
    copyScript: string)

  /** `flag !== false`: a section is shown unless switched off explicitly. */
  predicate Shown(flag: Option<bool>) {
    flag != Some(false)
  }

  /** The truthiness test of an optional string: present and not empty. */
  predicate Truthy(s: Option<string>) {
    s.Some? && s.value != ""
  }

  function OgImage(meta: Option<MetaOptions>): Option<string> {
    if meta.Some? then meta.value.ogImage else None
  }

  function Favicon(meta: Option<MetaOptions>): Option<string> {
    if meta.Some? then meta.value.favicon else None
  }

  /** `options.meta?.twitterCard || 'summary_large_image'`. */
  function TwitterCardOf(meta: Option<MetaOptions>): (card: TwitterCard)
    ensures meta.Some? && meta.value.twitterCard.Some? ==> card == meta.value.twitterCard.value
    ensures meta.None? || meta.value.twitterCard.None? ==> card == SummaryLargeImage
  {
    if meta.Some? && meta.value.twitterCard.Some? then meta.value.twitterCard.value else SummaryLargeImage
  }

  /** The meta tags of the head that carry a value; the Open Graph ones
      use `property`, the others `name`. */
  datatype MetaKey =
    | Description
    | OgTitle | OgDescription | OgUrl | OgImageKey
    | TwitterCardKey | TwitterTitle | TwitterDescription | TwitterImage
  {
    predicate IsProperty() {
      OgTitle? || OgDescription? || OgUrl? || OgImageKey?
    }
  }

  function KeyText(key: MetaKey): string {
    match key
    case Description => "description"
    case OgTitle => "og:title"
    case OgDescription => "og:description"
    case OgUrl => "og:url"
    case OgImageKey => "og:image"
    case TwitterCardKey => "twitter:card"
    case TwitterTitle => "twitter:title"
    case TwitterDescription => "twitter:description"
    case TwitterImage => "twitter:image"
  }

  datatype IconRel = IconLink | ShortcutIcon

  function RelText(rel: IconRel): string {
    match rel
    case IconLink => "icon"
    case ShortcutIcon => "shortcut icon"
  }

  /** The head lines that interpolate nothing. */
  datatype FixedLine =
    | Charset | ViewportMeta | OpenGraphComment | OgTypeMeta | TwitterCardComment | FaviconComment
    | PreconnectFonts | PreconnectFontFiles | FontStylesheet

  function FixedMarkup(line: FixedLine): string {
    match line
    case Charset => "<meta charset=\"UTF-8\">"
    case ViewportMeta => "<meta name=\"viewport\" content=\"width=device-width, initial-scale=1.0\">"
    case OpenGraphComment => "<!-- Open Graph -->"
    case OgTypeMeta => "<meta property=\"og:type\" content=\"website\">"
    case TwitterCardComment => "<!-- Twitter Card -->"
    case FaviconComment => "<!-- Favicon -->"
    case PreconnectFonts => "<link rel=\"preconnect\" href=\"https://fonts.googleapis.com\">"
    case PreconnectFontFiles => "<link rel=\"preconnect\" href=\"https://fonts.gstatic.com\" crossorigin>"
    case FontStylesheet =>
      "<link href=\"https://fonts.googleapis.com/css2?family=Inter:wght@400;500;600;700&family=JetBrains+Mono:wght@400;500&display=swap\" rel=\"stylesheet\">"
  }

  /** One line of the head. `Blank` is an empty line, and also what a
      conditional tag leaves when its option is not set. */
  datatype HeadItem =
    | Blank
    | Fixed(line: FixedLine)
    | Title(text: string)
    | Meta(key: MetaKey, content: string)
    | Icon(rel: IconRel, href: string)
    | StyleBlock(css: string)

  function RenderHeadItem(item: HeadItem): string {
    match item
    case Blank => ""
    case Fixed(line) => FixedMarkup(line)
    case Title(text) => "<title>" + text + " - A2A Agent</title>"
    case Meta(key, content) =>
      "<meta " + (if key.IsProperty() then "property" else "name") + "=\"" + KeyText(key) + "\" content=\"" + content + "\">"
    case Icon(rel, href) => "<link rel=\"" + RelText(rel) + "\" href=\"" + href + "\" type=\"image/x-icon\">"
    case StyleBlock(css) => "<style>" + css + "</style>"
  }

  /** The values the head interpolates: the card's name, description and
      URL, the image and favicon when set, the card type and the style
      sheet. */
  datatype HeadValues = HeadValues(
    name: string, description: string, url: string,
    image: Option<string>, icon: Option<string>, card: TwitterCard, css: string)

  /** `value ? escapeHtml(value) : ''`: the escaped value of a truthy option. */
  function EscapedIfTruthy(value: Option<string>): (r: Option<string>)
    ensures r.Some? <==> Truthy(value)
    ensures r.Some? ==> r.value == Html.EscapeHtml(value.value) && Html.MarkupSafe(r.value)
  {
    if Truthy(value) then Some(Html.EscapeHtml(value.value)) else None
  }

  /** Text values that cannot break out of an element or an attribute. */
  ghost predicate SafeValues(v: HeadValues) {
    Html.MarkupSafe(v.name) && Html.MarkupSafe(v.description) && Html.MarkupSafe(v.url)
    && (v.image.Some? ==> Html.MarkupSafe(v.image.value))
    && (v.icon.Some? ==> Html.MarkupSafe(v.icon.value))
  }

  /** The head values for a card: every card field and option escaped. */
  function HeadValuesOf(card: AgentCard, css: string, meta: Option<MetaOptions>): (v: HeadValues)
    ensures SafeValues(v)
  {
    HeadValues(Html.EscapeHtml(card.name), Html.EscapeHtml(card.description), Html.EscapeHtml(card.url),
               EscapedIfTruthy(OgImage(meta)), EscapedIfTruthy(Favicon(meta)), TwitterCardOf(meta), css)
  }

  /** The charset, viewport, title and description lines. */
  function DocumentItems(v: HeadValues): (items: seq<HeadItem>)
    ensures |items| == 5
  {
    [ Fixed(Charset),
      Fixed(ViewportMeta),
      Title(v.name),
      Meta(Description, v.description),
      Blank ]
  }

  /** The Open Graph group; `og:image` only when an image is set. */
  function OpenGraphItems(v: HeadValues): (items: seq<HeadItem>)
    ensures |items| == 7
  {
    [ Fixed(OpenGraphComment),
      Meta(OgTitle, v.name),
      Meta(OgDescription, v.description),
      Fixed(OgTypeMeta),
      Meta(OgUrl, v.url),
      if v.image.Some? then Meta(OgImageKey, v.image.value) else Blank,
      Blank ]
  }

  /** The Twitter Card group; `twitter:image` only when an image is set. */
  function TwitterItems(v: HeadValues): (items: seq<HeadItem>)
    ensures |items| == 6
  {
    [ Fixed(TwitterCardComment),
      Meta(TwitterCardKey, CardName(v.card)),
      Meta(TwitterTitle, v.name),
      Meta(TwitterDescription, v.description),
      if v.image.Some? then Meta(TwitterImage, v.image.value) else Blank,
      Blank ]
  }

  /** The favicon group: both links, or neither. */
  function FaviconItems(v: HeadValues): (items: seq<HeadItem>)
    ensures |items| == 4
  {
    [ Fixed(FaviconComment),
      if v.icon.Some? then Icon(IconLink, v.icon.value) else Blank,
      if v.icon.Some? then Icon(ShortcutIcon, v.icon.value) else Blank,
      Blank ]
  }

  /** The font preconnects and stylesheet. */
  const FontItems: seq<HeadItem> := [Fixed(PreconnectFonts), Fixed(PreconnectFontFiles), Fixed(FontStylesheet)]

  /** The head, line by line. */
  function HeadItems(v: HeadValues): (items: seq<HeadItem>)
    ensures |items| == 26
  {
    DocumentItems(v) + OpenGraphItems(v) + TwitterItems(v) + FaviconItems(v) + FontItems + [StyleBlock(v.css)]
  }

  /** The theme the options select. */
  function PageTheme(options: GeneratorOptions, ext: Collaborators): Theme {
    ResolveTheme(options.theme, ext.darkTheme, ext.lightTheme)
  }

  /** The head of the page for these options. */
  function Head(card: AgentCard, options: GeneratorOptions, ext: Collaborators): seq<HeadItem> {
    HeadItems(HeadValuesOf(card, GenerateStyles(PageTheme(options, ext), ext.styleRules), options.meta))
  }

  /** The sections of the body. */
  datatype Block =
    | HeroBlock | QuickstartBlock | SymbolsBlock | SkillsBlock
    | PaymentFlowBlock | AgentCardBlock | CustomSectionsBlock | FooterBlock

  /** The fixed order of the body. */
  const PageOrder: seq<Block> := [
    HeroBlock, QuickstartBlock, SymbolsBlock, SkillsBlock,
    PaymentFlowBlock, AgentCardBlock, CustomSectionsBlock, FooterBlock ]

  /** Three sections can be switched off; the others are always rendered
      (custom sections and footer render as nothing when not configured). */
  predicate Enabled(options: GeneratorOptions, block: Block) {
    match block
    case SymbolsBlock => Shown(options.showSymbols)
    case PaymentFlowBlock => Shown(options.showPaymentFlow)
    case AgentCardBlock => Shown(options.showAgentCard)
    case _ => true
  }

  /** The quick start of the page: the one section that reads the clock. */
  function QuickstartSection(card: AgentCard, options: GeneratorOptions, ext: Collaborators, now: int): string {
    Quickstart.RenderQuickstart(card, PageTheme(options, ext), now)
  }

  /** The fragment of one section; `quickstart` is the page's quick start. */
  function RenderBlock(block: Block, card: AgentCard, options: GeneratorOptions, ext: Collaborators, quickstart: string): string {
    var theme := PageTheme(options, ext);
    match block
    case HeroBlock => ext.renderHero(card, theme)
    case QuickstartBlock => quickstart
    case SymbolsBlock => ext.renderSymbols(card, theme)
    case SkillsBlock => ext.renderSkills(card, theme)
    case PaymentFlowBlock => ext.renderPaymentFlow(card, theme)
    case AgentCardBlock => ext.renderAgentCardSection(card, theme)
    case CustomSectionsBlock => RenderCustomSections(options.customSections)
    case FooterBlock => ext.renderFooter(options.footer)
  }

  /** The body line of one section: the section, or nothing when it is switched off. */
  function BodyLine(block: Block, card: AgentCard, options: GeneratorOptions, ext: Collaborators, quickstart: string): string {
    "    " + (if Enabled(options, block) then RenderBlock(block, card, options, ext, quickstart) else "")
  }

  const Opening := ["<!DOCTYPE html>", "<html lang=\"en\">", "<head>"]
  const Middle := ["</head>", "<body>", "  <div class=\"container\">"]

  /** The last lines: the container closed, then the copy script. */
  function Closing(script: string): seq<string> {
    ["  </div>", "  <script>" + script + "</script>", "</body>", "</html>"]
  }

  function HeadLines(items: seq<HeadItem>): (lines: seq<string>)
    ensures |lines| == |items|
    ensures forall k :: 0 <= k < |items| ==> lines[k] == "  " + RenderHeadItem(items[k])
  {
    seq(|items|, k requires 0 <= k < |items| => "  " + RenderHeadItem(items[k]))
  }

  function BodyLines(card: AgentCard, options: GeneratorOptions, ext: Collaborators, quickstart: string): (lines: seq<string>)
    ensures |lines| == |PageOrder|
    ensures forall i :: 0 <= i < |PageOrder| ==> lines[i] == BodyLine(PageOrder[i], card, options, ext, quickstart)
  {
    seq(|PageOrder|, i requires 0 <= i < |PageOrder| => BodyLine(PageOrder[i], card, options, ext, quickstart))
  }

  /** The lines of a document with this head, these body lines and this script. */
  function Layout(head: seq<string>, body: seq<string>, script: string): seq<string> {
    Opening + (head + (Middle + (body + Closing(script))))
  }

  /** The page around a given quick start fragment. */
  function Page(card: AgentCard, options: GeneratorOptions, ext: Collaborators, quickstart: string): string {
    JoinLines(Layout(HeadLines(Head(card, options, ext)), BodyLines(card, options, ext, quickstart), ext.copyScript))
  }

  /** The page; `now` stands for the `Date.now()` the quick start reads. */
  function GenerateLandingPage(card: AgentCard, options: GeneratorOptions, ext: Collaborators, now: int): string {
    Page(card, options, ext, QuickstartSection(card, options, ext, now))
  }

  /* ---- The head ---- */

  /** The values a head line interpolates: each must be unable to end its
      element or attribute. */
  ghost predicate ValueSafe(item: HeadItem) {
    match item
    case Title(text) => Html.MarkupSafe(text)
    case Meta(_, content) => Html.MarkupSafe(content)
    case Icon(_, href) => Html.MarkupSafe(href)
    case _ => true
  }

  lemma CardNameSafe(card: TwitterCard)
    ensures Html.MarkupSafe(CardName(card))
  {
  }

  /** A head line comes from one of the groups. */
  lemma InHead(v: HeadValues, item: HeadItem)
    ensures item in HeadItems(v) <==>
      item in DocumentItems(v) || item in OpenGraphItems(v) || item in TwitterItems(v)
      || item in FaviconItems(v) || item in FontItems || item == StyleBlock(v.css)
  {
  }

  /** Every title, meta content and icon href of the head is escaped text
      or a fixed value; only the style block is inserted raw. */
  lemma HeadValuesEscaped(v: HeadValues)
    requires SafeValues(v)
    ensures forall item :: item in HeadItems(v) ==> ValueSafe(item)
  {
    forall item | item in HeadItems(v)
      ensures ValueSafe(item)
    {
      InHead(v, item);
      if item in DocumentItems(v) {
      } else if item in OpenGraphItems(v) {
      } else if item in TwitterItems(v) {
        CardNameSafe(v.card);
      }
    }
  }

  /** The head has one title, the name. */
  lemma HeadTitle(v: HeadValues)
    ensures forall text :: Title(text) in HeadItems(v) <==> text == v.name
  {
    assert DocumentItems(v)[2] == Title(v.name);
  }

  /** What the meta tag of each key carries: the name, the description or
      the URL, the card type's name, or the image when one is set. */
  function MetaValue(v: HeadValues, key: MetaKey): Option<string> {
    match key
    case Description => Some(v.description)
    case OgTitle => Some(v.name)
    case OgDescription => Some(v.description)
    case OgUrl => Some(v.url)
    case OgImageKey => v.image
    case TwitterCardKey => Some(CardName(v.card))
    case TwitterTitle => Some(v.name)
    case TwitterDescription => Some(v.description)
    case TwitterImage => v.image
  }

  lemma DocumentMeta(v: HeadValues, key: MetaKey, x: string)
    ensures Meta(key, x) in DocumentItems(v) <==> key == Description && x == v.description
  {
  }

  lemma OpenGraphMeta(v: HeadValues, key: MetaKey, x: string)
    ensures Meta(key, x) in OpenGraphItems(v) <==> key.IsProperty() && MetaValue(v, key) == Some(x)
  {
    if key.IsProperty() && MetaValue(v, key) == Some(x) {
      var k := match key case OgTitle => 1 case OgDescription => 2 case OgUrl => 4 case _ => 5;
      assert OpenGraphItems(v)[k] == Meta(key, x);
    }
  }

  lemma TwitterMeta(v: HeadValues, key: MetaKey, x: string)
    ensures Meta(key, x) in TwitterItems(v) <==>
      (key.TwitterCardKey? || key.TwitterTitle? || key.TwitterDescription? || key.TwitterImage?) && MetaValue(v, key) == Some(x)
  {
    if (key.TwitterCardKey? || key.TwitterTitle? || key.TwitterDescription? || key.TwitterImage?) && MetaValue(v, key) == Some(x) {
      var k := match key case TwitterCardKey => 1 case TwitterTitle => 2 case TwitterDescription => 3 case _ => 4;
      assert TwitterItems(v)[k] == Meta(key, x);
    }
  }

  /** Every meta tag of the head carries exactly its key's value, and is
      present exactly when that value is. */
  lemma HeadMeta(v: HeadValues, key: MetaKey, x: string)
    ensures Meta(key, x) in HeadItems(v) <==> MetaValue(v, key) == Some(x)
  {
    InHead(v, Meta(key, x));
    DocumentMeta(v, key, x);
    OpenGraphMeta(v, key, x);
    TwitterMeta(v, key, x);
  }

  /** `og:image` and `twitter:image` are present exactly when an image is
      set, and carry it. */
  lemma HeadSocialImage(v: HeadValues)
    ensures forall x :: Meta(OgImageKey, x) in HeadItems(v) <==> v.image == Some(x)
    ensures forall x :: Meta(TwitterImage, x) in HeadItems(v) <==> v.image == Some(x)
  {
    forall x ensures Meta(OgImageKey, x) in HeadItems(v) <==> v.image == Some(x) {
      InHead(v, Meta(OgImageKey, x));
      if v.image.Some? {
        assert OpenGraphItems(v)[5] == Meta(OgImageKey, v.image.value);
      }
    }
    forall x ensures Meta(TwitterImage, x) in HeadItems(v) <==> v.image == Some(x) {
      InHead(v, Meta(TwitterImage, x));
      if v.image.Some? {
        assert TwitterItems(v)[4] == Meta(TwitterImage, v.image.value);
      }
    }
  }

  /** Both favicon links are present exactly when a favicon is set, and carry it. */
  lemma HeadFavicon(v: HeadValues)
    ensures forall rel, h :: Icon(rel, h) in HeadItems(v) <==> v.icon == Some(h)
  {
    forall rel, h ensures Icon(rel, h) in HeadItems(v) <==> v.icon == Some(h) {
      InHead(v, Icon(rel, h));
      if v.icon == Some(h) {
        if rel == IconLink {
          assert FaviconItems(v)[1] == Icon(rel, h);
        } else {
          assert FaviconItems(v)[2] == Icon(rel, h);
        }
      }
    }
  }

  /** The one `twitter:card` tag names the card type. */
  lemma HeadTwitterCard(v: HeadValues)
    ensures forall c :: Meta(TwitterCardKey, c) in HeadItems(v) <==> c == CardName(v.card)
  {
    assert TwitterItems(v)[1] == Meta(TwitterCardKey, CardName(v.card));
  }

  /** The one style block holds the style sheet. */
  lemma HeadStyle(v: HeadValues)
    ensures forall c :: StyleBlock(c) in HeadItems(v) <==> c == v.css
  {
  }

  /* ---- The layout ---- */

  /** Line `3 + k` of a layout is head line `k`. */
  lemma LayoutHeadLine(head: seq<string>, body: seq<string>, script: string, k: nat)
    requires k < |head|
    ensures 3 + k < |Layout(head, body, script)|
    ensures Layout(head, body, script)[3 + k] == head[k]
  {
  }

  /** Line `6 + |head| + i` of a layout is body line `i`. */
  lemma LayoutBodyLine(head: seq<string>, body: seq<string>, script: string, i: nat)
    requires i < |body|
    ensures 6 + |head| + i < |Layout(head, body, script)|
    ensures Layout(head, body, script)[6 + |head| + i] == body[i]
  {
  }

  lemma OccursIndented(indent: string, x: string)
    ensures Occurs(x, indent + x)
  {
    OccursBetween(indent, x, "");
    assert indent + x + "" == indent + x;
  }

  /** The text of every head line is in the document. */
  lemma HeadLineInLayout(head: seq<string>, body: seq<string>, script: string, k: nat, x: string)
    requires k < |head| && head[k] == "  " + x
    ensures Occurs(x, JoinLines(Layout(head, body, script)))
  {
    LayoutHeadLine(head, body, script, k);
    OccursIndented("  ", x);
    JoinLinesOccurs(Layout(head, body, script), 3 + k, x);
  }

  /** Every head item is rendered in the document. */
  lemma HeadItemInLayout(items: seq<HeadItem>, body: seq<string>, script: string, item: HeadItem)
    requires item in items
    ensures Occurs(RenderHeadItem(item), JoinLines(Layout(HeadLines(items), body, script)))
  {
    var k :| 0 <= k < |items| && items[k] == item;
    HeadLineInLayout(HeadLines(items), body, script, k, RenderHeadItem(item));
  }

  /** The text of every body line is in the document. */
  lemma BodyLineInLayout(head: seq<string>, body: seq<string>, script: string, i: nat, x: string)
    requires i < |body| && body[i] == "    " + x
    ensures Occurs(x, JoinLines(Layout(head, body, script)))
  {
    LayoutBodyLine(head, body, script, i);
    OccursIndented("    ", x);
    JoinLinesOccurs(Layout(head, body, script), 6 + |head| + i, x);
  }

  /** Body lines keep their order in the document. */
  lemma BodyLinesInOrder(head: seq<string>, body: seq<string>, script: string, i: nat, j: nat, x: string, y: string)
    requires i < j < |body| && body[i] == "    " + x && body[j] == "    " + y
    ensures OccursBefore(x, y, JoinLines(Layout(head, body, script)))
  {
    LayoutBodyLine(head, body, script, i);
    LayoutBodyLine(head, body, script, j);
    OccursIndented("    ", x);
    OccursIndented("    ", y);
    JoinLinesOccursBefore(Layout(head, body, script), 6 + |head| + i, 6 + |head| + j, x, y);
  }

  /** What comes in order inside a body line comes in order in the document. */
  lemma OrderInBodyLine(head: seq<string>, body: seq<string>, script: string, i: nat, x: string, y: string, z: string)
    requires i < |body| && body[i] == "    " + z && OccursBefore(x, y, z)
    ensures OccursBefore(x, y, JoinLines(Layout(head, body, script)))
  {
    LayoutBodyLine(head, body, script, i);
    OccursBeforeAfterPrefix(x, y, "    ", z);
    JoinLinesOccursBeforeInLine(Layout(head, body, script), 6 + |head| + i, x, y);
  }

  /** Documents that differ at most in the second body line are equal only
      if that line is too. */
  lemma LayoutCancel(head: seq<string>, b1: seq<string>, b2: seq<string>, script: string)
    requires |b1| == |b2| >= 2 && b1[0] == b2[0] && b1[2..] == b2[2..]
    requires JoinLines(Layout(head, b1, script)) == JoinLines(Layout(head, b2, script))
    ensures b1[1] == b2[1]
  {
    var top := Opening + head + Middle;
    assert Layout(head, b1, script) == top + b1 + Closing(script);
    assert Layout(head, b2, script) == top + b2 + Closing(script);
    RegroupAround(top, b1, Closing(script));
    RegroupAround(top, b2, Closing(script));
    JoinLinesCancel(top + [b1[0]], b1[1], b2[1], b1[2..] + Closing(script));
  }

  /* ---- The page ---- */

  /** Every head line appears in the page. */
  lemma HeadItemInPage(card: AgentCard, options: GeneratorOptions, ext: Collaborators, now: int, item: HeadItem)
    requires item in Head(card, options, ext)
    ensures Occurs(RenderHeadItem(item), GenerateLandingPage(card, options, ext, now))
  {
    HeadItemInLayout(Head(card, options, ext), BodyLines(card, options, ext, QuickstartSection(card, options, ext, now)), ext.copyScript, item);
  }

  /** The page's title is the escaped agent name. */
  lemma PageTitle(card: AgentCard, options: GeneratorOptions, ext: Collaborators, now: int)
    ensures forall text :: Title(text) in Head(card, options, ext) <==> text == Html.EscapeHtml(card.name)
    ensures Occurs(RenderHeadItem(Title(Html.EscapeHtml(card.name))), GenerateLandingPage(card, options, ext, now))
  {
    HeadTitle(HeadValuesOf(card, GenerateStyles(PageTheme(options, ext), ext.styleRules), options.meta));
    HeadItemInPage(card, options, ext, now, Title(Html.EscapeHtml(card.name)));
  }

  /** The head's values are escaped: nothing interpolated into a title,
      meta content or icon href can break out of it. */
  lemma PageHeadEscaped(card: AgentCard, options: GeneratorOptions, ext: Collaborators)
    ensures forall item :: item in Head(card, options, ext) ==> ValueSafe(item)
  {
    HeadValuesEscaped(HeadValuesOf(card, GenerateStyles(PageTheme(options, ext), ext.styleRules), options.meta));
  }

  /** The description, title and URL tags carry the escaped card fields. */
  lemma PageMetaValues(card: AgentCard, options: GeneratorOptions, ext: Collaborators)
    ensures forall x :: Meta(Description, x) in Head(card, options, ext) <==> x == Html.EscapeHtml(card.description)
    ensures forall x :: Meta(OgTitle, x) in Head(card, options, ext) <==> x == Html.EscapeHtml(card.name)
    ensures forall x :: Meta(OgDescription, x) in Head(card, options, ext) <==> x == Html.EscapeHtml(card.description)
    ensures forall x :: Meta(OgUrl, x) in Head(card, options, ext) <==> x == Html.EscapeHtml(card.url)
    ensures forall x :: Meta(TwitterTitle, x) in Head(card, options, ext) <==> x == Html.EscapeHtml(card.name)
    ensures forall x :: Meta(TwitterDescription, x) in Head(card, options, ext) <==> x == Html.EscapeHtml(card.description)
  {
    var v := HeadValuesOf(card, GenerateStyles(PageTheme(options, ext), ext.styleRules), options.meta);
    forall key, x ensures Meta(key, x) in Head(card, options, ext) <==> MetaValue(v, key) == Some(x) {
      HeadMeta(v, key, x);
    }
  }

  /** `og:image` and `twitter:image` are emitted exactly when the image
      option is truthy, with the image escaped; the favicon links likewise. */
  lemma PageMetaImages(card: AgentCard, options: GeneratorOptions, ext: Collaborators)
    ensures forall x :: Meta(OgImageKey, x) in Head(card, options, ext) <==>
      Truthy(OgImage(options.meta)) && x == Html.EscapeHtml(OgImage(options.meta).value)
    ensures forall x :: Meta(TwitterImage, x) in Head(card, options, ext) <==>
      Truthy(OgImage(options.meta)) && x == Html.EscapeHtml(OgImage(options.meta).value)
    ensures forall rel, h :: Icon(rel, h) in Head(card, options, ext) <==>
      Truthy(Favicon(options.meta)) && h == Html.EscapeHtml(Favicon(options.meta).value)
  {
    var v := HeadValuesOf(card, GenerateStyles(PageTheme(options, ext), ext.styleRules), options.meta);
    HeadSocialImage(v);
    HeadFavicon(v);
  }

  /** The one `twitter:card` tag carries the configured card type, and
      `summary_large_image` when none is configured. */
  lemma PageTwitterCard(card: AgentCard, options: GeneratorOptions, ext: Collaborators)
    ensures forall c :: Meta(TwitterCardKey, c) in Head(card, options, ext) <==> c == CardName(TwitterCardOf(options.meta))
    ensures options.meta.None? || options.meta.value.twitterCard.None? ==>
      Meta(TwitterCardKey, CardName(SummaryLargeImage)) in Head(card, options, ext)
  {
    HeadTwitterCard(HeadValuesOf(card, GenerateStyles(PageTheme(options, ext), ext.styleRules), options.meta));
  }

  /** The page binds every token of the theme the options select. */
  lemma PageBindsTheme(card: AgentCard, options: GeneratorOptions, ext: Collaborators, now: int, k: Token)
    ensures Occurs(Declaration(PageTheme(options, ext), k), GenerateLandingPage(card, options, ext, now))
  {
    var css := GenerateStyles(PageTheme(options, ext), ext.styleRules);
    StyleSheetInPage(card, options, ext, now, css);
    StylesBindEveryToken(PageTheme(options, ext), ext.styleRules, k);
    OccursTransitive(Declaration(PageTheme(options, ext), k), css, GenerateLandingPage(card, options, ext, now));
  }

  /** The style sheet of the selected theme is in the page. */
  lemma StyleSheetInPage(card: AgentCard, options: GeneratorOptions, ext: Collaborators, now: int, css: string)
    requires css == GenerateStyles(PageTheme(options, ext), ext.styleRules)
    ensures Occurs(css, GenerateLandingPage(card, options, ext, now))
  {
    HeadStyle(HeadValuesOf(card, css, options.meta));
    StyleInLayout(Head(card, options, ext), BodyLines(card, options, ext, QuickstartSection(card, options, ext, now)), ext.copyScript, css);
  }

  lemma StyleInLayout(items: seq<HeadItem>, body: seq<string>, script: string, css: string)
    requires StyleBlock(css) in items
    ensures Occurs(css, JoinLines(Layout(HeadLines(items), body, script)))
  {
    var k :| 0 <= k < |items| && items[k] == StyleBlock(css);
    var x := "<style>" + css + "</style>";
    assert HeadLines(items)[k] == "  " + x;
    HeadLineInLayout(HeadLines(items), body, script, k, x);
    OccursBetween("<style>", css, "</style>");
    OccursTransitive(css, x, JoinLines(Layout(HeadLines(items), body, script)));
  }

  /** An enabled section's line is the section, indented. */
  lemma EnabledLine(card: AgentCard, options: GeneratorOptions, ext: Collaborators, q: string, i: nat)
    requires i < |PageOrder| && Enabled(options, PageOrder[i])
    ensures BodyLines(card, options, ext, q)[i] == "    " + RenderBlock(PageOrder[i], card, options, ext, q)
  {
  }

  /** An enabled section appears in the page. */
  lemma BlockInPage(card: AgentCard, options: GeneratorOptions, ext: Collaborators, now: int, i: nat)
    requires i < |PageOrder| && Enabled(options, PageOrder[i])
    ensures Occurs(RenderBlock(PageOrder[i], card, options, ext, QuickstartSection(card, options, ext, now)),
                   GenerateLandingPage(card, options, ext, now))
  {
    var q := QuickstartSection(card, options, ext, now);
    EnabledLine(card, options, ext, q, i);
    BodyLineInLayout(HeadLines(Head(card, options, ext)), BodyLines(card, options, ext, q), ext.copyScript, i,
                     RenderBlock(PageOrder[i], card, options, ext, q));
  }

  /** Enabled sections appear in the fixed order: hero, quick start,
      symbols, skills, payment flow, agent card, custom sections, footer. */
  lemma BlocksInOrder(card: AgentCard, options: GeneratorOptions, ext: Collaborators, now: int, i: nat, j: nat)
    requires i < j < |PageOrder|
    requires Enabled(options, PageOrder[i]) && Enabled(options, PageOrder[j])
    ensures OccursBefore(RenderBlock(PageOrder[i], card, options, ext, QuickstartSection(card, options, ext, now)),
                         RenderBlock(PageOrder[j], card, options, ext, QuickstartSection(card, options, ext, now)),
                         GenerateLandingPage(card, options, ext, now))
  {
    var q := QuickstartSection(card, options, ext, now);
    EnabledLine(card, options, ext, q, i);
    EnabledLine(card, options, ext, q, j);
    BodyLinesInOrder(HeadLines(Head(card, options, ext)), BodyLines(card, options, ext, q), ext.copyScript, i, j,
                     RenderBlock(PageOrder[i], card, options, ext, q), RenderBlock(PageOrder[j], card, options, ext, q));
  }

  /** What comes in order inside an enabled section comes in order in the page. */
  lemma OrderInBlockIsOrderInPage(card: AgentCard, options: GeneratorOptions, ext: Collaborators, now: int, i: nat, x: string, y: string)
    requires i < |PageOrder| && Enabled(options, PageOrder[i])
    requires OccursBefore(x, y, RenderBlock(PageOrder[i], card, options, ext, QuickstartSection(card, options, ext, now)))
    ensures OccursBefore(x, y, GenerateLandingPage(card, options, ext, now))
  {
    var q := QuickstartSection(card, options, ext, now);
    EnabledLine(card, options, ext, q, i);
    OrderInBodyLine(HeadLines(Head(card, options, ext)), BodyLines(card, options, ext, q), ext.copyScript, i, x, y,
                    RenderBlock(PageOrder[i], card, options, ext, q));
  }

  /** Custom sections keep their order in the page. */
  lemma PageCustomSections(card: AgentCard, options: GeneratorOptions, ext: Collaborators, now: int, i: nat, j: nat)
    requires options.customSections.Some? && i < j < |options.customSections.value|
    ensures OccursBefore(Heading(options.customSections.value[i].title), Heading(options.customSections.value[j].title),
                         GenerateLandingPage(card, options, ext, now))
  {
    var sections := options.customSections.value;
    CustomSectionsInOrder(sections, i, j);
    OrderInBlockIsOrderInPage(card, options, ext, now, 6, Heading(sections[i].title), Heading(sections[j].title));
  }

  /** Every custom section's content is in the page, verbatim. */
  lemma PageCustomContent(card: AgentCard, options: GeneratorOptions, ext: Collaborators, now: int, i: nat)
    requires options.customSections.Some? && i < |options.customSections.value|
    ensures Occurs(options.customSections.value[i].content, GenerateLandingPage(card, options, ext, now))
  {
    var sections := options.customSections.value;
    CustomContentVerbatim(sections, i);
    BlockInPage(card, options, ext, now, 6);
    OccursTransitive(sections[i].content, RenderCustomSections(options.customSections), GenerateLandingPage(card, options, ext, now));
  }

  /** Every custom section's escaped title is in the page, in its `h2`. */
  lemma PageCustomHeading(card: AgentCard, options: GeneratorOptions, ext: Collaborators, now: int, i: nat)
    requires options.customSections.Some? && i < |options.customSections.value|
    ensures Occurs(Heading(options.customSections.value[i].title), GenerateLandingPage(card, options, ext, now))
  {
    var sections := options.customSections.value;
    HeadingInOutput(sections, i);
    BlockInPage(card, options, ext, now, 6);
    OccursTransitive(Heading(sections[i].title), RenderCustomSections(options.customSections), GenerateLandingPage(card, options, ext, now));
  }

  /** The quick start's endpoint, the escaped card URL with `/a2a`, appears
      twice in the page. */
  lemma PageEndpoint(card: AgentCard, options: GeneratorOptions, ext: Collaborators, now: int)
    ensures OccursBefore(Html.EscapeHtml(card.url) + "/a2a", Html.EscapeHtml(card.url) + "/a2a",
                         GenerateLandingPage(card, options, ext, now))
  {
    var e := Html.EscapeHtml(card.url) + "/a2a";
    Quickstart.QuickstartEndpointTwice(card, PageTheme(options, ext), now);
    OrderInQuickstart(card, options, ext, QuickstartSection(card, options, ext, now), e, e);
  }

  /** What comes in order inside the quick start comes in order in the page. */
  lemma OrderInQuickstart(card: AgentCard, options: GeneratorOptions, ext: Collaborators, q: string, x: string, y: string)
    requires OccursBefore(x, y, q)
    ensures OccursBefore(x, y, Page(card, options, ext, q))
  {
    QuickstartLine(card, options, ext, q);
    OrderInBodyLine(HeadLines(Head(card, options, ext)), BodyLines(card, options, ext, q), ext.copyScript, 1, x, y, q);
  }

  /* ---- The options ---- */

  lemma SameBlock(block: Block, card: AgentCard, a: GeneratorOptions, b: GeneratorOptions, ext: Collaborators, q: string)
    requires a.theme == b.theme && a.customSections == b.customSections && a.footer == b.footer
    requires Enabled(a, block) == Enabled(b, block)
    ensures BodyLine(block, card, a, ext, q) == BodyLine(block, card, b, ext, q)
  {
    assert PageTheme(a, ext) == PageTheme(b, ext);
  }

  /** Options that select the same theme, meta, custom sections, footer and
      sections give the same page around the same quick start. */
  lemma SamePage(card: AgentCard, a: GeneratorOptions, b: GeneratorOptions, ext: Collaborators, q: string)
    requires a.theme == b.theme && a.meta == b.meta && a.customSections == b.customSections && a.footer == b.footer
    requires forall block :: Enabled(a, block) == Enabled(b, block)
    ensures Page(card, a, ext, q) == Page(card, b, ext, q)
  {
    assert PageTheme(a, ext) == PageTheme(b, ext);
    assert Head(card, a, ext) == Head(card, b, ext);
    forall i | 0 <= i < |PageOrder|
      ensures BodyLines(card, a, ext, q)[i] == BodyLines(card, b, ext, q)[i]
    {
      SameBlock(PageOrder[i], card, a, b, ext, q);
    }
    assert BodyLines(card, a, ext, q) == BodyLines(card, b, ext, q);
  }

  /** The same for the generated pages, which share their quick start. */
  lemma SameOptions(card: AgentCard, a: GeneratorOptions, b: GeneratorOptions, ext: Collaborators, now: int)
    requires a.theme == b.theme && a.meta == b.meta && a.customSections == b.customSections && a.footer == b.footer
    requires forall block :: Enabled(a, block) == Enabled(b, block)
    ensures GenerateLandingPage(card, a, ext, now) == GenerateLandingPage(card, b, ext, now)
  {
    var q := QuickstartSection(card, a, ext, now);
    assert PageTheme(a, ext) == PageTheme(b, ext);
    SamePage(card, a, b, ext, q);
  }

  /** An unset flag shows its section, exactly as `true` does. */
  lemma SymbolsDefaultToShown(card: AgentCard, options: GeneratorOptions, ext: Collaborators, now: int)
    ensures GenerateLandingPage(card, options.(showSymbols := None), ext, now)
         == GenerateLandingPage(card, options.(showSymbols := Some(true)), ext, now)
  {
    var a, b := options.(showSymbols := None), options.(showSymbols := Some(true));
    assert forall block :: Enabled(a, block) == Enabled(b, block);
    SameOptions(card, a, b, ext, now);
  }

  lemma PaymentFlowDefaultToShown(card: AgentCard, options: GeneratorOptions, ext: Collaborators, now: int)
    ensures GenerateLandingPage(card, options.(showPaymentFlow := None), ext, now)
         == GenerateLandingPage(card, options.(showPaymentFlow := Some(true)), ext, now)
  {
    var a, b := options.(showPaymentFlow := None), options.(showPaymentFlow := Some(true));
    assert forall block :: Enabled(a, block) == Enabled(b, block);
    SameOptions(card, a, b, ext, now);
  }

  lemma AgentCardDefaultToShown(card: AgentCard, options: GeneratorOptions, ext: Collaborators, now: int)
    ensures GenerateLandingPage(card, options.(showAgentCard := None), ext, now)
         == GenerateLandingPage(card, options.(showAgentCard := Some(true)), ext, now)
  {
    var a, b := options.(showAgentCard := None), options.(showAgentCard := Some(true));
    assert forall block :: Enabled(a, block) == Enabled(b, block);
    SameOptions(card, a, b, ext, now);
  }

  /** Pages with the same head and section lines are equal. */
  lemma SameLines(card: AgentCard, a: GeneratorOptions, extA: Collaborators, b: GeneratorOptions, extB: Collaborators, q: string)
    requires Head(card, a, extA) == Head(card, b, extB) && extA.copyScript == extB.copyScript
    requires forall block :: BodyLine(block, card, a, extA, q) == BodyLine(block, card, b, extB, q)
    ensures Page(card, a, extA, q) == Page(card, b, extB, q)
  {
    assert BodyLines(card, a, extA, q) == BodyLines(card, b, extB, q);
  }

  /** Switching the symbols section off leaves its line empty: the page is
      the one produced with it shown by a renderer that returns nothing. */
  lemma SymbolsOffIsEmpty(card: AgentCard, options: GeneratorOptions, ext: Collaborators, now: int)
    requires options.showSymbols == Some(false)
    ensures GenerateLandingPage(card, options, ext, now)
         == GenerateLandingPage(card, options.(showSymbols := None), ext.(renderSymbols := (c: AgentCard, t: Theme) => ""), now)
  {
    var b, e := options.(showSymbols := None), ext.(renderSymbols := (c: AgentCard, t: Theme) => "");
    assert PageTheme(options, ext) == PageTheme(b, e);
    SymbolsOffPage(card, options, ext, QuickstartSection(card, options, ext, now));
  }

  lemma SymbolsOffPage(card: AgentCard, options: GeneratorOptions, ext: Collaborators, q: string)
    requires options.showSymbols == Some(false)
    ensures Page(card, options, ext, q)
         == Page(card, options.(showSymbols := None), ext.(renderSymbols := (c: AgentCard, t: Theme) => ""), q)
  {
    var b, e := options.(showSymbols := None), ext.(renderSymbols := (c: AgentCard, t: Theme) => "");
    assert PageTheme(options, ext) == PageTheme(b, e);
    assert Head(card, options, ext) == Head(card, b, e);
    forall block ensures BodyLine(block, card, options, ext, q) == BodyLine(block, card, b, e, q) {
      SymbolsOffLine(block, card, options, ext, q);
    }
    SameLines(card, options, ext, b, e, q);
  }

  lemma SymbolsOffLine(block: Block, card: AgentCard, options: GeneratorOptions, ext: Collaborators, q: string)
    requires options.showSymbols == Some(false)
    ensures BodyLine(block, card, options, ext, q)
         == BodyLine(block, card, options.(showSymbols := None), ext.(renderSymbols := (c: AgentCard, t: Theme) => ""), q)
  {
    assert PageTheme(options, ext) == PageTheme(options.(showSymbols := None), ext.(renderSymbols := (c: AgentCard, t: Theme) => ""));
  }

  /** The same for the payment flow section. */
  lemma PaymentFlowOffIsEmpty(card: AgentCard, options: GeneratorOptions, ext: Collaborators, now: int)
    requires options.showPaymentFlow == Some(false)
    ensures GenerateLandingPage(card, options, ext, now)
         == GenerateLandingPage(card, options.(showPaymentFlow := None), ext.(renderPaymentFlow := (c: AgentCard, t: Theme) => ""), now)
  {
    var b, e := options.(showPaymentFlow := None), ext.(renderPaymentFlow := (c: AgentCard, t: Theme) => "");
    assert PageTheme(options, ext) == PageTheme(b, e);
    PaymentFlowOffPage(card, options, ext, QuickstartSection(card, options, ext, now));
  }

  lemma PaymentFlowOffPage(card: AgentCard, options: GeneratorOptions, ext: Collaborators, q: string)
    requires options.showPaymentFlow == Some(false)
    ensures Page(card, options, ext, q)
         == Page(card, options.(showPaymentFlow := None), ext.(renderPaymentFlow := (c: AgentCard, t: Theme) => ""), q)
  {
    var b, e := options.(showPaymentFlow := None), ext.(renderPaymentFlow := (c: AgentCard, t: Theme) => "");
    assert PageTheme(options, ext) == PageTheme(b, e);
    assert Head(card, options, ext) == Head(card, b, e);
    forall block ensures BodyLine(block, card, options, ext, q) == BodyLine(block, card, b, e, q) {
      PaymentFlowOffLine(block, card, options, ext, q);
    }
    SameLines(card, options, ext, b, e, q);
  }

  lemma PaymentFlowOffLine(block: Block, card: AgentCard, options: GeneratorOptions, ext: Collaborators, q: string)
    requires options.showPaymentFlow == Some(false)
    ensures BodyLine(block, card, options, ext, q)
         == BodyLine(block, card, options.(showPaymentFlow := None), ext.(renderPaymentFlow := (c: AgentCard, t: Theme) => ""), q)
  {
    assert PageTheme(options, ext) == PageTheme(options.(showPaymentFlow := None), ext.(renderPaymentFlow := (c: AgentCard, t: Theme) => ""));
  }

  /** The same for the agent card section. */
  lemma AgentCardOffIsEmpty(card: AgentCard, options: GeneratorOptions, ext: Collaborators, now: int)
    requires options.showAgentCard == Some(false)
    ensures GenerateLandingPage(card, options, ext, now)
         == GenerateLandingPage(card, options.(showAgentCard := None), ext.(renderAgentCardSection := (c: AgentCard, t: Theme) => ""), now)
  {
    var b, e := options.(showAgentCard := None), ext.(renderAgentCardSection := (c: AgentCard, t: Theme) => "");
    assert PageTheme(options, ext) == PageTheme(b, e);
    AgentCardOffPage(card, options, ext, QuickstartSection(card, options, ext, now));
  }

  lemma AgentCardOffPage(card: AgentCard, options: GeneratorOptions, ext: Collaborators, q: string)
    requires options.showAgentCard == Some(false)
    ensures Page(card, options, ext, q)
         == Page(card, options.(showAgentCard := None), ext.(renderAgentCardSection := (c: AgentCard, t: Theme) => ""), q)
  {
    var b, e := options.(showAgentCard := None), ext.(renderAgentCardSection := (c: AgentCard, t: Theme) => "");
    assert PageTheme(options, ext) == PageTheme(b, e);
    assert Head(card, options, ext) == Head(card, b, e);
    forall block ensures BodyLine(block, card, options, ext, q) == BodyLine(block, card, b, e, q) {
      AgentCardOffLine(block, card, options, ext, q);
    }
    SameLines(card, options, ext, b, e, q);
  }

  lemma AgentCardOffLine(block: Block, card: AgentCard, options: GeneratorOptions, ext: Collaborators, q: string)
    requires options.showAgentCard == Some(false)
    ensures BodyLine(block, card, options, ext, q)
         == BodyLine(block, card, options.(showAgentCard := None), ext.(renderAgentCardSection := (c: AgentCard, t: Theme) => ""), q)
  {
    assert PageTheme(options, ext) == PageTheme(options.(showAgentCard := None), ext.(renderAgentCardSection := (c: AgentCard, t: Theme) => ""));
  }

  /** With no options every section is shown, in the dark theme. */
  lemma DefaultLayout(ext: Collaborators)
    ensures forall block :: Enabled(DefaultOptions, block)
    ensures PageTheme(DefaultOptions, ext) == ext.darkTheme
  {
  }

  /** With no options the head has no image and no favicon, and the card
      type is `summary_large_image`. */
  lemma DefaultHead(card: AgentCard, ext: Collaborators)
    ensures forall x :: Meta(OgImageKey, x) !in Head(card, DefaultOptions, ext)
    ensures forall x :: Meta(TwitterImage, x) !in Head(card, DefaultOptions, ext)
    ensures forall rel, h :: Icon(rel, h) !in Head(card, DefaultOptions, ext)
    ensures Meta(TwitterCardKey, CardName(SummaryLargeImage)) in Head(card, DefaultOptions, ext)
  {
    PageMetaImages(card, DefaultOptions, ext);
    PageTwitterCard(card, DefaultOptions, ext);
  }

  /* ---- The timestamp ---- */

  /** Only the quick start reads the timestamp, and it is not lost: two
      pages for the same card and options are equal exactly when their
      timestamps are. */
  lemma PageTimestamp(card: AgentCard, options: GeneratorOptions, ext: Collaborators, n1: int, n2: int)
    ensures GenerateLandingPage(card, options, ext, n1) == GenerateLandingPage(card, options, ext, n2) <==> n1 == n2
  {
    if GenerateLandingPage(card, options, ext, n1) == GenerateLandingPage(card, options, ext, n2) {
      var q1, q2 := QuickstartSection(card, options, ext, n1), QuickstartSection(card, options, ext, n2);
      var b1, b2 := BodyLines(card, options, ext, q1), BodyLines(card, options, ext, q2);
      SameLinesApartFromQuickstart(card, options, ext, q1, q2);
      LayoutCancel(HeadLines(Head(card, options, ext)), b1, b2, ext.copyScript);
      QuickstartLine(card, options, ext, q1);
      QuickstartLine(card, options, ext, q2);
      CancelPrefix("    ", q1, q2);
      Quickstart.QuickstartTimestamp(card, PageTheme(options, ext), n1, n2);
    }
  }

  /** The quick start's line is the quick start, indented. */
  lemma QuickstartLine(card: AgentCard, options: GeneratorOptions, ext: Collaborators, q: string)
    ensures BodyLines(card, options, ext, q)[1] == "    " + q
  {
  }

  /** The section lines other than the quick start's do not depend on it. */
  lemma SameLinesApartFromQuickstart(card: AgentCard, options: GeneratorOptions, ext: Collaborators, q1: string, q2: string)
    ensures BodyLines(card, options, ext, q1)[0] == BodyLines(card, options, ext, q2)[0]
    ensures BodyLines(card, options, ext, q1)[2..] == BodyLines(card, options, ext, q2)[2..]
  {
    var b1, b2 := BodyLines(card, options, ext, q1), BodyLines(card, options, ext, q2);
    forall i | 0 <= i < |PageOrder| && i != 1 ensures b1[i] == b2[i] {
      assert PageOrder[i] != QuickstartBlock;
    }
    assert b1[2..] == b2[2..];
  }
}
