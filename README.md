# A2A landing page generator — the document composition core

This project models, in Dafny, how the generator builds the landing page of an A2A agent from its
agent card. That is `generateLandingPage` and its helpers in `src/generator.ts`, plus the quick start
section in `src/components/quickstart.ts`. Everything in the core is pure TypeScript: template
literals, `.replace`, `.map(...).join('')` and ternaries. The model is therefore made of datatypes,
functions and lemmas. There are no classes and no loops, because the source has none.

Modules:

- **Text** (`text.dfy`): the string machinery the templates rely on.
  - `ReplaceAll` is `String.prototype.replace` with a global one-character pattern.
  - `Concat` is `.join('')`, and `JoinLines` gives the line structure of the template.
  - `IntToDecimal` is how JavaScript prints the integer `Date.now()`.
  - `Occurs`/`OccursBefore` express "appears in" and "appears before, without overlapping".
  - The same file declares the module `Wrappers`, which holds `Option`.
- **Types** (`types.dfy`): the agent card, its skills and the theme with its colour and font tokens.
- **Html** (`html.dfy`): `escapeHtml`, the chain of five global replacements, `&` first.
  - The result cannot contain `<`, `>`, `"` or `'`.
  - The chain equals escaping each character on its own, so decoding the five entities gives the input back.
  - The chain is not idempotent. Escaping twice equals escaping once exactly when there was nothing to escape, and `&` becomes `&amp;` and then `&amp;amp;`.
- **Styles** (`styles.dfy`): `resolveTheme` and `generateStyles`.
  - The stylesheet is a template of pieces: fixed text, the fixed layout rulesets, and token bindings.
  - It opens with the `:root` block, which the layout rules follow.
  - Every one of the eleven theme tokens (eight colours, three font stacks) is bound in it: each colour inside the `:root` block, each font stack in the rules after it.
- **CustomSections** (`custom_sections.dfy`): `renderCustomSections`.
  - Nothing is rendered for an absent or empty list.
  - Otherwise there is one fragment per section, in input order, with the title escaped and the content inserted verbatim.
- **Quickstart** (`quickstart.dfy`): `renderQuickstart` and the local `escapeHtml` of `quickstart.ts`.
  - The example method is the first skill's id, falling back to `message/send`.
  - The example params are `{"symbol":"<first example>"}`, falling back to `{}`.
  - The escaped URL with `/a2a` appears twice, as the endpoint path and then in the curl line.
  - The escaped method name and the params are in the JSON-RPC body.
  - Only the URL and the first skill are read.
  - The render-time timestamp is the one varying input, and distinct timestamps give distinct fragments.
- **Generator** (`generator.dfy`): `generateLandingPage`.
  - The document is a sequence of lines joined by `"\n"`: the fixed opening, the head lines (each indented two spaces), the fixed middle, one body line per section (each indented four spaces), and the closing lines with the copy script.
  - The head is a sequence of `HeadItem`s. A conditional tag whose option is falsy (unset or the empty string) renders as nothing, so its line holds only its two-space indentation, as in the template.
  - Proved about the head:
    - every interpolated value (title, meta content, icon href) is escaped;
    - each meta tag carries exactly its value: the escaped name, description or URL, the card type, or the escaped image;
    - `og:image`/`twitter:image` appear exactly when `ogImage` is truthy, and both favicon links exactly when `favicon` is;
    - the `twitter:card` value defaults to `summary_large_image`.
  - Proved about the page:
    - the selected theme's stylesheet and every token binding are in the page;
    - the enabled sections appear in the fixed order hero, quick start, symbols, skills, payment flow, agent card, custom sections, footer;
    - custom sections keep their order and their content is verbatim.
  - Proved about the options:
    - an unset `show*` flag behaves exactly like `true`;
    - a flag set to `false` leaves the section's line holding only its four-space indentation, exactly as a renderer returning nothing would;
    - options that agree on what the page reads give the same page.
  - Proved about the timestamp: two pages for the same card and options are equal exactly when their timestamps are.

## Model

| member | source | states |
|---|---|---|
| Text.ReplaceAll | src/generator.ts:291 | `.replace(/c/g, s)`: text without `c` is returned unchanged; when `s` does not contain `c`, no `c` is left |
| Text.ReplaceAllAppend | src/generator.ts:290-295 | a global replacement of one character distributes over concatenation |
| Text.ReplaceAllExcludes | src/generator.ts:290-295 | a replacement introduces no character absent from the input and from the replacement text |
| Text.IntToDecimal | src/components/quickstart.ts:42 | the printed integer is non-empty and starts with `-` exactly when it is negative |
| Text.DecimalRoundTrip | src/components/quickstart.ts:42 | reading back the digits of a printed natural number gives the number |
| Text.IntToDecimalInjective | src/components/quickstart.ts:42 | two integers print the same exactly when they are equal |
| Html.EscapeHtml | src/generator.ts:289-296 | the result contains none of `<`, `>`, `"`, `'`; text without the five reserved characters is returned unchanged |
| Html.EscapeChar | src/generator.ts:291-295 | a character is replaced by an entity exactly when it is one of the five reserved ones |
| Html.EscapeHtmlChar | src/generator.ts:290-295 | on one character the five steps yield exactly that character's entity: no later step rewrites an entity an earlier step introduced |
| Html.EscapeHtmlAppend | src/generator.ts:290-295 | escaping distributes over concatenation |
| Html.EscapeHtmlIsPerCharacter | src/generator.ts:290-295 | the five ordered replacements, `&` first, equal replacing each character by its entity |
| Html.EscapeHtmlRoundTrip | src/generator.ts:289-296 | decoding the five entities gives the input back, so escaping loses nothing |
| Html.EscapeHtmlFixedPoint | src/generator.ts:289-296 | escaping leaves a string unchanged exactly when it contains none of the five reserved characters |
| Html.EscapeHtmlTwice | src/generator.ts:289-296 | not idempotent: escaping twice equals escaping once exactly when there was nothing to escape |
| Html.EscapeHtmlAmpersandTwice | src/generator.ts:291 | `&` escapes to `&amp;`, and that escapes to `&amp;amp;` |
| Html.EscapeEach | src/generator.ts:290-295 | the per-character reference the replacement chain is proved equal to (`EscapeHtmlIsPerCharacter`) |
| Html.Unescape | src/generator.ts:289-296 | the decoder of the five entities, left inverse of escaping (`EscapeHtmlRoundTrip`) |
| Styles.ResolveTheme | src/generator.ts:42-47 | the theme is the dark preset, the light preset or the explicitly given theme |
| Styles.ResolveThemeCases | src/generator.ts:42-47 | absent and `'dark'` give the dark preset, `'light'` the light preset, an explicit theme itself |
| Styles.StylesBindEveryToken | src/generator.ts:49-265 | each of the eight colour tokens is bound to its custom property inside the `:root` block (`RootBlock`), and each font stack to a `font-family` declaration in the rules after it |
| Styles.StylesOpenWithRoot | src/generator.ts:50-60 | the stylesheet is the `:root` block followed by the layout rules |
| Styles.FillAppend | src/generator.ts:49-265 | filling a template split in two is the concatenation of filling each part |
| Styles.ColorPosition | src/generator.ts:51-59 | each colour is bound in the `:root` block strictly between its opening and its closing brace |
| Styles.FontPosition | src/generator.ts:64-265 | each font stack is bound in the rules after the `:root` block |
| Styles.GenerateStyles | src/generator.ts:49-265 | the template `StyleTemplate` filled with a theme: the `:root` block binding the eight colours, then the rulesets with the three font stacks; its property is `StylesBindEveryToken` |
| Styles.RenderPiece | src/generator.ts:50-265 | the text of one template piece: the `:root` opening, a line break, the closing brace, a fixed ruleset, or a token's declaration; placed by `StylesBindEveryToken` |
| Styles.Fill | src/generator.ts:49-265 | the pieces' texts joined in order; `FillAppend` and `FillHasPiece` are its properties |
| Styles.FillHasPiece | src/generator.ts:49-265 | the text of every piece of a template occurs in the filled template |
| Styles.RootBlock | src/generator.ts:50-60 | the filled `:root` block; `StylesOpenWithRoot` puts it at the start of the stylesheet and `StylesBindEveryToken` puts every colour in it |
| Styles.RootBlockDelimited | src/generator.ts:51-60 | the `:root` template starts with its opening, ends with its closing brace and has no other closing brace, so what `ColorPosition` places between them is inside the block |
| CustomSections.Heading | src/generator.ts:283 | the escaped title in an `h2`; its place is `HeadingInFragment` and `CustomSectionsInOrder` |
| CustomSections.SectionFragment | src/generator.ts:281-285 | one section's markup, content verbatim; its properties are `CustomContentVerbatim` and `HeadingInFragment` |
| CustomSections.Fragments | src/generator.ts:281-286 | one fragment per section, in input order |
| CustomSections.RenderCustomSections | src/generator.ts:278-287 | the result is empty exactly when the list is absent or empty |
| CustomSections.CustomContentVerbatim | src/generator.ts:284 | every section's content appears unescaped in the output |
| CustomSections.HeadingInFragment | src/generator.ts:283 | a section's fragment holds its escaped title as an `h2` |
| CustomSections.HeadingInOutput | src/generator.ts:281-286 | every section's escaped title, in its `h2`, occurs in the rendered custom sections |
| CustomSections.CustomSectionsInOrder | src/generator.ts:281-286 | an earlier section's escaped heading comes before a later one's |
| Quickstart.RequestText | src/components/quickstart.ts:19-42 | the fragment up to the timestamp: endpoint, curl request and start of the response; its properties are `EndpointTwiceInRequest` and `InBody` |
| Quickstart.RenderQuickstart | src/components/quickstart.ts:10-48 | the quick start fragment; its properties are `QuickstartEndpointTwice`, `QuickstartRequestBody`, `QuickstartExampleVerbatim`, `QuickstartReadsOnlyUrlAndFirstSkill` and `QuickstartTimestamp` |
| Quickstart.EscapeHtml | src/components/quickstart.ts:50-58 | `undefined` gives the empty string; the result contains none of `<`, `>`, `"`, `'` |
| Quickstart.EscapeHtmlAgrees | src/components/quickstart.ts:50-58 | on a present string the local escaper equals the generator's, the empty string included |
| Quickstart.ExampleMethod | src/components/quickstart.ts:14 | the first skill's id when there is a first skill and its id is non-empty, `message/send` otherwise; never empty |
| Quickstart.ExampleParams | src/components/quickstart.ts:15-17 | `{}` exactly when there is no first example or it is empty |
| Quickstart.ExampleParamsOfExample | src/components/quickstart.ts:15-17 | with a non-empty first example the params are `{"symbol":"` + example + `"}` |
| Quickstart.FirstExample | src/components/quickstart.ts:15 | `skills[0]?.examples?.[0]`, present only for a non-empty example list of an existing first skill; `ExampleParams` and `QuickstartExampleVerbatim` state how it is used |
| Quickstart.QuickstartExamples | src/components/quickstart.ts:14-17 | `get_price`/`{"symbol":"BTCUSDT"}` for one priced skill, `message/send`/`{}` for no skills |
| Quickstart.Endpoint | src/components/quickstart.ts:26 | the endpoint is the escaped URL followed by `/a2a` |
| Quickstart.EndpointPath | src/components/quickstart.ts:26 | the path span around the endpoint; `EndpointTwiceInRequest` places it before the curl line |
| Quickstart.CurlLine | src/components/quickstart.ts:30 | the curl command on the same endpoint; `QuickstartEndpointTwice` states the two occurrences |
| Quickstart.MethodField | src/components/quickstart.ts:32 | the `method` member with the escaped method name; `QuickstartRequestBody` puts it in the fragment |
| Quickstart.ParamsField | src/components/quickstart.ts:32 | the `params` member with the params inserted raw; `QuickstartRequestBody` and `QuickstartExampleVerbatim` put it in the fragment |
| Quickstart.ResponseTail | src/components/quickstart.ts:42-47 | the example response from the timestamp on; `QuickstartTimestamp` shows the timestamp is not lost |
| Quickstart.EndpointTwiceInRequest | src/components/quickstart.ts:24-30 | the endpoint occurs in the path span and again, later, in the curl line |
| Quickstart.QuickstartEndpointTwice | src/components/quickstart.ts:24-32 | the escaped URL with `/a2a` occurs twice in the fragment, in that order |
| Quickstart.QuickstartRequestBody | src/components/quickstart.ts:30-32 | the JSON-RPC body carries the escaped method name and the params |
| Quickstart.InBody | src/components/quickstart.ts:19-45 | what occurs in the JSON-RPC body and the fixed response start occurs in the request text |
| Quickstart.QuickstartExampleVerbatim | src/components/quickstart.ts:15-17 | a non-empty first example reaches the fragment unescaped, inside `{"symbol":"…"}` |
| Quickstart.SameFirstSkill | src/components/quickstart.ts:14-17 | skill lists with the same first skill give the same method and params |
| Quickstart.QuickstartReadsOnlyUrlAndFirstSkill | src/components/quickstart.ts:10-17 | cards that agree on the URL and the first skill give the same fragment, whatever the theme |
| Quickstart.QuickstartTimestamp | src/components/quickstart.ts:42 | two renderings of a card are equal exactly when their timestamps are |
| Generator.GenerateLandingPage | src/generator.ts:298-352 | the page for a card, options and clock reading; its properties are the `Page*` lemmas, the flag lemmas and `PageTimestamp` |
| Generator.Shown | src/generator.ts:300-302 | the `!== false` rule: only an explicit `false` hides a section; `*DefaultToShown` and `*OffIsEmpty` are its properties |
| Generator.Truthy | src/generator.ts:321-331 | the truth test of an optional string: present and non-empty; `EscapedIfTruthy` and `PageMetaImages` state its use |
| Generator.OgImage | src/generator.ts:304 | `options.meta?.ogImage`; `PageMetaImages` ties the image tags to it |
| Generator.Favicon | src/generator.ts:305 | `options.meta?.favicon`; `PageMetaImages` ties the icon links to it |
| Generator.PageTheme | src/generator.ts:299 | the theme the options select; `PageBindsTheme` and `StyleSheetInPage` show its stylesheet in the page |
| Generator.Enabled | src/generator.ts:342-345 | only symbols, payment flow and agent card can be switched off, each by its flag; `BlockInPage` and the `*OffLine` lemmas state its use |
| Generator.QuickstartSection | src/generator.ts:341 | the quick start rendered with the selected theme and the clock; `QuickstartLine` and `PageEndpoint` place it in the page |
| Generator.CardName | src/generator.ts:306-324 | the text of a Twitter card type; `CardNameSafe` and `PageTwitterCard` are its properties |
| Generator.DocumentItems | src/generator.ts:311-315 | the charset, viewport, title and description lines; `HeadTitle` and `DocumentMeta` are its properties |
| Generator.OpenGraphItems | src/generator.ts:316-322 | the Open Graph lines, `og:image` only for an image; `OpenGraphMeta` and `HeadSocialImage` are its properties |
| Generator.TwitterItems | src/generator.ts:323-328 | the Twitter Card lines, `twitter:image` only for an image; `TwitterMeta` and `HeadTwitterCard` are its properties |
| Generator.FaviconItems | src/generator.ts:329-332 | both icon links or neither; `HeadFavicon` is its property |
| Generator.FixedMarkup | src/generator.ts:311-335 | the exact markup of the head's fixed lines |
| Generator.Closing | src/generator.ts:348-351 | the container closed, the copy script, then the end of the body and the document; `SameLines` shows the page depends on the script only through it |
| Generator.Page | src/generator.ts:308-351 | the page around a given quick start; its properties are `OrderInQuickstart`, `SamePage`, `SameLines` and the `*OffPage` lemmas |
| Generator.Layout | src/generator.ts:308-351 | the document's lines: opening, head, middle, body, closing with the script; its properties are the `Layout*` lemmas |
| Generator.Head | src/generator.ts:308-337 | the head items for a card and options; its properties are `PageTitle`, `PageHeadEscaped`, `PageMetaValues`, `PageMetaImages` and `PageTwitterCard` |
| Generator.HeadItems | src/generator.ts:311-336 | the head, group by group, 26 lines; its properties are `InHead` and the `Head*` lemmas |
| Generator.RenderHeadItem | src/generator.ts:311-336 | the markup of one head line; its place in the page is `HeadItemInPage` |
| Generator.RenderBlock | src/generator.ts:340-347 | the fragment of one section; its properties are `BlockInPage`, `BlocksInOrder` and `SameBlock` |
| Generator.BodyLine | src/generator.ts:340-347 | a section's line, empty after its indentation when switched off; its properties are `EnabledLine` and the `*OffLine` lemmas |
| Generator.TwitterCardOf | src/generator.ts:306 | the configured card type, and `summary_large_image` when none is configured |
| Generator.EscapedIfTruthy | src/generator.ts:321-331 | present exactly when the option is truthy, and then the escaped value, which is markup-safe |
| Generator.HeadValuesOf | src/generator.ts:313-331 | every value the head interpolates from the card and the meta options is markup-safe; that they are `escapeHtml` of the card's fields is `PageTitle`, `PageMetaValues` and `PageMetaImages` |
| Generator.HeadLines | src/generator.ts:311-336 | one head line per item, the item's markup indented by two spaces |
| Generator.BodyLines | src/generator.ts:340-347 | one body line per section, in the fixed order |
| Generator.CardNameSafe | src/generator.ts:324 | both card type names are markup-safe |
| Generator.InHead | src/generator.ts:311-336 | a head line belongs to the document, Open Graph, Twitter, favicon or font group, or is the style block |
| Generator.HeadValuesEscaped | src/generator.ts:313-331 | every title, meta content and icon href in the head is markup-safe |
| Generator.HeadTitle | src/generator.ts:313 | the head has exactly one title text, the name |
| Generator.MetaValue | src/generator.ts:314-327 | the value each meta key's tag interpolates: the name, the description, the URL, the card type's name, or the image when set; its properties are `HeadMeta` and `PageMetaValues` |
| Generator.DocumentMeta | src/generator.ts:314 | the only meta tag of the document group is the description, carrying the description |
| Generator.OpenGraphMeta | src/generator.ts:317-321 | the Open Graph group holds exactly the `og:` tags whose value is present, each carrying its value |
| Generator.TwitterMeta | src/generator.ts:324-327 | the Twitter group holds exactly the `twitter:` tags whose value is present, each carrying its value |
| Generator.HeadMeta | src/generator.ts:314-327 | a meta tag with key `k` and content `x` is in the head exactly when `x` is `k`'s value |
| Generator.HeadSocialImage | src/generator.ts:321-327 | `og:image` and `twitter:image` are present exactly when an image is set, and carry it |
| Generator.HeadFavicon | src/generator.ts:330-331 | both favicon links are present exactly when a favicon is set, and carry it |
| Generator.HeadTwitterCard | src/generator.ts:324 | the only `twitter:card` value is the card type's name |
| Generator.HeadStyle | src/generator.ts:336 | the only style block holds the stylesheet |
| Generator.LayoutHeadLine | src/generator.ts:308-337 | head line `k` is line `3 + k` of the document |
| Generator.LayoutBodyLine | src/generator.ts:337-347 | body line `i` is line 6 + (number of head lines) + `i` of the document |
| Generator.HeadLineInLayout | src/generator.ts:311-336 | the text of every head line is in the document |
| Generator.HeadItemInLayout | src/generator.ts:311-336 | every head item's markup is in the document |
| Generator.BodyLineInLayout | src/generator.ts:340-347 | the text of every body line is in the document |
| Generator.BodyLinesInOrder | src/generator.ts:340-347 | body lines keep their order in the document |
| Generator.OrderInBodyLine | src/generator.ts:340-347 | what comes in order inside a body line comes in order in the document |
| Generator.LayoutCancel | src/generator.ts:308-351 | documents that can differ only in the quick start's line are equal only if that line is |
| Generator.HeadItemInPage | src/generator.ts:308-337 | every head item's markup is in the page |
| Generator.PageTitle | src/generator.ts:313 | the head's only title item is the escaped agent name, and its markup is in the page |
| Generator.PageHeadEscaped | src/generator.ts:313-331 | nothing interpolated into a title, meta content or icon href can break out of it |
| Generator.PageMetaValues | src/generator.ts:314-326 | `description`, `og:title`, `og:description`, `og:url`, `twitter:title`, `twitter:description` each carry exactly the escaped description, name or URL |
| Generator.PageMetaImages | src/generator.ts:304-331 | image tags in the head are present exactly when `ogImage` is truthy, favicon links exactly when `favicon` is, each with the escaped value |
| Generator.PageTwitterCard | src/generator.ts:306-324 | the only `twitter:card` value in the head is the configured type, `summary_large_image` by default |
| Generator.StyleSheetInPage | src/generator.ts:336 | the selected theme's stylesheet is in the page |
| Generator.StyleInLayout | src/generator.ts:336 | the contents of the style block are in the document |
| Generator.PageBindsTheme | src/generator.ts:299-336 | every token of the theme the options select is bound in the page |
| Generator.EnabledLine | src/generator.ts:342-345 | an enabled section's line is its fragment |
| Generator.BlockInPage | src/generator.ts:340-347 | every enabled section's fragment is in the page |
| Generator.BlocksInOrder | src/generator.ts:340-347 | enabled sections appear in the order hero, quick start, symbols, skills, payment flow, agent card, custom sections, footer |
| Generator.OrderInBlockIsOrderInPage | src/generator.ts:340-347 | what comes in order inside an enabled section comes in order in the page |
| Generator.PageCustomSections | src/generator.ts:346 | custom sections keep their order in the page: an earlier section's escaped heading comes before a later one's |
| Generator.PageCustomContent | src/generator.ts:346 | every custom section's content, the last one's included, is in the page verbatim |
| Generator.PageCustomHeading | src/generator.ts:281-286 | every custom section's escaped title, in its `h2`, occurs in the page |
| Generator.OrderInQuickstart | src/generator.ts:341 | what comes in order inside the quick start comes in order in the page |
| Generator.PageEndpoint | src/generator.ts:341 | the escaped URL with `/a2a` appears twice in the page |
| Generator.SameBlock | src/generator.ts:340-347 | a section's line depends only on the theme, its flag, the custom sections and the footer |
| Generator.SamePage | src/generator.ts:298-352 | options that agree on theme, meta, custom sections, footer and shown sections give the same page |
| Generator.SameOptions | src/generator.ts:298-352 | the same for the generated page, quick start included |
| Generator.SymbolsDefaultToShown | src/generator.ts:301 | an unset `showSymbols` gives the same page as `true` |
| Generator.PaymentFlowDefaultToShown | src/generator.ts:300 | an unset `showPaymentFlow` gives the same page as `true` |
| Generator.AgentCardDefaultToShown | src/generator.ts:302 | an unset `showAgentCard` gives the same page as `true` |
| Generator.SameLines | src/generator.ts:308-351 | pages with the same head, script and section lines are equal |
| Generator.SymbolsOffLine | src/generator.ts:342 | with `showSymbols: false` each section line equals the one with the section shown by a renderer that returns nothing |
| Generator.SymbolsOffPage | src/generator.ts:342 | the same for the page around any quick start |
| Generator.SymbolsOffIsEmpty | src/generator.ts:342 | `showSymbols: false` leaves an empty symbols line and changes nothing else |
| Generator.PaymentFlowOffLine | src/generator.ts:344 | the same as `SymbolsOffLine` for the payment flow line |
| Generator.PaymentFlowOffPage | src/generator.ts:344 | the same as `SymbolsOffPage` for the payment flow |
| Generator.PaymentFlowOffIsEmpty | src/generator.ts:344 | `showPaymentFlow: false` leaves an empty payment flow line and changes nothing else |
| Generator.AgentCardOffLine | src/generator.ts:345 | the same as `SymbolsOffLine` for the agent card line |
| Generator.AgentCardOffPage | src/generator.ts:345 | the same as `SymbolsOffPage` for the agent card |
| Generator.AgentCardOffIsEmpty | src/generator.ts:345 | `showAgentCard: false` leaves an empty agent card line and changes nothing else |
| Generator.DefaultLayout | src/generator.ts:298-302 | with `options = {}` every section is shown, in the dark theme |
| Generator.DefaultHead | src/generator.ts:304-331 | with `options = {}` there is neither an `og:image` nor a `twitter:image` tag, no favicon link, and the card type is `summary_large_image` |
| Generator.QuickstartLine | src/generator.ts:341 | the quick start's line is the quick start |
| Generator.SameLinesApartFromQuickstart | src/generator.ts:340-347 | every section line other than the quick start's is independent of the quick start |
| Generator.PageTimestamp | src/generator.ts:341 | two pages for the same card and options are equal exactly when their timestamps are |

## Left out

- The section renderers other than the quick start are parameters of the model (fields of `Generator.Collaborators`): `renderHero`, `renderSymbols`, `renderSkills`, `renderPaymentFlow`, `renderAgentCardSection`, `renderFooter`. Their code is not part of this model. Only where their output is placed is modelled.
- The two preset themes (`darkTheme`, `lightTheme`) are also parameters. Their colour and font values are not part of this model.
- `generateStyles`: the CSS rulesets that interpolate no token are a parameter, `styleRules`, indexed by position. Only the token bindings and their places in the template are modelled.
- `generateCopyScript` returns a fixed script with no interpolation. The model passes it in as `copyScript` and inserts it where the page does. Its JavaScript behaviour (clipboard, the two-second label) is not modelled.
- `Date.now()` is a parameter `now`. The model does not say what the clock returns.
- Text.IntToDecimal: prints every integer in plain decimal. JavaScript switches to exponent notation from 10^21 on, which this model does not capture; `Date.now()`, milliseconds since 1970, stays far below that bound.
- Text.ReplaceAll: models `.replace` with a global regular expression of one literal character only. That is the only form the core uses, and its replacements contain no `$` patterns.
- Generator.TwitterCardOf: the option is typed `'summary' | 'summary_large_image'`, so the empty string the `||` would also replace is not representable. The type name is interpolated without escaping, as in the source; both names are markup-safe (`CardNameSafe`).
- Theme token values and custom section content are interpolated raw, as in the source. The model states this and claims no safety for them.
- The first skill example is inserted raw into the quick start's params (`quickstart.ts:15-17`). The URL and the method name are escaped in the quick start; the first example is not. The model follows the code and proves the example is verbatim (`QuickstartExampleVerbatim`).
- The model does not claim the page has exactly one `<title>`, `<style>` or `<script>`. Custom content and the other renderers' output are verbatim and can contain any markup. `HeadTitle` and `HeadStyle` are claims about the head items only.
- The head's fixed lines (charset, viewport, comments, `og:type`, font links) are an enumeration with their exact markup in `FixedMarkup`. The proofs reason about the items, not about that markup.
- The footer module, the HTTP middleware, the cache and the package entry point are outside the core.
- JavaScript strings are UTF-16; the model's strings are sequences of Dafny characters, so no surrogate pairs are modelled. The `⚡` of the quick start heading is one character.
