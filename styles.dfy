/** Theme resolution and the stylesheet that binds a theme's tokens
    (`resolveTheme` and `generateStyles` of the generator). */
module Styles {
  import opened Types
  import opened Text

  /** The `theme` option: absent, one of the two preset names, or an explicit theme. */
  datatype ThemeChoice = Absent | Dark | Light | Custom(theme: Theme)

  /** Absent and `'dark'` give the dark preset, `'light'` the light one, and
      an explicit theme is passed through untouched. */
  function ResolveTheme(choice: ThemeChoice, darkTheme: Theme, lightTheme: Theme): (t: Theme)
    ensures t == darkTheme || t == lightTheme || choice == Custom(t)
  {
    match choice
    case Absent => darkTheme
    case Dark => darkTheme
    case Light => lightTheme
    case Custom(theme) => theme
  }

  lemma ResolveThemeCases(darkTheme: Theme, lightTheme: Theme, custom: Theme)
    ensures ResolveTheme(Absent, darkTheme, lightTheme) == ResolveTheme(Dark, darkTheme, lightTheme) == darkTheme
    ensures ResolveTheme(Light, darkTheme, lightTheme) == lightTheme
    ensures ResolveTheme(Custom(custom), darkTheme, lightTheme) == custom
  {
  }

  /** The eleven tokens of a theme: eight colours and three font stacks. */
  datatype Token =
    | Bg | Surface | Border | TextColor | TextDim | Accent | AccentDim | CodeBg
    | BodyFont | HeadingFont | MonoFont
  {
    predicate IsColor() {
      !(BodyFont? || HeadingFont? || MonoFont?)
    }
  }

  function TokenValue(theme: Theme, k: Token): string {
    match k
    case Bg => theme.colors.bg
    case Surface => theme.colors.surface
    case Border => theme.colors.border
    case TextColor => theme.colors.text
    case TextDim => theme.colors.textDim
    case Accent => theme.colors.accent
    case AccentDim => theme.colors.accentDim
    case CodeBg => theme.colors.codeBg
    case BodyFont => theme.fonts.body
    case HeadingFont => theme.fonts.heading
    case MonoFont => theme.fonts.mono
  }

  /** The CSS custom property a colour token is bound to in `:root`. */
  function CssVariable(k: Token): string
    requires k.IsColor()
  {
    match k
    case Bg => "--bg"
    case Surface => "--surface"
    case Border => "--border"
    case TextColor => "--text"
    case TextDim => "--text-dim"
    case Accent => "--accent"
    case AccentDim => "--accent-dim"
    case CodeBg => "--code-bg"
  }

  /** The declaration that binds one token: a custom property for a
      colour, a `font-family` for a font stack. */
  function Declaration(theme: Theme, k: Token): string {
    if k.IsColor() then CssVariable(k) + ": " + TokenValue(theme, k) + ";"
    else "font-family: " + TokenValue(theme, k) + ";"
  }

  /** A piece of the stylesheet template: the opening of the `:root`
      block, the line break between its declarations, its closing brace,
      one of the fixed layout rulesets (whose text is not part of this
      model), or a token binding. */
  datatype Piece = RootOpen | Break | RootClose | Rules(block: nat) | Bind(token: Token)

  /** The `:root` block of `generateStyles`, binding the eight colours. */
  const RootTemplate: seq<Piece> := [
    RootOpen, Bind(Bg),
    Break, Bind(Surface),
    Break, Bind(Border),
    Break, Bind(TextColor),
    Break, Bind(TextDim),
    Break, Bind(Accent),
    Break, Bind(AccentDim),
    Break, Bind(CodeBg),
    RootClose
  ]

  /** The layout rules after the `:root` block, with the body font in
      `body`, the heading font in `h1`, `h2`, `h3` and the mono font in
      `pre`, `code`, `.symbol` and `.path`. */
  const RulesTemplate: seq<Piece> := [
    Rules(0), Bind(BodyFont),
    Rules(1), Bind(HeadingFont),
    Rules(2), Bind(HeadingFont),
    Rules(3), Bind(HeadingFont),
    Rules(4), Bind(MonoFont),
    Rules(5), Bind(MonoFont),
    Rules(6), Bind(MonoFont),
    Rules(7), Bind(MonoFont),
    Rules(8)
  ]

  /** The template of `generateStyles`. */
  const StyleTemplate: seq<Piece> := RootTemplate + RulesTemplate

  function RenderPiece(p: Piece, theme: Theme, rules: nat -> string): string {
    match p
    case RootOpen => "\n    :root {\n      "
    case Break => "\n      "
    case RootClose => "\n    }"
    case Rules(block) => rules(block)
    case Bind(k) => Declaration(theme, k)
  }

  function Fill(pieces: seq<Piece>, theme: Theme, rules: nat -> string): string {
    if pieces == [] then "" else RenderPiece(pieces[0], theme, rules) + Fill(pieces[1..], theme, rules)
  }

  /** The style block for a theme; `rules` gives the fixed layout rulesets. */
  function GenerateStyles(theme: Theme, rules: nat -> string): string {
    Fill(StyleTemplate, theme, rules)
  }

  lemma {:induction false} FillHasPiece(pieces: seq<Piece>, theme: Theme, rules: nat -> string, k: nat)
    requires k < |pieces|
    ensures Occurs(RenderPiece(pieces[k], theme, rules), Fill(pieces, theme, rules))
  {
    var head := RenderPiece(pieces[0], theme, rules);
    var tail := Fill(pieces[1..], theme, rules);
    assert Fill(pieces, theme, rules) == head + tail;
    if k == 0 {
      OccursAtStart(head, tail);
    } else {
      FillHasPiece(pieces[1..], theme, rules, k - 1);
      OccursInSuffix(RenderPiece(pieces[k], theme, rules), head, tail);
    }
  }

  lemma {:induction false} FillAppend(a: seq<Piece>, b: seq<Piece>, theme: Theme, rules: nat -> string)
    ensures Fill(a + b, theme, rules) == Fill(a, theme, rules) + Fill(b, theme, rules)
  {
    if a == [] {
      assert a + b == b;
    } else {
      assert (a + b)[1..] == a[1..] + b;
      FillAppend(a[1..], b, theme, rules);
    }
  }

  /** The text of the `:root` block for a theme. */
  function RootBlock(theme: Theme, rules: nat -> string): string {
    Fill(RootTemplate, theme, rules)
  }

  /** The stylesheet opens with the `:root` block and the layout rules follow it. */
  lemma StylesOpenWithRoot(theme: Theme, rules: nat -> string)
    ensures GenerateStyles(theme, rules) == RootBlock(theme, rules) + Fill(RulesTemplate, theme, rules)
  {
    FillAppend(RootTemplate, RulesTemplate, theme, rules);
  }

  /** The `:root` block starts with its opening and ends with its only
      closing brace, so everything bound in it is inside the block. */
  lemma RootBlockDelimited()
    ensures RootTemplate[0] == RootOpen && RootTemplate[|RootTemplate| - 1] == RootClose
    ensures forall i :: 0 <= i < |RootTemplate| - 1 ==> RootTemplate[i] != RootClose
  {
  }

  /** The place in the `:root` block where a colour is bound, strictly
      between its opening and its closing. */
  function ColorPosition(k: Token): (i: nat)
    requires k.IsColor()
    ensures 0 < i < |RootTemplate| - 1 && RootTemplate[i] == Bind(k)
  {
    match k
    case Bg => 1 case Surface => 3 case Border => 5 case TextColor => 7
    case TextDim => 9 case Accent => 11 case AccentDim => 13 case CodeBg => 15
  }

  /** The place in the layout rules where a font stack is first bound. */
  function FontPosition(k: Token): (i: nat)
    requires !k.IsColor()
    ensures i < |RulesTemplate| && RulesTemplate[i] == Bind(k)
  {
    match k
    case BodyFont => 1 case HeadingFont => 3 case MonoFont => 9
  }

  /** Every one of the eleven tokens is bound in the stylesheet: each colour
      to its custom property inside the `:root` block, each font stack to a
      `font-family` declaration in the rules after it. */
  lemma StylesBindEveryToken(theme: Theme, rules: nat -> string, k: Token)
    ensures Occurs(Declaration(theme, k), GenerateStyles(theme, rules))
    ensures k.IsColor() ==> Occurs(CssVariable(k) + ": " + TokenValue(theme, k) + ";", RootBlock(theme, rules))
    ensures !k.IsColor() ==> Occurs("font-family: " + TokenValue(theme, k) + ";", Fill(RulesTemplate, theme, rules))
  {
    StylesOpenWithRoot(theme, rules);
    var root := RootBlock(theme, rules);
    var after := Fill(RulesTemplate, theme, rules);
    if k.IsColor() {
      FillHasPiece(RootTemplate, theme, rules, ColorPosition(k));
      OccursInPrefix(Declaration(theme, k), root, after);
    } else {
      FillHasPiece(RulesTemplate, theme, rules, FontPosition(k));
      OccursInSuffix(Declaration(theme, k), root, after);
    }
  }
}
