/** The inputs every renderer reads: the agent card and the theme. */
module Types {
  import opened Wrappers

  /** One capability of the agent. `examples` is optional in the card
      (`skills[0]?.examples?.[0]`). */
  datatype Skill = Skill(id: string, examples: Option<seq<string>>)

  /** The agent card. `details` stands for the fields read only by the
      renderers outside this model (pricing, supported symbols, ...). */
  datatype AgentCard = AgentCard(
    name: string,
    description: string,
    url: string,
    skills: seq<Skill>,
    details: map<string, string>)

  /** The eight colour tokens of a theme. */
  datatype Colors = Colors(
    bg: string, surface: string, border: string, text: string,
    textDim: string, accent: string, accentDim: string, codeBg: string)

  /** The three font stacks of a theme. */
  datatype Fonts = Fonts(body: string, heading: string, mono: string)

  datatype Theme = Theme(colors: Colors, fonts: Fonts)
}
