/** `renderCustomSections` of the generator: caller-supplied sections,
    title escaped, content inserted verbatim, in the order given. */
module CustomSections {
  import opened Wrappers
  import opened Text
  import opened Html

  datatype CustomSection = CustomSection(title: string, content: string)

  /** The heading of a custom section: its title, escaped. */
  function Heading(title: string): string {
    "<h2>" + EscapeHtml(title) + "</h2>"
  }

  const SectionOpen := "\n    <section class=\"custom-section\">\n      "
  const ContentOpen := "\n      <div class=\"custom-section-content\">"
  const SectionClose := "</div>\n    </section>"

  /** The fragment one section maps to. */
  function SectionFragment(section: CustomSection): string {
    SectionOpen + Heading(section.title) + ContentOpen + section.content + SectionClose
  }

  /** `sections.map(...)`: one fragment per section, in input order. */
  function Fragments(sections: seq<CustomSection>): (fragments: seq<string>)
    ensures |fragments| == |sections|
    ensures forall i :: 0 <= i < |sections| ==> fragments[i] == SectionFragment(sections[i])
  {
    seq(|sections|, i requires 0 <= i < |sections| => SectionFragment(sections[i]))
  }

  /** Nothing for an absent or empty list, otherwise the fragments joined
      with nothing between them. */
  function RenderCustomSections(sections: Option<seq<CustomSection>>): (r: string)
    ensures r == "" <==> sections.None? || sections.value == []
  {
    if sections.None? || |sections.value| == 0 then ""
    else
      var fragments := Fragments(sections.value);
      ConcatAt(fragments, 0);
      Concat(fragments)
  }

  /** Each section's content appears verbatim, unescaped. */
  lemma CustomContentVerbatim(sections: seq<CustomSection>, i: nat)
    requires i < |sections|
    ensures Occurs(sections[i].content, RenderCustomSections(Some(sections)))
  {
    var fragments := Fragments(sections);
    ConcatAt(fragments, i);
    var s := sections[i];
    OccursBetween(SectionOpen + Heading(s.title) + ContentOpen, s.content, SectionClose);
    assert fragments[i] == SectionOpen + Heading(s.title) + ContentOpen + s.content + SectionClose;
    OccursWithin(s.content, fragments[i], Concat(fragments[..i]), Concat(fragments[i + 1..]));
  }

  lemma HeadingInFragment(section: CustomSection)
    ensures Occurs(Heading(section.title), SectionFragment(section))
  {
    var tail := ContentOpen + section.content + SectionClose;
    OccursBetween(SectionOpen, Heading(section.title), tail);
    assert SectionOpen + Heading(section.title) + tail == SectionFragment(section);
  }

  /** Each section's escaped title reaches the output, in its `h2`. */
  lemma HeadingInOutput(sections: seq<CustomSection>, i: nat)
    requires i < |sections|
    ensures Occurs(Heading(sections[i].title), RenderCustomSections(Some(sections)))
  {
    HeadingInFragment(sections[i]);
    ConcatHasPart(Fragments(sections), i);
    OccursTransitive(Heading(sections[i].title), SectionFragment(sections[i]), RenderCustomSections(Some(sections)));
  }

  /** Sections keep their input order: the escaped title of an earlier
      section comes before that of a later one. */
  lemma CustomSectionsInOrder(sections: seq<CustomSection>, i: nat, j: nat)
    requires i < j < |sections|
    ensures OccursBefore(Heading(sections[i].title), Heading(sections[j].title), RenderCustomSections(Some(sections)))
  {
    HeadingInFragment(sections[i]);
    HeadingInFragment(sections[j]);
    ConcatOccursBefore(Fragments(sections), i, j, Heading(sections[i].title), Heading(sections[j].title));
  }
}
