/** The live preview: each template is a pure projection of the document into a
    sequence of blocks. The two templates are written out separately and are
    proved to share one shape that differs only in class names. */
module Preview {
  import opened Resume
  import opened Optional

  /** The class names a template gives its page, its title line, its contact
      line and its section headings. Entry blocks are styled alike in both. */
  datatype Layout = Layout(page: string, title: string, contact: string, heading: string)

  const ModernLayout: Layout :=
    Layout("p-8 bg-white text-black", "text-4xl font-bold mb-4", "",
           "text-2xl font-semibold mt-6 mb-2")

  const ClassicLayout: Layout :=
    Layout("p-8 bg-gray-100 text-black", "text-3xl font-bold text-center mb-4", "text-center",
           "text-xl font-semibold mt-6 mb-2 border-b border-gray-300")

  /** One displayed block: the name and contact lines, a section heading, or the
      block a single list entry yields. */
  datatype Block =
    | Header(titleClass: string, contactClass: string, name: string, email: string, phone: string)
    | Heading(headingClass: string, title: string)
    | EducationBlock(institution: string, degree: string, year: string)
    | WorkBlock(company: string, position: string, duration: string, description: string)
    | SkillItem(name: string)

  datatype View = View(pageClass: string, blocks: seq<Block>)

  /** The text a block displays, in reading order, separators included. */
  function Texts(b: Block): seq<string>
  {
    match b
    case Header(_, _, name, email, phone) => [name, email, " | ", phone]
    case Heading(_, title) => [title]
    case EducationBlock(institution, degree, year) => [institution, degree, ", ", year]
    case WorkBlock(company, position, duration, description) => [company, position, ", ", duration, description]
    case SkillItem(name) => [name]
  }

  /** Everything a sequence of blocks displays, block after block. */
  function Content(bs: seq<Block>): seq<string>
  {
    if |bs| == 0 then [] else Texts(bs[0]) + Content(bs[1..])
  }

  function EducationOf(e: Fields): Block
  {
    EducationBlock(Get(e, "institution"), Get(e, "degree"), Get(e, "year"))
  }

  function WorkOf(e: Fields): Block
  {
    WorkBlock(Get(e, "company"), Get(e, "position"), Get(e, "duration"), Get(e, "description"))
  }

  function SkillOf(e: Fields): Block
  {
    SkillItem(Get(e, "name"))
  }

  /** `xs.map(...)` for each list section: one block per entry, in list order. */
  function EducationBlocks(xs: seq<Fields>): seq<Block>
  {
    seq(|xs|, i requires 0 <= i < |xs| => EducationOf(xs[i]))
  }

  function WorkBlocks(xs: seq<Fields>): seq<Block>
  {
    seq(|xs|, i requires 0 <= i < |xs| => WorkOf(xs[i]))
  }

  function SkillBlocks(xs: seq<Fields>): seq<Block>
  {
    seq(|xs|, i requires 0 <= i < |xs| => SkillOf(xs[i]))
  }

  /** The header and the Education heading, which open every template. */
  function Opening(l: Layout, d: Document): seq<Block>
  {
    [ Header(l.title, l.contact, Get(d.personalInfo, "name"), Get(d.personalInfo, "email"),
             Get(d.personalInfo, "phone")),
      Heading(l.heading, "Education") ]
  }

  /** One template's markup: the header, then each heading followed by its entries. */
  function Render(l: Layout, d: Document): View
  {
    View(l.page,
      Opening(l, d)
      + EducationBlocks(d.education)
      + [Heading(l.heading, "Work Experience")]
      + WorkBlocks(d.workExperience)
      + [Heading(l.heading, "Skills")]
      + SkillBlocks(d.skills))
  }

  /** The `modern` template, block for block as its markup lays it out. */
  function ModernView(d: Document): View
  {
    View("p-8 bg-white text-black",
      [ Header("text-4xl font-bold mb-4", "", Get(d.personalInfo, "name"),
               Get(d.personalInfo, "email"), Get(d.personalInfo, "phone")),
        Heading("text-2xl font-semibold mt-6 mb-2", "Education") ]
      + EducationBlocks(d.education)
      + [Heading("text-2xl font-semibold mt-6 mb-2", "Work Experience")]
      + WorkBlocks(d.workExperience)
      + [Heading("text-2xl font-semibold mt-6 mb-2", "Skills")]
      + SkillBlocks(d.skills))
  }

  /** The `classic` template, block for block as its markup lays it out. */
  function ClassicView(d: Document): View
  {
    View("p-8 bg-gray-100 text-black",
      [ Header("text-3xl font-bold text-center mb-4", "text-center", Get(d.personalInfo, "name"),
               Get(d.personalInfo, "email"), Get(d.personalInfo, "phone")),
        Heading("text-xl font-semibold mt-6 mb-2 border-b border-gray-300", "Education") ]
      + EducationBlocks(d.education)
      + [Heading("text-xl font-semibold mt-6 mb-2 border-b border-gray-300", "Work Experience")]
      + WorkBlocks(d.workExperience)
      + [Heading("text-xl font-semibold mt-6 mb-2 border-b border-gray-300", "Skills")]
      + SkillBlocks(d.skills))
  }

  /** The `templates` object: exactly two keys. */
  function Templates(d: Document): map<string, View>
  {
    map["modern" := ModernView(d), "classic" := ClassicView(d)]
  }

  /** `templates[activeTemplate]`: an unknown key is `undefined`, with no fallback. */
  function Selected(d: Document, key: string): Option<View>
  {
    if key in Templates(d) then Some(Templates(d)[key]) else None
  }

  /** What the preview body displays for a template key; nothing for an unknown key. */
  function Displayed(d: Document, key: string): seq<string>
  {
    match Selected(d, key)
    case Some(v) => Content(v.blocks)
    case None => []
  }

  // ---------------------------------------------------------------------------
  // Reference definition of the displayed content, independent of blocks.

  function EducationTexts(xs: seq<Fields>): seq<string>
  {
    if |xs| == 0 then []
    else [Get(xs[0], "institution"), Get(xs[0], "degree"), ", ", Get(xs[0], "year")]
         + EducationTexts(xs[1..])
  }

  function WorkTexts(xs: seq<Fields>): seq<string>
  {
    if |xs| == 0 then []
    else [Get(xs[0], "company"), Get(xs[0], "position"), ", ", Get(xs[0], "duration"),
          Get(xs[0], "description")]
         + WorkTexts(xs[1..])
  }

  function SkillTexts(xs: seq<Fields>): seq<string>
  {
    if |xs| == 0 then [] else [Get(xs[0], "name")] + SkillTexts(xs[1..])
  }

  /** The resume's text in the fixed order: name, email, phone, then the
      education entries, the work entries and the skills, each under its heading. */
  function Outline(d: Document): seq<string>
  {
    [Get(d.personalInfo, "name"), Get(d.personalInfo, "email"), " | ", Get(d.personalInfo, "phone"),
     "Education"]
    + EducationTexts(d.education)
    + ["Work Experience"]
    + WorkTexts(d.workExperience)
    + ["Skills"]
    + SkillTexts(d.skills)
  }

  // ---------------------------------------------------------------------------
  // Properties.

  /** The content of a concatenation is the concatenation of the contents. */
  lemma {:induction false} ContentAppend(a: seq<Block>, b: seq<Block>)
    ensures Content(a + b) == Content(a) + Content(b)
    decreases |a|
  {
    if |a| == 0 {
      assert a + b == b;
    } else {
      assert (a + b)[1..] == a[1..] + b;
      ContentAppend(a[1..], b);
    }
  }

  lemma {:induction false} EducationContent(xs: seq<Fields>)
    ensures Content(EducationBlocks(xs)) == EducationTexts(xs)
    decreases |xs|
  {
    if |xs| > 0 {
      assert EducationBlocks(xs)[1..] == EducationBlocks(xs[1..]);
      EducationContent(xs[1..]);
    }
  }

  lemma {:induction false} WorkContent(xs: seq<Fields>)
    ensures Content(WorkBlocks(xs)) == WorkTexts(xs)
    decreases |xs|
  {
    if |xs| > 0 {
      assert WorkBlocks(xs)[1..] == WorkBlocks(xs[1..]);
      WorkContent(xs[1..]);
    }
  }

  lemma {:induction false} SkillContent(xs: seq<Fields>)
    ensures Content(SkillBlocks(xs)) == SkillTexts(xs)
    decreases |xs|
  {
    if |xs| > 0 {
      assert SkillBlocks(xs)[1..] == SkillBlocks(xs[1..]);
      SkillContent(xs[1..]);
    }
  }

  /** The header and the Education heading display the personal info, then the heading. */
  lemma OpeningContent(l: Layout, d: Document)
    ensures Content(Opening(l, d))
         == [Get(d.personalInfo, "name"), Get(d.personalInfo, "email"), " | ",
             Get(d.personalInfo, "phone"), "Education"]
  {
    var head := Opening(l, d);
    assert head[1..] == [head[1]] && head[1..][1..] == [];
    assert Content(head[1..]) == Texts(head[1]) + Content([]);
    assert Content(head) == Texts(head[0]) + Content(head[1..]);
  }

  /** A heading displays its title and nothing else. */
  lemma HeadingContent(c: string, title: string)
    ensures Content([Heading(c, title)]) == [title]
  {
    assert [Heading(c, title)][1..] == [];
  }

  /** Whatever the layout, a rendered document displays exactly its outline. */
  lemma RenderShowsOutline(l: Layout, d: Document)
    ensures Content(Render(l, d).blocks) == Outline(d)
  {
    var head := Opening(l, d);
    var e, w, s := EducationBlocks(d.education), WorkBlocks(d.workExperience), SkillBlocks(d.skills);
    var hw, hs := [Heading(l.heading, "Work Experience")], [Heading(l.heading, "Skills")];
    var o0 := [Get(d.personalInfo, "name"), Get(d.personalInfo, "email"), " | ",
               Get(d.personalInfo, "phone"), "Education"];
    var et, wt, st := EducationTexts(d.education), WorkTexts(d.workExperience), SkillTexts(d.skills);
    OpeningContent(l, d);
    HeadingContent(l.heading, "Work Experience");
    HeadingContent(l.heading, "Skills");
    EducationContent(d.education);
    WorkContent(d.workExperience);
    SkillContent(d.skills);
    var p1 := head + e;
    ContentAppend(head, e);
    assert Content(p1) == o0 + et;
    var p2 := p1 + hw;
    ContentAppend(p1, hw);
    assert Content(p2) == o0 + et + ["Work Experience"];
    var p3 := p2 + w;
    ContentAppend(p2, w);
    assert Content(p3) == o0 + et + ["Work Experience"] + wt;
    var p4 := p3 + hs;
    ContentAppend(p3, hs);
    assert Content(p4) == o0 + et + ["Work Experience"] + wt + ["Skills"];
    ContentAppend(p4, s);
    assert Content(p4 + s) == Outline(d);
    assert Render(l, d).blocks == p4 + s;
  }

  /** The modern and classic templates display the same text in the same order,
      though their markup differs. */
  lemma TemplatesShowSameContent(d: Document)
    ensures Displayed(d, "modern") == Displayed(d, "classic") == Outline(d)
    ensures Selected(d, "modern") != Selected(d, "classic")
  {
    TemplatesFollowLayouts(d);
    RenderShowsOutline(ModernLayout, d);
    RenderShowsOutline(ClassicLayout, d);
  }

  /** Each template's markup is the shared shape under its own class names. */
  lemma TemplatesFollowLayouts(d: Document)
    ensures ModernView(d) == Render(ModernLayout, d)
    ensures ClassicView(d) == Render(ClassicLayout, d)
  {
  }

  /** Block positions in a rendered view: the header, the Education heading, one
      block per education entry, the Work Experience heading, one block per work
      entry, the Skills heading and one item per skill, each list in its order.
      The headings are present even when their list is empty. */
  lemma RenderLayout(l: Layout, d: Document)
    ensures |Render(l, d).blocks| == 4 + |d.education| + |d.workExperience| + |d.skills|
    ensures Render(l, d).blocks[0]
         == Header(l.title, l.contact, Get(d.personalInfo, "name"), Get(d.personalInfo, "email"),
                   Get(d.personalInfo, "phone"))
    ensures Render(l, d).blocks[1] == Heading(l.heading, "Education")
    ensures forall i :: 0 <= i < |d.education| ==>
      Render(l, d).blocks[2 + i] == EducationOf(d.education[i])
    ensures Render(l, d).blocks[2 + |d.education|] == Heading(l.heading, "Work Experience")
    ensures forall i :: 0 <= i < |d.workExperience| ==>
      Render(l, d).blocks[3 + |d.education| + i] == WorkOf(d.workExperience[i])
    ensures Render(l, d).blocks[3 + |d.education| + |d.workExperience|] == Heading(l.heading, "Skills")
    ensures forall i :: 0 <= i < |d.skills| ==>
      Render(l, d).blocks[4 + |d.education| + |d.workExperience| + i] == SkillOf(d.skills[i])
  {
  }

  /** A key selects a template exactly when it is `modern` or `classic`; any other
      key displays nothing at all. */
  lemma UnknownTemplateShowsNothing(d: Document, key: string)
    ensures Selected(d, key).Some? <==> key == "modern" || key == "classic"
    ensures Displayed(d, key) == [] <==> key != "modern" && key != "classic"
  {
    if key == "modern" || key == "classic" {
      TemplatesShowSameContent(d);
    }
  }
}
