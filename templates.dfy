/** The eight fixed thread templates of src/templates.py.  The fourth part
    of each holds one `{tag}` placeholder; it is kept as the text before and
    the text after it. */
module Templates {
  import opened Text

  datatype Template = Template(t2: string, t3: string, t4Head: string, t4Tail: string)

  const All: seq<Template> := [
    Template("\U{2705} Steps:\n1) Open official link\n2) Read quests/requirements\n3) Complete tasks\n4) Track snapshot/claim",
             "\U{1F6E1}\U{FE0F} Safety:\n\U{2022} Never share seed/private key\n\U{2022} Never pay 'fees'\n\U{2022} Avoid fake domains",
             "If you found this useful: bookmark + follow ", " for VERIFIED drops."),
    Template("Quick guide:\n1) Official link\n2) Quests / points\n3) Do tasks\n4) Save this thread for updates",
             "Safety check:\n\U{2022} Domain must match official\n\U{2022} No upfront payments\n\U{2022} Separate wallet recommended",
             "More verified intel daily \U{2192} ", ""),
    Template("Action list:\n1) Visit official site\n2) Find campaign page\n3) Complete quests\n4) Watch for snapshot/claim",
             "Do NOT:\n\U{2022} Share seed/private key\n\U{2022} Click lookalike domains\n\U{2022} Pay activation fees",
             "Bookmark + follow ", "."),
    Template("What to do:\n1) Official link\n2) Confirm tasks\n3) Collect points\n4) Track deadlines",
             "Risk control:\n\U{2022} Use burner wallet\n\U{2022} Verify X profile\n\U{2022} Avoid DMs & fees",
             "Verified drops only. Follow ", "."),
    Template("Checklist:\n1) Official link\n2) Docs/blog confirmation\n3) Do quests\n4) Monitor claim updates",
             "Security:\n\U{2022} Never sign weird approvals\n\U{2022} Revoke permissions later\n\U{2022} No seed phrases ever",
             "Follow ", " for daily verified threads."),
    Template("Steps (fast):\n1) Open official\n2) Complete campaign tasks\n3) Track snapshot\n4) Wait for claim info",
             "Safety (fast):\n\U{2022} No fees\n\U{2022} No seeds\n\U{2022} Correct domain only",
             "Save + follow ", "."),
    Template("How to farm:\n1) Official link\n2) Join quests\n3) Do tasks\n4) Keep notes for claim",
             "Safety notes:\n\U{2022} Separate wallet\n\U{2022} Small tx sizes\n\U{2022} Verify domain",
             "More intel \U{2192} ", ""),
    Template("Do this:\n1) Use official link\n2) Read requirements\n3) Complete tasks\n4) Track updates",
             "Avoid scams:\n\U{2022} No upfront payments\n\U{2022} No seed/private key\n\U{2022} No fake domains",
             "Follow ", " + bookmark.")
  ]

  /** `t["t4"].format(tag=tag)`. */
  function FillTag(t: Template, tag: string): string { t.t4Head + tag + t.t4Tail }

  /** `pick_template(rotation)`.  The random choice is an input: `draw` stands
      for the index `random.choice` picks. */
  function Pick(rotation: bool, draw: nat): (t: Template)
    ensures t in All
    ensures !rotation ==> t == All[0]
  {
    if rotation then All[draw % |All|] else All[0]
  }

  /** Every template's second and third parts, and its fourth part around the
      tag, fit well inside one post. */
  lemma TemplatesShort(t: Template)
    requires t in All
    ensures |t.t2| <= 120 && |t.t3| <= 120 && |t.t4Head| + |t.t4Tail| <= 80
    ensures |t.t4Head| > 0 && !IsSpace(t.t4Head[0])
  {
  }
}
