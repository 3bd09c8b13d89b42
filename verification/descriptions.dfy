/** Structured tool descriptions ("when to use", "when not to use",
    examples), their prompt text, and the module-level registry they are
    kept in, keyed by tool name in registration order. */
module Descriptions {
  import opened Common

  datatype ToolDescription = ToolDescription(
    name: string,
    description: string,
    whenToUse: seq<string>,
    whenNotToUse: seq<string>,
    examples: seq<string>)

  /** `ToolDescription(...)`: examples default to the empty list
      (`examples or []`). */
  function MakeToolDescription(name: string, description: string, whenToUse: seq<string>,
                               whenNotToUse: seq<string>, examples: Option<seq<string>>): (d: ToolDescription)
    ensures d.name == name && d.description == description
    ensures d.whenToUse == whenToUse && d.whenNotToUse == whenNotToUse
    ensures examples.None? ==> d.examples == []
    ensures examples.Some? ==> d.examples == examples.value
  {
    ToolDescription(name, description, whenToUse, whenNotToUse, if examples.Some? then examples.value else [])
  }

  const WhenToUseHeading: string := "**何时使用:**"
  const WhenNotToUseHeading: string := "**何时不使用:**"
  const ExamplesHeading: string := "**示例:**"

  /** One "- item" line per item, in order. */
  function Bullets(items: seq<string>): (lines: seq<string>)
    ensures |lines| == |items|
    ensures forall i :: 0 <= i < |items| ==> lines[i] == "- " + items[i]
  {
    seq(|items|, i requires 0 <= i < |items| => "- " + items[i])
  }

  /** The lines up to the end of the "when not to use" items. */
  function HeadLines(d: ToolDescription): seq<string>
  {
    ["## " + d.name, d.description, "", WhenToUseHeading] + Bullets(d.whenToUse)
    + ["", WhenNotToUseHeading] + Bullets(d.whenNotToUse)
  }

  /** The lines `to_prompt` joins: the title, the description, a blank
      line, the "when to use" items, a blank line, the "when not to use"
      items and, only when there are examples, a blank line and the
      examples. */
  function PromptLines(d: ToolDescription): seq<string>
  {
    HeadLines(d) + (if d.examples != [] then ["", ExamplesHeading] + Bullets(d.examples) else [])
  }

  /** The first part of the prompt: title, description, a blank line, then
      the "when to use" heading and items. */
  lemma PromptHeadLayout(d: ToolDescription)
    ensures var lines := PromptLines(d);
      var u := |d.whenToUse|;
      |lines| >= 6 + u
      && lines[0] == "## " + d.name && lines[1] == d.description && lines[2] == ""
      && lines[3] == WhenToUseHeading
      && (forall i :: 0 <= i < u ==> lines[4 + i] == "- " + d.whenToUse[i])
      && lines[4 + u] == "" && lines[5 + u] == WhenNotToUseHeading
  {
    var a := ["## " + d.name, d.description, "", WhenToUseHeading] + Bullets(d.whenToUse);
    var b := a + ["", WhenNotToUseHeading];
    var rest := Bullets(d.whenNotToUse) + (if d.examples != [] then ["", ExamplesHeading] + Bullets(d.examples) else []);
    assert PromptLines(d) == b + rest;
    forall i | 0 <= i < |d.whenToUse|
      ensures PromptLines(d)[4 + i] == "- " + d.whenToUse[i]
    {
      assert PromptLines(d)[4 + i] == b[4 + i] == a[4 + i];
    }
  }

  /** The rest of the prompt: the "when not to use" items and, only when
      there are examples, a blank line, the examples heading and the
      examples; nothing follows. */
  lemma PromptTailLayout(d: ToolDescription)
    ensures var lines := PromptLines(d);
      var k := 6 + |d.whenToUse|;
      var n := |d.whenNotToUse|;
      |lines| == k + n + (if d.examples != [] then 2 + |d.examples| else 0)
      && (forall i :: 0 <= i < n ==> lines[k + i] == "- " + d.whenNotToUse[i])
      && (d.examples != [] ==>
            lines[k + n] == "" && lines[k + n + 1] == ExamplesHeading
            && forall i :: 0 <= i < |d.examples| ==> lines[k + n + 2 + i] == "- " + d.examples[i])
  {
    NotToUseLayout(d);
    if d.examples != [] {
      ExamplesLayout(d);
    }
  }

  /** The "when not to use" items follow the two headings. */
  lemma NotToUseLayout(d: ToolDescription)
    ensures var lines := PromptLines(d);
      var k := 6 + |d.whenToUse|;
      |HeadLines(d)| == k + |d.whenNotToUse|
      && |lines| == |HeadLines(d)| + (if d.examples != [] then 2 + |d.examples| else 0)
      && forall i :: 0 <= i < |d.whenNotToUse| ==> lines[k + i] == "- " + d.whenNotToUse[i]
  {
    var c := HeadLines(d);
    var tail := if d.examples != [] then ["", ExamplesHeading] + Bullets(d.examples) else [];
    assert PromptLines(d) == c + tail;
    var k := 6 + |d.whenToUse|;
    forall i | 0 <= i < |d.whenNotToUse|
      ensures PromptLines(d)[k + i] == "- " + d.whenNotToUse[i]
    {
      assert PromptLines(d)[k + i] == c[k + i];
    }
  }

  /** With examples, a blank line, the examples heading and the examples
      end the prompt. */
  lemma ExamplesLayout(d: ToolDescription)
    requires d.examples != []
    ensures var lines := PromptLines(d);
      var m := |HeadLines(d)|;
      |lines| == m + 2 + |d.examples|
      && lines[m] == "" && lines[m + 1] == ExamplesHeading
      && forall i :: 0 <= i < |d.examples| ==> lines[m + 2 + i] == "- " + d.examples[i]
  {
    var c := HeadLines(d);
    var tail := ["", ExamplesHeading] + Bullets(d.examples);
    assert PromptLines(d) == c + tail;
    forall i | 0 <= i < |d.examples|
      ensures PromptLines(d)[|c| + 2 + i] == "- " + d.examples[i]
    {
      assert PromptLines(d)[|c| + 2 + i] == tail[2 + i];
    }
  }

  /** Append one bullet line per item (the `for item in ...` loops). */
  method AppendBullets(sections: seq<string>, items: seq<string>) returns (r: seq<string>)
    ensures r == sections + Bullets(items)
  {
    r := sections;
    var i := 0;
    while i < |items|
      invariant 0 <= i <= |items|
      invariant r == sections + Bullets(items[..i])
    {
      assert Bullets(items[..i + 1]) == Bullets(items[..i]) + ["- " + items[i]];
      r := r + ["- " + items[i]];
      i := i + 1;
    }
    assert items[..i] == items;
  }

  /** `to_prompt` */
  method ToPrompt(d: ToolDescription) returns (text: string)
    ensures text == Join(PromptLines(d), "\n")
  {
    var sections := ["## " + d.name, d.description, "", WhenToUseHeading];
    sections := AppendBullets(sections, d.whenToUse);
    sections := sections + ["", WhenNotToUseHeading];
    sections := AppendBullets(sections, d.whenNotToUse);
    ghost var beforeExamples := sections;
    if d.examples != [] {
      sections := sections + ["", ExamplesHeading];
      sections := AppendBullets(sections, d.examples);
      assert sections == beforeExamples + (["", ExamplesHeading] + Bullets(d.examples));
    } else {
      assert sections == beforeExamples + [];
    }
    text := Join(sections, "\n");
  }

  // ---------------------------------------------------------------------
  // The registry
  // ---------------------------------------------------------------------

  const NoDescriptions: string := "暂无工具描述"

  /** The text of the registered descriptions in registration order, each
      prompt followed by an empty section. */
  function Sections(order: seq<string>, entries: map<string, ToolDescription>): (r: seq<string>)
    requires forall k :: k in order ==> k in entries
    ensures |r| == 2 * |order|
  {
    if order == [] then []
    else
      var last := order[|order| - 1];
      Sections(order[..|order| - 1], entries) + [Join(PromptLines(entries[last]), "\n"), ""]
  }

  /** `TOOL_DESCRIPTIONS`: a dict, so keys keep the position of their first
      registration. */
  class DescriptionRegistry {
    var order: seq<string>
    var entries: map<string, ToolDescription>

    ghost predicate Valid()
      reads this
    {
      (forall k :: k in order <==> k in entries)
      && (forall i, j :: 0 <= i < j < |order| ==> order[i] != order[j])
      && (forall k :: k in entries ==> entries[k].name == k)
      && |order| == |entries|
    }

    constructor ()
      ensures Valid() && order == [] && entries == map[]
    {
      order := [];
      entries := map[];
    }

    /** `register_tool_description`: store under the tool's name,
        replacing an earlier entry of that name in its place. */
    method Register(d: ToolDescription)
      requires Valid()
      modifies this
      ensures Valid()
      ensures entries == old(entries)[d.name := d]
      ensures d.name in old(entries) ==> order == old(order)
      ensures d.name !in old(entries) ==> order == old(order) + [d.name]
    {
      if d.name !in entries {
        order := order + [d.name];
      }
      entries := entries[d.name := d];
    }

    /** `get_tool_description`: the registered entry, or None. */
    function Get(name: string): (r: Option<ToolDescription>)
      requires Valid()
      reads this
      ensures r.Some? <==> name in order
      ensures r.Some? ==> r.value.name == name && r.value == entries[name]
    {
      if name in entries then Some(entries[name]) else None
    }

    /** `get_all_tool_descriptions` */
    method GetAll() returns (text: string)
      requires Valid()
      ensures order == [] ==> text == NoDescriptions
      ensures order != [] ==> text == Join(Sections(order, entries), "\n")
    {
      if entries == map[] {
        return NoDescriptions;
      }
      var sections := PromptSections();
      text := Join(sections, "\n");
    }

    /** The loop of `get_all_tool_descriptions`: each prompt, then an
        empty section. */
    method PromptSections() returns (sections: seq<string>)
      requires Valid()
      ensures sections == Sections(order, entries)
    {
      sections := [];
      var i := 0;
      while i < |order|
        invariant 0 <= i <= |order|
        invariant sections == Sections(order[..i], entries)
      {
        var prompt := ToPrompt(entries[order[i]]);
        assert order[..i + 1][..i] == order[..i];
        sections := sections + [prompt, ""];
        i := i + 1;
      }
      assert order[..i] == order;
    }
  }

  /** The registry text ends with a newline: every prompt, the last one
      included, is followed by an empty section. */
  lemma AllDescriptionsEndWithNewline(order: seq<string>, entries: map<string, ToolDescription>)
    requires order != [] && forall k :: k in order ==> k in entries
    ensures var text := Join(Sections(order, entries), "\n");
      |text| > 0 && text[|text| - 1] == '\n'
  {
    var init := Sections(order[..|order| - 1], entries);
    var prompt := Join(PromptLines(entries[order[|order| - 1]]), "\n");
    assert Sections(order, entries) == (init + [prompt]) + [""];
    JoinSnoc(init + [prompt], "", "\n");
  }

  lemma {:induction false} JoinSnoc(parts: seq<string>, x: string, sep: string)
    requires parts != []
    ensures Join(parts + [x], sep) == Join(parts, sep) + sep + x
  {
    if |parts| == 1 {
      assert (parts + [x])[1..] == [x];
    } else {
      assert (parts + [x])[1..] == parts[1..] + [x];
      JoinSnoc(parts[1..], x, sep);
    }
  }
}
