/** The presentation renderer (`create_powerpoint_file`, `generate_random_file_name`):
    a title slide and one content slide per slide record, added to a deck built
    from a template, then saved under a generated name. The template file, the
    clock, the random generator and the save are inputs. */
module Renderer {
  import opened Wrappers
  import opened Json
  import Strings

  /** A slide layout of the template: whether it has a title placeholder and a
      placeholder with index 1 (the subtitle or body). */
  datatype Layout = Layout(hasTitle: bool, hasBody: bool)

  /** A slide of the deck: the index of its layout and the texts assigned to its
      title and to placeholder 1; `None` leaves the layout's default. */
  datatype Slide = Slide(layout: nat, title: Option<string>, body: Option<string>)

  /** The configured template: its layouts, or the error loading it raises, and the
      configured indices of the title and content layouts (Python list indices,
      negative ones counting from the end). */
  datatype Template = Template(layouts: Result<seq<Layout>>, titleIndex: int, contentIndex: int)

  /** `random.randint(0, 10000)`. */
  type RandomSuffix = r: int | 0 <= r <= 10000

  /** What the outside world contributes to one render: the clock in nanoseconds,
      the random suffix, and the error saving the file raises, if any. */
  datatype Moment = Moment(timeNs: nat, rand: RandomSuffix, saveError: Option<string>)

  /** A written presentation file: where it is and the slides it holds. */
  datatype SavedDeck = SavedDeck(path: string, slides: seq<Slide>)

  const Caption := "Generated by Slides Assistant"

  /** The text of the `IndexError` python-pptx raises for a layout index out of range. */
  const LayoutIndexErrorDetail := "slide layout index out of range"
  // Texts of the other exceptions a render raises. Their exact wording is not part
  // of this model; each failure kind gets one fixed text.
  const NoPlaceholderDetail := "no placeholder on this slide with idx == 1"
  const NoTextDetail := "cannot set text: no title placeholder, or the value is not a string"
  const NotAListDetail := "slide_data is not a list"
  const NotAnObjectDetail := "slide record is not an object"
  const NotStringsDetail := "sequence item: expected str instance"

  /** Python's `xs[i]` on a list of length `n`: the position it denotes, if any. */
  function PyIndex(i: int, n: nat): (r: Option<nat>)
    ensures r.Some? <==> -(n as int) <= i < n
    ensures r.Some? ==> r.value == i % n
  {
    if 0 <= i < n then Some(i) else if -(n as int) <= i < 0 then Some(i + n) else None
  }

  /** `generate_random_file_name()`: the clock reading and the random suffix in
      decimal, joined by an underscore. The name holds exactly one underscore, and
      the digit runs on either side of it read back as the clock reading and the
      suffix. */
  function GenerateRandomFileName(timeNs: nat, rand: RandomSuffix): (name: string)
    ensures var parts := Strings.Split(name, '_');
      && |parts| == 2
      && Strings.AllDigits(parts[0]) && Strings.AllDigits(parts[1])
      && Strings.DecimalValue(parts[0]) == timeNs && Strings.DecimalValue(parts[1]) == rand
  {
    var clock, suffix := Strings.Decimal(timeNs), Strings.Decimal(rand);
    assert '_' !in clock && '_' !in suffix;
    Strings.SplitAt(clock, '_', suffix);
    Strings.SplitWithout(suffix, '_');
    Strings.DecimalRoundTrip(timeNs);
    Strings.DecimalRoundTrip(rand);
    clock + "_" + suffix
  }

  /** The path the deck is written to. */
  function OutputPath(outputFolder: string, moment: Moment): string
  {
    outputFolder + "/" + GenerateRandomFileName(moment.timeNs, moment.rand) + ".pptx"
  }

  /** Generated names are collision-free exactly as far as their inputs are: two
      names agree only when both the clock reading and the suffix agree. */
  lemma FileNameInjective(t1: nat, r1: RandomSuffix, t2: nat, r2: RandomSuffix)
    requires GenerateRandomFileName(t1, r1) == GenerateRandomFileName(t2, r2)
    ensures t1 == t2 && r1 == r2
  {
  }

  /** Two renders into the same folder write the same path only when they read the
      same clock value and drew the same suffix. */
  lemma OutputPathInjective(outputFolder: string, m1: Moment, m2: Moment)
    requires OutputPath(outputFolder, m1) == OutputPath(outputFolder, m2)
    ensures m1.timeNs == m2.timeNs && m1.rand == m2.rand
  {
    var n1 := GenerateRandomFileName(m1.timeNs, m1.rand);
    var n2 := GenerateRandomFileName(m2.timeNs, m2.rand);
    var prefix := outputFolder + "/";
    var p1, p2 := OutputPath(outputFolder, m1), OutputPath(outputFolder, m2);
    assert p1 == prefix + n1 + ".pptx" && p2 == prefix + n2 + ".pptx";
    assert |n1| == |n2|;
    assert n1 == p1[|prefix|..|prefix| + |n1|];
    assert n2 == p2[|prefix|..|prefix| + |n2|];
    FileNameInjective(m1.timeNs, m1.rand, m2.timeNs, m2.rand);
  }

  /** The deck being built (`Presentation` of the presentation library). */
  class Presentation {
    const layouts: seq<Layout>
    var slides: seq<Slide>

    /** `Presentation(template)`: a deck with the template's layouts and no slides. */
    constructor (layouts: seq<Layout>)
      ensures this.layouts == layouts && slides == []
    {
      this.layouts := layouts;
      slides := [];
    }

    /** `slides.add_slide(layout)`: a new last slide with every placeholder at its default. */
    method AddSlide(layout: nat)
      requires layout < |layouts|
      modifies this
      ensures slides == old(slides) + [Slide(layout, None, None)]
    {
      slides := slides + [Slide(layout, None, None)];
    }

    /** Assign the text of slide `k`'s title placeholder. */
    method SetTitle(k: nat, text: string)
      requires k < |slides|
      modifies this
      ensures slides == old(slides)[k := old(slides)[k].(title := Some(text))]
    {
      slides := slides[k := slides[k].(title := Some(text))];
    }

    /** Assign the text of slide `k`'s placeholder 1. */
    method SetBody(k: nat, text: string)
      requires k < |slides|
      modifies this
      ensures slides == old(slides)[k := old(slides)[k].(body := Some(text))]
    {
      slides := slides[k := slides[k].(body := Some(text))];
    }
  }

  /** The title slide, or the error setting it up raises. */
  function TitleSlide(layouts: seq<Layout>, titleIndex: int, topic: Json): Result<Slide>
  {
    match PyIndex(titleIndex, |layouts|)
    case None => Err(LayoutIndexErrorDetail)
    case Some(i) =>
      if !layouts[i].hasBody then Err(NoPlaceholderDetail)
      else if !layouts[i].hasTitle || !topic.JString? then Err(NoTextDetail)
      else Ok(Slide(i, Some(topic.str), Some(Caption)))
  }

  /** The content slide for one slide record, or the error building it raises. */
  function ContentSlide(layouts: seq<Layout>, contentIndex: int, record: Json): Result<Slide>
  {
    match PyIndex(contentIndex, |layouts|)
    case None => Err(LayoutIndexErrorDetail)
    case Some(i) =>
      if !record.JObject? then Err(NotAnObjectDetail)
      else
        var f := record.fields;
        if "title" in f && (!layouts[i].hasTitle || !f["title"].JString?) then Err(NoTextDetail)
        else if "content" in f && !IsStringArray(f["content"]) then Err(NotStringsDetail)
        else if "content" in f && !layouts[i].hasBody then Err(NoPlaceholderDetail)
        else
          Ok(Slide(i,
            if "title" in f then Some(f["title"].str) else None,
            if "content" in f then Some(Strings.Join("\n", StringItems(f["content"]))) else None))
  }

  /** The content slides for the records in order, or the first error. */
  function ContentSlides(layouts: seq<Layout>, contentIndex: int, records: seq<Json>): Result<seq<Slide>>
  {
    if |records| == 0 then Ok([])
    else
      match ContentSlides(layouts, contentIndex, records[..|records| - 1])
      case Err(e) => Err(e)
      case Ok(slides) =>
        match ContentSlide(layouts, contentIndex, records[|records| - 1])
        case Err(e) => Err(e)
        case Ok(s) => Ok(slides + [s])
  }

  /** What `create_powerpoint_file(topic, slide_data, output_folder)` writes, or
      the error it raises. */
  function Render(topic: Json, slideData: Json, outputFolder: string, template: Template, moment: Moment)
    : Result<SavedDeck>
  {
    match template.layouts
    case Err(e) => Err(e)
    case Ok(layouts) =>
      match TitleSlide(layouts, template.titleIndex, topic)
      case Err(e) => Err(e)
      case Ok(first) =>
        if !slideData.JArray? then Err(NotAListDetail)
        else
          match ContentSlides(layouts, template.contentIndex, slideData.items)
          case Err(e) => Err(e)
          case Ok(rest) =>
            if moment.saveError.Some? then Err(moment.saveError.value)
            else Ok(SavedDeck(OutputPath(outputFolder, moment), [first] + rest))
  }

  /** Once a record fails, the whole run of records fails with that error. */
  lemma {:induction false} ContentSlidesStop(layouts: seq<Layout>, contentIndex: int, records: seq<Json>, n: nat)
    requires n < |records|
    requires ContentSlides(layouts, contentIndex, records[..n]).Ok?
    requires ContentSlide(layouts, contentIndex, records[n]).Err?
    ensures ContentSlides(layouts, contentIndex, records)
         == Err(ContentSlide(layouts, contentIndex, records[n]).error)
  {
    if |records| == n + 1 {
      assert records[..|records| - 1] == records[..n];
    } else {
      var front := records[..|records| - 1];
      assert front[..n] == records[..n] && front[n] == records[n];
      ContentSlidesStop(layouts, contentIndex, front, n);
    }
  }

  /** The title-slide steps of `create_powerpoint_file`: add a slide on the title
      layout, then set its title to the topic and its subtitle to the caption. */
  method AddTitleSlide(prs: Presentation, titleIndex: int, topic: Json) returns (failure: Option<string>)
    requires prs.slides == []
    modifies prs
    ensures TitleSlide(prs.layouts, titleIndex, topic).Err? ==>
      failure == Some(TitleSlide(prs.layouts, titleIndex, topic).error)
    ensures TitleSlide(prs.layouts, titleIndex, topic).Ok? ==>
      failure == None && prs.slides == [TitleSlide(prs.layouts, titleIndex, topic).value]
    ensures failure.Some? ==>
      |prs.slides| == if PyIndex(titleIndex, |prs.layouts|).Some? then 1 else 0
  {
    var layouts := prs.layouts;
    var titleLayout := PyIndex(titleIndex, |layouts|);
    if titleLayout.None? {
      return Some(LayoutIndexErrorDetail);
    }
    prs.AddSlide(titleLayout.value);
    if !layouts[titleLayout.value].hasBody {
      return Some(NoPlaceholderDetail);
    }
    if !layouts[titleLayout.value].hasTitle || !topic.JString? {
      return Some(NoTextDetail);
    }
    prs.SetTitle(0, topic.str);
    prs.SetBody(0, Caption);
    failure := None;
  }

  /** One iteration of the loop over the slide records: add a slide on the content
      layout, then set the title and body the record gives. */
  method AddContentSlide(prs: Presentation, contentIndex: int, record: Json) returns (failure: Option<string>)
    modifies prs
    ensures ContentSlide(prs.layouts, contentIndex, record).Err? ==>
      failure == Some(ContentSlide(prs.layouts, contentIndex, record).error)
    ensures ContentSlide(prs.layouts, contentIndex, record).Ok? ==>
      failure == None && prs.slides == old(prs.slides) + [ContentSlide(prs.layouts, contentIndex, record).value]
    ensures failure.Some? ==>
      |prs.slides| == |old(prs.slides)| + if PyIndex(contentIndex, |prs.layouts|).Some? then 1 else 0
  {
    var layouts := prs.layouts;
    var contentLayout := PyIndex(contentIndex, |layouts|);
    if contentLayout.None? {
      return Some(LayoutIndexErrorDetail);
    }
    var layout := contentLayout.value;
    prs.AddSlide(layout);
    var k := |prs.slides| - 1;
    if !record.JObject? {
      return Some(NotAnObjectDetail);
    }
    if "title" in record.fields {
      var title := record.fields["title"];
      if !layouts[layout].hasTitle || !title.JString? {
        return Some(NoTextDetail);
      }
      prs.SetTitle(k, title.str);
    }
    if "content" in record.fields {
      var content := record.fields["content"];
      if !IsStringArray(content) {
        return Some(NotStringsDetail);
      }
      var body := Strings.Join("\n", StringItems(content));
      if !layouts[layout].hasBody {
        return Some(NoPlaceholderDetail);
      }
      prs.SetBody(k, body);
    }
    failure := None;
  }

  /** `create_powerpoint_file(topic, slide_data, output_folder)`. */
  method CreatePowerpointFile(topic: Json, slideData: Json, outputFolder: string, template: Template, moment: Moment)
    returns (r: Result<SavedDeck>)
    ensures r == Render(topic, slideData, outputFolder, template, moment)
  {
    if template.layouts.Err? {
      return Err(template.layouts.error);
    }
    var layouts := template.layouts.value;
    var prs := new Presentation(layouts);
    var failure := AddTitleSlide(prs, template.titleIndex, topic);
    if failure.Some? {
      return Err(failure.value);
    }
    if !slideData.JArray? {
      return Err(NotAListDetail);
    }
    var records := slideData.items;
    var i := 0;
    assert records[..0] == [] && prs.slides[1..] == [];
    while i < |records|
      invariant 0 <= i <= |records|
      invariant |prs.slides| == i + 1
      invariant TitleSlide(layouts, template.titleIndex, topic) == Ok(prs.slides[0])
      invariant ContentSlides(layouts, template.contentIndex, records[..i]) == Ok(prs.slides[1..])
    {
      assert records[..i + 1][..i] == records[..i];
      ghost var before := prs.slides;
      failure := AddContentSlide(prs, template.contentIndex, records[i]);
      if failure.Some? {
        ContentSlidesStop(layouts, template.contentIndex, records, i);
        return Err(failure.value);
      }
      assert prs.slides[1..] == before[1..] + [prs.slides[i + 1]];
      i := i + 1;
    }
    assert records[..|records|] == records;
    if moment.saveError.Some? {
      return Err(moment.saveError.value);
    }
    assert prs.slides == [prs.slides[0]] + prs.slides[1..];
    r := Ok(SavedDeck(OutputPath(outputFolder, moment), prs.slides));
  }

  /** Slide `s`, built on layout `layout`, is the one record `record` describes: its
      title is set exactly when the record has a "title", to that string, and its
      body is set exactly when the record has a "content", to the bullets joined by
      newlines; whatever the record leaves out stays at the layout's default. */
  ghost predicate DescribesSlide(record: Json, layout: nat, s: Slide)
  {
    && record.JObject?
    && s.layout == layout
    && (s.title.Some? <==> "title" in record.fields)
    && ("title" in record.fields ==> record.fields["title"] == JString(s.title.value))
    && (s.body.Some? <==> "content" in record.fields)
    && ("content" in record.fields ==>
          IsStringArray(record.fields["content"])
          && s.body.value == Strings.Join("\n", StringItems(record.fields["content"])))
  }

  /** A record the template can render: an object whose title, when present, is a
      string and whose content, when present, is a list of strings, each going to a
      placeholder the content layout has. */
  ghost predicate Renderable(record: Json, layout: Layout)
  {
    && record.JObject?
    && ("title" in record.fields ==> layout.hasTitle && record.fields["title"].JString?)
    && ("content" in record.fields ==> layout.hasBody && IsStringArray(record.fields["content"]))
  }

  /** A content slide that builds is the slide its record describes, on the
      configured content layout; and every renderable record builds. */
  lemma ContentSlideMeaning(layouts: seq<Layout>, contentIndex: int, record: Json)
    ensures ContentSlide(layouts, contentIndex, record).Ok? ==>
      && PyIndex(contentIndex, |layouts|).Some?
      && DescribesSlide(record, PyIndex(contentIndex, |layouts|).value, ContentSlide(layouts, contentIndex, record).value)
    ensures PyIndex(contentIndex, |layouts|).Some? && Renderable(record, layouts[PyIndex(contentIndex, |layouts|).value]) ==>
      ContentSlide(layouts, contentIndex, record).Ok?
  {
  }

  /** The content slides that build are one per record, in record order. */
  lemma {:induction false} ContentSlidesPointwise(layouts: seq<Layout>, contentIndex: int, records: seq<Json>)
    requires ContentSlides(layouts, contentIndex, records).Ok?
    ensures |ContentSlides(layouts, contentIndex, records).value| == |records|
    ensures forall k :: 0 <= k < |records| ==>
      ContentSlide(layouts, contentIndex, records[k]) == Ok(ContentSlides(layouts, contentIndex, records).value[k])
  {
    if |records| > 0 {
      var front := records[..|records| - 1];
      ContentSlidesPointwise(layouts, contentIndex, front);
      assert forall k :: 0 <= k < |front| ==> front[k] == records[k];
    }
  }

  /** Records that each build give content slides. */
  lemma {:induction false} ContentSlidesBuild(layouts: seq<Layout>, contentIndex: int, records: seq<Json>)
    requires forall k :: 0 <= k < |records| ==> ContentSlide(layouts, contentIndex, records[k]).Ok?
    ensures ContentSlides(layouts, contentIndex, records).Ok?
  {
    if |records| > 0 {
      var front := records[..|records| - 1];
      assert forall k :: 0 <= k < |front| ==> front[k] == records[k];
      ContentSlidesBuild(layouts, contentIndex, front);
    }
  }

  /** A saved deck of N records holds N + 1 slides: first the title slide on the
      title layout with the topic and the fixed caption, then, for each record in
      order, the slide it describes on the content layout; it is written to
      `<folder>/<generated name>.pptx`. */
  lemma RenderedDeck(topic: Json, slideData: Json, outputFolder: string, template: Template, moment: Moment)
    requires Render(topic, slideData, outputFolder, template, moment).Ok?
    ensures template.layouts.Ok? && topic.JString? && slideData.JArray? && moment.saveError.None?
    ensures
      var deck := Render(topic, slideData, outputFolder, template, moment).value;
      var layouts := template.layouts.value;
      && deck.path == outputFolder + "/" + GenerateRandomFileName(moment.timeNs, moment.rand) + ".pptx"
      && |deck.slides| == |slideData.items| + 1
      && PyIndex(template.titleIndex, |layouts|).Some?
      && deck.slides[0] == Slide(PyIndex(template.titleIndex, |layouts|).value, Some(topic.str), Some("Generated by Slides Assistant"))
      && (|slideData.items| > 0 ==> PyIndex(template.contentIndex, |layouts|).Some?)
      && forall k :: 0 <= k < |slideData.items| ==>
           DescribesSlide(slideData.items[k], PyIndex(template.contentIndex, |layouts|).value, deck.slides[k + 1])
  {
    var layouts := template.layouts.value;
    var records := slideData.items;
    var deck := Render(topic, slideData, outputFolder, template, moment).value;
    ContentSlidesPointwise(layouts, template.contentIndex, records);
    var rest := ContentSlides(layouts, template.contentIndex, records).value;
    assert deck.slides == [deck.slides[0]] + rest;
    forall k | 0 <= k < |records|
      ensures PyIndex(template.contentIndex, |layouts|).Some?
      ensures DescribesSlide(records[k], PyIndex(template.contentIndex, |layouts|).value, deck.slides[k + 1])
    {
      ContentSlideMeaning(layouts, template.contentIndex, records[k]);
      assert deck.slides[k + 1] == rest[k];
    }
  }

  /** A render succeeds whenever the template loads, its title layout exists and has
      both placeholders, the topic is a string, the slide data is a list of
      renderable records (with an existing content layout when there is one) and
      the file can be saved. */
  lemma RenderSucceeds(topic: Json, slideData: Json, outputFolder: string, template: Template, moment: Moment)
    requires template.layouts.Ok? && topic.JString? && slideData.JArray? && moment.saveError.None?
    requires PyIndex(template.titleIndex, |template.layouts.value|).Some?
    requires template.layouts.value[PyIndex(template.titleIndex, |template.layouts.value|).value] == Layout(true, true)
    requires |slideData.items| > 0 ==> PyIndex(template.contentIndex, |template.layouts.value|).Some?
    requires forall k :: 0 <= k < |slideData.items| ==>
      Renderable(slideData.items[k], template.layouts.value[PyIndex(template.contentIndex, |template.layouts.value|).value])
    ensures Render(topic, slideData, outputFolder, template, moment).Ok?
  {
    var layouts := template.layouts.value;
    forall k | 0 <= k < |slideData.items|
      ensures ContentSlide(layouts, template.contentIndex, slideData.items[k]).Ok?
    {
      ContentSlideMeaning(layouts, template.contentIndex, slideData.items[k]);
    }
    ContentSlidesBuild(layouts, template.contentIndex, slideData.items);
  }
}
