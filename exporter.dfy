/** The `JsonExporter` component's data path: which value is exported, and how
    a slides array is turned into the unstyled interchange format
    (`transformSlides`). */
module Exporter {
  import opened Wrappers
  import opened JsonValues
  import opened Sequences
  import ImportHook

  /** An element survives export when `element?.text` is a string that is not blank. */
  predicate HasText(element: Json)
  {
    match Field(element, "text")
    case Some(JString(text)) => |Trim(text)| > 0
    case _ => false
  }

  function Members(v: Json): map<string, Json>
  {
    if v.JObject? then v.members else map[]
  }

  /** `{ type, text }` built from an element: every other member is dropped,
      and a member the element lacks is `undefined`, which JSON omits. */
  function StripElement(element: Json): (r: Json)
    ensures r.JObject? && r.members.Keys <= {"type", "text"}
    ensures Field(r, "type") == Field(element, "type") && Field(r, "text") == Field(element, "text")
  {
    JObject(map k | k in Members(element) && (k == "type" || k == "text") :: Members(element)[k])
  }

  /** The elements a slide exports with: those with text, stripped. */
  function ExportedElements(elements: seq<Json>): seq<Json>
  {
    var valid := Filter(HasText, elements);
    seq(|valid|, i requires 0 <= i < |valid| => StripElement(valid[i]))
  }

  /** The `.map` callback: `null` (None) when the slide's `elements` is not an
      array or keeps no element, otherwise `{ elements }`. */
  function TransformSlide(slide: Json): Option<Json>
  {
    match Field(slide, "elements")
    case Some(JArray(elements)) =>
      if |ExportedElements(elements)| == 0 then None
      else Some(JObject(map["elements" := JArray(ExportedElements(elements))]))
    case _ => None
  }

  /** The `.map(...).filter(slide => slide !== null)` chain. */
  function Transformed(slides: seq<Json>): seq<Json>
  {
    MapNonNull(TransformSlide, slides)
  }

  /** The trailing-trim test: `elements` is a non-empty array with an element
      that has text. (Only transformed slides reach it, and their `elements` is
      always an array.) */
  predicate HasContent(slide: Json)
  {
    match Field(slide, "elements")
    case Some(JArray(elements)) => |elements| > 0 && exists e | e in elements :: HasText(e)
    case _ => false
  }

  /** Trailing slides without content removed, scanning from the end and
      stopping at the first slide with content. */
  function TrimTrailing(slides: seq<Json>): seq<Json>
  {
    if slides == [] then []
    else if HasContent(slides[|slides| - 1]) then slides
    else TrimTrailing(slides[..|slides| - 1])
  }

  /** The shape of an exported element: exactly `type` (when the source had
      one) and a non-blank `text` string. */
  predicate IsExportedElement(element: Json)
  {
    element.JObject? && element.members.Keys <= {"type", "text"} && HasText(element)
  }

  /** The shape of an exported slide: only a non-empty `elements` array of
      exported elements. */
  predicate IsExportedSlide(slide: Json)
  {
    && slide.JObject?
    && slide.members.Keys == {"elements"}
    && slide.members["elements"].JArray?
    && |slide.members["elements"].items| > 0
    && forall e | e in slide.members["elements"].items :: IsExportedElement(e)
  }

  /** `isSlidesExport`: a non-empty array whose first item has a truthy `elements`. */
  predicate IsSlidesExport(values: Json)
  {
    values.JArray? && |values.items| > 0 && TruthyOpt(Field(values.items[0], "elements"))
  }

  /** `exportData`: the transformed slides for a slides export, the value itself otherwise. */
  function Exported(values: Json): Json
  {
    if IsSlidesExport(values) then JArray(Transformed(values.items)) else values
  }

  /** `transformSlides(values)`: a non-array comes back as it is; an array is
      mapped and filtered, then trailing slides without content are popped. */
  method TransformSlides(values: Json) returns (r: Json)
    ensures !values.JArray? ==> r == values
    ensures values.JArray? ==> r == JArray(TrimTrailing(Transformed(values.items)))
    ensures values.JArray? ==> r == JArray(Transformed(values.items))
  {
    if !values.JArray? {
      return values;
    }
    var transformed := Transformed(values.items);
    while |transformed| > 0
      invariant TrimTrailing(transformed) == TrimTrailing(Transformed(values.items))
    {
      var lastSlide := transformed[|transformed| - 1];
      if !HasContent(lastSlide) {
        transformed := transformed[..|transformed| - 1];
      } else {
        break;
      }
    }
    TrimRemovesNothingAfterTransform(values.items);
    r := JArray(transformed);
  }

  /** The value the exporter serialises. */
  method ExportData(values: Json) returns (exportData: Json)
    ensures exportData == Exported(values)
  {
    if IsSlidesExport(values) {
      exportData := TransformSlides(values);
    } else {
      exportData := values;
    }
  }

  // ---------------------------------------------------------------------------
  // Properties of the export transform

  lemma StripExportedElement(element: Json)
    requires IsExportedElement(element)
    ensures StripElement(element) == element
  {
  }

  lemma StripKeepsText(element: Json)
    requires HasText(element)
    ensures IsExportedElement(StripElement(element))
  {
  }

  lemma ExportedElementsShape(elements: seq<Json>)
    ensures forall e | e in ExportedElements(elements) :: IsExportedElement(e)
  {
    var valid := Filter(HasText, elements);
    forall e | e in ExportedElements(elements) ensures IsExportedElement(e) {
      var i :| 0 <= i < |valid| && e == StripElement(valid[i]);
      assert valid[i] in valid;
      StripKeepsText(valid[i]);
    }
  }

  /** Every exported slide is `{ elements }` with a non-empty list of elements,
      each exactly `{ type, text }` with a non-blank text string. */
  lemma {:induction false} TransformedShape(slides: seq<Json>)
    ensures forall t | t in Transformed(slides) :: IsExportedSlide(t)
  {
    if slides != [] {
      TransformedShape(slides[1..]);
      match Field(slides[0], "elements")
      case Some(JArray(elements)) => ExportedElementsShape(elements);
      case _ =>
    }
  }

  /** Surviving slides keep their relative order: the transform distributes
      over concatenation. */
  lemma TransformedAppend(a: seq<Json>, b: seq<Json>)
    ensures Transformed(a + b) == Transformed(a) + Transformed(b)
  {
    MapNonNullAppend(TransformSlide, a, b);
  }

  /** A slide is dropped exactly when its `elements` is missing or not an
      array, or none of its elements has text. */
  lemma SlideDroppedIff(slide: Json)
    ensures Transformed([slide]) == [] <==>
      match Field(slide, "elements")
      case Some(JArray(elements)) => forall e | e in elements :: !HasText(e)
      case _ => true
  {
    MapNonNullSingleton(TransformSlide, slide);
    match Field(slide, "elements")
    case Some(JArray(elements)) =>
      FilterEmptyIff(HasText, elements);
      assert |ExportedElements(elements)| == |Filter(HasText, elements)|;
    case _ =>
  }

  /** A list of exported elements is its own export. */
  lemma ExportedElementsOfExported(elements: seq<Json>)
    requires forall e | e in elements :: IsExportedElement(e)
    ensures ExportedElements(elements) == elements
  {
    FilterKeepsAll(HasText, elements);
    forall i | 0 <= i < |elements| ensures StripElement(elements[i]) == elements[i] {
      assert elements[i] in elements;
      StripExportedElement(elements[i]);
    }
  }

  /** An exported slide is its own transform. */
  lemma TransformExportedSlide(slide: Json)
    requires IsExportedSlide(slide)
    ensures TransformSlide(slide) == Some(slide)
  {
    var elements := slide.members["elements"].items;
    ExportedElementsOfExported(elements);
    assert slide.members == map["elements" := JArray(elements)];
  }

  /** Exporting is idempotent on the slide list. */
  lemma {:induction false} TransformIdempotent(slides: seq<Json>)
    ensures Transformed(Transformed(slides)) == Transformed(slides)
  {
    if slides != [] {
      TransformIdempotent(slides[1..]);
      var head := match TransformSlide(slides[0]) case Some(t) => [t] case None => [];
      TransformedAppend(head, Transformed(slides[1..]));
      if head != [] {
        TransformedShape([slides[0]]);
        assert [slides[0]][1..] == [];
        assert head[0] in Transformed([slides[0]]);
        TransformExportedSlide(head[0]);
        assert head[1..] == [];
      }
    }
  }

  /** The exported value is a fixed point of exporting. */
  lemma ExportIdempotent(values: Json)
    ensures Exported(Exported(values)) == Exported(values)
  {
    if IsSlidesExport(values) {
      TransformIdempotent(values.items);
    }
  }

  /** The trailing trim keeps a prefix of the slides. */
  lemma {:induction false} TrimTrailingIsPrefix(slides: seq<Json>)
    ensures |TrimTrailing(slides)| <= |slides|
    ensures TrimTrailing(slides) == slides[..|TrimTrailing(slides)|]
  {
    if slides != [] && !HasContent(slides[|slides| - 1]) {
      var init := slides[..|slides| - 1];
      TrimTrailingIsPrefix(init);
      assert TrimTrailing(init) == init[..|TrimTrailing(init)|] == slides[..|TrimTrailing(init)|];
    }
  }

  /** What the trailing trim removes and keeps: a prefix remains, ending in a
      slide with content unless empty, and every removed slide lacks content. */
  lemma {:induction false} TrimTrailingMeaning(slides: seq<Json>)
    ensures |TrimTrailing(slides)| <= |slides|
    ensures TrimTrailing(slides) == slides[..|TrimTrailing(slides)|]
    ensures TrimTrailing(slides) == [] || HasContent(TrimTrailing(slides)[|TrimTrailing(slides)| - 1])
    ensures forall i | |TrimTrailing(slides)| <= i < |slides| :: !HasContent(slides[i])
  {
    TrimTrailingIsPrefix(slides);
    if slides != [] && !HasContent(slides[|slides| - 1]) {
      var init := slides[..|slides| - 1];
      var kept := TrimTrailing(init);
      assert TrimTrailing(slides) == kept;
      TrimTrailingMeaning(init);
      forall i | |kept| <= i < |slides| ensures !HasContent(slides[i]) {
        if i < |slides| - 1 { assert slides[i] == init[i]; }
      }
    }
  }

  /** Trimming twice is trimming once. */
  lemma TrimTrailingIdempotent(slides: seq<Json>)
    ensures TrimTrailing(TrimTrailing(slides)) == TrimTrailing(slides)
  {
  }

  /** After the transform every slide has content, so the trailing trim loop
      removes nothing. */
  lemma TrimRemovesNothingAfterTransform(slides: seq<Json>)
    ensures TrimTrailing(Transformed(slides)) == Transformed(slides)
  {
    var t := Transformed(slides);
    if t != [] {
      TransformedShape(slides);
      var last := t[|t| - 1];
      assert last in t;
      var elements := last.members["elements"].items;
      assert elements[0] in elements;
    }
  }

  /** A styled document whose last slide has no elements exports without it. */
  lemma ExportOmitsEmptyLastSlide(slides: seq<Json>, last: Json)
    requires Field(last, "elements") == Some(JArray([]))
    ensures Transformed(slides + [last]) == Transformed(slides)
  {
    TransformedAppend(slides, [last]);
    assert [last][1..] == [];
  }

  // ---------------------------------------------------------------------------
  // Export followed by import

  /** The unstyled schema reads an exported slide list back: one unstyled slide
      per exported slide, with that slide's elements. */
  ghost predicate ReadsBack(data: seq<ImportHook.UnstyledSlide>, exported: seq<Json>)
  {
    |data| == |exported|
    && forall i | 0 <= i < |data| ::
         Field(exported[i], "elements").Some? && Field(exported[i], "elements").value.JArray?
         && data[i].elements == Some(Field(exported[i], "elements").value.items)
  }

  /** Exported slides all have elements, so re-importing them through the
      unstyled path filters none out: the import yields exactly as many slides
      as were exported. */
  lemma ExportThenImportKeepsEverySlide(values: Json, s: ImportHook.Schemas)
    requires IsSlidesExport(values)
    requires s.unstyledSafeParse(Exported(values)).Some?
    requires ReadsBack(s.unstyledSafeParse(Exported(values)).value, Transformed(values.items))
    ensures var data := s.unstyledSafeParse(Exported(values)).value;
            Filter(ImportHook.IsRetained, data) == data
            && Filter(ImportHook.IsFilteredOut, data) == []
    ensures ImportHook.NormalizeSlides(Exported(values), s).Success? ==>
            |ImportHook.NormalizeSlides(Exported(values), s).value| == |Transformed(values.items)|
  {
    var data := s.unstyledSafeParse(Exported(values)).value;
    var exported := Transformed(values.items);
    TransformedShape(values.items);
    forall k | k in data ensures ImportHook.IsRetained(k) {
      var i :| 0 <= i < |data| && data[i] == k;
      assert exported[i] in exported;
    }
    FilterKeepsAll(ImportHook.IsRetained, data);
    ImportHook.UnstyledPartition(data);
  }
}
