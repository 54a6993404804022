/** The `useFieldsFileImporter` hook: it validates an imported JSON value for
    one document field ("config" or "slides"), normalises slide payloads and
    writes the result into the live form state. */
module ImportHook {
  import opened Wrappers
  import opened JsonValues
  import opened Sequences

  /** A slide as the unstyled multi-slide schema yields it: only `elements`,
      which may be absent. */
  datatype UnstyledSlide = UnstyledSlide(elements: Option<seq<Json>>)

  /** The validation schemas and the background-image default the hook uses.
      Their definitions (document-schema, slide-schema, image-schema) are not
      part of this model, so they are parameters. */
  datatype Schemas = Schemas(
    configParse: Json -> Result<Json, Thrown>,              // ConfigSchema.parse, throws
    unstyledSafeParse: Json -> Option<seq<UnstyledSlide>>,  // UnstyledMultiSlideSchema.safeParse
    multiSlideParse: Json -> Result<seq<Json>, Thrown>,     // MultiSlideSchema.parse, throws
    commonSlideParse: Json -> Result<Json, Thrown>,         // CommonSlideSchema.parse, throws
    defaultBackgroundImage: Json)                           // DEFAULT_BACKGROUND_IMAGE_INPUT

  /** The two form fields an import can write. */
  datatype Document = Document(config: Json, slides: seq<Json>)

  /** Unstyled path, slides that are kept: `elements` present and non-empty. */
  predicate IsRetained(slide: UnstyledSlide)
  {
    slide.elements.Some? && |slide.elements.value| > 0
  }

  /** Unstyled path, slides that are reported as filtered out: `elements`
      missing or empty. */
  predicate IsFilteredOut(slide: UnstyledSlide)
    ensures IsFilteredOut(slide) <==> !IsRetained(slide)
  {
    slide.elements.None? || |slide.elements.value| == 0
  }

  /** Styled path, slides that are kept: `elements` present, an array, non-empty. */
  predicate IsValidStyledSlide(slide: Json)
  {
    match Field(slide, "elements")
    case Some(JArray(items)) => |items| > 0
    case _ => false
  }

  /** The object a retained unstyled slide becomes before it is validated:
      its elements with the default background image. */
  function StyledInput(slide: UnstyledSlide, s: Schemas): Json
    requires IsRetained(slide)
  {
    JObject(map["elements" := JArray(slide.elements.value), "backgroundImage" := s.defaultBackgroundImage])
  }

  /** `CommonSlideSchema.parse` applied to one retained slide. */
  function Convert(slide: UnstyledSlide, s: Schemas): Result<Json, Thrown>
    requires IsRetained(slide)
  {
    s.commonSlideParse(StyledInput(slide, s))
  }

  /** The `.map` over the retained slides: each one is converted in order and
      the first conversion that throws aborts the whole import. */
  function StyleSlides(kept: seq<UnstyledSlide>, s: Schemas): (r: Result<seq<Json>, Thrown>)
    requires forall k | k in kept :: IsRetained(k)
    ensures r.Success? <==> forall i | 0 <= i < |kept| :: Convert(kept[i], s).Success?
    ensures r.Success? ==> |r.value| == |kept|
    ensures r.Success? ==> forall i | 0 <= i < |kept| :: Convert(kept[i], s) == Success(r.value[i])
    ensures r.Failure? ==>
      exists i | 0 <= i < |kept| ::
        Convert(kept[i], s) == Failure(r.error) && forall j | 0 <= j < i :: Convert(kept[j], s).Success?
  {
    if kept == [] then Success([])
    else
      match Convert(kept[0], s)
      case Failure(e) =>
        FirstFailureAt(kept, s, e, 0);
        Failure(e)
      case Success(first) =>
        match StyleSlides(kept[1..], s)
        case Failure(e) =>
          var i :| 0 <= i < |kept[1..]| && Convert(kept[1..][i], s) == Failure(e)
                   && forall j | 0 <= j < i :: Convert(kept[1..][j], s).Success?;
          FirstFailureAfterFirst(kept, s, e, i);
          Failure(e)
        case Success(rest) =>
          var r := [first] + rest;
          forall i | 0 <= i < |kept| ensures Convert(kept[i], s) == Success(r[i]) {
            if i > 0 { assert kept[i] == kept[1..][i - 1] && r[i] == rest[i - 1]; }
          }
          Success(r)
  }

  /** The failure `e` of the conversion at `i`, with every earlier conversion
      succeeding, is the first failure. */
  lemma FirstFailureAt(kept: seq<UnstyledSlide>, s: Schemas, e: Thrown, i: nat)
    requires forall k | k in kept :: IsRetained(k)
    requires i < |kept| && Convert(kept[i], s) == Failure(e)
    requires forall j | 0 <= j < i :: Convert(kept[j], s).Success?
    ensures exists n | 0 <= n < |kept| ::
      Convert(kept[n], s) == Failure(e) && forall j | 0 <= j < n :: Convert(kept[j], s).Success?
  {
  }

  /** When the first slide converts, the first failure among the others, at
      `i`, is the first failure of all, at `i + 1`. */
  lemma FirstFailureAfterFirst(kept: seq<UnstyledSlide>, s: Schemas, e: Thrown, i: nat)
    requires forall k | k in kept :: IsRetained(k)
    requires 0 < |kept| && Convert(kept[0], s).Success?
    requires i < |kept| - 1 && Convert(kept[1..][i], s) == Failure(e)
    requires forall j | 0 <= j < i :: Convert(kept[1..][j], s).Success?
    ensures exists n | 0 <= n < |kept| ::
      Convert(kept[n], s) == Failure(e) && forall j | 0 <= j < n :: Convert(kept[j], s).Success?
  {
    var tail := kept[1..];
    forall j | 0 <= j < i + 1 ensures Convert(kept[j], s).Success? {
      if j > 0 { assert kept[j] == tail[j - 1]; }
    }
    assert kept[i + 1] == tail[i];
    FirstFailureAt(kept, s, e, i + 1);
  }

  /** The slide normaliser: the unstyled probe first; only when it rejects the
      payload is the styled schema run. */
  function NormalizeSlides(json: Json, s: Schemas): (r: Result<seq<Json>, Thrown>)
    ensures s.unstyledSafeParse(json).Some? && r.Success? ==>
      |r.value| == |Filter(IsRetained, s.unstyledSafeParse(json).value)| <= |s.unstyledSafeParse(json).value|
    ensures s.unstyledSafeParse(json).None? ==> (r.Success? <==> s.multiSlideParse(json).Success?)
    ensures s.unstyledSafeParse(json).None? && r.Success? ==>
      forall x | x in r.value :: x in s.multiSlideParse(json).value && IsValidStyledSlide(x)
  {
    match s.unstyledSafeParse(json)
    case Some(data) => StyleSlides(Filter(IsRetained, data), s)
    case None =>
      match s.multiSlideParse(json)
      case Failure(e) => Failure(e)
      case Success(parsed) => Success(Filter(IsValidStyledSlide, parsed))
  }

  /** What `handleJsonPaste(json)` does to the document, or what it throws. */
  function Imported(field: string, json: Json, s: Schemas, doc: Document): (r: Result<Document, Thrown>)
    ensures field != "config" && field != "slides" ==> r == Success(doc)
    ensures field == "config" ==> (r.Success? <==> s.configParse(json).Success?)
    ensures field == "config" && r.Success? ==>
      r.value.slides == doc.slides
      && r.value.config == (if Truthy(s.configParse(json).value) then s.configParse(json).value else doc.config)
    ensures field == "slides" ==> (r.Success? <==> NormalizeSlides(json, s).Success?)
    ensures field == "slides" && r.Success? ==>
      r.value.config == doc.config && r.value.slides == NormalizeSlides(json, s).value
    ensures r.Failure? ==>
      r.error == (if field == "config" then s.configParse(json).error else NormalizeSlides(json, s).error)
  {
    if field == "config" then
      match s.configParse(json)
      case Failure(e) => Failure(e)
      case Success(values) => Success(if Truthy(values) then doc.(config := values) else doc)
    else if field == "slides" then
      match NormalizeSlides(json, s)
      case Failure(e) => Failure(e)
      case Success(slides) => Success(doc.(slides := slides))
    else Success(doc)
  }

  /** The file path: `JSON.parse` of the file text, whose failure is not caught,
      then the same import. */
  function ParsedAndImported(text: string, parse: JsonParser, field: string, s: Schemas, doc: Document)
    : (r: Result<Document, Thrown>)
    ensures parse(text).Failure? ==> r == Failure(parse(text).error)
    ensures parse(text).Success? ==> r == Imported(field, parse(text).value, s, doc)
  {
    match parse(text)
    case Failure(e) => Failure(e)
    case Success(json) => Imported(field, json, s, doc)
  }

  /** A handler's observable effect matches `r`: on success it returned normally
      and the document is `r`'s; on failure it threw `r`'s error and the
      document is as before. */
  ghost predicate Reflects(r: Result<Document, Thrown>, outcome: Outcome<Thrown>, before: Document, after: Document)
  {
    match r
    case Success(d) => outcome == Pass && after == d
    case Failure(e) => outcome == Fail(e) && after == before
  }

  function Min(a: int, b: int): int
  {
    if a <= b then a else b
  }

  // ---------------------------------------------------------------------------
  // Properties of the normaliser

  /** The unstyled probe decides the path: when it accepts, the styled schema is
      never consulted; when it rejects, the per-slide conversion is never
      consulted and a styled-schema failure is the import's failure. */
  lemma ProbeBeforeStyledParse(json: Json, s: Schemas, other: Schemas)
    requires other.unstyledSafeParse == s.unstyledSafeParse
    ensures s.unstyledSafeParse(json).Some?
            && other.commonSlideParse == s.commonSlideParse
            && other.defaultBackgroundImage == s.defaultBackgroundImage
            ==> NormalizeSlides(json, s) == NormalizeSlides(json, other)
    ensures s.unstyledSafeParse(json).None? && other.multiSlideParse == s.multiSlideParse
            ==> NormalizeSlides(json, s) == NormalizeSlides(json, other)
    ensures s.unstyledSafeParse(json).None? && s.multiSlideParse(json).Failure?
            ==> NormalizeSlides(json, s) == Failure(s.multiSlideParse(json).error)
  {
    if s.unstyledSafeParse(json).Some? && other.commonSlideParse == s.commonSlideParse
       && other.defaultBackgroundImage == s.defaultBackgroundImage
    {
      StyleSlidesUsesOnlyConversion(Filter(IsRetained, s.unstyledSafeParse(json).value), s, other);
    }
  }

  lemma {:induction false} StyleSlidesUsesOnlyConversion(kept: seq<UnstyledSlide>, s: Schemas, other: Schemas)
    requires forall k | k in kept :: IsRetained(k)
    requires other.commonSlideParse == s.commonSlideParse
    requires other.defaultBackgroundImage == s.defaultBackgroundImage
    ensures StyleSlides(kept, s) == StyleSlides(kept, other)
  {
    if kept != [] {
      StyleSlidesUsesOnlyConversion(kept[1..], s, other);
    }
  }

  /** Unstyled path: the slides reported as filtered out and the slides kept
      partition the probe's data, and the kept ones stay in input order. */
  lemma UnstyledPartition(data: seq<UnstyledSlide>)
    ensures |Filter(IsFilteredOut, data)| + |Filter(IsRetained, data)| == |data|
    ensures IsSubsequence(Filter(IsRetained, data), data)
    ensures forall k | k in data :: k in Filter(IsRetained, data) <==> k.elements.Some? && k.elements.value != []
  {
    FilterComplementLengths(IsFilteredOut, IsRetained, data);
    FilterIsSubsequence(IsRetained, data);
  }

  /** Unstyled path, when the import succeeds: one styled slide per kept slide,
      in order, each the validated pairing of that slide's elements with the
      default background image; the count is the input count minus the
      filtered-out count. */
  lemma UnstyledImportResult(json: Json, s: Schemas)
    requires s.unstyledSafeParse(json).Some?
    requires NormalizeSlides(json, s).Success?
    ensures var data := s.unstyledSafeParse(json).value;
            var kept := Filter(IsRetained, data);
            var slides := NormalizeSlides(json, s).value;
            |slides| == |data| - |Filter(IsFilteredOut, data)|
            && |slides| == |kept|
            && forall i | 0 <= i < |kept| ::
                 kept[i].elements.Some? && kept[i].elements.value != [] &&
                 s.commonSlideParse(JObject(map["elements" := JArray(kept[i].elements.value),
                                                "backgroundImage" := s.defaultBackgroundImage]))
                 == Success(slides[i])
  {
    UnstyledPartition(s.unstyledSafeParse(json).value);
  }

  /** Unstyled path: one slide whose conversion throws aborts the import with
      that error, whatever the other slides are. */
  lemma UnstyledConversionFailureAborts(json: Json, s: Schemas, i: nat)
    requires s.unstyledSafeParse(json).Some?
    requires i < |Filter(IsRetained, s.unstyledSafeParse(json).value)|
    requires Convert(Filter(IsRetained, s.unstyledSafeParse(json).value)[i], s).Failure?
    ensures NormalizeSlides(json, s).Failure?
  {
  }

  /** Styled path: a slide is kept exactly when its `elements` is a non-empty
      array, and the kept slides keep their order. */
  lemma StyledImportResult(json: Json, s: Schemas)
    requires s.unstyledSafeParse(json).None?
    requires s.multiSlideParse(json).Success?
    ensures NormalizeSlides(json, s).Success?
    ensures var parsed := s.multiSlideParse(json).value;
            var slides := NormalizeSlides(json, s).value;
            IsSubsequence(slides, parsed)
            && (forall x | x in slides :: x in parsed && IsValidStyledSlide(x))
            && (forall x | x in parsed && IsValidStyledSlide(x) :: x in slides)
  {
    FilterIsSubsequence(IsValidStyledSlide, s.multiSlideParse(json).value);
  }

  /** The import keeps a slide whose only element has blank text: it drops only
      slides with no elements. */
  lemma ImportKeepsBlankTextSlides(hello: Json, blank: Json)
    requires hello == JObject(map["type" := JString("title"), "text" := JString("Hello")])
    requires blank == JObject(map["type" := JString("title"), "text" := JString("  ")])
    ensures var data := [UnstyledSlide(Some([hello])), UnstyledSlide(Some([])), UnstyledSlide(Some([blank]))];
            Filter(IsRetained, data) == [data[0], data[2]]
  {
    var data := [UnstyledSlide(Some([hello])), UnstyledSlide(Some([])), UnstyledSlide(Some([blank]))];
    assert data[1..][1..] == [data[2]];
    assert Filter(IsRetained, data[1..][1..]) == [data[2]];
    assert Filter(IsRetained, data[1..]) == [data[2]];
  }

  // ---------------------------------------------------------------------------
  // The count-correction loop

  /** The slide array after `remove(index)`: the slide at `index` is gone and
      the others keep their order; an index past the end changes nothing. */
  function Removed(slides: seq<Json>, index: nat): (r: seq<Json>)
    ensures index < |slides| ==> |r| == |slides| - 1 && r[..index] == slides[..index]
                                 && forall k | index <= k < |r| :: r[k] == slides[k + 1]
    ensures index >= |slides| ==> r == slides
  {
    if index < |slides| then slides[..index] + slides[index + 1..] else slides
  }

  /** The slide array after `passes` passes of the correction loop as written,
      each removing the slide at `index`, the snapshot length minus one. */
  function SnapshotPasses(slides: seq<Json>, index: nat, passes: nat): seq<Json>
    decreases passes
  {
    if passes == 0 then slides else SnapshotPasses(Removed(slides, index), index, passes - 1)
  }

  /** Once the snapshot index lies past the end of the live array, no pass of
      the loop as written changes anything. */
  lemma {:induction false} SnapshotPassesPastEnd(slides: seq<Json>, index: nat, passes: nat)
    requires index >= |slides|
    ensures SnapshotPasses(slides, index, passes) == slides
    decreases passes
  {
    if passes > 0 {
      SnapshotPassesPastEnd(Removed(slides, index), index, passes - 1);
    }
  }

  /** One more pass removes at `index` from the array the earlier passes left. */
  lemma {:induction false} SnapshotPassesStep(slides: seq<Json>, index: nat, passes: nat)
    ensures SnapshotPasses(slides, index, passes + 1) == Removed(SnapshotPasses(slides, index, passes), index)
    decreases passes
  {
    if passes > 0 {
      SnapshotPassesStep(Removed(slides, index), index, passes - 1);
    }
  }

  /** A form holding three slides receives one imported slide, and the field
      array keeps one stale entry after the replace. The loop as written
      compares the snapshot length 3 with the expected 1 on every pass and
      removes index 2, which does not exist: after any number of passes the
      stale entry is still there and the guard still holds. */
  lemma SnapshotLoopKeepsStaleEntry(imported: Json, stale: Json, passes: nat)
    ensures SnapshotPasses([imported, stale], 3 - 1, passes) == [imported, stale]
  {
    SnapshotPassesPastEnd([imported, stale], 3 - 1, passes);
  }

  // ---------------------------------------------------------------------------
  // Live form state

  /** The form state the hook writes: the `config` value and the slides field
      array. */
  class DocumentForm {
    var config: Json
    var slides: seq<Json>

    constructor (initial: Document)
      ensures Doc() == initial
    {
      config := initial.config;
      slides := initial.slides;
    }

    function Doc(): Document
      reads this
    {
      Document(config, slides)
    }

    /** `setValue("config", value)`. */
    method SetConfig(value: Json)
      modifies this
      ensures config == value && slides == old(slides)
    {
      config := value;
    }

    /** The field array's bulk `replace(items)`. The field array can keep stale
        entries past the new items; `stale` is what it keeps. */
    method Replace(items: seq<Json>, stale: seq<Json>)
      modifies this
      ensures slides == items + stale && config == old(config)
    {
      slides := items + stale;
    }

    /** The field array's `remove(index)`; an index past the end removes nothing. */
    method Remove(index: nat)
      modifies this
      ensures slides == Removed(old(slides), index)
      ensures config == old(config)
    {
      if index < |slides| {
        slides := slides[..index] + slides[index + 1..];
      }
    }

    /** `reset(values)`. */
    method Reset(values: Document)
      modifies this
      ensures Doc() == values
    {
      config := values.config;
      slides := values.slides;
    }
  }

  /** One instance of the hook, bound to a field name and the form. */
  class FieldsFileImporter {
    const field: string
    const form: DocumentForm
    const schemas: Schemas
    /** Whether the effect that creates the `FileReader` has run. */
    var readerReady: bool

    constructor (field: string, form: DocumentForm, schemas: Schemas)
      ensures this.field == field && this.form == form && this.schemas == schemas
      ensures !readerReady
    {
      this.field := field;
      this.form := form;
      this.schemas := schemas;
      readerReady := false;
    }

    /** The mount effect that creates the file reader. */
    method MountReader()
      modifies this
      ensures readerReady
    {
      readerReady := true;
    }

    /** The count-correction pass run after a bulk replace: remove the last
        slide while there are more than `expected`. It only ever shortens the
        array from the end. */
    method CorrectSlideCount(expected: nat)
      modifies form
      ensures |form.slides| == Min(|old(form.slides)|, expected)
      ensures form.slides == old(form.slides)[..|form.slides|]
      ensures form.config == old(form.config)
    {
      while |form.slides| > expected
        invariant form.config == old(form.config)
        invariant Min(|old(form.slides)|, expected) <= |form.slides| <= |old(form.slides)|
        invariant form.slides == old(form.slides)[..|form.slides|]
        decreases |form.slides|
      {
        form.Remove(|form.slides| - 1);
      }
    }

    /** The correction loop as the source writes it: its guard reads the
        field array's length captured when the timeout was scheduled
        (`snapshot`), which no `remove` inside the loop can change, and each
        pass removes index `snapshot - 1`. When `snapshot > expected` the
        guard never turns false; `budget` is how many passes are observed,
        and all of them run. */
    method CorrectSlideCountAsWritten(snapshot: nat, expected: nat, budget: nat) returns (passes: nat)
      modifies form
      ensures snapshot > expected ==> passes == budget
      ensures snapshot > expected ==> form.slides == SnapshotPasses(old(form.slides), snapshot - 1, budget)
      ensures snapshot <= expected ==> passes == 0 && form.slides == old(form.slides)
      ensures form.config == old(form.config)
    {
      passes := 0;
      while snapshot > expected && passes < budget
        invariant passes <= budget
        invariant snapshot <= expected ==> passes == 0 && form.slides == old(form.slides)
        invariant snapshot > expected ==> form.slides == SnapshotPasses(old(form.slides), snapshot - 1, passes)
        invariant form.config == old(form.config)
        decreases budget - passes
      {
        SnapshotPassesStep(old(form.slides), snapshot - 1, passes);
        form.Remove(snapshot - 1);
        passes := passes + 1;
      }
    }

    /** `handleJsonPaste(parsedJson)`: validate, normalise and write into the
        form, or throw before anything is written. */
    method HandleJsonPaste(json: Json, stale: seq<Json>) returns (outcome: Outcome<Thrown>)
      modifies form
      ensures Reflects(Imported(field, json, schemas, old(form.Doc())), outcome, old(form.Doc()), form.Doc())
    {
      if field == "config" {
        var parsed := schemas.configParse(json);
        if parsed.Failure? {
          return Fail(parsed.error);
        }
        if Truthy(parsed.value) {
          form.SetConfig(parsed.value);
        }
        outcome := Pass;
      } else if field == "slides" {
        var normalized := NormalizeSlides(json, schemas);
        if normalized.Failure? {
          return Fail(normalized.error);
        }
        form.Replace(normalized.value, stale);
        CorrectSlideCount(|normalized.value|);
        outcome := Pass;
      } else {
        // an unknown field is only reported on the console
        outcome := Pass;
      }
    }

    /** The reader's `onload` body: `JSON.parse` of the text, not caught here,
        then the same import as a paste. */
    method OnLoad(text: string, parse: JsonParser, stale: seq<Json>) returns (outcome: Outcome<Thrown>)
      modifies form
      ensures Reflects(ParsedAndImported(text, parse, field, schemas, old(form.Doc())), outcome,
                       old(form.Doc()), form.Doc())
    {
      var result := parse(text);
      if result.Failure? {
        return Fail(result.error);
      }
      outcome := HandleJsonPaste(result.value, stale);
    }

    /** `handleFileSubmission(files)`: only the first file is read, and nothing
        happens without a file or before the reader exists. `files` holds the
        files' text. */
    method HandleFileSubmission(files: seq<string>, parse: JsonParser, stale: seq<Json>)
      returns (outcome: Outcome<Thrown>)
      modifies form
      ensures |files| == 0 || !readerReady ==> outcome == Pass && form.Doc() == old(form.Doc())
      ensures |files| > 0 && readerReady ==>
        Reflects(ParsedAndImported(files[0], parse, field, schemas, old(form.Doc())), outcome,
                 old(form.Doc()), form.Doc())
    {
      outcome := Pass;
      if |files| > 0 {
        if readerReady {
          outcome := OnLoad(files[0], parse, stale);
        }
      }
    }
  }
}
