# Carousel generator: JSON import and export, image resizing, brand schema

This project models the parts of the carousel generator that move documents in
and out of the editor, and proves properties of them:

- `ImportHook` (`import_hook.dfy`) models the `useFieldsFileImporter` hook. For a
  document field ("config" or "slides") it validates a parsed JSON value. It
  then writes the result into the live form.
  - Slides are first probed with the unstyled schema. On success, slides with
    missing or empty `elements` are dropped. Each kept slide is paired with the
    default background image and validated, and one failure aborts the import.
  - Otherwise the styled schema is applied, and slides whose `elements` is not
    a non-empty array are dropped.
  - The form's slide array is replaced. A correction loop is then meant to
    remove trailing entries until the count is the expected one. As written,
    its guard reads a length that never changes while it runs (see Findings).
  - The form is the class `DocumentForm`, and the hook instance is
    `FieldsFileImporter`.
- `Exporter` (`exporter.dfy`) models the `JsonExporter` data path.
  `transformSlides` keeps only elements with non-blank text, stripped to
  `{ type, text }`. It drops slides left with no element, then pops trailing
  slides without content. `exportData` applies this only to a slides export.
- `ImporterDialog` (`json_importer.dfy`) models the `JsonImporter` dialog.
  `Menubar` (`editor_menubar.dfy`) models the menubar's `ImportDialogContent`
  and the "Reset to defaults" action. Both have a paste box and a file picker.
  - Blank text is refused with "Please paste some JSON content".
  - A thrown `Error` shows its message, and any other thrown value shows
    "Invalid JSON format".
  - A successful import clears the text and closes the dialog.
- `ImageResize` (`content_image.dfy`) models the `ContentImage` element.
  Mouse-down records where a drag starts. Mouse-move sets the image's width and
  height from the pointer's offset, never below 50 pixels on a moved dimension.
  Mouse-up ends the drag. The model also covers the size and object-fit CSS
  classes.
- `BrandValidation` (`brand_schema.dfy`) models `BrandSchema`. The name is a
  string of at most 30 characters and defaults to "Alexander Stoliarchuk". The
  avatar is an image that defaults to the default image input. The handle is a
  required string.

`JsonValues` holds the JSON value type and the JavaScript notions the code
applies to it: `?.` access, truthiness and `trim`. `Sequences` holds
`Array.prototype.filter`, a `map` whose `null` results are filtered out,
and their properties. `Wrappers` holds
`Option`/`Result`/`Outcome`.

The import hook drops only slides that have no elements. A slide whose
elements all have blank text is kept on import, unlike on export.
`ImportHook.ImportKeepsBlankTextSlides` shows this on a concrete input.

## Model

| member | source | states |
|---|---|---|
| JsonValues.TrimEmptyIffBlank | src/components/json-importer.tsx:35 | `text.trim()` is empty exactly when every character of the text is whitespace |
| JsonValues.Field | src/components/json-exporter.tsx:18 | `v?.key`: the member when `v` is an object holding the key, otherwise `undefined` (a definition; no contract of its own) |
| JsonValues.Truthy | src/lib/hooks/use-fields-file-importer.tsx:40 | JavaScript truthiness of a JSON value: `null`, `false`, `0` and `""` are falsy (a definition; no contract of its own) |
| JsonValues.IsWhitespace | src/components/json-importer.tsx:35 | the characters `trim` removes: ECMAScript white space and line terminators (a definition) |
| JsonValues.Blank | src/components/json-importer.tsx:35 | the text consists of white space only (a definition; related to `Trim` by `TrimEmptyIffBlank`) |
| JsonValues.TrimStart | src/components/json-importer.tsx:35 | the result is a suffix of the input that does not start with white space, and every removed character is white space |
| JsonValues.TrimEnd | src/components/json-importer.tsx:35 | the result is a prefix of the input that does not end with white space, and every removed character is white space |
| JsonValues.Trim | src/components/json-exporter.tsx:28 | `trim()` gives a contiguous part of the text, with only white space cut from either end, that neither starts nor ends with white space |
| Sequences.Filter | src/lib/hooks/use-fields-file-importer.tsx:57-60 | the filtered array is no longer than the input; an item is in it exactly when it is in the input and passes the test |
| Sequences.FilterIsSubsequence | src/lib/hooks/use-fields-file-importer.tsx:176-179 | filtering keeps the surviving items in their original order |
| Sequences.FilterEmptyIff | src/components/json-exporter.tsx:23-28 | a filter keeps nothing exactly when no item passes the test |
| Sequences.MapNonNull | src/components/json-exporter.tsx:16-48 | mapping and then dropping `null` results never lengthens the array |
| Sequences.MapNonNullAppend | src/components/json-exporter.tsx:16-48 | mapping and dropping `null`s distributes over concatenation, so surviving results keep their order |
| Sequences.MapNonNullSingleton | src/components/json-exporter.tsx:16-48 | a single item is dropped exactly when it maps to `null`, and otherwise gives its result |
| Sequences.FilterComplementLengths | src/lib/hooks/use-fields-file-importer.tsx:169-179 | filtering by a test and by its negation gives counts that add up to the input's length |
| ImportHook.StyleSlides | src/lib/hooks/use-fields-file-importer.tsx:180-190 | the per-slide conversion succeeds exactly when every kept slide validates, giving one styled slide per kept slide in order; otherwise it throws the error of the first slide that fails |
| ImportHook.IsRetained | src/lib/hooks/use-fields-file-importer.tsx:177-179 | an unstyled slide is kept when its elements are present and non-empty (a definition; see `UnstyledPartition`) |
| ImportHook.IsFilteredOut | src/lib/hooks/use-fields-file-importer.tsx:169-171 | a slide is reported as filtered out exactly when it is not kept |
| ImportHook.IsValidStyledSlide | src/lib/hooks/use-fields-file-importer.tsx:227-229 | a styled slide is kept when `elements` is a non-empty array (a definition; see `StyledImportResult`) |
| ImportHook.StyledInput | src/lib/hooks/use-fields-file-importer.tsx:182-185 | the object a kept slide is validated as: its elements with the default background image (a definition) |
| ImportHook.Convert | src/lib/hooks/use-fields-file-importer.tsx:180-185 | `CommonSlideSchema.parse` of that object (a definition; see `StyleSlides`) |
| ImportHook.NormalizeSlides | src/lib/hooks/use-fields-file-importer.tsx:164-229 | unstyled path: a success has one slide per kept slide, no more than the probe's data; styled path: succeeds exactly when the styled schema does, and keeps only parsed slides with a non-empty `elements` array |
| ImportHook.Imported | src/lib/hooks/use-fields-file-importer.tsx:155-251 | "config": succeeds exactly when the config schema accepts, and sets the config only when the result is truthy; "slides": succeeds exactly when normalisation does and replaces the slides with its result; any other field changes nothing; a failure carries the schema's error and nothing is written |
| ImportHook.ParsedAndImported | src/lib/hooks/use-fields-file-importer.tsx:29-142 | the file path: an uncaught `JSON.parse` failure is the outcome, otherwise the same import as a paste |
| ImportHook.ProbeBeforeStyledParse | src/lib/hooks/use-fields-file-importer.tsx:164-224 | when the unstyled probe accepts, the styled schema plays no part; when it rejects, the per-slide conversion plays no part and a styled-schema failure is the import's failure |
| ImportHook.UnstyledPartition | src/lib/hooks/use-fields-file-importer.tsx:169-179 | the slides logged as filtered out and the slides kept partition the probe's data; kept slides stay in order; a slide is kept exactly when its elements are present and non-empty |
| ImportHook.UnstyledImportResult | src/lib/hooks/use-fields-file-importer.tsx:176-190 | a successful unstyled import yields as many slides as were kept (input count minus filtered-out count); each is the validated pairing of a kept slide's elements with the default background image |
| ImportHook.UnstyledConversionFailureAborts | src/lib/hooks/use-fields-file-importer.tsx:180-190 | one kept slide that fails validation makes the whole import fail |
| ImportHook.StyledImportResult | src/lib/hooks/use-fields-file-importer.tsx:222-229 | a styled import keeps exactly the parsed slides whose elements form a non-empty array, in order |
| ImportHook.ImportKeepsBlankTextSlides | src/lib/hooks/use-fields-file-importer.tsx:176-179 | of three slides (text, no elements, blank text) the import keeps the first and the third |
| ImportHook.Removed | src/lib/hooks/use-fields-file-importer.tsx:210 | `remove(index)` takes out exactly the slide at the index and keeps the others in order; an index past the end changes nothing |
| ImportHook.SnapshotPasses | src/lib/hooks/use-fields-file-importer.tsx:209-210 | the slide array after a number of passes of the correction loop as written, each removing the same index (a definition) |
| ImportHook.SnapshotPassesPastEnd | src/lib/hooks/use-fields-file-importer.tsx:209-210 | when the snapshot index lies past the live array's end, no number of passes changes the array |
| ImportHook.SnapshotPassesStep | src/lib/hooks/use-fields-file-importer.tsx:209-210 | one more pass removes at the snapshot index from what the earlier passes left |
| ImportHook.SnapshotLoopKeepsStaleEntry | src/lib/hooks/use-fields-file-importer.tsx:203-211 | importing one slide into a form of three, with one stale entry left by the replace: the loop as written never removes the stale entry, however many passes run |
| ImportHook.DocumentForm.constructor | src/lib/hooks/use-fields-file-importer.tsx:12-19 | the form starts with the given document |
| ImportHook.DocumentForm.SetConfig | src/lib/hooks/use-fields-file-importer.tsx:160 | `setValue("config", v)` sets the config and leaves the slides |
| ImportHook.DocumentForm.Replace | src/lib/hooks/use-fields-file-importer.tsx:203 | the slide array becomes the new items followed by any stale entries; config unchanged |
| ImportHook.DocumentForm.Remove | src/lib/hooks/use-fields-file-importer.tsx:210 | removes exactly the slide at the index; an index past the end changes nothing |
| ImportHook.DocumentForm.Reset | src/components/editor-menubar.tsx:196 | the form holds exactly the given document |
| ImportHook.FieldsFileImporter.constructor | src/lib/hooks/use-fields-file-importer.tsx:20-21 | a new hook instance is bound to its field, form and schemas and has no reader yet |
| ImportHook.FieldsFileImporter.MountReader | src/lib/hooks/use-fields-file-importer.tsx:23-28 | after the mount effect the reader exists |
| ImportHook.FieldsFileImporter.CorrectSlideCount | src/lib/hooks/use-fields-file-importer.tsx:207-211 | the correction loop leaves min(old length, expected) slides, which are a prefix of the old ones, and does not touch the config |
| ImportHook.FieldsFileImporter.CorrectSlideCountAsWritten | src/lib/hooks/use-fields-file-importer.tsx:207-211 | the loop as written: with a snapshot above the expected count every observed pass runs, since the guard never turns false, and the slides are what those passes leave; otherwise nothing happens |
| ImportHook.FieldsFileImporter.HandleJsonPaste | src/lib/hooks/use-fields-file-importer.tsx:155-251 | `handleJsonPaste` returns normally with the form holding the imported document, or throws the import's error with the form unchanged |
| ImportHook.FieldsFileImporter.OnLoad | src/lib/hooks/use-fields-file-importer.tsx:29-142 | the reader callback parses the file text and imports it; a parse error propagates with the form unchanged |
| ImportHook.FieldsFileImporter.HandleFileSubmission | src/lib/hooks/use-fields-file-importer.tsx:145-153 | only the first file is read; without files or before the reader exists nothing happens |
| Exporter.TransformSlides | src/components/json-exporter.tsx:12-68 | a non-array comes back unchanged; for an array the result is the mapped and filtered slides, and the trailing-pop loop removes nothing from them |
| Exporter.ExportData | src/components/json-exporter.tsx:70-73 | the exported value is the transformed slides for a slides export and the value itself otherwise |
| Exporter.HasText | src/components/json-exporter.tsx:23-28 | an element's `text` is a string whose trim is non-empty (a definition) |
| Exporter.StripElement | src/components/json-exporter.tsx:30-34 | the stripped element holds only `type` and `text`, with the element's own values for both |
| Exporter.ExportedElements | src/components/json-exporter.tsx:22-34 | the elements with text, stripped, in order (a definition; see `ExportedElementsShape`) |
| Exporter.TransformSlide | src/components/json-exporter.tsx:16-44 | `null` when `elements` is missing, not an array or left empty, otherwise `{ elements }` (a definition; see `SlideDroppedIff`) |
| Exporter.Transformed | src/components/json-exporter.tsx:15-48 | the map followed by the `null` filter (a definition, as `MapNonNull` of `TransformSlide`; see `TransformedShape`, `TransformedAppend`, `TransformIdempotent`) |
| Exporter.HasContent | src/components/json-exporter.tsx:54-58 | the trailing loop's test: a non-empty `elements` array with an element that has text (a definition) |
| Exporter.TrimTrailing | src/components/json-exporter.tsx:52-65 | trailing slides without content removed (a definition; see `TrimTrailingMeaning`) |
| Exporter.IsSlidesExport | src/components/json-exporter.tsx:71 | a non-empty array whose first item has truthy `elements` (a definition) |
| Exporter.Exported | src/components/json-exporter.tsx:73 | the transformed slides for a slides export, the value otherwise (a definition; see `ExportIdempotent`) |
| Exporter.StripExportedElement | src/components/json-exporter.tsx:30-34 | stripping an already exported element changes nothing |
| Exporter.StripKeepsText | src/components/json-exporter.tsx:22-34 | an element with non-blank text stays such an element after stripping to `{ type, text }` |
| Exporter.ExportedElementsShape | src/components/json-exporter.tsx:22-34 | every element a slide exports with has only `type` and `text` keys and non-blank text |
| Exporter.TransformedShape | src/components/json-exporter.tsx:15-48 | every exported slide is exactly `{ elements }` with a non-empty list of exported elements |
| Exporter.TransformedAppend | src/components/json-exporter.tsx:15-48 | the transform distributes over concatenation, so surviving slides keep their order |
| Exporter.SlideDroppedIff | src/components/json-exporter.tsx:18-39 | a slide is dropped exactly when its elements are missing or not an array, or no element has non-blank text |
| Exporter.ExportedElementsOfExported | src/components/json-exporter.tsx:22-34 | a list of elements that are already exported, each `{ type, text }` with non-blank text, exports as itself |
| Exporter.TransformExportedSlide | src/components/json-exporter.tsx:15-44 | an exported slide transforms to itself |
| Exporter.TransformIdempotent | src/components/json-exporter.tsx:15-48 | transforming transformed slides changes nothing |
| Exporter.ExportIdempotent | src/components/json-exporter.tsx:71-73 | exporting an exported value gives the same value |
| Exporter.TrimTrailingIsPrefix | src/components/json-exporter.tsx:50-65 | the trailing-pop loop keeps a prefix of the slides, no longer than they are |
| Exporter.TrimTrailingMeaning | src/components/json-exporter.tsx:50-65 | the trailing-pop loop leaves a prefix that is empty or ends in a slide with content, and every removed slide lacks content |
| Exporter.TrimTrailingIdempotent | src/components/json-exporter.tsx:50-65 | popping trailing slides twice is popping them once |
| Exporter.TrimRemovesNothingAfterTransform | src/components/json-exporter.tsx:50-65 | after the map and filter, every slide has content, so the loop pops nothing |
| Exporter.ExportOmitsEmptyLastSlide | src/components/json-exporter.tsx:36-39 | a last slide with no elements is left out of the export |
| Exporter.ExportThenImportKeepsEverySlide | src/components/json-exporter.tsx:12-73 | re-importing an export through the unstyled path filters no slide out, so a successful import yields as many slides as were exported |
| ImporterDialog.CaughtMessage | src/components/json-importer.tsx:47 | an `Error`'s own message, otherwise "Invalid JSON format" |
| ImporterDialog.SubmitVerdict | src/components/json-importer.tsx:34-49 | blank text is refused with "Please paste some JSON content"; a parse or import failure gives its caught message; otherwise the imported document |
| ImporterDialog.SubmitRejectedIff | src/components/json-importer.tsx:34-49 | a submission is refused exactly when the text is blank or parsing or importing throws; an accepted one carries the imported document |
| ImporterDialog.JsonImporter.constructor | src/components/json-importer.tsx:27-29 | the dialog starts closed with empty text and no error |
| ImporterDialog.JsonImporter.SetOpen | src/components/json-importer.tsx:52 | `onOpenChange` sets only the open flag |
| ImporterDialog.JsonImporter.EditText | src/components/json-importer.tsx:79-82 | editing replaces the text and clears the error |
| ImporterDialog.JsonImporter.HandlePasteSubmit | src/components/json-importer.tsx:34-49 | a refused submission shows its message and changes neither the text, the open flag nor the form; an accepted one writes the document, clears text and error, and closes |
| ImporterDialog.JsonImporter.SubmitFile | src/components/json-importer.tsx:66-69 | the file tab hands the first file to the hook and closes the dialog whatever the import does |
| Menubar.ImportDialogContent.constructor | src/components/editor-menubar.tsx:44-45 | the dialog body starts with empty text and no error |
| Menubar.ImportDialogContent.SetDialogOpen | src/components/editor-menubar.tsx:136-139 | `onOpenChange` sets only the dialog's open flag |
| Menubar.ImportDialogContent.Close | src/components/editor-menubar.tsx:156 | `onClose` closes the dialog and nothing else |
| Menubar.ImportDialogContent.PasteAndClose | src/components/editor-menubar.tsx:152-155 | the paste wrapper imports, then closes the dialog only if the import did not throw |
| Menubar.ImportDialogContent.EditText | src/components/editor-menubar.tsx:86-89 | editing replaces the text and clears the error |
| Menubar.ImportDialogContent.HandlePasteSubmit | src/components/editor-menubar.tsx:47-62 | same verdict as the standalone dialog; on acceptance the form holds the imported document and the dialog is closed |
| Menubar.ImportDialogContent.SubmitFile | src/components/editor-menubar.tsx:73-76 | the file tab hands the first file to the hook and closes the dialog |
| Menubar.EditorMenubar.constructor | src/components/editor-menubar.tsx:107-117 | one settings dialog bound to "config" and one content dialog bound to "slides", both on the same form, both closed |
| Menubar.EditorMenubar.ResetToDefaults | src/components/editor-menubar.tsx:194-198 | the form holds the default document and the pager is on page 0 |
| ImageResize.ContainerSizing | src/components/elements/content-image.tsx:106-112 | the container gets an inline size exactly when the image has a custom size, and a fill class exactly when it has none |
| ImageResize.IsSet | src/components/elements/content-image.tsx:52-53 | a stored dimension is used when it is present and not zero; otherwise the measured one is (a definition) |
| ImageResize.HasCustomSize | src/components/elements/content-image.tsx:41 | both stored dimensions are set (a definition) |
| ImageResize.SizeClass | src/components/elements/content-image.tsx:120-126 | "w-fit h-fit" exactly when there is no custom size and the fit is contain, "w-full h-full" otherwise |
| ImageResize.ObjectFitClass | src/components/elements/content-image.tsx:127-131 | "object-cover" exactly for cover, "object-contain" exactly for contain, empty otherwise |
| ImageResize.ResizedSize | src/components/elements/content-image.tsx:66-75 | a dimension the handle moves is at least 50; a dimension it does not move keeps its start value |
| ImageResize.ContentImage.constructor | src/components/elements/content-image.tsx:35-38 | a new element is not resizing and has no handle and no start |
| ImageResize.ContentImage.Tracking | src/components/elements/content-image.tsx:64 | a move resizes only while resizing, with a recorded start and a non-empty handle (a definition) |
| ImageResize.ContentImage.HandleMouseDown | src/components/elements/content-image.tsx:43-61 | resizing starts with the handle; with a container, the start is the pointer and the stored size where set, else the measured size; without one the old start stays |
| ImageResize.ContentImage.HandleMouseMove | src/components/elements/content-image.tsx:63-79 | while resizing with a start and a non-empty handle, the stored size becomes the size computed from the start; a corner handle then gives a custom size; otherwise nothing changes |
| ImageResize.ContentImage.HandleMouseUp | src/components/elements/content-image.tsx:81-85 | resizing stops and the handle and start are forgotten |
| ImageResize.LastMoveDecides | src/components/elements/content-image.tsx:63-79 | a move to one point followed by a move to another leaves the size a single move to the second point gives, and the drag state unchanged: sizes are measured from the start, not accumulated |
| BrandValidation.ParseAvatar | src/lib/validation/brand-schema.tsx:5 | an absent avatar is replaced by the default image input before the image schema; its issues are located under "avatar" |
| BrandValidation.ParseName | src/lib/validation/brand-schema.tsx:6-11 | an accepted name has at most 30 characters; an absent name becomes "Alexander Stoliarchuk"; a longer one is refused with "Name must not be longer than 30 characters."; a non-string is refused |
| BrandValidation.ParseHandle | src/lib/validation/brand-schema.tsx:12 | accepted exactly when present and a string; absent is "Required" |
| BrandValidation.ParseBrand | src/lib/validation/brand-schema.tsx:4-13 | a non-object is refused; otherwise accepted exactly when all three keys are, with every issue reported in key order |
| BrandValidation.NameTooLongRejected | src/lib/validation/brand-schema.tsx:6-10 | a name over 30 characters makes the brand fail with the schema's message among its issues |
| BrandValidation.HandleRequired | src/lib/validation/brand-schema.tsx:12 | an object without a handle fails with a "Required" issue for it |
| BrandValidation.DefaultsApply | src/lib/validation/brand-schema.tsx:4-13 | an object with only a handle gets the default name and the default avatar |
| BrandValidation.BrandRoundTrip | src/lib/validation/brand-schema.tsx:4-13 | a brand written back as JSON parses to itself when its name is within the limit and the image schema keeps its avatar |
| BrandValidation.ExtraKeysIgnored | src/lib/validation/brand-schema.tsx:4-13 | keys other than avatar, name and handle do not change the result |

## Left out

- ImportHook.FieldsFileImporter.CorrectSlideCount: this is the loop the code evidently intends, whose guard reads the live slide count. The source's guard reads `fields.length` captured when the timeout was scheduled, and that never changes inside the loop. It is modelled separately as `CorrectSlideCountAsWritten`; see Findings.
- The `setTimeout(…, 150)` around the count-correction loops: the correction runs right after the replace. A race with another edit inside those 150 ms is not modelled.
- `FileReader`: reading is synchronous here. A file is given by its text. The reader callback's `!e.target` branch, which only logs, is not modelled.
- The schemas `ConfigSchema`, `UnstyledMultiSlideSchema`, `MultiSlideSchema`, `CommonSlideSchema` and `ImageSchema`, and the inputs `DEFAULT_BACKGROUND_IMAGE_INPUT` and `DEFAULT_IMAGE_INPUT`: document-schema, slide-schema and image-schema are not part of this model. They are parameters, so every property holds for any schema.
- `JSON.parse`, `JSON.stringify` and the download link: parsing is a parameter, and serialisation and the file download are I/O.
- Console logging, which has no effect on state.
- Numbers are integers. Image sizes are whole pixels, and opacity and other fractional style values are not modelled.
- `BrandValidation.ParseName`: the 30-character limit counts characters, not UTF-16 code units.
- `BrandValidation.ParseBrand`: issue messages other than the name limit, and zod's exact issue records, are simplified to the `IssueKind` cases.
- React rendering, re-render timing and stale closures: each handler sees the latest state.
- Unmounting `DialogContent` resets the dialog's local text and error in React. That reset is not modelled.
- The image element's selection outline, placeholder source and mouse listeners: only the resize handlers and the size classes are modelled.
- The menubar's filename form and export menu items: they pass the watched values to `Exporter.ExportData`.

## Findings

| source | as written | input that shows it | evidently intended | confidence | as-written member | corrected member |
|---|---|---|---|---|---|---|
| src/lib/hooks/use-fields-file-importer.tsx:207-211 | The loop guard `slidesFieldArray.fields.length > expectedCount` reads the field array from the render that scheduled the timeout. That array does not change while the synchronous loop runs, and every pass calls `remove(snapshot - 1)`. The loops at 89-91, 124-126 and 242-244 are the same; the reader callback's copy captures an even older render. | Any import that brings fewer slides than the form holds, for example one slide pasted into a form of three. The guard stays `3 > 1` on every pass, so the loop never ends and the tab hangs, with or without stale entries (`CorrectSlideCountAsWritten`: with `snapshot > expected` every pass of any budget runs). With a stale entry, `remove(2)` is also past the end, so the entry is never removed (`SnapshotLoopKeepsStaleEntry`). | Remove from the end until the live array holds the expected count. | medium, not executed | ImportHook.FieldsFileImporter.CorrectSlideCountAsWritten, ImportHook.SnapshotLoopKeepsStaleEntry | ImportHook.FieldsFileImporter.CorrectSlideCount |
