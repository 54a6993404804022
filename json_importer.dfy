/** The `JsonImporter` dialog: a paste box and a file picker in front of the
    import hook, with `open`, `jsonText` and `error` as its state. */
module ImporterDialog {
  import opened Wrappers
  import opened JsonValues
  import opened ImportHook

  const EMPTY_INPUT_MESSAGE: string := "Please paste some JSON content"
  const INVALID_JSON_MESSAGE: string := "Invalid JSON format"

  /** The message the catch block shows for a thrown value. */
  function CaughtMessage(thrown: Thrown): (message: string)
    ensures thrown.ErrorInstance? ==> message == thrown.message
    ensures thrown.NonErrorValue? ==> message == INVALID_JSON_MESSAGE
  {
    match thrown
    case ErrorInstance(m) => m
    case NonErrorValue => INVALID_JSON_MESSAGE
  }

  /** Where submitting pasted text leads: rejected with a message, or accepted
      with the document the import produced. */
  datatype Verdict = Rejected(message: string) | Accepted(doc: Document)

  /** The decision `handlePasteSubmit` makes: blank text is refused, a parse or
      import failure becomes its message, anything else is imported once. */
  function SubmitVerdict(text: string, parse: JsonParser, field: string, s: Schemas, doc: Document)
    : (v: Verdict)
    ensures Blank(text) ==> v == Rejected(EMPTY_INPUT_MESSAGE)
    ensures !Blank(text) && parse(text).Failure? ==> v == Rejected(CaughtMessage(parse(text).error))
    ensures !Blank(text) && parse(text).Success? ==>
      match Imported(field, parse(text).value, s, doc)
      case Success(d) => v == Accepted(d)
      case Failure(e) => v == Rejected(CaughtMessage(e))
  {
    TrimEmptyIffBlank(text);
    if Trim(text) == "" then Rejected(EMPTY_INPUT_MESSAGE)
    else
      match ParsedAndImported(text, parse, field, s, doc)
      case Success(d) => Accepted(d)
      case Failure(e) => Rejected(CaughtMessage(e))
  }

  /** A submission is rejected exactly when the text is blank or parsing or
      importing throws; an accepted one carries the imported document. */
  lemma SubmitRejectedIff(text: string, parse: JsonParser, field: string, s: Schemas, doc: Document)
    ensures SubmitVerdict(text, parse, field, s, doc).Rejected? <==>
      Blank(text) || ParsedAndImported(text, parse, field, s, doc).Failure?
    ensures SubmitVerdict(text, parse, field, s, doc).Accepted? ==>
      ParsedAndImported(text, parse, field, s, doc) == Success(SubmitVerdict(text, parse, field, s, doc).doc)
  {
  }

  class JsonImporter {
    var open: bool
    var jsonText: string
    var error: Option<string>
    /** The hook instance for this dialog's field. */
    const importer: FieldsFileImporter

    constructor (importer: FieldsFileImporter)
      ensures this.importer == importer
      ensures !open && jsonText == "" && error == None
    {
      this.importer := importer;
      open := false;
      jsonText := "";
      error := None;
    }

    /** `onOpenChange`: the trigger and the dialog chrome open and close it. */
    method SetOpen(value: bool)
      modifies this
      ensures open == value && jsonText == old(jsonText) && error == old(error)
    {
      open := value;
    }

    /** The textarea's `onChange`: the text is replaced and any error cleared. */
    method EditText(text: string)
      modifies this
      ensures jsonText == text && error == None && open == old(open)
    {
      jsonText := text;
      error := None;
    }

    /** `handlePasteSubmit`. */
    method HandlePasteSubmit(parse: JsonParser, stale: seq<Json>)
      modifies this, importer.form
      ensures match SubmitVerdict(old(jsonText), parse, importer.field, importer.schemas, old(importer.form.Doc()))
        case Rejected(m) =>
          error == Some(m) && jsonText == old(jsonText) && open == old(open)
          && importer.form.Doc() == old(importer.form.Doc())
        case Accepted(d) =>
          error == None && jsonText == "" && !open && importer.form.Doc() == d
    {
      TrimEmptyIffBlank(jsonText);
      if Trim(jsonText) == "" {
        error := Some(EMPTY_INPUT_MESSAGE);
        return;
      }
      var parsed := parse(jsonText);
      if parsed.Failure? {
        error := Some(CaughtMessage(parsed.error));
        return;
      }
      var outcome := importer.HandleJsonPaste(parsed.value, stale);
      if outcome.Fail? {
        error := Some(CaughtMessage(outcome.error));
        return;
      }
      error := None;
      jsonText := "";
      open := false;
    }

    /** The file tab's submit: hand the files to the hook, then close. A failure
        inside the reader callback is not caught by the dialog. */
    method SubmitFile(files: seq<string>, parse: JsonParser, stale: seq<Json>)
      modifies this, importer.form
      ensures !open && jsonText == old(jsonText) && error == old(error)
      ensures |files| > 0 && importer.readerReady ==>
        match ParsedAndImported(files[0], parse, importer.field, importer.schemas, old(importer.form.Doc()))
        case Success(d) => importer.form.Doc() == d
        case Failure(_) => importer.form.Doc() == old(importer.form.Doc())
      ensures |files| == 0 || !importer.readerReady ==> importer.form.Doc() == old(importer.form.Doc())
    {
      var _ := importer.HandleFileSubmission(files, parse, stale);
      open := false;
    }
  }
}
