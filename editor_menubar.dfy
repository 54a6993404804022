/** The editor's File menu: the settings and content import dialogs, each an
    `ImportDialogContent` whose paste handler and `onClose` both close the
    dialog, and the "Reset to defaults" action. */
module Menubar {
  import opened Wrappers
  import opened JsonValues
  import opened ImportHook
  import opened ImporterDialog

  /** The body of one import dialog. `dialogOpen` is the menubar's flag for
      this dialog (`isConfigDialogOpen` or `isContentDialogOpen`), which only
      the paste wrapper and `onClose` set from here. */
  class ImportDialogContent {
    var jsonText: string
    var error: Option<string>
    var dialogOpen: bool
    /** The hook instance whose handlers the dialog receives. */
    const importer: FieldsFileImporter

    constructor (importer: FieldsFileImporter)
      ensures this.importer == importer
      ensures jsonText == "" && error == None && !dialogOpen
    {
      this.importer := importer;
      jsonText := "";
      error := None;
      dialogOpen := false;
    }

    /** `onOpenChange` on the enclosing dialog. */
    method SetDialogOpen(value: bool)
      modifies this
      ensures dialogOpen == value && jsonText == old(jsonText) && error == old(error)
    {
      dialogOpen := value;
    }

    /** `onClose`. */
    method Close()
      modifies this
      ensures !dialogOpen && jsonText == old(jsonText) && error == old(error)
    {
      dialogOpen := false;
    }

    /** The `handleJsonPaste` prop: the hook's handler, then close the dialog.
        When the handler throws, the close is not reached. */
    method PasteAndClose(json: Json, stale: seq<Json>) returns (outcome: Outcome<Thrown>)
      modifies this, importer.form
      ensures Reflects(Imported(importer.field, json, importer.schemas, old(importer.form.Doc())),
                       outcome, old(importer.form.Doc()), importer.form.Doc())
      ensures dialogOpen == (old(dialogOpen) && outcome.Fail?)
      ensures jsonText == old(jsonText) && error == old(error)
    {
      outcome := importer.HandleJsonPaste(json, stale);
      if outcome.Fail? {
        return;
      }
      dialogOpen := false;
    }

    /** The textarea's `onChange`. */
    method EditText(text: string)
      modifies this
      ensures jsonText == text && error == None && dialogOpen == old(dialogOpen)
    {
      jsonText := text;
      error := None;
    }

    /** `handlePasteSubmit`: on success the wrapper closes the dialog and
        `onClose` closes it again, which changes nothing. */
    method HandlePasteSubmit(parse: JsonParser, stale: seq<Json>)
      modifies this, importer.form
      ensures match SubmitVerdict(old(jsonText), parse, importer.field, importer.schemas, old(importer.form.Doc()))
        case Rejected(m) =>
          error == Some(m) && jsonText == old(jsonText) && dialogOpen == old(dialogOpen)
          && importer.form.Doc() == old(importer.form.Doc())
        case Accepted(d) =>
          error == None && jsonText == "" && !dialogOpen && importer.form.Doc() == d
    {
      TrimEmptyIffBlank(jsonText);
      if Trim(jsonText) == "" {
        error := Some(EMPTY_INPUT_MESSAGE);
        return;
      }
      var parsed := parse(jsonText);
      if parsed.Failure? {
        error := Some(CaughtMessage(parsed.error));
        return;
      }
      var outcome := PasteAndClose(parsed.value, stale);
      if outcome.Fail? {
        error := Some(CaughtMessage(outcome.error));
        return;
      }
      error := None;
      jsonText := "";
      Close();
    }

    /** The file tab's submit: hand the files to the hook, then `onClose`. */
    method SubmitFile(files: seq<string>, parse: JsonParser, stale: seq<Json>)
      modifies this, importer.form
      ensures !dialogOpen && jsonText == old(jsonText) && error == old(error)
      ensures |files| > 0 && importer.readerReady ==>
        match ParsedAndImported(files[0], parse, importer.field, importer.schemas, old(importer.form.Doc()))
        case Success(d) => importer.form.Doc() == d
        case Failure(_) => importer.form.Doc() == old(importer.form.Doc())
      ensures |files| == 0 || !importer.readerReady ==> importer.form.Doc() == old(importer.form.Doc())
    {
      var _ := importer.HandleFileSubmission(files, parse, stale);
      Close();
    }
  }

  /** The menubar: one form, a settings dialog bound to "config", a content
      dialog bound to "slides", and the pager's current page. */
  class EditorMenubar {
    const form: DocumentForm
    const configDialog: ImportDialogContent
    const contentDialog: ImportDialogContent
    /** The pager's current page. */
    var currentPage: int

    ghost predicate Valid()
      reads this, configDialog, contentDialog
    {
      && configDialog != contentDialog
      && configDialog.importer.field == "config" && configDialog.importer.form == form
      && contentDialog.importer.field == "slides" && contentDialog.importer.form == form
    }

    constructor (form: DocumentForm, schemas: Schemas, currentPage: int)
      ensures Valid() && this.form == form && this.currentPage == currentPage
      ensures configDialog.importer.schemas == schemas && contentDialog.importer.schemas == schemas
      ensures !configDialog.dialogOpen && !contentDialog.dialogOpen
      ensures fresh(configDialog) && fresh(contentDialog)
    {
      var configImporter := new FieldsFileImporter("config", form, schemas);
      var contentImporter := new FieldsFileImporter("slides", form, schemas);
      this.form := form;
      configDialog := new ImportDialogContent(configImporter);
      contentDialog := new ImportDialogContent(contentImporter);
      this.currentPage := currentPage;
    }

    /** "Reset to defaults": the form is reset to the default document and the
        pager goes back to the first page; the dialogs are untouched. */
    method ResetToDefaults(defaults: Document)
      requires Valid()
      modifies this, form
      ensures Valid()
      ensures form.Doc() == defaults && currentPage == 0
      ensures configDialog.dialogOpen == old(configDialog.dialogOpen)
      ensures contentDialog.dialogOpen == old(contentDialog.dialogOpen)
    {
      form.Reset(defaults);
      currentPage := 0;
    }
  }
}
