/**
  The rich-text Editor widget (`editorImpl`): a component with text, an
  enabled flag, a read-only flag kept as the `readonly` attribute, and a
  number of rows and columns. It takes new text from a request that carries
  a component value and renders itself as a `div` followed by the script
  that mounts an inline CKEditor on it and reports every change back.
 */
module Editor {
  import opened Form
  import opened Component
  import opened Html

  const ReadOnlyAttr: string := "readonly"
  const EditorStyleClass: string := "gwu-Editor"

  /** The editor is read-only when its `readonly` attribute is non-empty. */
  function IsReadOnly(attrs: Attrs): bool
  {
    |Attr(attrs, ReadOnlyAttr)| > 0
  }

  /**
    The attributes after `SetReadOnly(b)`: `readonly` holds "readonly" or "",
    so the flag reads back as `b`, and no other attribute changes.
   */
  function WithReadOnly(attrs: Attrs, b: bool): (r: Attrs)
    ensures IsReadOnly(r) == b
    ensures Attr(r, ReadOnlyAttr) == if b then "readonly" else ""
    ensures forall k :: k != ReadOnlyAttr ==> Attr(r, k) == Attr(attrs, k)
  {
    SetAttr(attrs, ReadOnlyAttr, if b then "readonly" else "")
  }

  /** Only the last `SetReadOnly` counts: setting the flag twice is setting it once. */
  lemma ReadOnlyLastWins(attrs: Attrs, a: bool, b: bool)
    ensures forall k :: Attr(WithReadOnly(WithReadOnly(attrs, a), b), k) == Attr(WithReadOnly(attrs, b), k)
  {
  }

  // The fixed pieces of the markup and of the script template; the script's
  // `%d` holes are where the component id goes.

  const DivOpen: string := "<div"
  const DivOpenClose: string := "\">\n"
  const DivClose: string := "</div>"

  /**
    The fixed text `Render` writes first: `<script>`, a comment and the
    definition of the CKEditor upload adapter (editor.go, lines 172-255, up
    to and including the line break after its closing `};`). It has no holes
    and runs only in the browser, so it is a constant whose characters are
    not spelled out.
   */
  const UploadAdapterScript: string

  const DeclareEditor: string :=
    "\n" +
    "    let editor"

  const ScriptHead: string := UploadAdapterScript + DeclareEditor

  const CreateCall: string :=
    ";\n" +
    "    InlineEditor\n" +
    "    .create( "

  const ElementLookupOpen: string := "document.getElementById( '"

  const ElementLookupClose: string := "' )"

  const ThenAssign: string :=
    " )\n" +
    "    .then( newEditor => {\n" +
    "      editor"

  const AssignedEditor: string :=
    " = newEditor;\n" +
    "      editor"

  const OnChangeData: string :=
    ".model.document.on( 'change:data', () => { \n" +
    "        value = editor"

  const GetData: string :=
    ".getData()\n" +
    "        //console.log(\"The data has changed!\" + value ); \n" +
    "        "

  const ReportChangeOpen: string := "se(null,11,"

  const ReportChangeClose: string := ",encodeURIComponent(value))"

  const UploadAdapterHook: string :=
    "\n" +
    "      } );\n" +
    "      editor"

  const UploadAdapterFactory: string :=
    ".plugins.get('FileRepository').createUploadAdapter = function(loader) {\n" +
    "        return new Adapter(loader, '/upload.php?token=b4d455', editor"

  const ScriptTail: string :=
    ".t);\n" +
    "      };\n" +
    "    })\n" +
    "    .catch( error => {\n" +
    "      console.error( error );\n" +
    "    });\n" +
    "    </script>"

  /** The template's literal pieces; each `%d` hole between two of them takes the id. */
  const ScriptPieces: seq<string> := [
    ScriptHead, CreateCall + ElementLookupOpen, ElementLookupClose + ThenAssign, AssignedEditor,
    OnChangeData, GetData + ReportChangeOpen, ReportChangeClose + UploadAdapterHook,
    UploadAdapterFactory, ScriptTail]

  /** The template's arguments: the id, formatted with `%d`, in all eight holes. */
  function ScriptArgs(id: int): (args: seq<string>)
    ensures |args| == |ScriptPieces| - 1
    ensures forall k :: 0 <= k < |args| ==> args[k] == FormatInt(id)
  {
    var d := FormatInt(id);
    [d, d, d, d, d, d, d, d]
  }

  /** The script `Render` writes after the `div`. */
  function Script(id: int): string
  {
    Format(ScriptPieces, ScriptArgs(id))
  }

  /** Everything `Render` writes for a component state and text, in order. */
  function Markup(c: CompState, text: string, h: RenderHelpers, encode: string -> string): string
  {
    DivOpen + h.attrsAndStyle(c) + h.enabled(c) + h.eHandlers(c) + DivOpenClose +
    encode(text) + DivClose + Script(c.id)
  }

  /** The markup opens the `div` and places the text, as the sink writes it, inside it. */
  lemma MarkupHoldsText(c: CompState, text: string, h: RenderHelpers, encode: string -> string)
    ensures DivOpen <= Markup(c, text, h, encode)
    ensures Contains(Markup(c, text, h, encode), DivOpenClose + encode(text) + DivClose)
  {
    var head := DivOpen + h.attrsAndStyle(c) + h.enabled(c) + h.eHandlers(c);
    ContainsMiddle(head, DivOpenClose, encode(text), DivClose, Script(c.id));
  }

  /** The script mounts the editor on the element whose id is the component's. */
  lemma ScriptMountsOnComponent(id: int)
    ensures Contains(Script(id), "document.getElementById( '" + FormatInt(id) + "' )")
  {
    var d := FormatInt(id);
    FormatWindow(ScriptPieces, ScriptArgs(id), 1, 2);
    FormatOneHole(ScriptPieces[1..3], ScriptArgs(id)[1..2]);
    ContainsRegrouped(CreateCall, ElementLookupOpen, d, ElementLookupClose, ThenAssign);
    ContainsTransitive(Script(id), ScriptPieces[1] + d + ScriptPieces[2], ElementLookupOpen + d + ElementLookupClose);
  }

  /** Every change of the document is reported as event 11 for the component's id. */
  lemma ScriptReportsChange(id: int)
    ensures Contains(Script(id), "se(null,11," + FormatInt(id) + ",encodeURIComponent(value))")
  {
    var d := FormatInt(id);
    FormatWindow(ScriptPieces, ScriptArgs(id), 5, 6);
    FormatOneHole(ScriptPieces[5..7], ScriptArgs(id)[5..6]);
    ContainsRegrouped(GetData, ReportChangeOpen, d, ReportChangeClose, UploadAdapterHook);
    ContainsTransitive(Script(id), ScriptPieces[5] + d + ScriptPieces[6], ReportChangeOpen + d + ReportChangeClose);
  }

  /** Different components get different scripts: the script determines the id. */
  lemma ScriptDeterminesId(a: int, b: int)
    requires Script(a) == Script(b)
    ensures a == b
  {
    var ra := Format(ScriptPieces[1..], ScriptArgs(a)[1..]);
    var rb := Format(ScriptPieces[1..], ScriptArgs(b)[1..]);
    AppendAssoc(ScriptHead, FormatInt(a), ra);
    AppendAssoc(ScriptHead, FormatInt(b), rb);
    PrefixCancel(ScriptHead, FormatInt(a) + ra, FormatInt(b) + rb);
    FormatStartsWithFirstPiece(ScriptPieces[1..], ScriptArgs(a)[1..]);
    FormatStartsWithFirstPiece(ScriptPieces[1..], ScriptArgs(b)[1..]);
    assert ScriptPieces[1][0] == ';';
    FormatIntDelimited(a, b, ra, rb);
  }

  /** The Editor component: the Go struct's fields, updated in place. */
  class EditorImpl {
    var comp: CompState
    var text: string
    var rows: int
    var cols: int

    /**
      `newEditorImpl`: the given text, one row of twenty columns, and the value
      synchronized on change. `base` is the state `newCompImpl` and
      `newHasEnabledImpl` give a fresh component (its id among it); the
      password flag is accepted and not used.
     */
    constructor Init(base: CompState, text: string, isPassw: bool)
      ensures comp == AddSyncOnEType(base, ETypeChange)
      ensures ETypeChange in comp.syncOnETypes
      ensures this.text == text && rows == 1 && cols == 20
    {
      comp := AddSyncOnEType(base, ETypeChange);
      this.text := text;
      rows, cols := 1, 20;
    }

    /** `NewEditor`: `newEditorImpl` plus the "gwu-Editor" style class. */
    constructor (base: CompState, text: string)
      ensures comp == AddClass(AddSyncOnEType(base, ETypeChange), EditorStyleClass)
      ensures ETypeChange in comp.syncOnETypes && EditorStyleClass in comp.styleClasses
      ensures this.text == text && rows == 1 && cols == 20
    {
      comp := AddClass(AddSyncOnEType(base, ETypeChange), EditorStyleClass);
      this.text := text;
      rows, cols := 1, 20;
    }

    function ReadOnly(): bool
      reads this
    {
      IsReadOnly(comp.attrs)
    }

    method SetReadOnly(readOnly: bool)
      modifies this
      ensures ReadOnly() == readOnly
      ensures comp == old(comp).(attrs := WithReadOnly(old(comp.attrs), readOnly))
      ensures text == old(text) && rows == old(rows) && cols == old(cols)
    {
      if readOnly {
        comp := comp.(attrs := SetAttr(comp.attrs, ReadOnlyAttr, "readonly"));
      } else {
        comp := comp.(attrs := SetAttr(comp.attrs, ReadOnlyAttr, ""));
      }
    }

    function Rows(): int
      reads this
    {
      rows
    }

    /** Any number is accepted: there is no range check. */
    method SetRows(rows: int)
      modifies this
      ensures Rows() == rows
      ensures comp == old(comp) && text == old(text) && cols == old(cols)
    {
      this.rows := rows;
    }

    function Cols(): int
      reads this
    {
      cols
    }

    /** Any number is accepted: there is no range check. */
    method SetCols(cols: int)
      modifies this
      ensures Cols() == cols
      ensures comp == old(comp) && text == old(text) && rows == old(rows)
    {
      this.cols := cols;
    }

    /**
      Takes the component value from the request: a value that is present
      (even the empty string) replaces the text, an absent one changes
      nothing. Neither the event nor the read-only flag has a say, and
      nothing but the text changes.
     */
    method PreprocessEvent(event: Event, r: Request)
      modifies this
      ensures text == ValueIntake(old(text), r.form)
      ensures comp == old(comp) && rows == old(rows) && cols == old(cols)
    {
      var value := FormValue(r.form, ParamCompValue);
      if |value| > 0 {
        text := value;
      } else {
        // An empty value is still a value when the parameter is present.
        if ParamCompValue in r.form {
          var values := r.form[ParamCompValue];
          if |values| > 0 {
            text := values[0];
          }
        }
      }
    }

    /**
      Appends the markup for the current state to `w`: the `div` with the
      attribute, enabled and event-handler markup, the text, `</div>`, and
      the script. Rows and columns are not rendered. Only `w` changes.
     */
    method Render(w: Writer, h: RenderHelpers)
      modifies w
      ensures w.out == old(w.out) + Markup(comp, text, h, w.encode)
    {
      ghost var start := w.out;
      w.Write(DivOpen);
      ghost var written := DivOpen;
      w.Write(h.attrsAndStyle(comp));
      AppendAssoc(start, written, h.attrsAndStyle(comp));
      written := written + h.attrsAndStyle(comp);
      w.Write(h.enabled(comp));
      AppendAssoc(start, written, h.enabled(comp));
      written := written + h.enabled(comp);
      w.Write(h.eHandlers(comp));
      AppendAssoc(start, written, h.eHandlers(comp));
      written := written + h.eHandlers(comp);
      w.Write(DivOpenClose);
      AppendAssoc(start, written, DivOpenClose);
      written := written + DivOpenClose;
      w.Writes(text);
      AppendAssoc(start, written, w.encode(text));
      written := written + w.encode(text);
      w.Write(DivClose);
      AppendAssoc(start, written, DivClose);
      written := written + DivClose;
      w.Write(Script(comp.id));
      AppendAssoc(start, written, Script(comp.id));
    }
  }

  /** Rendering an unchanged editor twice gives the same output both times. */
  method RenderTwice(c: EditorImpl, h: RenderHelpers, encode: string -> string)
    returns (first: string, second: string)
    ensures first == second
    ensures first == Markup(c.comp, c.text, h, encode)
  {
    var w1 := new Writer(encode);
    c.Render(w1, h);
    first := w1.out;
    var w2 := new Writer(encode);
    c.Render(w2, h);
    second := w2.out;
  }

  /**
    A request without the value parameter keeps the text; one that carries
    the empty string as the value sets the text to "".
   */
  method EmptyVersusAbsent(base: CompState) returns (afterAbsent: string, afterEmpty: string)
    ensures afterAbsent == "hello"
    ensures afterEmpty == ""
  {
    var c := new EditorImpl(base, "hello");
    c.PreprocessEvent(Event(ETypeChange, base.id), Request(map[]));
    afterAbsent := c.text;
    c.PreprocessEvent(Event(ETypeChange, base.id), Request(map[ParamCompValue := [""]]));
    afterEmpty := c.text;
  }

  /** A read-only editor still takes the value the request carries. */
  method ReadOnlyDoesNotBlockIntake(base: CompState, text: string, v: string)
    returns (readOnly: bool, after: string)
    ensures readOnly
    ensures after == v
  {
    var c := new EditorImpl(base, text);
    c.SetReadOnly(true);
    c.PreprocessEvent(Event(ETypeChange, base.id), Request(map[ParamCompValue := [v]]));
    readOnly := c.ReadOnly();
    after := c.text;
  }
}
