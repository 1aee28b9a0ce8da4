/**
  The JSON-schema editor widget (`jsonEditImpl`): a component with text (the
  current JSON value, kept as a string) and a schema. It takes new text from
  a request exactly as the Editor does and renders an empty `div` followed by
  a script that builds a JSONEditor on it with the schema and, when there is
  text, the text as the starting value.
 */
module JsonEdit {
  import opened Form
  import opened Component
  import opened Html

  const JsonEditStyleClass: string := "gwu-JSONEdit"

  // The fixed pieces of the two script templates; the `%d` holes take the
  // component id, the `%s` holes the schema and the text, verbatim.

  const DivIdOpen: string := "<div id=\""
  const DivIdClose: string := "\" />"

  const ScriptOpen: string :=
    "\n" +
    "<script>\n" +
    "      // Initialize the " +
    "editor with a JSON schema\n" +
    "      var editor"

  const NewEditorCall: string := " = new JSONEditor(document.getElementById('"

  const ElementClose: string :=
    "'),{\n" +
    "        "

  const SchemaKey: string := "schema: "

  const StartvalKey: string :=
    ",\n" +
    "\tstartval: "

  const Options: string :=
    ",\n" +
    "        theme: 'bootstrap4',\n" +
    "        disable_collapse: true,\n" +
    "\tdisable_edit_json: true,\n" +
    "\tdisable_properties: true,\n" +
    "        show_errors: \"change\",\n" +
    "        iconlib: \"bootstrap3\"\n" +
    "      });\n" +
    "      \n"

  const SubmitComments: string :=
    "      // Hook up the submit " +
    "button to log to the console\n" +
    "      //document.getElementById('submit').addEventListener('click',function() {\n" +
    "        // Get the value from the editor\n" +
    "       // console.log(editor.getValue());\n" +
    "      //});\n"

  const HandlerOpen: string := "      editor"

  const OnChange: string :=
    ".on('change',function() {\n" +
    "  \t// Do something\n" +
    "        value = editor"

  const GetValue: string :=
    ".getValue()\n" +
    "        console.log(\"The data has " +
    "changed!\" + JSON.stringify(value) ); \n" +
    "        "

  const ReportChangeOpen: string := "se2(null,11,"

  const ReportChangeClose: string := ",JSON.stringify(value))"

  const CloseWithStartval: string :=
    "\n" +
    "       });\n" +
    "    </script>\n" +
    "  "

  const CloseWithoutStartval: string :=
    "\n" +
    "       });\n" +
    "\t\n" +
    "    </script>\n" +
    "  "

  /** The template used when there is text: `%d %d %s %s %d %d %d`. */
  const StartvalPieces: seq<string> := [
    ScriptOpen, NewEditorCall, ElementClose + SchemaKey, StartvalKey,
    Options + (SubmitComments + HandlerOpen), OnChange, GetValue + ReportChangeOpen,
    ReportChangeClose + CloseWithStartval]

  /** The template used when the text is empty: `%d %d %s %d %d %d`. */
  const PlainPieces: seq<string> := [
    ScriptOpen, NewEditorCall, ElementClose + SchemaKey, Options + HandlerOpen,
    OnChange, GetValue + ReportChangeOpen, ReportChangeClose + CloseWithoutStartval]

  /** The `<div id="<id>" />` element the editor is built on. */
  function DivTag(id: int): string
  {
    Format([DivIdOpen, DivIdClose], [FormatInt(id)])
  }

  /** The script when there is text: the schema, then the text as `startval`. */
  function StartvalScript(id: int, schema: string, text: string): string
  {
    var d := FormatInt(id);
    Format(StartvalPieces, [d, d, schema, text, d, d, d])
  }

  /** The script when the text is empty: the schema and no starting value. */
  function PlainScript(id: int, schema: string): string
  {
    var d := FormatInt(id);
    Format(PlainPieces, [d, d, schema, d, d, d])
  }

  /** Everything `Render` writes for an id, schema and text. */
  function Markup(id: int, schema: string, text: string): string
  {
    DivTag(id) + if text != "" then StartvalScript(id, schema, text) else PlainScript(id, schema)
  }

  /** The markup begins with the `div` that carries the component's id. */
  lemma MarkupOpensWithDiv(id: int, schema: string, text: string)
    ensures DivTag(id) == "<div id=\"" + FormatInt(id) + "\" />"
    ensures DivTag(id) <= Markup(id, schema, text)
  {
    FormatOneHole([DivIdOpen, DivIdClose], [FormatInt(id)]);
  }

  /** The markup is the `div` followed by a script `s`; what occurs in `s` occurs in the markup. */
  lemma ScriptContained(id: int, s: string, t: string)
    requires Contains(s, t)
    ensures Contains(DivTag(id) + s, t)
  {
    ContainsSuffix(DivTag(id), s);
    ContainsTransitive(DivTag(id) + s, s, t);
  }

  /**
    With text, the schema is written verbatim as the `schema` entry and is
    followed at once by the text, verbatim, as the `startval` entry and then
    by the remaining options.
   */
  lemma StartvalFollowsSchema(id: int, schema: string, text: string)
    requires text != ""
    ensures Contains(Markup(id, schema, text), SchemaKey + schema + StartvalKey + text + Options)
  {
    var d := FormatInt(id);
    FormatTwoHolesBetween(StartvalPieces, [d, d, schema, text, d, d, d], 2,
      ElementClose, SchemaKey, Options, SubmitComments + HandlerOpen);
    ScriptContained(id, StartvalScript(id, schema, text), SchemaKey + schema + StartvalKey + text + Options);
  }

  /**
    Without text, the schema is written verbatim as the `schema` entry and is
    followed at once by the remaining options.
   */
  lemma SchemaThenOptionsWhenEmpty(id: int, schema: string)
    ensures Contains(Markup(id, schema, ""), SchemaKey + schema + Options)
  {
    var d := FormatInt(id);
    FormatHoleBetween(PlainPieces, [d, d, schema, d, d, d], 2, ElementClose, SchemaKey, Options, HandlerOpen);
    ScriptContained(id, PlainScript(id, schema), SchemaKey + schema + Options);
  }

  /** The key of the starting-value entry, which only the template used with text contains. */
  const StartvalWord: string := "startval"

  // No fixed piece of the template used without text contains the word
  // "startval": each of its lines lacks one of the word's letters, or a pair
  // of them side by side, and no occurrence can straddle a line break.

  lemma DivIdOpenAvoidsStartval()
    ensures !Contains(DivIdOpen, StartvalWord)
  {
    LacksChar("<div id=\"", StartvalWord, 0);
  }

  lemma DivIdCloseAvoidsStartval()
    ensures !Contains(DivIdClose, StartvalWord)
  {
    LacksChar("\" />", StartvalWord, 0);
  }

  lemma ScriptOpenAvoidsStartval()
    ensures !Contains(ScriptOpen, StartvalWord)
  {
    LacksChar("\n", StartvalWord, 0);
    LacksChar("<script>\n", StartvalWord, 2);
    AvoidsAppend("\n", "<script>\n", StartvalWord);
    LacksChar("      // Initialize the ", StartvalWord, 0);
    AvoidsAppend("\n" + "<script>\n", "      // Initialize the ", StartvalWord);
    LacksChar("editor with a JSON schema\n", StartvalWord, 5);
    AvoidsAppend("\n" + "<script>\n" + "      // Initialize the ", "editor with a JSON schema\n", StartvalWord);
    LacksChar("      var editor", StartvalWord, 0);
    AvoidsAppend("\n" + "<script>\n" + "      // Initialize the " + "editor with a JSON schema\n", "      var editor", StartvalWord);
  }

  lemma NewEditorCallAvoidsStartval()
    ensures !Contains(NewEditorCall, StartvalWord)
  {
    LacksChar(" = new JSONEditor(document.getElementById('", StartvalWord, 0);
  }

  lemma ElementCloseAvoidsStartval()
    ensures !Contains(ElementClose, StartvalWord)
  {
    LacksChar("'),{\n", StartvalWord, 0);
    LacksChar("        ", StartvalWord, 0);
    AvoidsAppend("'),{\n", "        ", StartvalWord);
  }

  lemma SchemaKeyAvoidsStartval()
    ensures !Contains(SchemaKey, StartvalWord)
  {
    LacksChar("schema: ", StartvalWord, 1);
  }

  lemma OptionsAvoidsStartval()
    ensures !Contains(Options, StartvalWord)
  {
    LacksChar(",\n", StartvalWord, 0);
    LacksChar("        theme: 'bootstrap4',\n", StartvalWord, 5);
    AvoidsAppend(",\n", "        theme: 'bootstrap4',\n", StartvalWord);
    LacksChar("        disable_collapse: true,\n", StartvalWord, 5);
    AvoidsAppend(",\n" + "        theme: 'bootstrap4',\n", "        disable_collapse: true,\n", StartvalWord);
    LacksChar("\tdisable_edit_json: true,\n", StartvalWord, 5);
    AvoidsAppend(",\n" + "        theme: 'bootstrap4',\n" + "        disable_collapse: true,\n", "\tdisable_edit_json: true,\n", StartvalWord);
    LacksChar("\tdisable_properties: true,\n", StartvalWord, 5);
    AvoidsAppend(",\n" + "        theme: 'bootstrap4',\n" + "        disable_collapse: true,\n" + "\tdisable_edit_json: true,\n", "\tdisable_properties: true,\n", StartvalWord);
    LacksChar("        show_errors: \"change\",\n", StartvalWord, 1);
    AvoidsAppend(",\n" + "        theme: 'bootstrap4',\n" + "        disable_collapse: true,\n" + "\tdisable_edit_json: true,\n" + "\tdisable_properties: true,\n", "        show_errors: \"change\",\n", StartvalWord);
    LacksChar("        iconlib: \"bootstrap3\"\n", StartvalWord, 5);
    AvoidsAppend(",\n" + "        theme: 'bootstrap4',\n" + "        disable_collapse: true,\n" + "\tdisable_edit_json: true,\n" + "\tdisable_properties: true,\n" + "        show_errors: \"change\",\n", "        iconlib: \"bootstrap3\"\n", StartvalWord);
    LacksChar("      });\n", StartvalWord, 0);
    AvoidsAppend(",\n" + "        theme: 'bootstrap4',\n" + "        disable_collapse: true,\n" + "\tdisable_edit_json: true,\n" + "\tdisable_properties: true,\n" + "        show_errors: \"change\",\n" + "        iconlib: \"bootstrap3\"\n", "      });\n", StartvalWord);
    LacksChar("      \n", StartvalWord, 0);
    AvoidsAppend(",\n" + "        theme: 'bootstrap4',\n" + "        disable_collapse: true,\n" + "\tdisable_edit_json: true,\n" + "\tdisable_properties: true,\n" + "        show_errors: \"change\",\n" + "        iconlib: \"bootstrap3\"\n" + "      });\n", "      \n", StartvalWord);
  }

  lemma HandlerOpenAvoidsStartval()
    ensures !Contains(HandlerOpen, StartvalWord)
  {
    LacksChar("      editor", StartvalWord, 0);
  }

  lemma OnChangeAvoidsStartval()
    ensures !Contains(OnChange, StartvalWord)
  {
    LacksChar(".on('change',function() {\n", StartvalWord, 0);
    LacksChar("  \t// Do something\n", StartvalWord, 2);
    AvoidsAppend(".on('change',function() {\n", "  \t// Do something\n", StartvalWord);
    LacksChar("        value = editor", StartvalWord, 0);
    AvoidsAppend(".on('change',function() {\n" + "  \t// Do something\n", "        value = editor", StartvalWord);
  }

  lemma GetValueAvoidsStartval()
    ensures !Contains(GetValue, StartvalWord)
  {
    LacksChar(".getValue()\n", StartvalWord, 0);
    LacksChar("        console.log(\"The data has ", StartvalWord, 3);
    AvoidsAppend(".getValue()\n", "        console.log(\"The data has ", StartvalWord);
    LacksPair("changed!\" + JSON.stringify(value) ); \n", StartvalWord, 1);
    AvoidsAppend(".getValue()\n" + "        console.log(\"The data has ", "changed!\" + JSON.stringify(value) ); \n", StartvalWord);
    LacksChar("        ", StartvalWord, 0);
    AvoidsAppend(".getValue()\n" + "        console.log(\"The data has " + "changed!\" + JSON.stringify(value) ); \n", "        ", StartvalWord);
  }

  lemma ReportChangeOpenAvoidsStartval()
    ensures !Contains(ReportChangeOpen, StartvalWord)
  {
    LacksChar("se2(null,11,", StartvalWord, 1);
  }

  lemma ReportChangeCloseAvoidsStartval()
    ensures !Contains(ReportChangeClose, StartvalWord)
  {
    LacksPair(",JSON.stringify(value))", StartvalWord, 1);
  }

  lemma CloseWithoutStartvalAvoidsStartval()
    ensures !Contains(CloseWithoutStartval, StartvalWord)
  {
    LacksChar("\n", StartvalWord, 0);
    LacksChar("       });\n", StartvalWord, 0);
    AvoidsAppend("\n", "       });\n", StartvalWord);
    LacksChar("\t\n", StartvalWord, 0);
    AvoidsAppend("\n" + "       });\n", "\t\n", StartvalWord);
    LacksChar("    </script>\n", StartvalWord, 2);
    AvoidsAppend("\n" + "       });\n" + "\t\n", "    </script>\n", StartvalWord);
    LacksChar("  ", StartvalWord, 0);
    AvoidsAppend("\n" + "       });\n" + "\t\n" + "    </script>\n", "  ", StartvalWord);
  }
  /** No piece of the template used without text contains "startval". */
  lemma PlainPiecesAvoidStartval()
    ensures forall k :: 0 <= k < |PlainPieces| ==> !Contains(PlainPieces[k], StartvalWord)
  {
    ScriptOpenAvoidsStartval();
    NewEditorCallAvoidsStartval();
    ElementCloseAvoidsStartval();
    SchemaKeyAvoidsStartval();
    AvoidsAppend(ElementClose, SchemaKey, StartvalWord);
    OptionsAvoidsStartval();
    HandlerOpenAvoidsStartval();
    AvoidsAppend(Options, HandlerOpen, StartvalWord);
    OnChangeAvoidsStartval();
    GetValueAvoidsStartval();
    ReportChangeOpenAvoidsStartval();
    AvoidsAppend(GetValue, ReportChangeOpen, StartvalWord);
    ReportChangeCloseAvoidsStartval();
    CloseWithoutStartvalAvoidsStartval();
    AvoidsAppend(ReportChangeClose, CloseWithoutStartval, StartvalWord);
  }

  /** The `div` element never contains "startval". */
  lemma DivTagAvoidsStartval(id: int)
    ensures !Contains(DivTag(id), StartvalWord)
    ensures DivTag(id)[|DivTag(id)| - 1] !in StartvalWord
  {
    var d := FormatInt(id);
    FormatIntAvoids(id, StartvalWord);
    DivIdOpenAvoidsStartval();
    DivIdCloseAvoidsStartval();
    FormatOneHole([DivIdOpen, DivIdClose], [d]);
    FormatAvoids([DivIdOpen, DivIdClose], [d], StartvalWord);
  }

  /**
    Without text there is no `startval` entry: unless the schema itself
    contains the word "startval", the markup does not contain it anywhere.
   */
  lemma NoStartvalWhenEmpty(id: int, schema: string)
    requires !Contains(schema, StartvalWord)
    ensures !Contains(Markup(id, schema, ""), StartvalWord)
  {
    var d := FormatInt(id);
    var args := [d, d, schema, d, d, d];
    PlainHolesGuarded(id, schema);
    PlainPiecesAvoidStartval();
    FormatAvoids(PlainPieces, args, StartvalWord);
    DivTagAvoidsStartval(id);
    AvoidsAppend(DivTag(id), PlainScript(id, schema), StartvalWord);
  }

  /**
    In the template used without text no "startval" can straddle a hole: the
    id is made of digits and '-', and the schema sits between a space and a
    comma.
   */
  lemma PlainHolesGuarded(id: int, schema: string)
    requires !Contains(schema, StartvalWord)
    ensures var d := FormatInt(id);
      var args := [d, d, schema, d, d, d];
      (forall k :: 0 <= k < |args| ==> !Contains(args[k], StartvalWord)) &&
      forall k :: 0 <= k < |args| ==> HoleGuarded(PlainPieces[k], args[k], PlainPieces[k + 1], StartvalWord)
  {
    FormatIntAvoids(id, StartvalWord);
    assert PlainPieces[2][|PlainPieces[2]| - 1] == ' ' && PlainPieces[3][0] == ',';
  }

  /**
    The markup has a `startval` entry exactly when there is text: for a
    schema without the word "startval", the word occurs in the markup if
    and only if the text is not empty.
   */
  lemma StartvalIffText(id: int, schema: string, text: string)
    requires !Contains(schema, StartvalWord)
    ensures Contains(Markup(id, schema, text), StartvalWord) <==> text != ""
  {
    if text == "" {
      NoStartvalWhenEmpty(id, schema);
    } else {
      StartvalFollowsSchema(id, schema, text);
      var entry := SchemaKey + schema + StartvalKey + text + Options;
      assert StartvalKey[3..3 + |StartvalWord|] == StartvalWord;
      assert OccursAt(StartvalKey, StartvalWord, 3);
      ContainsWithin(SchemaKey + schema, StartvalKey, text + Options, StartvalWord);
      AppendAssoc(SchemaKey + schema + StartvalKey, text, Options);
      ContainsTransitive(Markup(id, schema, text), entry, StartvalWord);
    }
  }

  /** Both scripts report every change as event 11 for the component's id through `se2`. */
  lemma ChangeHandlerWired(id: int, schema: string, text: string)
    ensures Contains(Markup(id, schema, text), ReportChangeOpen + FormatInt(id) + ReportChangeClose)
  {
    var d := FormatInt(id);
    if text != "" {
      FormatHoleBetween(StartvalPieces, [d, d, schema, text, d, d, d], 6,
        GetValue, ReportChangeOpen, ReportChangeClose, CloseWithStartval);
      ScriptContained(id, StartvalScript(id, schema, text), ReportChangeOpen + d + ReportChangeClose);
    } else {
      FormatHoleBetween(PlainPieces, [d, d, schema, d, d, d], 5,
        GetValue, ReportChangeOpen, ReportChangeClose, CloseWithoutStartval);
      ScriptContained(id, PlainScript(id, schema), ReportChangeOpen + d + ReportChangeClose);
    }
  }

  /** The script builds the editor on the element with the component's id. */
  lemma EditorMountsOnComponent(id: int, schema: string, text: string)
    ensures Contains(Markup(id, schema, text), NewEditorCall + FormatInt(id) + ElementClose)
  {
    var d := FormatInt(id);
    if text != "" {
      FormatHoleBetween(StartvalPieces, [d, d, schema, text, d, d, d], 1,
        "", NewEditorCall, ElementClose, SchemaKey);
      ScriptContained(id, StartvalScript(id, schema, text), NewEditorCall + d + ElementClose);
    } else {
      FormatHoleBetween(PlainPieces, [d, d, schema, d, d, d], 1,
        "", NewEditorCall, ElementClose, SchemaKey);
      ScriptContained(id, PlainScript(id, schema), NewEditorCall + d + ElementClose);
    }
  }

  /** Different components get different markup: the markup determines the id. */
  lemma MarkupDeterminesId(a: int, b: int, s1: string, t1: string, s2: string, t2: string)
    requires Markup(a, s1, t1) == Markup(b, s2, t2)
    ensures a == b
  {
    var ra := if t1 != "" then StartvalScript(a, s1, t1) else PlainScript(a, s1);
    var rb := if t2 != "" then StartvalScript(b, s2, t2) else PlainScript(b, s2);
    FormatOneHole([DivIdOpen, DivIdClose], [FormatInt(a)]);
    FormatOneHole([DivIdOpen, DivIdClose], [FormatInt(b)]);
    AppendAssoc(DivIdOpen + FormatInt(a), DivIdClose, ra);
    AppendAssoc(DivIdOpen, FormatInt(a), DivIdClose + ra);
    AppendAssoc(DivIdOpen + FormatInt(b), DivIdClose, rb);
    AppendAssoc(DivIdOpen, FormatInt(b), DivIdClose + rb);
    PrefixCancel(DivIdOpen, FormatInt(a) + (DivIdClose + ra), FormatInt(b) + (DivIdClose + rb));
    assert (DivIdClose + ra)[0] == '"' && (DivIdClose + rb)[0] == '"';
    FormatIntDelimited(a, b, DivIdClose + ra, DivIdClose + rb);
  }

  /** The JSONEdit component: the Go struct's fields, updated in place. */
  class JsonEditImpl {
    var comp: CompState
    var text: string
    var schema: string

    /**
      `newJSONEditImpl`: empty text, empty schema, and the value synchronized
      on change. `base` is the state `newCompImpl` and `newHasEnabledImpl`
      give a fresh component (its id among it).
     */
    constructor Init(base: CompState)
      ensures comp == AddSyncOnEType(base, ETypeChange)
      ensures ETypeChange in comp.syncOnETypes
      ensures text == "" && schema == ""
    {
      comp := AddSyncOnEType(base, ETypeChange);
      text, schema := "", "";
    }

    /** `NewJSONEdit`: `newJSONEditImpl` plus the "gwu-JSONEdit" style class. */
    constructor (base: CompState)
      ensures comp == AddClass(AddSyncOnEType(base, ETypeChange), JsonEditStyleClass)
      ensures ETypeChange in comp.syncOnETypes && JsonEditStyleClass in comp.styleClasses
      ensures text == "" && schema == ""
    {
      comp := AddClass(AddSyncOnEType(base, ETypeChange), JsonEditStyleClass);
      text, schema := "", "";
    }

    /** Stores the schema as given; nothing else changes. */
    method SetSchema(s: string)
      modifies this
      ensures schema == s
      ensures comp == old(comp) && text == old(text)
    {
      schema := s;
    }

    /**
      Takes the component value from the request by the same rule as the
      Editor, storing it verbatim: it is not parsed as JSON nor checked
      against the schema. The event is ignored; the schema never changes.
     */
    method PreprocessEvent(event: Event, r: Request)
      modifies this
      ensures text == ValueIntake(old(text), r.form)
      ensures schema == old(schema) && comp == old(comp)
    {
      var value := FormValue(r.form, ParamCompValue);
      if |value| > 0 {
        text := value;
      } else {
        // An empty value is still a value when the parameter is present.
        if ParamCompValue in r.form {
          var values := r.form[ParamCompValue];
          if |values| > 0 {
            text := values[0];
          }
        }
      }
    }

    /**
      Appends the `div` and then the one script that the text selects: with
      the `startval` entry when there is text, without it otherwise. Only `w`
      changes.
     */
    method Render(w: Writer)
      modifies w
      ensures w.out == old(w.out) + Markup(comp.id, schema, text)
    {
      ghost var start := w.out;
      w.Write(DivTag(comp.id));
      if text != "" {
        w.Write(StartvalScript(comp.id, schema, text));
        AppendAssoc(start, DivTag(comp.id), StartvalScript(comp.id, schema, text));
      } else {
        w.Write(PlainScript(comp.id, schema));
        AppendAssoc(start, DivTag(comp.id), PlainScript(comp.id, schema));
      }
    }
  }

  /** Rendering an unchanged JSON editor twice gives the same output both times. */
  method RenderTwice(c: JsonEditImpl, encode: string -> string) returns (first: string, second: string)
    ensures first == second
    ensures first == Markup(c.comp.id, c.schema, c.text)
  {
    var w1 := new Writer(encode);
    c.Render(w1);
    first := w1.out;
    var w2 := new Writer(encode);
    c.Render(w2);
    second := w2.out;
  }

  /**
    A JSON editor given a schema takes the value `{"a":1}` verbatim from a
    request, and its schema stays as it was set.
   */
  method SchemaSurvivesIntake(base: CompState, schema: string) returns (text: string, kept: string)
    ensures text == "{\"a\":1}"
    ensures kept == schema
  {
    var c := new JsonEditImpl(base);
    c.SetSchema(schema);
    c.PreprocessEvent(Event(ETypeChange, base.id), Request(map[ParamCompValue := ["{\"a\":1}"]]));
    text, kept := c.text, c.schema;
  }

  /** A non-empty value taken from a request is rendered, verbatim, as the `startval` entry. */
  method TakenValueIsRendered(base: CompState, schema: string, v: string, encode: string -> string)
    returns (out: string)
    requires v != ""
    ensures Contains(out, SchemaKey + schema + StartvalKey + v + Options)
  {
    var c := new JsonEditImpl(base);
    c.SetSchema(schema);
    c.PreprocessEvent(Event(ETypeChange, base.id), Request(map[ParamCompValue := [v]]));
    assert c.text == v && c.schema == schema;
    ghost var expected := Markup(c.comp.id, c.schema, c.text);
    StartvalFollowsSchema(c.comp.id, c.schema, c.text);
    var w := new Writer(encode);
    c.Render(w);
    out := w.out;
    assert out == "" + expected;
    assert "" + expected == expected;
  }
}
