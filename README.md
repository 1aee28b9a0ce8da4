# gowut Editor and JSONEdit widgets in Dafny

This project models two server-side widgets of gowut, a Go web UI toolkit.

- **Editor** (`editorImpl`) is a rich-text editor.
- **JSONEdit** (`jsonEditImpl`) edits a JSON value against a JSON schema.

Each widget lives on the server as a component with an id, attributes, style classes, an enabled flag and a set of event types on which its value is synchronized. Each widget does three things:

- It takes a new value from an inbound request (`preprocessEvent`).
- It renders itself as markup plus a script (`Render`).
- The script sends every change in the browser back to the server with the component's id.

Modules:

- `Form` (form.dfy) models the parsed request form and the rule that decides whether a request carries a component value. The rule distinguishes a present empty value from an absent one.
- `Component` (component.dfy) models the component state the widgets share, the attribute map, and the render helpers of the embedded `compImpl`.
- `Html` (html.dfy) models the output:
  - the `Writer` sink;
  - `%d` formatting of ids, with its inverse and its injectivity;
  - `fmt.Sprintf` over a template, as `Format(pieces, args)`;
  - substring containment (`Contains`) with the lemmas used to locate pieces of rendered output.
- `Editor` (editor.dfy) models the Editor widget.
- `JsonEdit` (jsonedit.dfy) models the JSONEdit widget.

Each widget is a class whose fields are the Go struct's fields. Its methods update those fields, or append to the writer, as the Go methods do. Each `Render` is proved to append exactly the `Markup` function of the widget's state. Properties of the output are then lemmas about `Markup`:

- where the text, schema and starting value go;
- which id the script mounts on and reports changes for;
- that the markup determines the id.

## Model

| member | source | states |
|---|---|---|
| Form.FormValue | gwu/editor.go:139 | definition of net/http `FormValue`: the first value sent under the key, or "" when the key is missing or has no values |
| Form.Supplied | gwu/editor.go:139-148 | definition: the first value of a parameter present with at least one value, even when that value is empty; no value otherwise |
| Form.ValueIntake | gwu/editor.go:136-150 | definition of the value-intake rule: the supplied value verbatim, or the old text when none is supplied |
| Form.FormValueFirstMatchesIntake | gwu/editor.go:139-148 | the source's test order (non-empty form value, else the first value of a present parameter with values, else keep the text) gives exactly the value-intake rule's text |
| Form.EmptyValueIsApplied | gwu/editor.go:137-149 | a present but empty component value replaces the text with "" |
| Form.AbsentValueKeepsText | gwu/editor.go:144-148 | a missing component-value parameter, or one sent with no values, leaves the text unchanged |
| Form.ValueIntakeIdempotent | gwu/editor.go:136-150 | taking the value from the same request twice gives the same text as taking it once |
| Form.ValueIntakeReadsOnlyValueParam | gwu/editor.go:139-149 | the new text depends only on the component-value parameter; every other request parameter is ignored |
| Component.Attr | gwu/editor.go:108 | definition: an attribute's value, "" when it is not set |
| Component.AddSyncOnEType | gwu/editor.go:103 | definition: the component is also synchronized on the given event type; nothing else changes |
| Component.AddClass | gwu/editor.go:96 | definition: the component also has the given style class; nothing else changes |
| Component.SetAttr | gwu/editor.go:114-116 | after setting an attribute it reads back as the new value and every other attribute reads as before |
| Html.FormatInt | gwu/editor.go:274 | `%d` of an id is non-empty, starts with '-' exactly for negative ids, and is otherwise made of decimal digits |
| Html.FormatIntRoundTrip | gwu/jsonedit.go:153 | parsing the `%d` text of an id gives the id back |
| Html.FormatIntInjective | gwu/jsonedit.go:153 | two ids have the same `%d` text if and only if they are equal |
| Html.FormatIntDelimited | gwu/jsonedit.go:153 | an id's `%d` text followed by a text that starts with a non-digit determines the id |
| Html.Format | gwu/editor.go:172-274 | definition of `fmt.Sprintf` for a template: its literal pieces in order with the formatted arguments in the holes between them |
| Html.Writer.Write | gwu/editor.go:163 | writing appends the bytes and nothing else to the output |
| Html.Writer.Writes | gwu/editor.go:169 | writing a string appends the string as the sink encodes it |
| Editor.WithReadOnly | gwu/editor.go:107-118 | after `SetReadOnly(b)` the `readonly` attribute is "readonly" or "", `ReadOnly()` reads back as b, and no other attribute changes |
| Editor.ReadOnlyLastWins | gwu/editor.go:112-118 | two calls of `SetReadOnly` leave the same attributes as the last call alone |
| Editor.EditorImpl.Init | gwu/editor.go:101-105 | a new editor holds the given text and shows 1 row and 20 columns, and its value is synchronized on the change event |
| Editor.EditorImpl.constructor | gwu/editor.go:94-98 | `NewEditor` is `newEditorImpl` plus the "gwu-Editor" style class |
| Editor.EditorImpl.ReadOnly | gwu/editor.go:107-110 | the editor is read-only exactly when its `readonly` attribute is not empty |
| Editor.EditorImpl.SetReadOnly | gwu/editor.go:112-118 | `ReadOnly()` afterwards is the given flag; only the `readonly` attribute changes |
| Editor.EditorImpl.Rows | gwu/editor.go:120-122 | reads the number of displayed rows |
| Editor.EditorImpl.SetRows | gwu/editor.go:124-126 | `Rows()` afterwards is the given number, without a range check; nothing else changes |
| Editor.EditorImpl.Cols | gwu/editor.go:128-130 | reads the number of displayed columns |
| Editor.EditorImpl.SetCols | gwu/editor.go:132-134 | `Cols()` afterwards is the given number, without a range check; nothing else changes |
| Editor.EditorImpl.PreprocessEvent | gwu/editor.go:136-150 | the Go branches (non-empty form value, else first value of a present parameter) leave the text equal to the value-intake rule; the component, rows and columns do not change |
| Editor.EditorImpl.Render | gwu/editor.go:162-275 | appends exactly the editor's markup: opening div, attributes and style, enabled state, event handlers, closing of the tag, the encoded text, the closing div, then the script with the id in its eight holes |
| Editor.Script | gwu/editor.go:172-274 | definition: the script template with the `%d` text of the id in all eight holes |
| Editor.Markup | gwu/editor.go:162-274 | definition: everything the editor's `Render` writes, in order, for a component state and text |
| Editor.MarkupHoldsText | gwu/editor.go:163-170 | the markup starts with the opening div and holds the encoded text directly between the end of the opening tag and the closing div |
| Editor.ScriptMountsOnComponent | gwu/editor.go:257-259 | the script creates the inline editor on `document.getElementById( '<id>' )` for the component's own id |
| Editor.ScriptReportsChange | gwu/editor.go:262-265 | the script reports each data change as event 11 for the component's own id with the URI-encoded value |
| Editor.ScriptDeterminesId | gwu/editor.go:172-274 | two components with different ids get different scripts |
| Editor.RenderTwice | gwu/editor.go:162-275 | rendering an unchanged editor twice writes the same output both times |
| Editor.EmptyVersusAbsent | gwu/editor.go:136-150 | a request without the component-value parameter keeps "hello", while one with an empty value clears it to "" |
| Editor.ReadOnlyDoesNotBlockIntake | gwu/editor.go:112-150 | a read-only editor still takes the text from a request; read-only does not guard value intake |
| JsonEdit.JsonEditImpl.Init | gwu/jsonedit.go:66-71 | a new JSON editor has empty text and schema, and its value is synchronized on the change event |
| JsonEdit.JsonEditImpl.constructor | gwu/jsonedit.go:59-64 | `NewJSONEdit` is `newJSONEditImpl` plus the "gwu-JSONEdit" style class |
| JsonEdit.JsonEditImpl.SetSchema | gwu/jsonedit.go:73-75 | stores the schema as given; the text and the component do not change |
| JsonEdit.JsonEditImpl.PreprocessEvent | gwu/jsonedit.go:77-91 | the text follows the same value-intake rule as the Editor, verbatim and unparsed; the schema and the component never change |
| JsonEdit.JsonEditImpl.Render | gwu/jsonedit.go:145-206 | appends exactly the `<div id="<id>" />` element and then one script: the one with a `startval` entry when the text is not empty, the one without it otherwise |
| JsonEdit.DivTag | gwu/jsonedit.go:153 | definition: the `<div id="<id>" />` element |
| JsonEdit.StartvalScript | gwu/jsonedit.go:155-181 | definition: the template used with text, holes filled with the id, the schema and the text |
| JsonEdit.PlainScript | gwu/jsonedit.go:183-204 | definition: the template used without text, holes filled with the id and the schema |
| JsonEdit.Markup | gwu/jsonedit.go:153-205 | definition: the `div`, then the template the text selects |
| JsonEdit.MarkupOpensWithDiv | gwu/jsonedit.go:153 | the markup begins with `<div id="<id>" />` |
| JsonEdit.StartvalFollowsSchema | gwu/jsonedit.go:154-167 | with text, the schema is written verbatim as the `schema` entry, directly followed by the text, verbatim, as the `startval` entry and then the remaining options |
| JsonEdit.SchemaThenOptionsWhenEmpty | gwu/jsonedit.go:182-194 | with empty text, the schema is written verbatim as the `schema` entry, directly followed by the remaining options |
| JsonEdit.NoStartvalWhenEmpty | gwu/jsonedit.go:182-204 | with empty text and a schema that does not contain the word "startval", the markup contains "startval" nowhere |
| JsonEdit.StartvalIffText | gwu/jsonedit.go:154-205 | for a schema without the word "startval", the markup contains "startval" if and only if the text is not empty |
| JsonEdit.EditorMountsOnComponent | gwu/jsonedit.go:154-204 | in both branches the JSONEditor is built on the element with the component's own id |
| JsonEdit.ChangeHandlerWired | gwu/jsonedit.go:174-204 | in both branches each change is reported as event 11 for the component's own id with the JSON-stringified value |
| JsonEdit.MarkupDeterminesId | gwu/jsonedit.go:153 | two JSON editors with different ids get different markup, whatever their schemas and texts |
| JsonEdit.RenderTwice | gwu/jsonedit.go:145-206 | rendering an unchanged JSON editor twice writes the same output both times |
| JsonEdit.SchemaSurvivesIntake | gwu/jsonedit.go:73-91 | after `SetSchema(S)` and a request carrying `{"a":1}`, the text is `{"a":1}` verbatim and the schema is still S |
| JsonEdit.TakenValueIsRendered | gwu/jsonedit.go:77-181 | a non-empty value taken from a request is rendered verbatim as the `startval` entry, right after the schema |

## Left out

- The name of the component-value parameter (`paramCompValue`) and the event type `ETypeChange` are used by both widgets but defined in gowut files that are not part of this model. `Form.ParamCompValue` is therefore a fixed name whose characters are left open. `Component.ETypeChange` is 11, the code that both change handlers send back (editor.go:265, jsonedit.go:178).
- Id allocation, `newCompImpl` and `newHasEnabledImpl` are not part of this model. Each constructor takes the state they produce, id included, as a parameter.
- Go's `Writer` is not part of this model. `Html.Writer.Writes` takes the sink's text encoding as a parameter because whether and how it escapes is not known. Output is modelled as characters, not UTF-8 bytes, and write errors are ignored, as the widgets ignore them.
- `renderAttrsAndStyle`, `renderEnabled` and `renderEHandlers` are defined outside the two widget files. They are parameters (`Component.RenderHelpers`): each is some function of the component state. As a result, the model does not show how `readonly` or `enabled` appear in the Editor's markup.
- `compImpl.SetAttr` is not part of this model. `Component.SetAttr` stores the value it is given, "" included, and keeps the name in the map. Whether an attribute set to "" is rendered is left to the render helpers, which see the whole map. In HTML an empty `readonly=""` would still make an element read-only.
- Editor.EditorImpl.Render: the part of the script before the first `%d` hole (editor.go:172-255, up to and including the line break after its closing `};`) is the upload-adapter class definition. It has no holes and is fixed text, so the model keeps it as the constant `Editor.UploadAdapterScript` without spelling it out. The rest of the template is spelled out exactly.
- The JavaScript's behaviour in the browser (CKEditor, JSONEditor, the `se`/`se2` calls) is out of scope. The model covers only the text the widgets write.
- The `editorConf` language table in jsonedit.go is never written by `Render`, so it is not modelled.
- The `isPassw` argument of `newEditorImpl` is accepted and ignored, as in the source.
- `MaxLength` and `SetMaxLength` are declared in the `Editor` interface but have no implementation in editor.go, so they are not modelled.
- Neither `Render` writes the rows and columns. The code comments out its `rows`/`cols` markup, and the model renders them nowhere either.
- fileupload.go and the file-upload widget are not part of this model.
- Concurrency, HTTP parsing itself (`Request.Form` is given already parsed) and event dispatch are not modelled. Both widgets' `preprocessEvent` ignores the event, so any check of the event type against the synchronized types happens outside these files.
- Points on which the code's behaviour is worth stating plainly:
  - Empty-value check order. Both widgets test the form value first and parameter presence second. This gives the same text as testing presence first (`Form.FormValueFirstMatchesIntake`).
  - Zero values. A parameter present with an empty list of values leaves the text as it was (editor.go:146, `Form.AbsentValueKeepsText`).
  - Event type. `preprocessEvent` does not look at the event type, so a request for any event type can change the text.
  - Escaping in JSONEdit. The schema and the text are inserted verbatim into the script, with no escaping.
  - Escaping in Editor. The text goes through the sink's `Writes`.
  - Attributes in JSONEdit. Its `Render` writes no attributes, because that code is commented out.
- JsonEdit.NoStartvalWhenEmpty: the "no `startval` entry" property is stated for schemas that do not themselves contain the word "startval". The schema is inserted verbatim, so a schema that contains the word also puts it into the markup.
