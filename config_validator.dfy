/** The configuration validator: a parsed agent configuration goes in, an
    ordered list of error strings comes out.

    The configuration is a `Json` value as `json.load` returns it. Python's
    `in`, `[]`, iteration, `len` and `startswith` behave differently on each
    kind of value, and raise `TypeError`/`AttributeError` on some; those
    operations are written out below, so the model raises exactly where the
    source would. A check that raises is a `Check` that is `Err(text)`, where
    `text` is what `str(e)` gives. */
module ConfigValidator {
  import opened Wrappers
  import opened PyStrings

  // ------------------------------------------------------------ values

  /** A value produced by `json.load`. An object is a Python dict: its items
      in insertion order, keys distinct. Numbers are integers. */
  datatype Json =
    | JNull
    | JBool(b: bool)
    | JInt(n: int)
    | JStr(s: string)
    | JList(items: seq<Json>)
    | JObj(fields: seq<(string, Json)>)

  /** The errors a check produced, or the text of the exception it raised. */
  type Check = Result<seq<Error>, string>

  function TypeName(j: Json): string {
    match j
    case JNull => "NoneType"
    case JBool(_) => "bool"
    case JInt(_) => "int"
    case JStr(_) => "str"
    case JList(_) => "list"
    case JObj(_) => "dict"
  }

  predicate HasKey(fields: seq<(string, Json)>, key: string)
    decreases |fields|
  {
    |fields| > 0 && (fields[0].0 == key || HasKey(fields[1..], key))
  }

  function Lookup(fields: seq<(string, Json)>, key: string): Json
    requires HasKey(fields, key)
    decreases |fields|
  {
    if fields[0].0 == key then fields[0].1 else Lookup(fields[1..], key)
  }

  function Keys(fields: seq<(string, Json)>): (r: seq<Json>)
    ensures |r| == |fields|
    ensures forall k :: 0 <= k < |r| ==> r[k] == JStr(fields[k].0)
    decreases |fields|
  {
    if fields == [] then [] else [JStr(fields[0].0)] + Keys(fields[1..])
  }

  function Chars(s: string): (r: seq<Json>)
    ensures |r| == |s|
    ensures forall k :: 0 <= k < |r| ==> r[k] == JStr([s[k]])
    decreases |s|
  {
    if s == [] then [] else [JStr([s[0]])] + Chars(s[1..])
  }

  /** `key in x` for a string `key`: a key of a dict, an element of a list,
      a substring of a string; anything else is not a container. */
  function Contains(x: Json, key: string): Result<bool, string> {
    match x
    case JObj(fs) => Ok(HasKey(fs, key))
    case JList(items) => Ok(JStr(key) in items)
    case JStr(s) => Ok(IsSubstring(key, s))
    case _ => Err("argument of type '" + TypeName(x) + "' is not iterable")
  }

  /** `x[key]` for a string `key`. */
  function Subscript(x: Json, key: string): Result<Json, string> {
    match x
    case JObj(fs) => if HasKey(fs, key) then Ok(Lookup(fs, key)) else Err("'" + key + "'")
    case JList(_) => Err("list indices must be integers or slices, not str")
    case JStr(_) => Err("string indices must be integers, not 'str'")
    case _ => Err("'" + TypeName(x) + "' object is not subscriptable")
  }

  /** The values `for v in x` visits: a list's items, a dict's keys, a
      string's characters. */
  function Elements(x: Json): Result<seq<Json>, string> {
    match x
    case JList(items) => Ok(items)
    case JObj(fs) => Ok(Keys(fs))
    case JStr(s) => Ok(Chars(s))
    case _ => Err("'" + TypeName(x) + "' object is not iterable")
  }

  /** `len(x)`. */
  function Len(x: Json): Result<nat, string> {
    match x
    case JList(items) => Ok(|items|)
    case JObj(fs) => Ok(|fs|)
    case JStr(s) => Ok(|s|)
    case _ => Err("object of type '" + TypeName(x) + "' has no len()")
  }

  /** `repr(x)`. */
  function Repr(x: Json): string
    decreases x
  {
    match x
    case JNull => "None"
    case JBool(b) => if b then "True" else "False"
    case JInt(n) => IntToString(n)
    case JStr(s) => "'" + s + "'"
    case JList(items) => "[" + ReprItems(items) + "]"
    case JObj(fs) => "{" + ReprFields(fs) + "}"
  }

  function ReprItems(items: seq<Json>): string
    decreases items
  {
    if items == [] then ""
    else if |items| == 1 then Repr(items[0])
    else Repr(items[0]) + ", " + ReprItems(items[1..])
  }

  function ReprFields(fs: seq<(string, Json)>): string
    decreases fs
  {
    if fs == [] then ""
    else
      assert fs[0] in fs && fs[0].1 < fs[0];
      var item := "'" + fs[0].0 + "': " + Repr(fs[0].1);
      if |fs| == 1 then item else item + ", " + ReprFields(fs[1..])
  }

  /** `str(x)` (an f-string hole): a string as it is, anything else as `repr`. */
  function Str(x: Json): string {
    if x.JStr? then x.s else Repr(x)
  }

  /** `repr` of a list of strings, as an f-string shows `self.valid_input_types`. */
  function StringListRepr(xs: seq<string>): string {
    "[" + Join(QuotedAll(xs), ", ") + "]"
  }

  function QuotedAll(xs: seq<string>): (r: seq<string>)
    ensures |r| == |xs|
    ensures forall k :: 0 <= k < |r| ==> r[k] == "'" + xs[k] + "'"
    decreases |xs|
  {
    if xs == [] then [] else ["'" + xs[0] + "'"] + QuotedAll(xs[1..])
  }

  // --------------------------------------------------------- constants

  const RequiredFields: seq<string> := ["inputs", "actions", "llm_config"]
  const ValidInputTypes: seq<string> := ["voice", "camera", "keyboard", "file", "webcam", "microphone"]
  const ValidActionTypes: seq<string> := ["speak", "move", "display", "file_write", "api_call"]
  /** API key values that are rejected as placeholders. */
  const PlaceholderKeys: seq<Json> := [JStr(""), JStr("your_api_key_here"), JStr("openmind_free")]

  datatype Kind = InputEntry | ActionEntry

  function Label(k: Kind): string {
    if k.InputEntry? then "Input" else "Action"
  }

  function ValidTypes(k: Kind): seq<string> {
    if k.InputEntry? then ValidInputTypes else ValidActionTypes
  }

  /** An error the validator reports. `Text` gives the message as the
      source writes it; the checks build these values and the caller sees
      their texts in the same order. */
  datatype Error =
    | MissingField(field: string)
    | InputsNotList
    | ActionsNotList
    | LlmNotDict
    | MissingType(k: Kind, i: nat)
    | InvalidType(k: Kind, i: nat, t: Json)
    | MissingConfig(k: Kind, i: nat)
    | MissingModel
    | MissingApiKey
    | PlaceholderApiKey
    | NoInputs
    | NoActions
    | EnvNotSet(name: string)
    | NotFound(path: string)
    | ReadError(text: string)

  function EntryPrefix(k: Kind, i: nat): string { Label(k) + " " + IntToString(i) + ": " }

  function Text(e: Error): string {
    match e
    case MissingField(field) => "Missing required field: " + field
    case InputsNotList => "'inputs' must be a list"
    case ActionsNotList => "'actions' must be a list"
    case LlmNotDict => "'llm_config' must be a dictionary"
    case MissingType(k, i) => EntryPrefix(k, i) + "Missing 'type' field"
    case InvalidType(k, i, t) => EntryPrefix(k, i) + "Invalid type '" + Str(t) + "'. Valid types: " + StringListRepr(ValidTypes(k))
    case MissingConfig(k, i) => EntryPrefix(k, i) + "Missing 'config' field"
    case MissingModel => "LLM config: Missing 'model' field"
    case MissingApiKey => "LLM config: Missing 'api_key' field"
    case PlaceholderApiKey => "LLM config: Please set a valid API key"
    case NoInputs => "No inputs configured" + " - the agent won't receive any data"
    case NoActions => "No actions configured" + " - the agent won't be able to do anything"
    case EnvNotSet(name) => "Environment variable '" + name + "' is not set"
    case NotFound(path) => "Configuration file not found: " + path
    case ReadError(text) => "Error reading configuration file: " + text
  }

  /** The texts of a list of errors, in order. */
  function Texts(errors: seq<Error>): (r: seq<string>)
    ensures |r| == |errors|
    ensures forall k :: 0 <= k < |r| ==> r[k] == Text(errors[k])
    decreases |errors|
  {
    if errors == [] then [] else [Text(errors[0])] + Texts(errors[1..])
  }

  // ------------------------------------------------------ required fields

  /** `_validate_required_fields` over the first names of `names`: one error
      per name `config` does not contain. */
  function RequiredErrors(config: Json, names: seq<string>): Check
    decreases |names|
  {
    if names == [] then Ok([])
    else
      var name := names[|names| - 1];
      match RequiredErrors(config, names[..|names| - 1])
      case Err(e) => Err(e)
      case Ok(es) =>
        match Contains(config, name)
        case Err(e) => Err(e)
        case Ok(present) => Ok(es + (if present then [] else [MissingField(name)]))
  }

  method ValidateRequiredFields(config: Json) returns (r: Check)
    ensures r == RequiredErrors(config, RequiredFields)
  {
    var errors: seq<Error> := [];
    var i := 0;
    while i < |RequiredFields|
      invariant 0 <= i <= |RequiredFields|
      invariant RequiredErrors(config, RequiredFields[..i]) == Ok(errors)
    {
      var field := RequiredFields[i];
      assert RequiredFields[..i + 1][..i] == RequiredFields[..i];
      assert RequiredFields[..i + 1][i] == field;
      var present := Contains(config, field);
      if present.Err? {
        RequiredErrSticks(config, RequiredFields, i + 1);
        return Err(present.error);
      }
      ghost var before := errors;
      if !present.value {
        errors := errors + [MissingField(field)];
      }
      assert errors == before + (if present.value then [] else [MissingField(field)]);
      i := i + 1;
    }
    assert RequiredFields[..i] == RequiredFields;
    return Ok(errors);
  }

  /** Once a name's check raises, checking more names raises the same. */
  lemma {:induction false} RequiredErrSticks(config: Json, names: seq<string>, n: nat)
    requires n <= |names| && RequiredErrors(config, names[..n]).Err?
    ensures RequiredErrors(config, names) == RequiredErrors(config, names[..n])
    decreases |names| - n
  {
    if n < |names| {
      var m := |names| - 1;
      assert names[..m][..n] == names[..n];
      RequiredErrSticks(config, names[..m], n);
    } else {
      assert names[..n] == names;
    }
  }

  /** Reference definition: the names missing from the dict's keys, in
      order, each as its error. */
  function Absent(fields: seq<(string, Json)>, names: seq<string>): seq<Error>
    decreases |names|
  {
    if names == [] then []
    else (if HasKey(fields, names[0]) then [] else [MissingField(names[0])]) + Absent(fields, names[1..])
  }

  lemma {:induction false} AbsentAppend(fields: seq<(string, Json)>, a: seq<string>, b: seq<string>)
    ensures Absent(fields, a + b) == Absent(fields, a) + Absent(fields, b)
    decreases |a|
  {
    if a == [] {
      assert a + b == b;
    } else {
      assert (a + b)[0] == a[0];
      assert (a + b)[1..] == a[1..] + b;
      AbsentAppend(fields, a[1..], b);
    }
  }

  /** On a dict, the required-field check never raises and reports exactly
      the absent names, each once, in the given order. */
  lemma {:induction false} RequiredOnDict(fields: seq<(string, Json)>, names: seq<string>)
    ensures RequiredErrors(JObj(fields), names) == Ok(Absent(fields, names))
    decreases |names|
  {
    if names != [] {
      var init := names[..|names| - 1];
      var last := names[|names| - 1];
      RequiredOnDict(fields, init);
      assert names == init + [last];
      AbsentAppend(fields, init, [last]);
      assert Absent(fields, [last]) == (if HasKey(fields, last) then [] else [MissingField(last)]) by {
        assert [last][1..] == [];
      }
    }
  }

  /** The three required fields: an error for each of them that is missing,
      and nothing else. */
  lemma RequiredFieldsExactly(fields: seq<(string, Json)>)
    ensures RequiredErrors(JObj(fields), RequiredFields).Ok?
    ensures forall name :: MissingField(name) in RequiredErrors(JObj(fields), RequiredFields).value
                       <==> name in RequiredFields && !HasKey(fields, name)
    ensures |RequiredErrors(JObj(fields), RequiredFields).value| <= 3
  {
    RequiredOnDict(fields, RequiredFields);
    var r := Absent(fields, RequiredFields);
    assert r == (if HasKey(fields, "inputs") then [] else [MissingField("inputs")])
              + (if HasKey(fields, "actions") then [] else [MissingField("actions")])
              + (if HasKey(fields, "llm_config") then [] else [MissingField("llm_config")]);
  }

  // ----------------------------------------------------------- field kinds

  /** `field in config`, then `config[field]`: `None` when absent. */
  function FieldValue(config: Json, field: string): Result<Option<Json>, string> {
    match Contains(config, field)
    case Err(e) => Err(e)
    case Ok(present) =>
      if !present then Ok(None)
      else
        match Subscript(config, field)
        case Err(e) => Err(e)
        case Ok(v) => Ok(Some(v))
  }

  /** `_validate_field_types`, one field: present and of the wrong kind (a
      list when `wantList`, else a dict). Python's `and` reads
      `config[field]` only when `field in config` held. */
  function KindError(config: Json, field: string, wantList: bool, msg: Error): Check {
    match FieldValue(config, field)
    case Err(e) => Err(e)
    case Ok(v) =>
      Ok(if v.Some? && !(if wantList then v.value.JList? else v.value.JObj?) then [msg] else [])
  }

  function Then(a: Check, b: Check): (r: Check)
    ensures a.Err? ==> r == a
    ensures a.Ok? && b.Err? ==> r == b
    ensures a.Ok? && b.Ok? ==> r == Ok(a.value + b.value)
  {
    match a
    case Err(e) => Err(e)
    case Ok(x) =>
      match b
      case Err(e) => Err(e)
      case Ok(y) => Ok(x + y)
  }

  function FieldKindErrors(config: Json): Check {
    Then(Then(KindError(config, "inputs", true, InputsNotList),
              KindError(config, "actions", true, ActionsNotList)),
         KindError(config, "llm_config", false, LlmNotDict))
  }

  /** On a dict, a kind error is reported exactly for a present field of the
      wrong kind; an absent field gives none. */
  lemma FieldKindsOnDict(fields: seq<(string, Json)>)
    ensures FieldKindErrors(JObj(fields)).Ok?
    ensures InputsNotList in FieldKindErrors(JObj(fields)).value
            <==> HasKey(fields, "inputs") && !Lookup(fields, "inputs").JList?
    ensures ActionsNotList in FieldKindErrors(JObj(fields)).value
            <==> HasKey(fields, "actions") && !Lookup(fields, "actions").JList?
    ensures LlmNotDict in FieldKindErrors(JObj(fields)).value
            <==> HasKey(fields, "llm_config") && !Lookup(fields, "llm_config").JObj?
    ensures |FieldKindErrors(JObj(fields)).value| <= 3
  {
  }

  // --------------------------------------------------------- entry checks

  /** The checks on entry `i` of `inputs` or `actions`: a missing or an
      invalid type (never both), then a missing config. */
  function EntryErrors(k: Kind, i: nat, entry: Json): Check {
    match Contains(entry, "type")
    case Err(e) => Err(e)
    case Ok(hasType) =>
      var typeCheck: Check :=
        if !hasType then Ok([MissingType(k, i)])
        else
          match Subscript(entry, "type")
          case Err(e) => Err(e)
          case Ok(t) => Ok(if t.JStr? && t.s in ValidTypes(k) then [] else [InvalidType(k, i, t)]);
      match typeCheck
      case Err(e) => Err(e)
      case Ok(es) =>
        match Contains(entry, "config")
        case Err(e) => Err(e)
        case Ok(hasConfig) => Ok(es + (if hasConfig then [] else [MissingConfig(k, i)]))
  }

  /** The errors of the first `|entries|` entries, in index order. */
  function EntriesErrors(k: Kind, entries: seq<Json>): Check
    decreases |entries|
  {
    if entries == [] then Ok([])
    else
      var n := |entries| - 1;
      Then(EntriesErrors(k, entries[..n]), EntryErrors(k, n, entries[n]))
  }

  /** One more entry: its errors follow those of the entries before it. */
  lemma EntriesSnoc(k: Kind, entries: seq<Json>, i: nat)
    requires i < |entries|
    ensures EntriesErrors(k, entries[..i + 1]) == Then(EntriesErrors(k, entries[..i]), EntryErrors(k, i, entries[i]))
  {
    assert entries[..i + 1][..i] == entries[..i];
    assert entries[..i + 1][i] == entries[i];
  }

  /** `_validate_inputs` / `_validate_actions`: enumerate the value, check each entry. */
  function EntriesCheck(k: Kind, value: Json): Check {
    match Elements(value)
    case Err(e) => Err(e)
    case Ok(entries) => EntriesErrors(k, entries)
  }

  method ValidateEntries(k: Kind, value: Json) returns (r: Check)
    ensures r == EntriesCheck(k, value)
  {
    var elements := Elements(value);
    if elements.Err? {
      return Err(elements.error);
    }
    r := ValidateEach(k, elements.value);
  }

  /** The loop of `_validate_inputs` / `_validate_actions` over the entries. */
  method ValidateEach(k: Kind, entries: seq<Json>) returns (r: Check)
    ensures r == EntriesErrors(k, entries)
  {
    var errors: seq<Error> := [];
    var i := 0;
    while i < |entries|
      invariant 0 <= i <= |entries|
      invariant EntriesErrors(k, entries[..i]) == Ok(errors)
    {
      EntriesSnoc(k, entries, i);
      var more := EntryErrors(k, i, entries[i]);
      if more.Err? {
        EntriesErrSticks(k, entries, i + 1);
        return Err(more.error);
      }
      errors := errors + more.value;
      i := i + 1;
    }
    assert entries[..i] == entries;
    return Ok(errors);
  }

  /** Once an entry's check raises, the whole enumeration raises the same. */
  lemma {:induction false} EntriesErrSticks(k: Kind, entries: seq<Json>, n: nat)
    requires n <= |entries| && EntriesErrors(k, entries[..n]).Err?
    ensures EntriesErrors(k, entries) == EntriesErrors(k, entries[..n])
    decreases |entries| - n
  {
    if n < |entries| {
      var m := |entries| - 1;
      assert entries[..m][..n] == entries[..n];
      EntriesErrSticks(k, entries[..m], n);
    } else {
      assert entries[..n] == entries;
    }
  }

  /** A dict entry: at most one of the two type errors, the invalid-type one
      exactly when the type is present but not a valid type name, and the
      config error exactly when `config` is absent. */
  lemma EntryOnDict(k: Kind, i: nat, fields: seq<(string, Json)>)
    ensures EntryErrors(k, i, JObj(fields)).Ok?
    ensures |EntryErrors(k, i, JObj(fields)).value| <= 2
    ensures MissingType(k, i) in EntryErrors(k, i, JObj(fields)).value <==> !HasKey(fields, "type")
    ensures HasKey(fields, "type") ==>
              (InvalidType(k, i, Lookup(fields, "type")) in EntryErrors(k, i, JObj(fields)).value
               <==> !(Lookup(fields, "type").JStr? && Lookup(fields, "type").s in ValidTypes(k)))
    ensures MissingConfig(k, i) in EntryErrors(k, i, JObj(fields)).value <==> !HasKey(fields, "config")
  {
    EntryShape(k, i, fields);
    PartsOnDict(k, i, fields);
  }

  /** The facts of `EntryOnDict`, on the two parts. */
  lemma PartsOnDict(k: Kind, i: nat, fields: seq<(string, Json)>)
    ensures var es := TypePart(k, i, fields) + ConfigPart(k, i, fields);
      && |es| <= 2
      && (MissingType(k, i) in es <==> !HasKey(fields, "type"))
      && (HasKey(fields, "type") ==>
            (InvalidType(k, i, Lookup(fields, "type")) in es
             <==> !(Lookup(fields, "type").JStr? && Lookup(fields, "type").s in ValidTypes(k))))
      && (MissingConfig(k, i) in es <==> !HasKey(fields, "config"))
  {
  }

  function ConfigPart(k: Kind, i: nat, fields: seq<(string, Json)>): seq<Error> {
    if HasKey(fields, "config") then [] else [MissingConfig(k, i)]
  }

  /** The type part of a dict entry's errors. */
  function TypePart(k: Kind, i: nat, fields: seq<(string, Json)>): seq<Error> {
    if !HasKey(fields, "type") then [MissingType(k, i)]
    else if Lookup(fields, "type").JStr? && Lookup(fields, "type").s in ValidTypes(k) then []
    else [InvalidType(k, i, Lookup(fields, "type"))]
  }

  /** A dict entry's errors: the type part, then the config part. */
  lemma EntryShape(k: Kind, i: nat, fields: seq<(string, Json)>)
    ensures EntryErrors(k, i, JObj(fields))
            == Ok(TypePart(k, i, fields) + ConfigPart(k, i, fields))
  {
  }

  /** Index order: the errors of the first `n` entries are a prefix of the
      errors of all of them. */
  lemma {:induction false} EntriesPrefix(k: Kind, entries: seq<Json>, n: nat)
    requires n <= |entries| && EntriesErrors(k, entries).Ok?
    ensures EntriesErrors(k, entries[..n]).Ok?
    ensures EntriesErrors(k, entries[..n]).value <= EntriesErrors(k, entries).value
    decreases |entries|
  {
    if n < |entries| {
      var m := |entries| - 1;
      assert entries[..m][..n] == entries[..n];
      EntriesPrefix(k, entries[..m], n);
    } else {
      assert entries[..n] == entries;
    }
  }

  /** A list of dicts: the check never raises and gives at most two errors
      per entry. */
  lemma {:induction false} EntriesOnDicts(k: Kind, entries: seq<Json>)
    requires forall i :: 0 <= i < |entries| ==> entries[i].JObj?
    ensures EntriesErrors(k, entries).Ok?
    ensures |EntriesErrors(k, entries).value| <= 2 * |entries|
    decreases |entries|
  {
    if entries != [] {
      var n := |entries| - 1;
      EntriesOnDicts(k, entries[..n]);
      EntryOnDict(k, n, entries[n].fields);
    }
  }

  // ------------------------------------------------------------ LLM config

  /** `_validate_llm_config`: a missing model; a missing or a placeholder key. */
  function LlmErrors(llm: Json): Check {
    match Contains(llm, "model")
    case Err(e) => Err(e)
    case Ok(hasModel) =>
      var es := if hasModel then [] else [MissingModel];
      match Contains(llm, "api_key")
      case Err(e) => Err(e)
      case Ok(hasKey) =>
        if !hasKey then Ok(es + [MissingApiKey])
        else
          match Subscript(llm, "api_key")
          case Err(e) => Err(e)
          case Ok(key) => Ok(es + (if key in PlaceholderKeys then [PlaceholderApiKey] else []))
  }

  /** On a dict: one error for a missing model, one for a missing key, one
      for a key among the placeholders, and never both key errors. */
  lemma LlmOnDict(fields: seq<(string, Json)>)
    ensures LlmErrors(JObj(fields)).Ok?
    ensures var es := LlmErrors(JObj(fields)).value;
      && |es| <= 2
      && (MissingModel in es <==> !HasKey(fields, "model"))
      && (MissingApiKey in es <==> !HasKey(fields, "api_key"))
      && (PlaceholderApiKey in es <==> HasKey(fields, "api_key") && Lookup(fields, "api_key") in PlaceholderKeys)
      && !(MissingApiKey in es && PlaceholderApiKey in es)
  {
  }

  // --------------------------------------------------------- common issues

  /** `field in config and len(config[field]) == 0`. */
  function EmptyError(config: Json, field: string, msg: Error): Check {
    match FieldValue(config, field)
    case Err(e) => Err(e)
    case Ok(v) =>
      if v.None? then Ok([])
      else
        match Len(v.value)
        case Err(e) => Err(e)
        case Ok(n) => Ok(if n == 0 then [msg] else [])
  }

  /** The variable name in a key of the form `${NAME}`. */
  predicate IsEnvReference(key: string) {
    StartsWith(key, "${") && EndsWith(key, "}")
  }

  /** `key[2:-1]`; the two ends cannot overlap, since `{` is not `}`. */
  function EnvName(key: string): string
    requires IsEnvReference(key)
  {
    assert key[1] == "${"[1] && key[|key| - 1] == "}"[0];
    key[2..|key| - 1]
  }

  /** `os.getenv(name)` is falsy: unset or empty. */
  predicate EnvUnset(env: map<string, string>, name: string) {
    name !in env || env[name] == ""
  }

  /** The `${NAME}` check on `config['llm_config']['api_key']`. */
  function EnvError(config: Json, env: map<string, string>): Check {
    match Contains(config, "llm_config")
    case Err(e) => Err(e)
    case Ok(hasLlm) =>
      if !hasLlm then Ok([])
      else
        match Subscript(config, "llm_config")
        case Err(e) => Err(e)
        case Ok(llm) =>
          match Contains(llm, "api_key")
          case Err(e) => Err(e)
          case Ok(hasKey) =>
            if !hasKey then Ok([])
            else
              match Subscript(llm, "api_key")
              case Err(e) => Err(e)
              case Ok(key) =>
                if !key.JStr? then Err("'" + TypeName(key) + "' object has no attribute 'startswith'")
                else if IsEnvReference(key.s) && EnvUnset(env, EnvName(key.s)) then Ok([EnvNotSet(EnvName(key.s))])
                else Ok([])
  }

  /** `_check_common_issues`. */
  function CommonIssues(config: Json, env: map<string, string>): Check {
    Then(Then(EmptyError(config, "inputs", NoInputs), EmptyError(config, "actions", NoActions)),
         EnvError(config, env))
  }

  /** The empty check on a dict config: no error for an absent field, an
      error exactly when a present list is empty, and an exception for a
      value that has no length. */
  lemma EmptyChecked(fields: seq<(string, Json)>, field: string, msg: Error)
    ensures !HasKey(fields, field) ==> EmptyError(JObj(fields), field, msg) == Ok([])
    ensures HasKey(fields, field) && Lookup(fields, field).JList? ==>
      EmptyError(JObj(fields), field, msg) == Ok(if Lookup(fields, field).items == [] then [msg] else [])
    ensures HasKey(fields, field) && (Lookup(fields, field).JNull? || Lookup(fields, field).JBool? || Lookup(fields, field).JInt?) ==>
      EmptyError(JObj(fields), field, msg).Err?
  {
  }

  /** `field` holds an empty list. */
  predicate EmptyListAt(fields: seq<(string, Json)>, field: string) {
    HasKey(fields, field) && Lookup(fields, field) == JList([])
  }

  /** `_check_common_issues` on a dict config whose `inputs` and `actions`
      are lists where present: the empty-input error, then the empty-action
      error, each exactly when its list is present and empty, then what the
      environment check finds. */
  lemma CommonIssuesOnDict(fields: seq<(string, Json)>, env: map<string, string>)
    requires !HasKey(fields, "inputs") || Lookup(fields, "inputs").JList?
    requires !HasKey(fields, "actions") || Lookup(fields, "actions").JList?
    ensures CommonIssues(JObj(fields), env) ==
      Then(Ok((if EmptyListAt(fields, "inputs") then [NoInputs] else [])
              + (if EmptyListAt(fields, "actions") then [NoActions] else [])),
           EnvError(JObj(fields), env))
  {
    EmptyChecked(fields, "inputs", NoInputs);
    EmptyChecked(fields, "actions", NoActions);
  }

  /** For a dict config whose `llm_config` holds a `${NAME}` key: an error
      naming NAME exactly when the variable is unset or empty. */
  lemma EnvReferenceChecked(fields: seq<(string, Json)>, llmFields: seq<(string, Json)>, name: string, env: map<string, string>)
    requires HasKey(fields, "llm_config") && Lookup(fields, "llm_config") == JObj(llmFields)
    requires HasKey(llmFields, "api_key") && Lookup(llmFields, "api_key") == JStr("${" + name + "}")
    ensures EnvError(JObj(fields), env) == Ok(if EnvUnset(env, name) then [EnvNotSet(name)] else [])
  {
    var key := "${" + name + "}";
    assert key[..2] == "${" && key[|key| - 1..] == "}";
    assert EnvName(key) == name;
  }

  /** No `llm_config`, an `llm_config` dict without `api_key`, or a string
      key that is not of the form `${NAME}`: the environment is not consulted
      and nothing is reported. */
  lemma EnvCheckSkipped(fields: seq<(string, Json)>, env: map<string, string>)
    requires !HasKey(fields, "llm_config")
      || (Lookup(fields, "llm_config").JObj? && NoEnvReference(Lookup(fields, "llm_config").fields))
    ensures EnvError(JObj(fields), env) == Ok([])
  {
  }

  predicate NoEnvReference(llmFields: seq<(string, Json)>) {
    !HasKey(llmFields, "api_key")
    || (Lookup(llmFields, "api_key").JStr? && !IsEnvReference(Lookup(llmFields, "api_key").s))
  }

  // ---------------------------------------------------------- whole file

  /** The error list so far, and the text of the exception that ended the
      checks early, if one did. */
  datatype Collected = Collected(errors: seq<Error>, raised: Option<string>)

  /** `errors.extend(check)` inside the `try`: skipped once something raised. */
  function Extend(c: Collected, check: Check): (r: Collected)
    ensures c.raised.None? && check.Ok? ==> r == Collected(c.errors + check.value, None)
    ensures r.errors == c.errors || c.raised.None?
  {
    if c.raised.Some? then c
    else
      match check
      case Err(e) => Collected(c.errors, Some(e))
      case Ok(es) => Collected(c.errors + es, None)
  }

  /** `if field in config: errors.extend(self._validate_...(config[field]))`
      for `inputs` or `actions`. */
  function EntriesIfPresent(config: Json, field: string, k: Kind): Check {
    match FieldValue(config, field)
    case Err(e) => Err(e)
    case Ok(v) => if v.None? then Ok([]) else EntriesCheck(k, v.value)
  }

  /** The same for `llm_config`. */
  function LlmIfPresent(config: Json): Check {
    match FieldValue(config, "llm_config")
    case Err(e) => Err(e)
    case Ok(v) => if v.None? then Ok([]) else LlmErrors(v.value)
  }

  /** The `try` block of `validate_agent_config` after `_load_config`. */
  function CollectAll(config: Json, env: map<string, string>): Collected {
    var c1 := Extend(Collected([], None), RequiredErrors(config, RequiredFields));
    var c2 := Extend(c1, FieldKindErrors(config));
    var c3 := Extend(c2, EntriesIfPresent(config, "inputs", InputEntry));
    var c4 := Extend(c3, EntriesIfPresent(config, "actions", ActionEntry));
    var c5 := Extend(c4, LlmIfPresent(config));
    Extend(c5, CommonIssues(config, env))
  }

  /** `validate_agent_config`: `fileExists` is `os.path.exists(path)` and `load`
      what `_load_config` returned or raised. */
  function AgentConfigReport(path: string, fileExists: bool, load: Result<Json, string>, env: map<string, string>): (bool, seq<Error>) {
    if !fileExists then (false, [NotFound(path)])
    else
      match load
      case Err(e) => (false, [ReadError(e)])
      case Ok(config) =>
        var c := CollectAll(config, env);
        if c.raised.Some? then (false, c.errors + [ReadError(c.raised.value)])
        else (c.errors == [], c.errors)
  }

  method ValidateAgentConfig(path: string, fileExists: bool, load: Result<Json, string>, env: map<string, string>)
    returns (isValid: bool, errors: seq<Error>)
    ensures (isValid, errors) == AgentConfigReport(path, fileExists, load, env)
  {
    errors := [];
    if !fileExists {
      errors := errors + [NotFound(path)];
      assert errors == [NotFound(path)];
      return false, errors;
    }
    if load.Err? {
      return false, [ReadError(load.error)];
    }
    var config := load.value;
    var c := Collected([], None);

    var required := ValidateRequiredFields(config);
    c := Extend(c, required);
    c := Extend(c, FieldKindErrors(config));
    var inputs := ValidatePresent(config, "inputs", InputEntry);
    c := Extend(c, inputs);
    var actions := ValidatePresent(config, "actions", ActionEntry);
    c := Extend(c, actions);
    c := Extend(c, LlmIfPresent(config));
    c := Extend(c, CommonIssues(config, env));

    errors := c.errors;
    if c.raised.Some? {
      return false, errors + [ReadError(c.raised.value)];
    }
    return errors == [], errors;
  }

  /** `if field in config: self._validate_...(config[field])`. */
  method ValidatePresent(config: Json, field: string, k: Kind) returns (r: Check)
    ensures r == EntriesIfPresent(config, field, k)
  {
    var value := FieldValue(config, field);
    if value.Err? {
      return Err(value.error);
    }
    if value.value.None? {
      return Ok([]);
    }
    r := ValidateEntries(k, value.value.value);
  }

  /** The file is valid exactly when no error was reported. */
  lemma ValidIffNoErrors(path: string, fileExists: bool, load: Result<Json, string>, env: map<string, string>)
    ensures AgentConfigReport(path, fileExists, load, env).0 <==> AgentConfigReport(path, fileExists, load, env).1 == []
  {
  }

  /** A missing file: invalid, with the one not-found error. */
  lemma MissingFile(path: string, load: Result<Json, string>, env: map<string, string>)
    ensures AgentConfigReport(path, false, load, env) == (false, [NotFound(path)])
  {
  }

  /** An exception while checking: invalid, the errors collected before it,
      then one error carrying its text. */
  lemma ExceptionReported(path: string, config: Json, env: map<string, string>)
    requires CollectAll(config, env).raised.Some?
    ensures var r := AgentConfigReport(path, true, Ok(config), env);
      && !r.0
      && r.1 == CollectAll(config, env).errors + [ReadError(CollectAll(config, env).raised.value)]
  {
  }

  // ------------------------------------------------------------ suggestions

  const ApiKeyHint := "Get your API key from https://portal.openmind.org/"
  const InputsHint := "Add at least one input source (voice, camera, etc.)"
  const ActionsHint := "Add at least one action (speak, move, etc.)"
  const EnvHint := "Set the environment variable in your shell profile (.bashrc, .zshrc)"

  /** The first rule that matches: "API key" as written, then "inputs" and
      "actions" in the lower-cased error, then "environment variable". */
  function SuggestionFor(error: string): Option<string> {
    if IsSubstring("API key", error) then Some(ApiKeyHint)
    else if IsSubstring("inputs", Lower(error)) then Some(InputsHint)
    else if IsSubstring("actions", Lower(error)) then Some(ActionsHint)
    else if IsSubstring("environment variable", error) then Some(EnvHint)
    else None
  }

  function AsSeq(o: Option<string>): (r: seq<string>)
    ensures |r| <= 1
  {
    if o.Some? then [o.value] else []
  }

  /** The suggestions for the errors, in the errors' order. */
  function Suggestions(errors: seq<string>): seq<string>
    decreases |errors|
  {
    if errors == [] then []
    else Suggestions(errors[..|errors| - 1]) + AsSeq(SuggestionFor(errors[|errors| - 1]))
  }

  method GetSuggestions(errors: seq<string>) returns (suggestions: seq<string>)
    ensures suggestions == Suggestions(errors)
  {
    suggestions := [];
    var i := 0;
    while i < |errors|
      invariant 0 <= i <= |errors|
      invariant suggestions == Suggestions(errors[..i])
    {
      assert errors[..i + 1][..i] == errors[..i];
      var error := errors[i];
      if IsSubstring("API key", error) {
        suggestions := suggestions + [ApiKeyHint];
      } else if IsSubstring("inputs", Lower(error)) {
        suggestions := suggestions + [InputsHint];
      } else if IsSubstring("actions", Lower(error)) {
        suggestions := suggestions + [ActionsHint];
      } else if IsSubstring("environment variable", error) {
        suggestions := suggestions + [EnvHint];
      }
      i := i + 1;
    }
    assert errors[..i] == errors;
  }

  /** Suggestions are per error: those of a concatenation are the
      concatenation of theirs. */
  lemma {:induction false} SuggestionsAppend(a: seq<string>, b: seq<string>)
    ensures Suggestions(a + b) == Suggestions(a) + Suggestions(b)
    decreases |b|
  {
    if b != [] {
      var n := |b| - 1;
      assert (a + b)[..|a + b| - 1] == a + b[..n];
      SuggestionsAppend(a, b[..n]);
    } else {
      assert a + b == a;
    }
  }

  /** At most one suggestion per error. */
  lemma {:induction false} SuggestionsBound(errors: seq<string>)
    ensures |Suggestions(errors)| <= |errors|
    decreases |errors|
  {
    if errors != [] {
      SuggestionsBound(errors[..|errors| - 1]);
    }
  }

  /** Every suggestion is one of the four hints. */
  lemma {:induction false} SuggestionsAreHints(errors: seq<string>)
    ensures forall s :: s in Suggestions(errors) ==> s in [ApiKeyHint, InputsHint, ActionsHint, EnvHint]
    decreases |errors|
  {
    if errors != [] {
      SuggestionsAreHints(errors[..|errors| - 1]);
    }
  }

  /** As written, the environment rule compares with the error as it is,
      and the environment error begins with a capital "Environment": for a
      variable such as `OM_API_KEY` the error gets no suggestion at all. */
  lemma EnvHintMissed()
    ensures SuggestionFor(Text(EnvNotSet("OM_API_KEY"))) == None
  {
    var t := Text(EnvNotSet("OM_API_KEY"));
    assert t == "Environment variable 'OM_API_KEY' is not set";
    NoRuleLetters(t);
    NoLowerEnvironment(t);
    NoRuleMatches(t);
  }

  /** An error without `k`, `u` or `c` in either case, and without an `e`
      two places before a `v` where the environment pattern could start,
      matches none of the four rules. */
  lemma NoRuleMatches(t: string)
    requires forall i :: 0 <= i < |t| ==> t[i] !in "kuUcC"
    requires forall k: nat :: k + 20 <= |t| ==> !PairAt(t, "environment variable", k, 0, 2)
    ensures SuggestionFor(t) == None
  {
    assert 'k' !in t && 'u' !in t && 'U' !in t && 'c' !in t && 'C' !in t;
    NotInLower(t, 'u', 'U');
    NotInLower(t, 'c', 'C');
    MissingChar("API key", t, 4);
    MissingChar("inputs", Lower(t), 3);
    MissingChar("actions", Lower(t), 1);
    NotSubstring("environment variable", t, 0, 2);
  }

  /** The error for `OM_API_KEY` has no `k`, `u` or `c` in either case. */
  lemma NoRuleLetters(t: string)
    requires t == "Environment variable 'OM_API_KEY' is not set"
    ensures forall i :: 0 <= i < |t| ==> t[i] !in "kuUcC"
  {
  }

  /** In the error for `OM_API_KEY` no `e` stands two places before a `v`
      early enough to start the pattern. */
  lemma NoLowerEnvironment(t: string)
    requires t == "Environment variable 'OM_API_KEY' is not set"
    ensures forall k: nat :: k + 20 <= |t| ==> !PairAt(t, "environment variable", k, 0, 2)
  {
    var needle := "environment variable";
    assert needle[0] == 'e' && needle[2] == 'v';
    assert forall k :: 0 <= k && k + 20 <= |t| ==> !(t[k] == 'e' && t[k + 2] == 'v');
  }

  /** The rule as evidently intended: the environment rule also reads the
      lower-cased error. */
  function IntendedSuggestionFor(error: string): Option<string> {
    if IsSubstring("API key", error) then Some(ApiKeyHint)
    else if IsSubstring("inputs", Lower(error)) then Some(InputsHint)
    else if IsSubstring("actions", Lower(error)) then Some(ActionsHint)
    else if IsSubstring("environment variable", Lower(error)) then Some(EnvHint)
    else None
  }

  /** Under the intended rule every environment error gets a suggestion. */
  lemma EnvHintGiven(name: string)
    ensures IntendedSuggestionFor(Text(EnvNotSet(name))).Some?
  {
    EnvErrorLowered(name);
  }

  /** And the error for `OM_API_KEY` gets the environment hint. */
  lemma EnvHintRestored()
    ensures IntendedSuggestionFor(Text(EnvNotSet("OM_API_KEY"))) == Some(EnvHint)
  {
    var t := Text(EnvNotSet("OM_API_KEY"));
    EnvErrorLowered("OM_API_KEY");
    EnvHintMissed();
    IntendedWhereMissed(t);
  }

  /** Where the rule as written gives nothing, the intended rule gives the
      environment hint exactly when the lower-cased error has the pattern. */
  lemma IntendedWhereMissed(t: string)
    requires SuggestionFor(t) == None
    ensures IntendedSuggestionFor(t) == (if IsSubstring("environment variable", Lower(t)) then Some(EnvHint) else None)
  {
  }

  /** The lower-cased environment error contains "environment variable". */
  lemma EnvErrorLowered(name: string)
    ensures IsSubstring("environment variable", Lower(Text(EnvNotSet(name))))
  {
    var t := Text(EnvNotSet(name));
    var p, q := "Environment variable", "environment variable";
    assert t[0..|p|] == p;
    LowerAt(t, 0, p, q);
  }

  /** The errors of the invalid sample get the inputs and the actions hints,
      and the missing key none (its text says `api_key`, not "API key"). */
  lemma InvalidSampleSuggestions()
    ensures Suggestions(Texts([MissingApiKey, NoInputs, NoActions])) == [InputsHint, ActionsHint]
  {
    var ts := Texts([MissingApiKey, NoInputs, NoActions]);
    assert ts[0] == Text(MissingApiKey) && ts[1] == Text(NoInputs) && ts[2] == Text(NoActions);
    MissingKeyNoHint();
    NoInputsHint();
    NoActionsHint();
    SuggestionsOfThree(ts);
  }

  lemma SuggestionsOfThree(ts: seq<string>)
    requires |ts| == 3 && SuggestionFor(ts[0]).None?
    requires SuggestionFor(ts[1]).Some? && SuggestionFor(ts[2]).Some?
    ensures Suggestions(ts) == [SuggestionFor(ts[1]).value, SuggestionFor(ts[2]).value]
  {
    var a := ts[..1];
    var b := ts[..2];
    assert a[..0] == [] && a[0] == ts[0];
    assert Suggestions(a) == [];
    assert b[..1] == a && b[1] == ts[1];
    assert Suggestions(b) == [SuggestionFor(ts[1]).value];
    assert ts[..2] == b;
  }

  lemma MissingKeyNoHint()
    ensures SuggestionFor(Text(MissingApiKey)) == None
  {
    var t := Text(MissingApiKey);
    assert t == "LLM config: Missing 'api_key' field";
    MissingKeyLetters(t);
    NoHintWithout(t);
  }

  lemma MissingKeyLetters(t: string)
    requires t == "LLM config: Missing 'api_key' field"
    ensures forall i :: 0 <= i < |t| ==> t[i] !in "AuUtTv"
  {
  }

  /** An error without `A`, `t`, `u` (in either case) or `v` matches none of
      the four rules. */
  lemma NoHintWithout(t: string)
    requires forall i :: 0 <= i < |t| ==> t[i] !in "AuUtTv"
    ensures SuggestionFor(t) == None
  {
    assert 'A' !in t && 'u' !in t && 'U' !in t && 't' !in t && 'T' !in t && 'v' !in t;
    NotInLower(t, 'u', 'U');
    NotInLower(t, 't', 'T');
    MissingChar("API key", t, 0);
    MissingChar("inputs", Lower(t), 3);
    MissingChar("actions", Lower(t), 2);
    MissingChar("environment variable", t, 2);
  }

  lemma NoInputsHint()
    ensures SuggestionFor(Text(NoInputs)) == Some(InputsHint)
  {
    var t := Text(NoInputs);
    NoInputsLetters(t);
    InputsRule(t, 3);
  }

  lemma NoInputsLetters(t: string)
    requires t == "No inputs configured" + " - the agent won't receive any data"
    ensures forall i :: 0 <= i < |t| ==> t[i] != 'A'
    ensures 9 <= |t| && t[3..9] == "inputs"
  {
    var a, b := "No inputs configured", " - the agent won't receive any data";
    assert t[3..9] == a[3..9];
    forall i | 0 <= i < |t|
      ensures t[i] != 'A'
    {
      if i < |a| { assert t[i] == a[i]; } else { assert t[i] == b[i - |a|]; }
    }
  }

  /** An error without `A` that says "inputs" at offset `k` gets the inputs
      hint. */
  lemma InputsRule(t: string, k: nat)
    requires forall i :: 0 <= i < |t| ==> t[i] != 'A'
    requires k + 6 <= |t| && t[k..k + 6] == "inputs"
    ensures SuggestionFor(t) == Some(InputsHint)
  {
    assert 'A' !in t;
    MissingChar("API key", t, 0);
    LowerAt(t, k, "inputs", "inputs");
  }

  lemma NoActionsHint()
    ensures SuggestionFor(Text(NoActions)) == Some(ActionsHint)
  {
    var t := Text(NoActions);
    NoActionsLetters(t);
    ActionsRule(t, 3);
  }

  lemma NoActionsLetters(t: string)
    requires t == "No actions configured" + " - the agent won't be able to do anything"
    ensures forall i :: 0 <= i < |t| ==> t[i] !in "ApP"
    ensures 10 <= |t| && t[3..10] == "actions"
  {
    var a, b := "No actions configured", " - the agent won't be able to do anything";
    assert t[3..10] == a[3..10];
    forall i | 0 <= i < |t|
      ensures t[i] !in "ApP"
    {
      if i < |a| { assert t[i] == a[i]; } else { assert t[i] == b[i - |a|]; }
    }
  }

  /** An error without `A` or `p` in either case that says "actions" at
      offset `k` gets the actions hint. */
  lemma ActionsRule(t: string, k: nat)
    requires forall i :: 0 <= i < |t| ==> t[i] !in "ApP"
    requires k + 7 <= |t| && t[k..k + 7] == "actions"
    ensures SuggestionFor(t) == Some(ActionsHint)
  {
    assert 'A' !in t && 'p' !in t && 'P' !in t;
    NotInLower(t, 'p', 'P');
    MissingChar("API key", t, 0);
    MissingChar("inputs", Lower(t), 2);
    LowerAt(t, k, "actions", "actions");
  }

  // ------------------------------------------------------- sample configs

  const ValidSample: Json := JObj([
    ("inputs", JList([JObj([("type", JStr("voice")), ("config", JObj([("sample_rate", JInt(44100))]))])])),
    ("actions", JList([JObj([("type", JStr("speak")), ("config", JObj([("voice", JStr("default"))]))])])),
    ("llm_config", JObj([("model", JStr("gpt-4o")), ("api_key", JStr("test_api_key_123"))]))])

  const InvalidSample: Json := JObj([
    ("inputs", JList([])),
    ("actions", JList([])),
    ("llm_config", JObj([("model", JStr("gpt-4o"))]))])

  /** The complete sample validates with no error, whatever the environment. */
  lemma ValidSampleAccepted(path: string, env: map<string, string>)
    ensures AgentConfigReport(path, true, Ok(ValidSample), env) == (true, [])
  {
    var fs := ValidSample.fields;
    RequiredOnDict(fs, RequiredFields);
    assert Absent(fs, RequiredFields) == [];
    assert FieldKindErrors(ValidSample) == Ok([]);
    ValidSampleEntries();
    ValidSampleLlm(env);
  }

  lemma ValidSampleEntries()
    ensures EntriesIfPresent(ValidSample, "inputs", InputEntry) == Ok([])
    ensures EntriesIfPresent(ValidSample, "actions", ActionEntry) == Ok([])
  {
    var fs := ValidSample.fields;
    var entry := fs[0].1.items[0];
    EntryShape(InputEntry, 0, entry.fields);
    assert TypePart(InputEntry, 0, entry.fields) == [];
    assert EntriesErrors(InputEntry, [entry]) == Then(EntriesErrors(InputEntry, []), EntryErrors(InputEntry, 0, entry));
    var action := fs[1].1.items[0];
    EntryShape(ActionEntry, 0, action.fields);
    assert TypePart(ActionEntry, 0, action.fields) == [];
    assert EntriesErrors(ActionEntry, [action]) == Then(EntriesErrors(ActionEntry, []), EntryErrors(ActionEntry, 0, action));
  }

  lemma ValidSampleLlm(env: map<string, string>)
    ensures LlmIfPresent(ValidSample) == Ok([])
    ensures CommonIssues(ValidSample, env) == Ok([])
  {
    LlmOnDict(ValidSample.fields[2].1.fields);
    ValidSampleKey(env);
  }

  lemma ValidSampleKey(env: map<string, string>)
    ensures EnvError(ValidSample, env) == Ok([])
  {
    var key := "test_api_key_123";
    assert key[..2][0] == 't';
    assert !IsEnvReference(key);
  }

  /** The sample with empty lists and no key reports the missing key and
      both empty lists, in that order. */
  lemma InvalidSampleRejected(path: string, env: map<string, string>)
    ensures AgentConfigReport(path, true, Ok(InvalidSample), env) == (false, [MissingApiKey, NoInputs, NoActions])
  {
    var fs := InvalidSample.fields;
    RequiredOnDict(fs, RequiredFields);
    assert Absent(fs, RequiredFields) == [];
    assert FieldKindErrors(InvalidSample) == Ok([]);
    assert EntriesIfPresent(InvalidSample, "inputs", InputEntry) == Ok([]);
    assert EntriesIfPresent(InvalidSample, "actions", ActionEntry) == Ok([]);
    InvalidSampleLlm(env);
    var none: seq<Error> := [];
    assert none + none + none + none + [MissingApiKey] + [NoInputs, NoActions] == [MissingApiKey, NoInputs, NoActions];
  }

  lemma InvalidSampleLlm(env: map<string, string>)
    ensures LlmIfPresent(InvalidSample) == Ok([MissingApiKey])
    ensures CommonIssues(InvalidSample, env) == Ok([NoInputs, NoActions])
  {
    var llm := JObj([("model", JStr("gpt-4o"))]);
    assert InvalidSample.fields[2].1 == llm;
    assert HasKey(llm.fields, "model");
    assert !HasKey(llm.fields, "api_key");
    assert Contains(llm, "model") == Ok(true);
    assert Contains(llm, "api_key") == Ok(false);
    var none: seq<Error> := [];
    assert none + [MissingApiKey] == [MissingApiKey];
    assert EnvError(InvalidSample, env) == Ok([]);
    assert EmptyError(InvalidSample, "inputs", NoInputs) == Ok([NoInputs]);
    assert EmptyError(InvalidSample, "actions", NoActions) == Ok([NoActions]);
    assert [NoInputs] + [NoActions] + none == [NoInputs, NoActions];
  }
}
