/** The operation catalogue `function_definitions_llm` (app.py): sixteen
    function descriptors, each with a name, a description, JSON-schema typed
    parameters and a list of required parameter names. The whole list is sent
    to the classifier with every request; nothing else reads it, so its
    patterns, defaults and required lists constrain only what the language
    model is asked for. */
module Catalogue {
  import opened Wrappers
  import Pattern

  /** The JSON-schema `type` of a parameter. */
  datatype Kind = StringKind | IntegerKind | ArrayKind

  /** A JSON value as it appears as a declared default. */
  datatype Value = Str(s: string) | Int(i: int) | Arr(items: seq<Value>)

  /** The schema of one parameter; `items` describes the elements of an
      array parameter. */
  datatype Schema = Schema(
    kind: Kind,
    pattern: Option<string>,
    default: Option<Value>,
    minimum: Option<int>,
    items: Option<Schema>,
    minItems: Option<nat>,
    maxItems: Option<nat>,
    description: Option<string>)

  /** The parameter names that occur in the catalogue, as an enumeration;
      `Key` gives the JSON spelling. */
  datatype Param =
    | Email | PrettierVersion | Filename | Targetfile | Weekday
    | LogDirPath | OutputFilePath | NumFiles | DocDirPath | OutputFile
    | ImagePath | OutputFilename | Query | Filepath | Url
    | SavePath | DbPath | OutputPath | Resize | MdPath

  function Key(p: Param): string {
    match p
    case Email => "email"
    case PrettierVersion => "prettier_version"
    case Filename => "filename"
    case Targetfile => "targetfile"
    case Weekday => "weekday"
    case LogDirPath => "log_dir_path"
    case OutputFilePath => "output_file_path"
    case NumFiles => "num_files"
    case DocDirPath => "doc_dir_path"
    case OutputFile => "output_file"
    case ImagePath => "image_path"
    case OutputFilename => "output_filename"
    case Query => "query"
    case Filepath => "filepath"
    case Url => "url"
    case SavePath => "save_path"
    case DbPath => "db_path"
    case OutputPath => "output_path"
    case Resize => "resize"
    case MdPath => "md_path"
  }

  datatype Property = Property(name: Param, schema: Schema)

  datatype Descriptor = Descriptor(
    name: string,
    description: string,
    properties: seq<Property>,
    required: seq<Param>)

  function Plain(kind: Kind): Schema {
    Schema(kind, None, None, None, None, None, None, None)
  }

  /** A string parameter constrained by a pattern. */
  function Text(pattern: string): Schema {
    Plain(StringKind).(pattern := Some(pattern))
  }

  function TextWithDefault(pattern: string, default: string): Schema {
    Text(pattern).(default := Some(Str(default)))
  }

  function TextDescribed(pattern: string, description: string): Schema {
    Text(pattern).(description := Some(description))
  }

  /** The entries of `function_definitions_llm`. The properties A1 has
      commented out (`filename`, `targetfile`) are absent, as they are from
      what is sent; the `description` B12 has commented out is absent too. */
  const OpA1: Descriptor :=
    Descriptor("A1",
      "Run a Python script from a given URL, passing an email as the argument.",
      [Property(Email, Text(@"[\w\.-]+@[\w\.-]+\.\w+"))],
      [Filename, Targetfile, Email])

  const OpA2: Descriptor :=
    Descriptor("A2",
      "Format a markdown file using a specified version of Prettier.",
      [Property(PrettierVersion, Text(@"prettier@\d+\.\d+\.\d+")),
       Property(Filename, Text(@"./(.\.md)"))],
      [PrettierVersion, Filename])

  const OpA3: Descriptor :=
    Descriptor("A3",
      "Count the number of occurrences of a specific weekday in a date file.",
      [Property(Filename, Text(@"/data/.dates.\.txt")),
       Property(Targetfile, Text(@"/data/./(.\.txt)")),
       Property(Weekday, Plain(IntegerKind).(pattern := Some("(Monday|Tuesday|Wednesday|Thursday|Friday|Saturday|Sunday)")))],
      [Filename, Targetfile, Weekday])

  const OpA4: Descriptor :=
    Descriptor("A4",
      "Sort a JSON contacts file and save the sorted version to a target file.",
      [Property(Filename, Text(@"./(.\.json)")),
       Property(Targetfile, Text(@"./(.\.json)"))],
      [Filename, Targetfile])

  const OpA5: Descriptor :=
    Descriptor("A5",
      "Retrieve the most recent log files from a directory and save their content to an output file.",
      [Property(LogDirPath, TextWithDefault(@".*/logs", "/data/logs")),
       Property(OutputFilePath, TextWithDefault(@"./(.\.txt)", "/data/logs-recent.txt")),
       Property(NumFiles, Plain(IntegerKind).(minimum := Some(1), default := Some(Int(10))))],
      [LogDirPath, OutputFilePath, NumFiles])

  const OpA6: Descriptor :=
    Descriptor("A6",
      "Generate an index of documents from a directory and save it as a JSON file.",
      [Property(DocDirPath, TextWithDefault(@".*/docs", "/data/docs")),
       Property(OutputFilePath, TextWithDefault(@"./(.\.json)", "/data/docs/index.json"))],
      [DocDirPath, OutputFilePath])

  const OpA7: Descriptor :=
    Descriptor("A7",
      "Extract the sender's email address from a text file and save it to an output file.",
      [Property(Filename, TextWithDefault(@"./(.\.txt)", "/data/email.txt")),
       Property(OutputFile, TextWithDefault(@"./(.\.txt)", "/data/email-sender.txt"))],
      [Filename, OutputFile])

  const OpA8: Descriptor :=
    Descriptor("A8",
      "Generate an image representation of credit card details from a text file.",
      [Property(Filename, TextWithDefault(@"./(.\.txt)", "/data/credit-card.txt")),
       Property(ImagePath, TextWithDefault(@"./(.\.png)", "/data/credit-card.png"))],
      [Filename, ImagePath])

  const OpA9: Descriptor :=
    Descriptor("A9",
      "Find similar comments from a text file and save them to an output file.",
      [Property(Filename, TextWithDefault(@"./(.\.txt)", "/data/comments.txt")),
       Property(OutputFilename, TextWithDefault(@"./(.\.txt)", "/data/comments-similar.txt"))],
      [Filename, OutputFilename])

  const OpA10: Descriptor :=
    Descriptor("A10",
      "Identify high-value (gold) ticket sales from a database and save them to a text file.",
      [Property(Filename, TextWithDefault(@"./(.\.db)", "/data/ticket-sales.db")),
       Property(OutputFilename, TextWithDefault(@"./(.\.txt)", "/data/ticket-sales-gold.txt")),
       Property(Query, Text("SELECT SUM(units * price) FROM tickets WHERE type = 'Gold'"))],
      [Filename, OutputFilename, Query])

  const OpB12: Descriptor :=
    Descriptor("B12",
      "Check if filepath starts with /data",
      [Property(Filepath, Text(@"^/data/.*"))],
      [Filepath])

  const OpB3: Descriptor :=
    Descriptor("B3",
      "Download content from a URL and save it to the specified path.",
      [Property(Url, TextDescribed(@"https?://.*", "URL to download content from.")),
       Property(SavePath, TextDescribed(@"./.", "Path to save the downloaded content."))],
      [Url, SavePath])

  const OpB5: Descriptor :=
    Descriptor("B5",
      "Execute a SQL query on a specified database file and save the result to an output file.",
      [Property(DbPath, TextDescribed(@"./(.\.db)", "Path to the SQLite database file.")),
       Property(Query, Plain(StringKind).(description := Some("SQL query to be executed on the database."))),
       Property(OutputFilename, TextDescribed(@"./(.\.txt)", "Path to the file where the query result will be saved."))],
      [DbPath, Query, OutputFilename])

  const OpB6: Descriptor :=
    Descriptor("B6",
      "Fetch content from a URL and save it to the specified output file.",
      [Property(Url, TextDescribed(@"https?://.*", "URL to fetch content from.")),
       Property(OutputFilename, TextDescribed(@"./.", "Path to the file where the content will be saved."))],
      [Url, OutputFilename])

  const OpB7: Descriptor :=
    Descriptor("B7",
      "Process an image by optionally resizing it and saving the result to an output path.",
      [Property(ImagePath, TextDescribed(@"./(.\.(jpg|jpeg|png|gif|bmp))", "Path to the input image file.")),
       Property(OutputPath, TextDescribed(@"./.", "Path to save the processed image.")),
       Property(Resize, ResizeSchema)],
      [ImagePath, OutputPath])

  /** B7's `resize`: an array of exactly two integers, each at least 1. */
  const ResizeSchema: Schema :=
    Plain(ArrayKind).(
      items := Some(Plain(IntegerKind).(minimum := Some(1))),
      minItems := Some(2),
      maxItems := Some(2),
      description := Some("Optional. Resize dimensions as [width, height]."))

  const OpB9: Descriptor :=
    Descriptor("B9",
      "Convert a Markdown file to another format and save the result to the specified output path.",
      [Property(MdPath, TextDescribed(@"./(.\.md)", "Path to the Markdown file to be converted.")),
       Property(OutputPath, TextDescribed(@"./.", "Path where the converted file will be saved."))],
      [MdPath, OutputPath])

  /** `function_definitions_llm`, in source order. */
  const Definitions: seq<Descriptor> := [
    OpA1, OpA2, OpA3, OpA4, OpA5, OpA6, OpA7, OpA8,
    OpA9, OpA10, OpB12, OpB3, OpB5, OpB6, OpB7, OpB9
  ]

  function Names(ds: seq<Descriptor>): seq<string> {
    seq(|ds|, i requires 0 <= i < |ds| => ds[i].name)
  }

  function PropertyNames(ps: seq<Property>): seq<Param> {
    seq(|ps|, i requires 0 <= i < |ps| => ps[i].name)
  }

  /** No name occurs twice. */
  predicate Distinct<T(==)>(names: seq<T>) {
    forall i, j | 0 <= i < j < |names| :: names[i] != names[j]
  }

  /** A value satisfies a schema: its JSON type, `minimum`, `minItems`,
      `maxItems` and item schema (patterns are not part of this check). */
  predicate Conforms(v: Value, s: Schema) {
    match v
    case Str(_) => s.kind == StringKind
    case Int(i) => s.kind == IntegerKind && (s.minimum.Some? ==> s.minimum.value <= i)
    case Arr(items) =>
      && s.kind == ArrayKind
      && (s.minItems.Some? ==> s.minItems.value <= |items|)
      && (s.maxItems.Some? ==> |items| <= s.maxItems.value)
      && (s.items.Some? ==> forall k | 0 <= k < |items| :: Conforms(items[k], s.items.value))
  }

  /** Every required name is a declared property. */
  predicate RequiredDeclared(d: Descriptor) {
    forall r | r in d.required :: r in PropertyNames(d.properties)
  }

  /** Every declared default satisfies the schema it is declared in. */
  predicate DefaultsConform(d: Descriptor) {
    forall p | p in d.properties :: p.schema.default.Some? ==> Conforms(p.schema.default.value, p.schema)
  }

  /** The operation names, in catalogue order. */
  const OperationNames: seq<string> :=
    ["A1", "A2", "A3", "A4", "A5", "A6", "A7", "A8", "A9", "A10", "B12", "B3", "B5", "B6", "B7", "B9"]

  lemma CatalogueNames()
    ensures Names(Definitions) == OperationNames
  {
  }

  /** There are sixteen operations and their names are pairwise distinct. */
  lemma DefinitionsNamesDistinct()
    ensures |Definitions| == 16
    ensures Distinct(Names(Definitions))
  {
    CatalogueNames();
    OperationNamesDistinct();
  }

  lemma OperationNamesDistinct()
    ensures |OperationNames| == 16 && Distinct(OperationNames)
  {
  }

  /** A1 requires `filename` and `targetfile`, which its properties do not
      declare (they are commented out). */
  lemma A1RequiresUndeclared()
    ensures PropertyNames(OpA1.properties) == [Email]
    ensures Filename in OpA1.required && Targetfile in OpA1.required
    ensures !RequiredDeclared(OpA1)
  {
    assert PropertyNames(OpA1.properties) == [Email];
    assert OpA1.required[0] == Filename;
  }

  /** Each of A2 to A10 declares every parameter it requires. */
  lemma RequiredDeclaredA()
    ensures RequiredDeclared(OpA2) && RequiredDeclared(OpA3) && RequiredDeclared(OpA4)
    ensures RequiredDeclared(OpA5) && RequiredDeclared(OpA6) && RequiredDeclared(OpA7)
    ensures RequiredDeclared(OpA8) && RequiredDeclared(OpA9) && RequiredDeclared(OpA10)
  {
    assert PropertyNames(OpA2.properties) == [PrettierVersion, Filename];
    assert PropertyNames(OpA3.properties) == [Filename, Targetfile, Weekday];
    assert PropertyNames(OpA4.properties) == [Filename, Targetfile];
    assert PropertyNames(OpA5.properties) == [LogDirPath, OutputFilePath, NumFiles];
    assert PropertyNames(OpA6.properties) == [DocDirPath, OutputFilePath];
    assert PropertyNames(OpA7.properties) == [Filename, OutputFile];
    assert PropertyNames(OpA8.properties) == [Filename, ImagePath];
    assert PropertyNames(OpA9.properties) == [Filename, OutputFilename];
    assert PropertyNames(OpA10.properties) == [Filename, OutputFilename, Query];
  }

  /** Each B operation declares every parameter it requires. */
  lemma RequiredDeclaredB()
    ensures RequiredDeclared(OpB12) && RequiredDeclared(OpB3) && RequiredDeclared(OpB5)
    ensures RequiredDeclared(OpB6) && RequiredDeclared(OpB7) && RequiredDeclared(OpB9)
  {
    assert PropertyNames(OpB12.properties) == [Filepath];
    assert PropertyNames(OpB3.properties) == [Url, SavePath];
    assert PropertyNames(OpB5.properties) == [DbPath, Query, OutputFilename];
    assert PropertyNames(OpB6.properties) == [Url, OutputFilename];
    assert PropertyNames(OpB7.properties) == [ImagePath, OutputPath, Resize];
    assert PropertyNames(OpB9.properties) == [MdPath, OutputPath];
  }

  /** Required names are declared properties in every descriptor except
      A1. */
  lemma OnlyA1RequiresUndeclared()
    ensures forall i | 0 <= i < |Definitions| :: RequiredDeclared(Definitions[i]) <==> Definitions[i].name != "A1"
  {
    A1RequiresUndeclared();
    RequiredDeclaredA();
    RequiredDeclaredB();
  }

  /** The default 10 of A5's `num_files` satisfies its `minimum` of 1. */
  lemma NumFilesDefaultConforms()
    ensures OpA5.properties[2].name == NumFiles
    ensures OpA5.properties[2].schema.default == Some(Int(10))
    ensures OpA5.properties[2].schema.minimum == Some(1)
    ensures Conforms(Int(10), OpA5.properties[2].schema)
  {
  }

  /** B7's `resize` is an optional array of exactly two integers, each at
      least 1. */
  lemma ResizeIsOptionalPair()
    ensures OpB7.properties[2].name == Resize && Resize !in OpB7.required
    ensures forall v: seq<Value> :: |v| != 2 ==> !Conforms(Arr(v), OpB7.properties[2].schema)
    ensures forall w: int, h: int :: Conforms(Arr([Int(w), Int(h)]), OpB7.properties[2].schema) <==> 1 <= w && 1 <= h
  {
    assert OpB7.properties[2] == Property(Resize, ResizeSchema);
    PositivePairSchema(ResizeSchema);
  }

  /** An array schema of exactly two items, each an integer of at least 1,
      admits exactly the pairs of positive integers. */
  lemma PositivePairSchema(s: Schema)
    requires s.kind == ArrayKind && s.minItems == Some(2) && s.maxItems == Some(2)
    requires s.items.Some? && s.items.value.kind == IntegerKind && s.items.value.minimum == Some(1)
    ensures forall v: seq<Value> :: |v| != 2 ==> !Conforms(Arr(v), s)
    ensures forall w: int, h: int :: Conforms(Arr([Int(w), Int(h)]), s) <==> 1 <= w && 1 <= h
  {
    forall w: int, h: int
      ensures Conforms(Arr([Int(w), Int(h)]), s) <==> 1 <= w && 1 <= h
    {
      var items := [Int(w), Int(h)];
      assert items[0] == Int(w) && items[1] == Int(h);
    }
  }

  /** The schema declares a default. */
  predicate DeclaresDefault(d: Descriptor) {
    exists p | p in d.properties :: p.schema.default.Some?
  }

  /** A1 to A4 and the B operations declare no default. */
  lemma NoDefaultsOutsideA5ToA10()
    ensures !DeclaresDefault(OpA1) && !DeclaresDefault(OpA2) && !DeclaresDefault(OpA3) && !DeclaresDefault(OpA4)
    ensures !DeclaresDefault(OpB12) && !DeclaresDefault(OpB3) && !DeclaresDefault(OpB5)
    ensures !DeclaresDefault(OpB6) && !DeclaresDefault(OpB7) && !DeclaresDefault(OpB9)
  {
  }

  /** What `re.search(pattern, default)` finds for a string default: `None`
      when the schema has no string default or no pattern, or when its
      pattern lies outside the subset `Pattern` models. */
  function DefaultMeetsPattern(s: Schema): Option<bool> {
    if s.default.Some? && s.default.value.Str? && s.pattern.Some? && Pattern.Compile(s.pattern.value).Some? then
      Some(Pattern.Search(Pattern.Compile(s.pattern.value).value, s.default.value.s))
    else None
  }

}
