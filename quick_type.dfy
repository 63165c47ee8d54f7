/**
 * The configuration handed to the code-generation engine for each target
 * language, the post-processing of the engine's generated lines, and the two
 * conversions (from a JSON sample, from a JSON Schema) composed from them.
 *
 * The engine itself is a foreign library: it is modelled as a function value
 * from the configuration (which carries the input data) to the generated
 * source lines.
 */
module QuickType {
  import opened Text

  /** The engine's language bindings, one per recognised target language. */
  datatype LangTag = Kotlin | Dart | Java | TypeScript | CPlusPlus | Swift | ObjectiveC | Go

  /** The engine's acronym styles; the table only ever uses the original spelling. */
  datatype AcronymStyle = Original

  /** A renderer option value: a flag, a word, or an acronym style. */
  datatype OptVal = Flag(on: bool) | Word(text: string) | Acronyms(style: AcronymStyle)

  /**
   * The engine's input container after one source has been added: either
   * one JSON sample for the JSON input of a target language, or one JSON
   * Schema text.
   */
  datatype InputData =
    | JsonSamples(targetLanguage: string, typeName: string, samples: seq<string>)
    | SchemaSource(typeName: string, schema: string)

  /** What the engine is called with: the input, the binding and the renderer options. */
  datatype Config = Config(inputData: InputData, lang: LangTag, rendererOptions: map<string, OptVal>)

  /** The engine: a configuration in, generated source lines out. */
  type Engine = Config -> seq<string>

  /** The target-language identifiers the table recognises. */
  const LanguageIds: set<string> :=
    {"Kotlin", "Dart", "Java", "TypeScript", "C++", "Swift", "Objective-C", "Go"}

  /** The identifier under which each binding is listed. */
  function Id(lang: LangTag): (id: string)
    ensures id in LanguageIds
  {
    match lang
    case Kotlin => "Kotlin"
    case Dart => "Dart"
    case Java => "Java"
    case TypeScript => "TypeScript"
    case CPlusPlus => "C++"
    case Swift => "Swift"
    case ObjectiveC => "Objective-C"
    case Go => "Go"
  }

  /** The renderer options of the languages that only ask for type declarations. */
  const JustTypes: map<string, OptVal> := map["just-types" := Flag(true)]

  /**
   * The engine configuration for a target-language identifier.  Matching is
   * exact; an identifier outside the table gets the Kotlin entry.
   */
  function TargetLanguageOptions(inputData: InputData, targetLanguage: string): (r: Config)
    ensures r.inputData == inputData
    ensures targetLanguage in LanguageIds ==> Id(r.lang) == targetLanguage
    ensures targetLanguage !in LanguageIds ==> r.lang == Kotlin
  {
    match targetLanguage
    case "Kotlin" =>
      Config(inputData, Kotlin, map["framework" := Word("just-types")])
    case "Dart" =>
      Config(inputData, Dart, map["copy-with" := Flag(false), "required-props" := Flag(false), "null-safety" := Flag(true)])
    case "Java" =>
      Config(inputData, Java, map["just-types" := Flag(true), "array-type" := Word("list"), "acronym-style" := Acronyms(Original)])
    case "TypeScript" =>
      Config(inputData, TypeScript, JustTypes)
    case "C++" =>
      Config(inputData, CPlusPlus, JustTypes)
    case "Swift" =>
      Config(inputData, Swift, JustTypes)
    case "Objective-C" =>
      Config(inputData, ObjectiveC, JustTypes)
    case "Go" =>
      Config(inputData, Go, JustTypes)
    case _ =>
      Config(inputData, Kotlin, map["framework" := Word("just-types")])
  }

  /** Each binding is found under its own identifier, and under no other listed one. */
  lemma LookupFindsEveryBinding(inputData: InputData, lang: LangTag, other: LangTag)
    ensures TargetLanguageOptions(inputData, Id(lang)).lang == lang
    ensures other != lang ==> Id(other) != Id(lang)
  {
  }

  /** The renderer options each entry declares. */
  lemma DeclaredRendererOptions(inputData: InputData, targetLanguage: string)
    ensures var opts := TargetLanguageOptions(inputData, targetLanguage).rendererOptions;
      && (targetLanguage == "Dart" ==>
            opts.Keys == {"copy-with", "required-props", "null-safety"}
            && opts["copy-with"] == Flag(false) && opts["required-props"] == Flag(false)
            && opts["null-safety"] == Flag(true))
      && (targetLanguage == "Java" ==>
            opts.Keys == {"just-types", "array-type", "acronym-style"}
            && opts["just-types"] == Flag(true) && opts["array-type"] == Word("list")
            && opts["acronym-style"] == Acronyms(Original))
      && (targetLanguage in {"TypeScript", "C++", "Swift", "Objective-C", "Go"} ==>
            opts.Keys == {"just-types"} && opts["just-types"] == Flag(true))
      && (targetLanguage == "Kotlin" || targetLanguage !in LanguageIds ==>
            opts.Keys == {"framework"} && opts["framework"] == Word("just-types"))
  {
  }

  /**
   * An unrecognised identifier is configured exactly like "Kotlin": the
   * lookup never fails, and the fallback adds nothing of its own.
   */
  lemma FallbackIsKotlinEntry(inputData: InputData, targetLanguage: string)
    requires targetLanguage !in LanguageIds
    ensures TargetLanguageOptions(inputData, targetLanguage) == TargetLanguageOptions(inputData, "Kotlin")
  {
  }

  /** The renderer options depend on the binding chosen and on nothing else. */
  lemma OptionsFollowBinding(d1: InputData, t1: string, d2: InputData, t2: string)
    requires TargetLanguageOptions(d1, t1).lang == TargetLanguageOptions(d2, t2).lang
    ensures TargetLanguageOptions(d1, t1).rendererOptions == TargetLanguageOptions(d2, t2).rendererOptions
  {
  }

  /** The map type the engine writes for Dart, and the spelling it is rewritten to. */
  const StrictMap: string := "Map<String, dynamic>"
  const DynamicMap: string := "Map<dynamic, dynamic>"

  lemma DartRewriteIsNonOverlapping()
    ensures NonOverlapping(StrictMap, DynamicMap)
  {
    assert DynamicMap[..|StrictMap|][4] != StrictMap[4];
  }

  /**
   * The text returned for the engine's lines: nothing for no lines,
   * otherwise the lines joined by newlines, with every strict map type
   * rewritten for (exactly) "Dart".
   */
  function ConversionResult(lines: seq<string>, targetLanguage: string): (code: string)
    ensures lines == [] ==> code == ""
    ensures targetLanguage != "Dart" ==> code == Join(lines, "\n")
    ensures targetLanguage == "Dart" ==> !Contains(code, StrictMap)
    ensures targetLanguage == "Dart" && lines != [] ==>
      code == ReplaceAll(Join(lines, "\n"), StrictMap, DynamicMap)
    ensures !Contains(Join(lines, "\n"), StrictMap) ==> code == Join(lines, "\n")
  {
    if |lines| > 0 then
      var code := Join(lines, "\n");
      if targetLanguage == "Dart" then
        DartRewriteIsNonOverlapping();
        NoOccurrenceAfterRewrite(code, StrictMap, DynamicMap);
        ReplaceAll(code, StrictMap, DynamicMap)
      else code
    else ""
  }

  /**
   * For Dart, the first strict map type in the joined text becomes the
   * dynamic spelling; everything before it is kept, and the rewrite goes on
   * after it.
   */
  lemma DartRewritesFirstStrictMap(lines: seq<string>, w: string, x: string)
    requires Join(lines, "\n") == w + StrictMap + x
    requires !Contains(w + StrictMap[..|StrictMap| - 1], StrictMap)
    ensures ConversionResult(lines, "Dart") == w + DynamicMap + ReplaceAll(x, StrictMap, DynamicMap)
  {
    assert lines != [];
    ReplaceAtFirstOccurrence(w, x, StrictMap, DynamicMap);
  }

  /** Post-processing Dart output a second time changes nothing. */
  lemma DartPostProcessingIdempotent(lines: seq<string>)
    ensures var code := ConversionResult(lines, "Dart");
      ReplaceAll(code, StrictMap, DynamicMap) == code
  {
  }

  /** The Dart check is exact: "dart" output keeps the strict map type. */
  lemma LowerCaseDartNotRewritten()
    ensures Contains(ConversionResult([StrictMap + " json;"], "dart"), StrictMap)
    ensures ConversionResult([StrictMap + " json;"], "Dart") == DynamicMap + " json;"
  {
    var line := StrictMap + " json;";
    assert line[..|StrictMap|] == StrictMap;
    assert line[|StrictMap|..] == " json;";
    assert StartsWith(line, StrictMap);
    assert ReplaceAll(" json;", StrictMap, DynamicMap) == " json;";
    assert ReplaceAll(line, StrictMap, DynamicMap) == DynamicMap + " json;";
  }

  /**
   * Code for a type inferred from one JSON sample.  The engine runs once, on
   * the table's configuration for the target language over the JSON input
   * holding the one sample under the type name; its lines are then
   * post-processed.
   */
  function QuickTypeByJSON(engine: Engine, targetLanguage: string, typeName: string, jsonString: string): (code: string)
    ensures var lines := engine(TargetLanguageOptions(JsonSamples(targetLanguage, typeName, [jsonString]), targetLanguage));
      && (lines == [] ==> code == "")
      && (targetLanguage != "Dart" ==> code == Join(lines, "\n"))
      && (targetLanguage == "Dart" ==> !Contains(code, StrictMap))
      && (targetLanguage == "Dart" && lines != [] ==>
            code == ReplaceAll(Join(lines, "\n"), StrictMap, DynamicMap))
  {
    var inputData := JsonSamples(targetLanguage, typeName, [jsonString]);
    ConversionResult(engine(TargetLanguageOptions(inputData, targetLanguage)), targetLanguage)
  }

  /**
   * The sample conversion consults the engine on one configuration only:
   * two engines that agree there give the same code.
   */
  lemma SampleConversionDependsOnlyOnItsConfig(e1: Engine, e2: Engine, targetLanguage: string,
                                               typeName: string, jsonString: string)
    requires var cfg := TargetLanguageOptions(JsonSamples(targetLanguage, typeName, [jsonString]), targetLanguage);
      e1(cfg) == e2(cfg)
    ensures QuickTypeByJSON(e1, targetLanguage, typeName, jsonString)
         == QuickTypeByJSON(e2, targetLanguage, typeName, jsonString)
  {
  }

  /**
   * Code for a type described by a JSON Schema.  The engine runs once, on
   * the table's configuration for the target language over a schema input
   * holding the one schema under the type name; its lines are then
   * post-processed.
   */
  function QuickTypeByJSONSchema(engine: Engine, targetLanguage: string, typeName: string, jsonSchemaString: string): (code: string)
    ensures var lines := engine(TargetLanguageOptions(SchemaSource(typeName, jsonSchemaString), targetLanguage));
      && (lines == [] ==> code == "")
      && (targetLanguage != "Dart" ==> code == Join(lines, "\n"))
      && (targetLanguage == "Dart" ==> !Contains(code, StrictMap))
      && (targetLanguage == "Dart" && lines != [] ==>
            code == ReplaceAll(Join(lines, "\n"), StrictMap, DynamicMap))
  {
    var inputData := SchemaSource(typeName, jsonSchemaString);
    ConversionResult(engine(TargetLanguageOptions(inputData, targetLanguage)), targetLanguage)
  }

  /**
   * The schema conversion consults the engine on one configuration only:
   * two engines that agree there give the same code.
   */
  lemma SchemaConversionDependsOnlyOnItsConfig(e1: Engine, e2: Engine, targetLanguage: string,
                                               typeName: string, jsonSchemaString: string)
    requires var cfg := TargetLanguageOptions(SchemaSource(typeName, jsonSchemaString), targetLanguage);
      e1(cfg) == e2(cfg)
    ensures QuickTypeByJSONSchema(e1, targetLanguage, typeName, jsonSchemaString)
         == QuickTypeByJSONSchema(e2, targetLanguage, typeName, jsonSchemaString)
  {
  }
}
