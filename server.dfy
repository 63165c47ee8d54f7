/**
 * The conversion endpoint's decision logic: which conversion the request's
 * `conversionType` selects, and the reply envelope built around its result.
 * Request parsing, logging and sending the reply are HTTP plumbing and are
 * not part of this model.
 */
module Server {
  import opened QuickType
  import Text

  datatype Option<T> = None | Some(value: T)

  /** The reply body: a return code, a message, and the generated code on success. */
  datatype Reply = Reply(retCode: int, message: string, info: Option<string>)

  /** "Conversion succeeded." */
  const ConvertedMessage: string := "转换类型成功"
  /** "Please enter a correct conversion type." */
  const WrongTypeMessage: string := "请正确输入转换类型"

  /** The two conversion types the endpoint accepts, compared exactly. */
  predicate Supported(conversionType: string) {
    conversionType == "json" || conversionType == "jsonSchema"
  }

  /**
   * The reply to a conversion request.  "json" runs the sample conversion,
   * "jsonSchema" the schema conversion; both wrap the code as a success.
   * Any other type is refused without running either conversion.
   */
  function HandleConversion(engine: Engine, conversionType: string, targetLanguage: string,
                            className: string, jsonString: string): (reply: Reply)
    ensures reply.retCode == 0 <==> Supported(conversionType)
    ensures Supported(conversionType) ==> reply.message == ConvertedMessage && reply.info.Some?
    ensures !Supported(conversionType) ==> reply == Reply(-1, WrongTypeMessage, None)
    ensures conversionType == "json" ==>
      reply.info == Some(QuickTypeByJSON(engine, targetLanguage, className, jsonString))
    ensures conversionType == "jsonSchema" ==>
      reply.info == Some(QuickTypeByJSONSchema(engine, targetLanguage, className, jsonString))
  {
    if conversionType == "json" then
      var result := QuickTypeByJSON(engine, targetLanguage, className, jsonString);
      Reply(0, ConvertedMessage, Some(result))
    else if conversionType == "jsonSchema" then
      var result := QuickTypeByJSONSchema(engine, targetLanguage, className, jsonString);
      Reply(0, ConvertedMessage, Some(result))
    else
      Reply(-1, WrongTypeMessage, None)
  }

  /**
   * A refused request does not depend on the engine at all: two engines
   * that differ everywhere give the same reply, so neither conversion runs.
   * Case variants such as "JSON" are refused.
   */
  lemma UnsupportedTypeNeverConverts(e1: Engine, e2: Engine, conversionType: string,
                                     targetLanguage: string, className: string, jsonString: string)
    requires !Supported(conversionType)
    ensures HandleConversion(e1, conversionType, targetLanguage, className, jsonString)
         == HandleConversion(e2, conversionType, targetLanguage, className, jsonString)
    ensures HandleConversion(e1, "JSON", targetLanguage, className, jsonString).retCode == -1
  {
  }

  /**
   * When the engine generates no lines for the configuration the request
   * builds, the reply is still a success, with empty code: the endpoint has
   * no empty-result failure.
   */
  lemma EmptyEngineOutputIsSuccess(engine: Engine, conversionType: string, targetLanguage: string,
                                   className: string, jsonString: string)
    requires Supported(conversionType)
    requires conversionType == "json" ==>
      engine(TargetLanguageOptions(JsonSamples(targetLanguage, className, [jsonString]), targetLanguage)) == []
    requires conversionType == "jsonSchema" ==>
      engine(TargetLanguageOptions(SchemaSource(className, jsonString), targetLanguage)) == []
    ensures HandleConversion(engine, conversionType, targetLanguage, className, jsonString)
         == Reply(0, ConvertedMessage, Some(""))
  {
  }

  /**
   * A successful "json" request for Dart carries no strict map type, and for
   * any other language carries exactly the engine's lines joined by newlines.
   */
  lemma SampleReplyCarriesPostProcessedCode(engine: Engine, targetLanguage: string,
                                            className: string, jsonString: string)
    ensures var reply := HandleConversion(engine, "json", targetLanguage, className, jsonString);
      var cfg := TargetLanguageOptions(JsonSamples(targetLanguage, className, [jsonString]), targetLanguage);
      && reply.retCode == 0
      && reply.info.Some?
      && (targetLanguage == "Dart" ==> !Text.Contains(reply.info.value, StrictMap))
      && (targetLanguage != "Dart" ==> reply.info.value == Text.Join(engine(cfg), "\n"))
  {
  }

  /**
   * A successful "jsonSchema" request for Dart carries no strict map type,
   * and for any other language carries exactly the engine's lines joined by
   * newlines.
   */
  lemma SchemaReplyCarriesPostProcessedCode(engine: Engine, targetLanguage: string,
                                            className: string, jsonString: string)
    ensures var reply := HandleConversion(engine, "jsonSchema", targetLanguage, className, jsonString);
      var cfg := TargetLanguageOptions(SchemaSource(className, jsonString), targetLanguage);
      && reply.retCode == 0
      && reply.info.Some?
      && (targetLanguage == "Dart" ==> !Text.Contains(reply.info.value, StrictMap))
      && (targetLanguage != "Dart" ==> reply.info.value == Text.Join(engine(cfg), "\n"))
  {
  }
}
