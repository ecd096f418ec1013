/**
 * The fallback responder (`AIService.getFallbackResponse`): the answer the
 * bot gives without a language model, chosen from the lower-cased message by
 * keyword with a fixed priority: prices, then location, then documents, then
 * a "basic mode" notice with the agency's contacts.
 */
module Fallback {
  import opened Text

  datatype Template = PricingInfo | LocationInfo | DocumentsInfo | BasicMode

  /** The lower-cased message asks about prices. */
  predicate AsksPrice(lowered: string) {
    Contains(lowered, "preço") || Contains(lowered, "valor") || Contains(lowered, "custa")
  }

  /** The lower-cased message asks where the agency is. */
  predicate AsksLocation(lowered: string) {
    Contains(lowered, "onde") || Contains(lowered, "localização") || Contains(lowered, "endereço")
    || Contains(lowered, "mapa")
  }

  /** The lower-cased message asks which documents are needed. */
  predicate AsksDocuments(lowered: string) {
    Contains(lowered, "documento") || Contains(lowered, "papel") || Contains(lowered, "requisito")
  }

  /** The template the fallback responder answers a message with. */
  function SelectTemplate(message: string): Template
  {
    var lowered := Lower(message);
    if AsksPrice(lowered) then PricingInfo
    else if AsksLocation(lowered) then LocationInfo
    else if AsksDocuments(lowered) then DocumentsInfo
    else BasicMode
  }

  /**
   * The text of each template, reduced to its heading line (the bodies are
   * the agency's price list, address and contacts).
   */
  function TemplateText(t: Template): (text: string)
    ensures |text| > 0
  {
    match t
    case PricingInfo => "💰 PREÇOS DE VISTOS TRAVEL BOSS"
    case LocationInfo => "📍 NOSSA LOCALIZAÇÃO"
    case DocumentsInfo => "📄 DOCUMENTOS NECESSÁRIOS"
    case BasicMode => "Sistema temporariamente em modo básico."
  }

  /** Distinct templates have distinct texts, so a reply tells which branch produced it. */
  lemma TemplateTextInjective(t: Template, u: Template)
    ensures TemplateText(t) == TemplateText(u) ==> t == u
  {
  }

  /**
   * `getFallbackResponse`: never fails, depends on nothing but the message,
   * and always answers with some template.
   */
  function GetFallbackResponse(message: string): (reply: string)
    ensures |reply| > 0
  {
    TemplateText(SelectTemplate(message))
  }

  /**
   * The fallback answers with the first of prices, location and documents
   * whose keywords the lower-cased message contains, else with the
   * basic-mode notice.
   */
  lemma FallbackPriority(message: string)
    ensures var reply, lowered := GetFallbackResponse(message), Lower(message);
      && (reply == TemplateText(PricingInfo) <==> AsksPrice(lowered))
      && (reply == TemplateText(LocationInfo) <==> !AsksPrice(lowered) && AsksLocation(lowered))
      && (reply == TemplateText(DocumentsInfo) <==>
            !AsksPrice(lowered) && !AsksLocation(lowered) && AsksDocuments(lowered))
      && (reply == TemplateText(BasicMode) <==>
            !AsksPrice(lowered) && !AsksLocation(lowered) && !AsksDocuments(lowered))
  {
    var t := SelectTemplate(message);
    TemplateTextInjective(t, PricingInfo);
    TemplateTextInjective(t, LocationInfo);
    TemplateTextInjective(t, DocumentsInfo);
    TemplateTextInjective(t, BasicMode);
  }

  /** The pricing answer to "quanto custa o visto", whatever the state of the model. */
  lemma PricingExample(message: string)
    requires message == "quanto custa o visto"
    ensures GetFallbackResponse(message) == TemplateText(PricingInfo)
  {
    var lowered := Lower(message);
    assert message[7..12] == "custa";
    assert lowered[7..12] == "custa" by {
      forall k | 7 <= k < 12
        ensures lowered[k] == message[k]
      {
        assert lowered[k] == LowerChar(message[k]);
      }
    }
    assert OccursAt(lowered, "custa", 7);
    ContainsOccurs(lowered, "custa");
    assert AsksPrice(lowered);
  }
}
