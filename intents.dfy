/**
 * The keyword intent classifier (`AIService.analyzeIntent`): a fixed table
 * of intents, each with its keywords; the first intent, in table order,
 * with a keyword occurring in the lower-cased message wins, and a message
 * that matches none is `General`.
 */
module Intents {
  import opened Text

  datatype Intent =
    | Greeting | Pricing | Countries | Documents | Location
    | Contact | Stop | Image | Gallery | General

  datatype Rule = Rule(intent: Intent, keywords: seq<string>)

  /** The classifier's table, in the order it is searched. */
  const IntentTable: seq<Rule> := [
    Rule(Greeting, ["oi", "olá", "bom dia", "boa tarde", "boa noite", "hey", "hello"]),
    Rule(Pricing, ["preço", "precos", "valor", "quanto custa", "custo", "cobra"]),
    Rule(Countries, ["portugal", "brasil", "eua", "usa", "canada", "europa"]),
    Rule(Documents, ["documento", "papeis", "requisitos", "preciso", "necessário"]),
    Rule(Location, ["onde", "localização", "endereço", "mapa"]),
    Rule(Contact, ["telefone", "contato", "atendente", "falar", "humano"]),
    Rule(Stop, ["parar", "stop", "sair", "cancelar", "encerrar"]),
    Rule(Image, ["imagem", "logo"]),
    Rule(Gallery, ["galeria", "fotos", "imagens"])
  ]

  predicate Matches(rule: Rule, lowered: string) {
    ContainsAny(lowered, rule.keywords)
  }

  /** The position of an intent in the table; `General` comes after every rule. */
  function Rank(intent: Intent): (k: nat)
    ensures k <= |IntentTable|
    ensures k < |IntentTable| <==> intent != General
    ensures k < |IntentTable| ==> IntentTable[k].intent == intent
  {
    match intent
    case Greeting => 0
    case Pricing => 1
    case Countries => 2
    case Documents => 3
    case Location => 4
    case Contact => 5
    case Stop => 6
    case Image => 7
    case Gallery => 8
    case General => 9
  }

  /** Each intent appears in the table once, at its rank. */
  lemma RankOfRow(k: nat)
    requires k < |IntentTable|
    ensures Rank(IntentTable[k].intent) == k
  {
  }

  /** The index of the first rule of `table` that matches, or `|table|` when none does. */
  function FirstMatch(table: seq<Rule>, lowered: string): (k: nat)
    ensures k <= |table|
    ensures forall j :: 0 <= j < k ==> !Matches(table[j], lowered)
    ensures k < |table| ==> Matches(table[k], lowered)
  {
    if table == [] then 0
    else if Matches(table[0], lowered) then 0
    else 1 + FirstMatch(table[1..], lowered)
  }

  /** The intent of a message: the intent of the first rule that matches, else `General`. */
  function Classify(message: string): Intent
  {
    var k := FirstMatch(IntentTable, Lower(message));
    if k < |IntentTable| then IntentTable[k].intent else General
  }

  /**
   * A message's intent is the first intent in table order that has a
   * keyword in the lower-cased message, and `General` exactly when none has.
   */
  lemma ClassifyFirstMatching(message: string)
    ensures var intent, lowered := Classify(message), Lower(message);
      && (intent == General <==> forall j :: 0 <= j < |IntentTable| ==> !Matches(IntentTable[j], lowered))
      && (intent != General ==> Matches(IntentTable[Rank(intent)], lowered))
      && forall j :: 0 <= j < Rank(intent) ==> !Matches(IntentTable[j], lowered)
  {
    var k := FirstMatch(IntentTable, Lower(message));
    if k < |IntentTable| {
      RankOfRow(k);
    }
  }

  /**
   * `analyzeIntent` as the source runs it: scan the table, returning the
   * first intent one of whose keywords occurs in the lower-cased message.
   */
  method AnalyzeIntent(message: string) returns (intent: Intent)
    ensures intent == Classify(message)
  {
    var lowered := Lower(message);
    for i := 0 to |IntentTable|
      invariant forall j :: 0 <= j < i ==> !Matches(IntentTable[j], lowered)
    {
      if Matches(IntentTable[i], lowered) {
        return IntentTable[i].intent;
      }
    }
    return General;
  }

  /**
   * Only a message with no keyword of an earlier intent reaches a later
   * one: a message naming a price is never `Location`, whatever else it says.
   */
  lemma {:induction false} EarlierIntentWins(message: string, a: Intent, b: Intent)
    requires Rank(a) < Rank(b) && a != General
    requires Matches(IntentTable[Rank(a)], Lower(message))
    ensures Classify(message) != b
  {
    ClassifyFirstMatching(message);
  }
}
