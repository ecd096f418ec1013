/**
 * The per-user conversation state of the message handler (`userStates`):
 * whether the bot answers a user, the state name and the time of the last
 * message; and the rules that decide, from the trimmed and lower-cased
 * message, whether it pauses the bot, activates it, is ignored or is
 * dispatched by intent.
 */
module Sessions {
  import opened Text
  import opened Intents

  /** `estado`: `'aguardando_inicio'`, `'ativo'` or `'parado'`. */
  datatype SessionState = AwaitingStart | Active | Stopped

  /** One entry of `userStates`: `botAtivo`, `estado`, `ultimaInteracao`. */
  datatype Session = Session(botActive: bool, state: SessionState, lastInteraction: int)

  /** The bot answers a user exactly when their session is in the active state. */
  predicate Consistent(s: Session) {
    s.botActive <==> s.state == Active
  }

  /** Messages that, once trimmed and lower-cased, pause the bot when equal to one of these. */
  const StopWords: seq<string> := ["parar", "stop", "sair", "cancelar", "encerrar"]

  /** Messages containing one of these activate the bot. */
  const ActivationCommands: seq<string> :=
    ["oi", "olá", "menu", "iniciar", "start", "travel boss", "bom dia", "boa tarde", "boa noite"]

  /**
   * `lowerMessage`: `userMessage.toLowerCase().trim()`, on the already
   * trimmed `userMessage` (`Text.TrimOfLoweredTrimmed` shows the second
   * trim changes nothing).
   */
  function LowerMessage(userMessage: string): string {
    Trim(Lower(userMessage))
  }

  /** The salutation opening the welcome text: "Olá", "Bom dia", "Boa tarde" or "Boa noite". */
  datatype Greeting = Ola | BomDia | BoaTarde | BoaNoite

  /**
   * The greeting for the local hour: morning before noon, afternoon before
   * six, evening after. The initial `'Olá'` is always overwritten.
   */
  function GreetingFor(hour: int): (g: Greeting)
    ensures g != Ola
    ensures g == BomDia <==> hour < 12
    ensures g == BoaTarde <==> 12 <= hour < 18
    ensures g == BoaNoite <==> 18 <= hour
  {
    if hour < 12 then BomDia
    else if hour < 18 then BoaTarde
    else BoaNoite
  }

  /** What the handler does with a message that passed the rate limiter. */
  datatype Command = StopCommand | Activation | Silence | Dispatch

  /**
   * The first applicable rule: an exact stop word pauses, whatever else
   * holds; otherwise an activation token anywhere activates; otherwise an
   * inactive session stays silent and an active one dispatches by intent.
   */
  function CommandFor(lowered: string, botActive: bool): Command
  {
    if lowered in StopWords then StopCommand
    else if ContainsAny(lowered, ActivationCommands) then Activation
    else if !botActive then Silence
    else Dispatch
  }

  /**
   * Each command is chosen exactly when the rules before it do not apply
   * and its own does: a stop word wins over activation, whatever the state.
   */
  lemma CommandRules(lowered: string, botActive: bool)
    ensures CommandFor(lowered, botActive) == StopCommand <==> lowered in StopWords
    ensures CommandFor(lowered, botActive) == Activation <==> lowered !in StopWords && ContainsAny(lowered, ActivationCommands)
    ensures CommandFor(lowered, botActive) == Silence <==>
      lowered !in StopWords && !ContainsAny(lowered, ActivationCommands) && !botActive
    ensures CommandFor(lowered, botActive) == Dispatch <==>
      lowered !in StopWords && !ContainsAny(lowered, ActivationCommands) && botActive
  {
  }

  /**
   * The session the handler works on at `now`: the stored one with its
   * last-interaction time renewed, or a new inactive one awaiting start.
   */
  function Touched(sessions: map<string, Session>, user: string, now: int): (s: Session)
    ensures s.lastInteraction == now
    ensures user !in sessions ==> !s.botActive && s.state == AwaitingStart
    ensures user in sessions ==> s.botActive == sessions[user].botActive && s.state == sessions[user].state
  {
    if user in sessions then sessions[user].(lastInteraction := now)
    else Session(false, AwaitingStart, now)
  }

  /** The session after the command: paused, activated, or as it was. */
  function Next(s: Session, c: Command): (t: Session)
    ensures t.lastInteraction == s.lastInteraction
    ensures c == StopCommand ==> !t.botActive && t.state == Stopped
    ensures c == Activation ==> t.botActive && t.state == Active
    ensures c == Silence || c == Dispatch ==> t == s
  {
    match c
    case StopCommand => s.(botActive := false, state := Stopped)
    case Activation => s.(botActive := true, state := Active)
    case _ => s
  }

  /** A new session is consistent, and every command keeps a session consistent. */
  lemma NextKeepsConsistent(sessions: map<string, Session>, user: string, now: int, c: Command)
    requires user in sessions ==> Consistent(sessions[user])
    ensures Consistent(Touched(sessions, user, now))
    ensures Consistent(Next(Touched(sessions, user, now), c))
  {
  }

  /** Every greeting keyword but "hey" and "hello" is also an activation token. */
  lemma GreetingKeywordActivates(k: string)
    requires k in IntentTable[Rank(Greeting)].keywords
    ensures k == "hey" || k == "hello" || k in ActivationCommands
  {
    assert IntentTable[Rank(Greeting)].keywords == ["oi", "olá", "bom dia", "boa tarde", "boa noite", "hey", "hello"];
  }

  /**
   * The greeting intent is unreachable by dispatch except through "hey"
   * and "hello": its other keywords are activation tokens, which the
   * handler consumes before it classifies the message.
   */
  lemma DispatchedGreetingSaysHey(body: string, botActive: bool)
    requires CommandFor(LowerMessage(Trim(body)), botActive) == Dispatch
    requires Classify(Trim(body)) == Greeting
    ensures Contains(LowerMessage(Trim(body)), "hey") || Contains(LowerMessage(Trim(body)), "hello")
  {
    TrimOfLoweredTrimmed(body);
    var lowered := LowerMessage(Trim(body));
    CommandRules(lowered, botActive);
    assert Matches(IntentTable[Rank(Greeting)], lowered);
    var k :| k in IntentTable[Rank(Greeting)].keywords && Contains(lowered, k);
    GreetingKeywordActivates(k);
  }

  /** "Oi!" activates a paused session. */
  lemma OiActivates()
    ensures CommandFor(LowerMessage(Trim("Oi!")), false) == Activation
  {
    assert TrimStart("Oi!") == "Oi!";
    assert TrimEnd("Oi!") == "Oi!";
    var lowered := Lower("Oi!");
    assert lowered == "oi!";
    assert TrimStart(lowered) == lowered && TrimEnd(lowered) == lowered;
    assert lowered[0..2] == "oi";
    assert OccursAt(lowered, "oi", 0);
    ContainsOccurs(lowered, "oi");
    assert "oi" in ActivationCommands;
  }
}
