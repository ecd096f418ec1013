/**
 * The conversation memory and response generation of `AIService`: one
 * history per user, trimmed to the newest ten turns each time the user
 * speaks, fed to the configured language-model provider; whatever the
 * provider does, the caller gets a non-empty answer, falling back to the
 * keyword responder.
 */
module Ai {
  import opened Fallback

  datatype Role = User | Assistant
  datatype Turn = Turn(role: Role, content: string)

  /** `generateResponse` keeps at most this many turns after adding the user's. */
  const MaxHistory := 10

  /** `this.provider`: chosen once from configuration; `Other` covers `'fallback'` and unknown names. */
  datatype Provider = Google | OpenAI | Anthropic | Other(name: string)

  /**
   * What the provider call came to: a text, no content (an empty or missing
   * text), or an exception (network, credentials, quota, malformed reply).
   */
  datatype ProviderOutcome = Answered(text: string) | NoContent | Threw

  /**
   * The provider after start-up: the configured one, or `'fallback'` when a
   * Gemini model was to be created (provider `'google'` with its API key
   * set, `apiKey`) and creating it threw.
   */
  function StartProvider(configured: Provider, apiKey: bool, googleInitFails: bool): (p: Provider)
    ensures p != configured <==> configured == Google && apiKey && googleInitFails
    ensures p != configured ==> p == Other("fallback")
  {
    if configured == Google && apiKey && googleInitFails then Other("fallback") else configured
  }

  predicate CallsModel(p: Provider) {
    !p.Other?
  }

  /** The newest `MaxHistory` turns of `h`: `history.splice(0, history.length - 10)` when longer. */
  function KeepNewest(h: seq<Turn>): (r: seq<Turn>)
    ensures |r| == if |h| > MaxHistory then MaxHistory else |h|
    ensures r == h[|h| - |r|..]
  {
    if |h| > MaxHistory then h[|h| - MaxHistory..] else h
  }

  /** The history after the user turns `turns` are added one at a time, trimming each time. */
  function AddTurns(h: seq<Turn>, turns: seq<Turn>): seq<Turn>
    decreases |turns|
  {
    if turns == [] then h else AddTurns(KeepNewest(h + [turns[0]]), turns[1..])
  }

  /**
   * Adding turns one by one leaves exactly the newest ten of everything
   * said, in the order it was said.
   */
  lemma {:induction false} AddTurnsKeepsNewest(h: seq<Turn>, turns: seq<Turn>)
    requires turns != []
    ensures AddTurns(h, turns) == KeepNewest(h + turns)
    decreases |turns|
  {
    var t, rest := turns[0], turns[1..];
    assert turns == [t] + rest;
    if rest == [] {
      calc {
        AddTurns(h, turns);
        AddTurns(KeepNewest(h + [t]), rest);
        KeepNewest(h + [t]);
      }
    } else {
      calc {
        AddTurns(h, turns);
        AddTurns(KeepNewest(h + [t]), rest);
        { AddTurnsKeepsNewest(KeepNewest(h + [t]), rest); }
        KeepNewest(KeepNewest(h + [t]) + rest);
        { KeepNewestConcat(h + [t], rest); }
        KeepNewest(h + [t] + rest);
        { assert h + [t] + rest == h + turns; }
        KeepNewest(h + turns);
      }
    }
  }

  /** Trimming a prefix before appending a non-empty tail does not change the final trim. */
  lemma KeepNewestConcat(h: seq<Turn>, tail: seq<Turn>)
    requires tail != []
    ensures KeepNewest(KeepNewest(h) + tail) == KeepNewest(h + tail)
  {
    var x := h + tail;
    var d := |h| - |KeepNewest(h)|;
    assert KeepNewest(h) + tail == x[d..];
    if |h| > MaxHistory {
      assert x[d..][|x| - d - MaxHistory..] == x[|x| - MaxHistory..];
    } else {
      assert x[d..] == x;
    }
  }

  /** Whatever came before, ten or more user turns leave exactly the last ten of them. */
  lemma {:induction false} LastTenTurns(h: seq<Turn>, turns: seq<Turn>)
    requires |turns| >= MaxHistory
    ensures AddTurns(h, turns) == turns[|turns| - MaxHistory..]
  {
    AddTurnsKeepsNewest(h, turns);
    SuffixOfConcat(h, turns, MaxHistory);
  }

  /** The last `n` elements of `h + turns` lie in `turns` when it has that many. */
  lemma SuffixOfConcat(h: seq<Turn>, turns: seq<Turn>, n: nat)
    requires n <= |turns|
    ensures (h + turns)[|h + turns| - n..] == turns[|turns| - n..]
  {
    var all := h + turns;
    forall k | |all| - n <= k < |all|
      ensures all[k] == turns[k - |h|]
    {
    }
  }

  /**
   * The answer `generateResponse` returns: the model's text when a model
   * is configured and answered with a non-empty text, else the fallback.
   */
  function Response(p: Provider, outcome: ProviderOutcome, userMessage: string): (r: string)
    ensures |r| > 0
    ensures r != GetFallbackResponse(userMessage) ==> CallsModel(p) && outcome.Answered? && r == outcome.text
    ensures CallsModel(p) && outcome.Answered? && outcome.text != "" ==> r == outcome.text
  {
    if CallsModel(p) && outcome.Answered? && outcome.text != "" then outcome.text
    else GetFallbackResponse(userMessage)
  }

  /** Whether the answer is recorded as an assistant turn (`if (response)` before the push). */
  predicate Recorded(p: Provider, outcome: ProviderOutcome) {
    !CallsModel(p) || (outcome.Answered? && outcome.text != "")
  }

  /**
   * What the provider call comes to once its set-up is checked: `'google'`
   * without `this.model` throws on `this.model.generateContent`, and
   * `'openai'` or `'anthropic'` without a key throw before the request.
   */
  function CallOutcome(p: Provider, callable: bool, outcome: ProviderOutcome): ProviderOutcome {
    if CallsModel(p) && !callable then Threw else outcome
  }

  /** The history stored for `user`, or the empty one created for a new user. */
  function HistoryOf(histories: map<string, seq<Turn>>, user: string): seq<Turn> {
    if user in histories then histories[user] else []
  }

  /** The history after one call of `generateResponse`. */
  function NextHistory(h: seq<Turn>, p: Provider, outcome: ProviderOutcome, userMessage: string): (r: seq<Turn>)
    ensures |r| <= MaxHistory + 1
    ensures Turn(User, userMessage) in r
  {
    var kept := KeepNewest(h + [Turn(User, userMessage)]);
    assert kept[|kept| - 1] == Turn(User, userMessage);
    if Recorded(p, outcome) then kept + [Turn(Assistant, Response(p, outcome, userMessage))] else kept
  }

  /**
   * One call of `generateResponse`, step by step: the answer it settles on
   * before its `if (response)` is the fallback for the non-model providers,
   * else the model's text when the call gets past its set-up and answers,
   * else empty. It is recorded exactly when it is non-empty, and the reply
   * is it or, when empty, the fallback.
   */
  lemma CallSteps(h: seq<Turn>, p: Provider, callable: bool, outcome: ProviderOutcome, userMessage: string,
                  fallback: string)
    requires fallback == GetFallbackResponse(userMessage)
    ensures var answer := if !CallsModel(p) then fallback
        else if callable && outcome.Answered? then outcome.text else "";
      var kept := KeepNewest(h + [Turn(User, userMessage)]);
      var called := CallOutcome(p, callable, outcome);
      && Response(p, called, userMessage) == (if |answer| > 0 then answer else fallback)
      && NextHistory(h, p, called, userMessage) == if |answer| > 0 then kept + [Turn(Assistant, answer)] else kept
  {
  }

  /**
   * A call whose answer is not recorded (the model gave no text or threw)
   * adds just the user's turn, as `AddTurns` does, so `LastTenTurns` covers
   * a run of such calls.
   */
  lemma UnrecordedCall(h: seq<Turn>, p: Provider, outcome: ProviderOutcome, userMessage: string)
    requires !Recorded(p, outcome)
    ensures NextHistory(h, p, outcome, userMessage) == AddTurns(h, [Turn(User, userMessage)])
  {
    assert [Turn(User, userMessage)][1..] == [];
  }

  /**
   * A model provider that cannot be called (`'google'` without a model,
   * `'openai'` or `'anthropic'` without a key) always answers with the
   * fallback and records only the user's turn, whatever the provider would
   * have said.
   */
  lemma UncallableFallsBack(h: seq<Turn>, p: Provider, outcome: ProviderOutcome, userMessage: string)
    requires CallsModel(p)
    ensures var called := CallOutcome(p, false, outcome);
      && Response(p, called, userMessage) == GetFallbackResponse(userMessage)
      && NextHistory(h, p, called, userMessage) == AddTurns(h, [Turn(User, userMessage)])
  {
    UnrecordedCall(h, p, Threw, userMessage);
  }


  /** `h` is a final segment of `log`. */
  ghost predicate EndsOf(h: seq<Turn>, log: seq<Turn>) {
    |h| <= |log| && h == log[|log| - |h|..]
  }

  lemma EndsOfAppend(h: seq<Turn>, log: seq<Turn>, t: Turn)
    requires EndsOf(h, log)
    ensures EndsOf(h + [t], log + [t])
  {
    assert (log + [t])[|log| + 1 - |h + [t]|..] == log[|log| - |h|..] + [t];
  }

  lemma EndsOfKeepNewest(h: seq<Turn>, log: seq<Turn>)
    requires EndsOf(h, log)
    ensures EndsOf(KeepNewest(h), log)
  {
    var r := KeepNewest(h);
    assert log[|log| - |h|..][|h| - |r|..] == log[|log| - |r|..];
  }

  /**
   * `h` is the newest part of the transcript `log`: at least the newest ten
   * turns of it (all of it when shorter), at most eleven.
   */
  ghost predicate NewestOf(h: seq<Turn>, log: seq<Turn>) {
    && EndsOf(h, log)
    && |h| >= (if |log| < MaxHistory then |log| else MaxHistory)
    && |h| <= MaxHistory + 1
  }

  /** The transcript after one call of `generateResponse`: the user's turn, then the recorded answer if any. */
  ghost function NextLog(log: seq<Turn>, p: Provider, outcome: ProviderOutcome, userMessage: string): seq<Turn> {
    var log1 := log + [Turn(User, userMessage)];
    if Recorded(p, outcome) then log1 + [Turn(Assistant, Response(p, outcome, userMessage))] else log1
  }

  /** Every call of `generateResponse` keeps the stored history the newest part of the transcript. */
  lemma {:induction false} NextHistoryKeepsNewest(h: seq<Turn>, log: seq<Turn>, p: Provider,
                                                  outcome: ProviderOutcome, userMessage: string)
    requires NewestOf(h, log)
    ensures NewestOf(NextHistory(h, p, outcome, userMessage), NextLog(log, p, outcome, userMessage))
  {
    var u := Turn(User, userMessage);
    var kept := KeepNewest(h + [u]);
    EndsOfAppend(h, log, u);
    EndsOfKeepNewest(h + [u], log + [u]);
    assert NewestOf(kept, log + [u]);
    if Recorded(p, outcome) {
      var a := Turn(Assistant, Response(p, outcome, userMessage));
      EndsOfAppend(kept, log + [u], a);
      assert NextHistory(h, p, outcome, userMessage) == kept + [a];
      assert NextLog(log, p, outcome, userMessage) == log + [u] + [a];
    } else {
      assert NextHistory(h, p, outcome, userMessage) == kept;
      assert NextLog(log, p, outcome, userMessage) == log + [u];
    }
  }

  /** Storing a history of at most eleven turns keeps every stored history that short. */
  lemma StoreKeepsBound(histories: map<string, seq<Turn>>, user: string, h: seq<Turn>)
    requires forall u :: u in histories ==> |histories[u]| <= MaxHistory + 1
    requires |h| <= MaxHistory + 1
    ensures var stored := histories[user := h];
      forall u :: u in stored ==> |stored[u]| <= MaxHistory + 1
  {
  }

  /** The number of turns stored over all users (`getStats().totalHistorySize`). */
  ghost function TotalTurns(histories: map<string, seq<Turn>>): nat
    decreases histories.Keys
  {
    if histories == map[] then 0
    else
      var u :| u in histories;
      |histories[u]| + TotalTurns(histories - {u})
  }

  /** The entries of `histories` whose user is in `users`. */
  function Only(histories: map<string, seq<Turn>>, users: set<string>): map<string, seq<Turn>> {
    map u | u in users && u in histories :: histories[u]
  }

  /** The total does not depend on which user is counted first. */
  lemma {:induction false} TotalTurnsRemove(histories: map<string, seq<Turn>>, u: string)
    requires u in histories
    ensures TotalTurns(histories) == |histories[u]| + TotalTurns(histories - {u})
    decreases histories.Keys
  {
    var v :| v in histories && TotalTurns(histories) == |histories[v]| + TotalTurns(histories - {v});
    if v != u {
      TotalTurnsRemove(histories - {v}, u);
      TotalTurnsRemove(histories - {u}, v);
      assert histories - {v} - {u} == histories - {u} - {v};
    }
  }

  /** With every history at most eleven turns long, the total is at most eleven per user. */
  lemma {:induction false} TotalTurnsBound(histories: map<string, seq<Turn>>)
    requires forall u :: u in histories ==> |histories[u]| <= MaxHistory + 1
    ensures TotalTurns(histories) <= (MaxHistory + 1) * |histories|
    decreases histories.Keys
  {
    if histories != map[] {
      var u :| u in histories;
      TotalTurnsRemove(histories, u);
      TotalTurnsBound(histories - {u});
      assert (histories - {u}).Keys == histories.Keys - {u};
      assert |histories - {u}| == |histories| - 1;
    }
  }

  class AIService {
    /** `AI_CONFIG.provider`: the provider named in the configuration. */
    const configured: Provider
    /** Whether `this.model` exists: a Gemini model was created at start-up. */
    const modelReady: bool
    /**
     * Whether the provider call gets past its set-up: `'google'` needs
     * `this.model`, `'openai'` and `'anthropic'` need their API key.
     */
    const callable: bool
    /** `this.provider`: the configured provider, or `'fallback'` after a failed Gemini start-up. */
    var provider: Provider
    /** `this.conversationHistory`. */
    var histories: map<string, seq<Turn>>
    /** No stored history is longer than the ten kept turns and the answer after them. */
    ghost predicate Valid()
      reads this
    {
      forall u :: u in histories ==> |histories[u]| <= MaxHistory + 1
    }

    /**
     * The Gemini model is created only for the `'google'` provider with an
     * API key; when creating it throws, the service falls back to
     * `'fallback'`. Without a key the provider stays `'google'`. `apiKey`
     * says whether the configured provider's key is set.
     */
    constructor (configured: Provider, apiKey: bool, googleInitFails: bool)
      ensures Valid()
      ensures this.configured == configured
      ensures modelReady <==> configured == Google && apiKey && !googleInitFails
      ensures callable <==> if configured == Google then modelReady else apiKey
      ensures provider == StartProvider(configured, apiKey, googleInitFails)
      ensures histories == map[]
    {
      this.configured := configured;
      modelReady := configured == Google && apiKey && !googleInitFails;
      callable := if configured == Google then apiKey && !googleInitFails else apiKey;
      provider := StartProvider(configured, apiKey, googleInitFails);
      histories := map[];
    }

    /**
     * `generateResponse`: record the user's turn, trim to the newest ten,
     * ask the provider, record a non-empty answer, and return the answer or
     * the fallback; it never fails.
     */
    method GenerateResponse(user: string, userMessage: string, outcome: ProviderOutcome)
      returns (response: string)
      requires Valid()
      modifies this
      ensures Valid()
      ensures response == Response(provider, CallOutcome(provider, callable, outcome), userMessage) && |response| > 0
      ensures histories == old(histories)[user :=
        NextHistory(HistoryOf(old(histories), user), provider, CallOutcome(provider, callable, outcome), userMessage)]
      ensures provider == old(provider)
    {
      var history;
      history, response := Converse(HistoryOf(histories, user), userMessage, outcome);
      StoreKeepsBound(histories, user, history);
      histories := histories[user := history];
    }

    /**
     * The body of `generateResponse` on the caller's history `h`: the
     * history it leaves and the answer it returns.
     */
    method Converse(h: seq<Turn>, userMessage: string, outcome: ProviderOutcome)
      returns (history: seq<Turn>, response: string)
      ensures history == NextHistory(h, provider, CallOutcome(provider, callable, outcome), userMessage)
      ensures response == Response(provider, CallOutcome(provider, callable, outcome), userMessage)
    {
      history := KeepNewest(h + [Turn(User, userMessage)]);
      var fallback := GetFallbackResponse(userMessage);
      // Without a Gemini model or a key the provider call throws before
      // asking. A model answering with no content, and an exception caught
      // after the user's turn was stored, both leave nothing to record: the
      // fallback answers.
      var answer :=
        if !CallsModel(provider) then fallback
        else if callable && outcome.Answered? then outcome.text
        else "";
      CallSteps(h, provider, callable, outcome, userMessage, fallback);
      if |answer| > 0 {
        history := history + [Turn(Assistant, answer)];
      }
      response := if |answer| > 0 then answer else fallback;
    }

    /** `clearHistory`: forget one user's conversation. */
    method ClearHistory(user: string)
      requires Valid()
      modifies this
      ensures Valid()
      ensures histories == old(histories) - {user} && provider == old(provider)
    {
      histories := histories - {user};
    }

    /** `conversationHistory.clear()`, as the admin `!clear` command does. */
    method ClearAll()
      requires Valid()
      modifies this
      ensures Valid()
      ensures histories == map[] && provider == old(provider)
    {
      histories := map[];
    }

    /**
     * `getStats`: the provider, the number of stored conversations and the
     * number of turns stored over all of them, at most eleven per conversation.
     */
    method GetStats() returns (p: Provider, activeConversations: nat, totalHistorySize: nat)
      requires Valid()
      ensures p == provider && activeConversations == |histories|
      ensures totalHistorySize == TotalTurns(histories)
      ensures totalHistorySize <= (MaxHistory + 1) * activeConversations
    {
      p, activeConversations := provider, |histories|;
      totalHistorySize := 0;
      var pending := histories.Keys;
      assert Only(histories, pending) == histories;
      while pending != {}
        invariant pending <= histories.Keys
        invariant totalHistorySize + TotalTurns(Only(histories, pending)) == TotalTurns(histories)
        decreases pending
      {
        var u :| u in pending;
        TotalTurnsRemove(Only(histories, pending), u);
        assert Only(histories, pending) - {u} == Only(histories, pending - {u});
        totalHistorySize := totalHistorySize + |histories[u]|;
        pending := pending - {u};
      }
      assert Only(histories, pending) == map[];
      TotalTurnsBound(histories);
    }
  }
}
