/**
 * The bot's message routing: the handler for users' messages (group
 * filter, rate-limit gate, session lookup, stop, activation, silence and
 * dispatch by intent), the owner's admin commands, and the idle-session
 * sweep. The bot owns one rate limiter, one AI service, one analytics
 * object and the session registry `userStates`.
 */
module Router {
  import opened Text
  import opened Intents
  import opened RateLimit
  import opened Ai
  import opened Analytics
  import opened Sessions

  /** What the bot sends back, one element per outgoing message. */
  datatype Outbound =
    | SlowDown                 // the rate-limit warning
    | Paused                   // the pause notice with the team's contacts
    | Welcome(greeting: Greeting)
    | Logo                     // the logo, or its caption when the file is missing
    | LogoSent
    | ImageTrouble
    | GalleryAnnounce
    | GalleryPhotos            // every gallery picture that exists on disk
    | GallerySent
    | GalleryTrouble
    | LocationCard             // the address and map link
    | LocationPin
    | LocationSent
    | LocationTrouble
    | Answer(text: string)

  /** Where a dispatched message goes. */
  datatype Handler = ImageHandler | GalleryHandler | LocationHandler | AiHandler

  function HandlerFor(intent: Intent): (h: Handler)
    ensures h == ImageHandler <==> intent == Image
    ensures h == GalleryHandler <==> intent == Gallery
    ensures h == LocationHandler <==> intent == Location
    ensures h == AiHandler <==> intent != Image && intent != Gallery && intent != Location
  {
    match intent
    case Image => ImageHandler
    case Gallery => GalleryHandler
    case Location => LocationHandler
    case _ => AiHandler
  }

  /** The handler an active user's ordinary message goes to. */
  function Route(userMessage: string): Handler {
    HandlerFor(Classify(userMessage))
  }

  /** Messages from groups and the bot's own messages are not for this handler. */
  predicate Ignored(from: string, fromMe: bool) {
    Contains(from, "@g.us") || fromMe
  }

  /**
   * The replies to an admitted message. `mediaOk` is whether the media
   * sender succeeded; `answer` is what the AI service returned.
   */
  function Replies(c: Command, hour: int, h: Handler, mediaOk: bool, answer: string): (r: seq<Outbound>)
    ensures r == [] <==> c == Silence
    ensures c == StopCommand ==> r == [Paused]
    ensures c == Activation ==> r == [Welcome(GreetingFor(hour))]
    ensures c == Dispatch && h == AiHandler ==> r == [Answer(answer)]
    ensures c == Dispatch && h != AiHandler ==> (r[|r| - 1] in {LogoSent, GallerySent, LocationSent} <==> mediaOk)
  {
    match c
    case StopCommand => [Paused]
    case Activation => [Welcome(GreetingFor(hour))]
    case Silence => []
    case Dispatch =>
      match h
      case ImageHandler => if mediaOk then [Logo, LogoSent] else [ImageTrouble]
      case GalleryHandler =>
        [GalleryAnnounce] + (if mediaOk then [GalleryPhotos, GallerySent] else [GalleryTrouble])
      case LocationHandler =>
        [LocationCard] + (if mediaOk then [LocationPin, LocationSent] else [LocationTrouble])
      case AiHandler => [Answer(answer)]
  }

  /** The media counter a successful media handler bumps. */
  function KindOf(h: Handler): MessageKind {
    match h
    case ImageHandler => ImageMessage
    case GalleryHandler => GalleryMessage
    case LocationHandler => LocationMessage
    case AiHandler => TextMessage
  }

  /**
   * The counters after an admitted message: activation and a delivered
   * medium count as non-AI messages, a dispatch to the AI as an AI message,
   * and a failed media send (inside the media sender) as an error.
   */
  function CountersAfter(c: Counters, user: string, cmd: Command, h: Handler, mediaOk: bool): Counters {
    match cmd
    case Activation => Track(c, user, false, TextMessage)
    case Dispatch =>
      if h == AiHandler then Track(c, user, true, TextMessage)
      else if mediaOk then Track(c, user, false, KindOf(h))
      else c.(errors := c.errors + 1)
    case _ => c
  }

  /** A dispatch to the AI answers with the service's text. */
  lemma AiReplies(mediaOk: bool, answer: string)
    ensures Replies(Dispatch, 0, AiHandler, mediaOk, answer) == [Answer(answer)]
  { }

  /** A dispatch to the AI stores the service's new history for the user. */
  lemma AiHistories(histories: map<string, seq<Turn>>, user: string, p: Provider,
                    outcome: ProviderOutcome, userMessage: string)
    ensures HistoriesAfter(histories, user, Dispatch, AiHandler, p, outcome, userMessage)
      == histories[user := NextHistory(HistoryOf(histories, user), p, outcome, userMessage)]
  { }

  /** A dispatch to the AI counts one AI text message, whether or not media can be sent. */
  lemma AiCounters(c: Counters, user: string, mediaOk: bool)
    ensures CountersAfter(c, user, Dispatch, AiHandler, mediaOk) == Track(c, user, true, TextMessage)
  { }

  /**
   * Exactly the welcomed, answered and media-served messages are counted;
   * exactly the answered ones count as AI responses; exactly the failed
   * media sends count as errors.
   */
  lemma CountedExactlyWhenServed(c: Counters, user: string, cmd: Command, h: Handler, mediaOk: bool)
    ensures var d := CountersAfter(c, user, cmd, h, mediaOk);
      && (d.totalMessages == c.totalMessages + 1 <==>
            cmd == Activation || (cmd == Dispatch && (h == AiHandler || mediaOk)))
      && (d.totalMessages == c.totalMessages <==>
            !(cmd == Activation || (cmd == Dispatch && (h == AiHandler || mediaOk))))
      && (d.aiResponses == c.aiResponses + 1 <==> cmd == Dispatch && h == AiHandler)
      && (d.errors == c.errors + 1 <==> cmd == Dispatch && h != AiHandler && !mediaOk)
      && Grows(c, d)
  {
  }

  /** Handling a message keeps the counters balanced. */
  lemma CountersStayBalanced(c: Counters, user: string, cmd: Command, h: Handler, mediaOk: bool)
    requires Balanced(c)
    ensures Balanced(CountersAfter(c, user, cmd, h, mediaOk))
  {
    match cmd
    case Activation => TrackKeepsBalance(c, user, false, TextMessage);
    case Dispatch =>
      if h == AiHandler {
        TrackKeepsBalance(c, user, true, TextMessage);
      } else if mediaOk {
        TrackKeepsBalance(c, user, false, KindOf(h));
      }
    case _ =>
  }

  /**
   * The histories after an admitted message: a stop forgets the user's
   * conversation, a dispatch to the AI extends it, anything else leaves it.
   */
  function HistoriesAfter(histories: map<string, seq<Turn>>, user: string, cmd: Command, h: Handler,
                          p: Provider, outcome: ProviderOutcome, userMessage: string)
    : (r: map<string, seq<Turn>>)
    ensures r.Keys <= histories.Keys + {user}
    ensures forall u :: u in histories && u != user ==> u in r && r[u] == histories[u]
    ensures cmd == StopCommand ==> user !in r
    ensures cmd == Dispatch && h == AiHandler ==>
      user in r && Turn(User, userMessage) in r[user] && |r[user]| <= MaxHistory + 1
    ensures cmd != StopCommand && !(cmd == Dispatch && h == AiHandler) ==> r == histories
  {
    if cmd == StopCommand then histories - {user}
    else if cmd == Dispatch && h == AiHandler then
      var next := NextHistory(HistoryOf(histories, user), p, outcome, userMessage);
      assert |next| <= MaxHistory + 1 && Turn(User, userMessage) in next;
      histories[user := next]
    else histories
  }

  /**
   * Silence is silent: a message that is neither a stop word nor an
   * activation, from an inactive user, gets no reply, is not counted and
   * leaves the conversation as it was.
   */
  lemma SilenceChangesNothing(c: Counters, histories: map<string, seq<Turn>>, user: string, hour: int,
                              h: Handler, mediaOk: bool, answer: string,
                              p: Provider, outcome: ProviderOutcome, userMessage: string)
    ensures Replies(Silence, hour, h, mediaOk, answer) == []
    ensures CountersAfter(c, user, Silence, h, mediaOk) == c
    ensures HistoriesAfter(histories, user, Silence, h, p, outcome, userMessage) == histories
  {
  }

  /** Idle sessions are removed after two hours without a message. */
  const IdleTimeoutMs := 2 * 60 * 60 * 1000

  /** The users whose last message is more than two hours before `now`. */
  function Idle(sessions: map<string, Session>, now: int): (idle: set<string>)
    ensures idle <= sessions.Keys
    ensures forall u :: u in sessions ==> (u in idle <==> now - sessions[u].lastInteraction > IdleTimeoutMs)
  {
    set u | u in sessions && now - sessions[u].lastInteraction > IdleTimeoutMs
  }

  /**
   * Removing the same users from the sessions and the histories keeps every
   * history attached to a session and every remaining session consistent.
   */
  lemma RemovalKeepsRegistry(sessions: map<string, Session>, histories: map<string, seq<Turn>>,
                             removed: set<string>)
    requires histories.Keys <= sessions.Keys
    requires forall u :: u in sessions ==> Consistent(sessions[u])
    ensures (histories - removed).Keys <= (sessions - removed).Keys
    ensures forall u :: u in sessions - removed ==> Consistent((sessions - removed)[u])
  {
  }

  /**
   * One step of a sweep that removes the users of `idle` as it meets them:
   * taking `u` off the users still to visit removes it when it is idle and
   * changes nothing otherwise.
   */
  lemma SweepStep<V>(m: map<string, V>, idle: set<string>, pending: set<string>, u: string)
    requires u in pending
    ensures u in idle ==> (m - (idle - pending)) - {u} == m - (idle - (pending - {u}))
    ensures u !in idle ==> m - (idle - pending) == m - (idle - (pending - {u}))
  {
  }

  /** The admin commands, recognised on the lower-cased, trimmed text. */
  datatype AdminCommand = ShowStats | ShowHealth | ClearAll | ShowInfo | NoCommand

  function AdminCommandFor(command: string): AdminCommand
  {
    if command == "!stats" || command == "!estatisticas" then ShowStats
    else if command == "!health" || command == "!status" then ShowHealth
    else if command == "!clear" then ClearAll
    else if command == "!railway" || command == "!info" then ShowInfo
    else NoCommand
  }

  /** Each admin command is recognised by exactly its two spellings (one for `!clear`). */
  lemma AdminCommandsRecognised(command: string)
    ensures AdminCommandFor(command) == ShowStats <==> command == "!stats" || command == "!estatisticas"
    ensures AdminCommandFor(command) == ShowHealth <==> command == "!health" || command == "!status"
    ensures AdminCommandFor(command) == ClearAll <==> command == "!clear"
    ensures AdminCommandFor(command) == ShowInfo <==> command == "!railway" || command == "!info"
  {
  }

  /** The admin replies, with the figures they report (their wording is not modelled). */
  datatype AdminReply =
    | NoReply
    | StatsReport(counters: Counters, provider: Provider, activeConversations: nat)
    | HealthReport(configured: Provider, modelReady: bool, activeUsers: nat)
    | Cleared
    | InfoCard

  class Bot {
    const limiter: RateLimiter
    const ai: AIService
    const analytics: SimpleAnalytics
    /** `userStates`. */
    var sessions: map<string, Session>

    /**
     * Every stored conversation belongs to a known session, and every
     * session answers exactly when it is active.
     */
    ghost predicate Valid()
      reads this, limiter, ai, analytics
    {
      && ai.Valid()
      && analytics.Valid()
      && ai.histories.Keys <= sessions.Keys
      && forall u :: u in sessions ==> Consistent(sessions[u])
    }

    constructor (configured: Provider, apiKey: bool, googleInitFails: bool)
      ensures Valid()
      ensures fresh(limiter) && fresh(ai) && fresh(analytics)
      ensures sessions == map[] && limiter.requests == map[] && ai.histories == map[]
      ensures analytics.Snapshot() == Initial
      ensures ai.configured == configured
      ensures ai.modelReady <==> configured == Google && apiKey && !googleInitFails
      ensures ai.callable <==> if configured == Google then ai.modelReady else apiKey
      ensures ai.provider == StartProvider(configured, apiKey, googleInitFails)
    {
      limiter := new RateLimiter();
      ai := new AIService(configured, apiKey, googleInitFails);
      analytics := new SimpleAnalytics();
      sessions := map[];
    }

    /**
     * The handler for one incoming message `body` from `from` at `now`
     * (local hour `hour`). `outcome` is what the provider would do if asked;
     * `mediaOk` is whether the media sender succeeds.
     */
    method HandleMessage(from: string, body: string, fromMe: bool, now: int, hour: int,
                         outcome: ProviderOutcome, mediaOk: bool)
      returns (replies: seq<Outbound>)
      requires Valid()
      modifies this, limiter, ai, analytics
      ensures Valid()
      ensures ai.provider == old(ai.provider)
      ensures Ignored(from, fromMe) ==>
        && replies == [] && sessions == old(sessions) && limiter.requests == old(limiter.requests)
        && ai.histories == old(ai.histories) && analytics.Snapshot() == old(analytics.Snapshot())
      ensures !Ignored(from, fromMe) && !Admits(old(limiter.requests), from, now, MaxRequests, WindowMs) ==>
        && replies == [SlowDown] && sessions == old(sessions)
        && limiter.requests == old(limiter.requests)[from := Stored(old(limiter.requests), from)]
        && ai.histories == old(ai.histories) && analytics.Snapshot() == old(analytics.Snapshot())
      ensures !Ignored(from, fromMe) && Admits(old(limiter.requests), from, now, MaxRequests, WindowMs) ==>
        var s := Touched(old(sessions), from, now);
        var cmd := CommandFor(LowerMessage(Trim(body)), s.botActive);
        var h := Route(Trim(body));
        && limiter.requests ==
             old(limiter.requests)[from := Recent(Stored(old(limiter.requests), from), now, WindowMs) + [now]]
        && sessions == old(sessions)[from := Next(s, cmd)]
        && replies == Replies(cmd, hour, h, mediaOk, Response(ai.provider, CallOutcome(ai.provider, ai.callable, outcome), Trim(body)))
        && ai.histories == HistoriesAfter(old(ai.histories), from, cmd, h, ai.provider, CallOutcome(ai.provider, ai.callable, outcome), Trim(body))
        && analytics.Snapshot() == CountersAfter(old(analytics.Snapshot()), from, cmd, h, mediaOk)
    {
      if Contains(from, "@g.us") || fromMe {
        return [];
      }
      var userMessage := Trim(body);
      var allowed := limiter.IsAllowed(from, now, MaxRequests, WindowMs);
      if !allowed {
        return [SlowDown];
      }
      replies := Serve(from, userMessage, now, hour, outcome, mediaOk);
    }

    /**
     * The handler after the rate-limit gate: touch the user's session,
     * then stop, activate, stay silent or dispatch by intent.
     */
    method Serve(from: string, userMessage: string, now: int, hour: int,
                 outcome: ProviderOutcome, mediaOk: bool)
      returns (replies: seq<Outbound>)
      requires Valid()
      modifies this, ai, analytics
      ensures Valid()
      ensures ai.provider == old(ai.provider)
      ensures
        var s := Touched(old(sessions), from, now);
        var cmd := CommandFor(LowerMessage(userMessage), s.botActive);
        && sessions == old(sessions)[from := Next(s, cmd)]
        && (cmd == StopCommand ==>
              replies == [Paused] && ai.histories == old(ai.histories) - {from}
              && analytics.Snapshot() == old(analytics.Snapshot()))
        && (cmd == Activation ==>
              replies == [Welcome(GreetingFor(hour))] && ai.histories == old(ai.histories)
              && analytics.Snapshot() == Track(old(analytics.Snapshot()), from, false, TextMessage))
        && (cmd == Silence ==>
              replies == [] && ai.histories == old(ai.histories)
              && analytics.Snapshot() == old(analytics.Snapshot()))
        && (cmd == Dispatch ==>
              && replies == Replies(Dispatch, hour, Route(userMessage), mediaOk, Response(ai.provider, CallOutcome(ai.provider, ai.callable, outcome), userMessage))
              && ai.histories ==
                   HistoriesAfter(old(ai.histories), from, Dispatch, Route(userMessage), ai.provider, CallOutcome(ai.provider, ai.callable, outcome), userMessage)
              && analytics.Snapshot() ==
                   CountersAfter(old(analytics.Snapshot()), from, Dispatch, Route(userMessage), mediaOk))
    {
      var state := Touch(from, now);

      // The stop, activation and silence rules, in the handler's order.
      var cmd := CommandFor(LowerMessage(userMessage), state.botActive);
      match cmd
      case StopCommand =>
        Pause(from, state);
        return [Paused];
      case Activation =>
        Activate(from, state);
        var greeting := GreetingFor(hour);
        return [Welcome(greeting)];
      case Silence =>
        return [];
      case Dispatch =>
        replies := ServeActive(from, userMessage, outcome, mediaOk);
    }

    /**
     * Get or create the user's session, a new one inactive and awaiting
     * start, and renew its last-interaction time.
     */
    method Touch(from: string, now: int) returns (state: Session)
      requires Valid()
      modifies this
      ensures Valid()
      ensures state == Touched(old(sessions), from, now)
      ensures sessions == old(sessions)[from := state]
    {
      if from !in sessions {
        sessions := sessions[from := Session(false, AwaitingStart, now)];
      }
      state := sessions[from].(lastInteraction := now);
      sessions := sessions[from := state];
    }

    /** A stop word: pause the bot for the user and forget their conversation. */
    method Pause(from: string, state: Session)
      requires Valid() && from in sessions
      modifies this, ai
      ensures Valid()
      ensures sessions == old(sessions)[from := Next(state, StopCommand)]
      ensures ai.histories == old(ai.histories) - {from} && ai.provider == old(ai.provider)
    {
      sessions := sessions[from := state.(botActive := false, state := Stopped)];
      ai.ClearHistory(from);
    }

    /** An activation token: switch the bot on for the user and count the welcome. */
    method Activate(from: string, state: Session)
      requires Valid() && from in sessions
      modifies this, analytics
      ensures Valid()
      ensures sessions == old(sessions)[from := Next(state, Activation)]
      ensures analytics.Snapshot() == Track(old(analytics.Snapshot()), from, false, TextMessage)
    {
      sessions := sessions[from := state.(botActive := true, state := Active)];
      analytics.TrackMessage(from, false, TextMessage);
    }

    /** An active user's ordinary message: to the media handlers by intent, else to the AI service. */
    method ServeActive(from: string, userMessage: string, outcome: ProviderOutcome, mediaOk: bool)
      returns (replies: seq<Outbound>)
      requires ai.Valid() && analytics.Valid()
      modifies ai, analytics
      ensures ai.Valid() && analytics.Valid()
      ensures ai.provider == old(ai.provider)
      ensures replies == Replies(Dispatch, 0, Route(userMessage), mediaOk, Response(ai.provider, CallOutcome(ai.provider, ai.callable, outcome), userMessage))
      ensures ai.histories ==
        HistoriesAfter(old(ai.histories), from, Dispatch, Route(userMessage), ai.provider, CallOutcome(ai.provider, ai.callable, outcome), userMessage)
      ensures analytics.Snapshot() ==
        CountersAfter(old(analytics.Snapshot()), from, Dispatch, Route(userMessage), mediaOk)
    {
      var intent := AnalyzeIntent(userMessage);
      var h := HandlerFor(intent);
      replies := ServeHandler(from, h, userMessage, outcome, mediaOk);
    }

    /** The message's handler, once the intent has chosen it, serves it. */
    method ServeHandler(from: string, h: Handler, userMessage: string, outcome: ProviderOutcome, mediaOk: bool)
      returns (replies: seq<Outbound>)
      requires ai.Valid() && analytics.Valid()
      modifies ai, analytics
      ensures ai.Valid() && analytics.Valid()
      ensures ai.provider == old(ai.provider)
      ensures replies == Replies(Dispatch, 0, h, mediaOk, Response(ai.provider, CallOutcome(ai.provider, ai.callable, outcome), userMessage))
      ensures ai.histories ==
        HistoriesAfter(old(ai.histories), from, Dispatch, h, ai.provider, CallOutcome(ai.provider, ai.callable, outcome), userMessage)
      ensures analytics.Snapshot() ==
        CountersAfter(old(analytics.Snapshot()), from, Dispatch, h, mediaOk)
    {
      if h != AiHandler {
        replies := ServeMedia(from, h, mediaOk);
        assert ai.histories == old(ai.histories);
        return;
      }
      ghost var called := CallOutcome(ai.provider, ai.callable, outcome);
      AiHistories(ai.histories, from, ai.provider, called, userMessage);
      AiCounters(analytics.Snapshot(), from, mediaOk);
      replies := ServeAi(from, userMessage, outcome);
      AiReplies(mediaOk, Response(ai.provider, called, userMessage));
    }

    /**
     * The AI handler: ask the service and send its answer, counted as an AI
     * response. The service never answers with an empty text, so the reply
     * is always sent and the `catch` that counts an error is never reached.
     */
    method ServeAi(from: string, userMessage: string, outcome: ProviderOutcome)
      returns (replies: seq<Outbound>)
      requires ai.Valid() && analytics.Valid()
      modifies ai, analytics
      ensures ai.Valid() && analytics.Valid()
      ensures ai.provider == old(ai.provider)
      ensures replies == [Answer(Response(ai.provider, CallOutcome(ai.provider, ai.callable, outcome), userMessage))]
      ensures ai.histories == old(ai.histories)[from :=
        NextHistory(HistoryOf(old(ai.histories), from), ai.provider, CallOutcome(ai.provider, ai.callable, outcome), userMessage)]
      ensures analytics.Snapshot() == Track(old(analytics.Snapshot()), from, true, TextMessage)
    {
      var response := ai.GenerateResponse(from, userMessage, outcome);
      analytics.TrackMessage(from, true, TextMessage);
      return [Answer(response)];
    }

    /**
     * The image, gallery and location handlers: announce, send the medium
     * and confirm it, counting the request; a failed send is counted as an
     * error inside the sender and answered with an apology.
     */
    method ServeMedia(from: string, h: Handler, mediaOk: bool) returns (replies: seq<Outbound>)
      requires analytics.Valid() && h != AiHandler
      modifies analytics
      ensures analytics.Valid()
      ensures replies == Replies(Dispatch, 0, h, mediaOk, "")
      ensures analytics.Snapshot() == CountersAfter(old(analytics.Snapshot()), from, Dispatch, h, mediaOk)
    {
      if h == ImageHandler {
        if mediaOk {
          analytics.TrackMessage(from, false, ImageMessage);
          return [Logo, LogoSent];
        }
        analytics.TrackError();
        return [ImageTrouble];
      }
      if h == GalleryHandler {
        if mediaOk {
          analytics.TrackMessage(from, false, GalleryMessage);
          return [GalleryAnnounce, GalleryPhotos, GallerySent];
        }
        analytics.TrackError();
        return [GalleryAnnounce, GalleryTrouble];
      }
      if mediaOk {
        analytics.TrackMessage(from, false, LocationMessage);
        return [LocationCard, LocationPin, LocationSent];
      }
      analytics.TrackError();
      return [LocationCard, LocationTrouble];
    }

    /** The owner's admin commands, read from the lower-cased, trimmed text of their own messages. */
    method HandleAdmin(body: string, fromMe: bool) returns (reply: AdminReply)
      requires Valid()
      modifies this, ai
      ensures Valid()
      ensures limiter.requests == old(limiter.requests) && analytics.Snapshot() == old(analytics.Snapshot())
      ensures ai.provider == old(ai.provider)
      ensures !fromMe || AdminCommandFor(Trim(Lower(body))) != ClearAll ==>
        sessions == old(sessions) && ai.histories == old(ai.histories)
      ensures fromMe && AdminCommandFor(Trim(Lower(body))) == ClearAll ==>
        sessions == map[] && ai.histories == map[] && reply == Cleared
      ensures !fromMe || AdminCommandFor(Trim(Lower(body))) == NoCommand ==> reply == NoReply
      ensures fromMe && AdminCommandFor(Trim(Lower(body))) == ShowStats ==>
        reply == StatsReport(analytics.Snapshot(), ai.provider, |ai.histories|)
      ensures fromMe && AdminCommandFor(Trim(Lower(body))) == ShowHealth ==>
        reply == HealthReport(ai.configured, ai.modelReady, |sessions|)
      ensures fromMe && AdminCommandFor(Trim(Lower(body))) == ShowInfo ==> reply == InfoCard
    {
      if !fromMe {
        return NoReply;
      }
      var command := AdminCommandFor(Trim(Lower(body)));
      match command
      case ShowStats =>
        var p, active, _ := ai.GetStats();
        reply := StatsReport(analytics.Snapshot(), p, active);
      case ShowHealth =>
        reply := HealthReport(ai.configured, ai.modelReady, |sessions|);
      case ClearAll =>
        sessions := map[];
        ai.ClearAll();
        reply := Cleared;
      case ShowInfo =>
        reply := InfoCard;
      case NoCommand =>
        reply := NoReply;
    }

    /**
     * The idle sweep at `now`: every session idle for more than two hours
     * is removed together with its conversation.
     */
    method EvictIdle(now: int)
      requires Valid()
      modifies this, ai
      ensures Valid()
      ensures sessions == old(sessions) - Idle(old(sessions), now)
      ensures ai.histories == old(ai.histories) - Idle(old(sessions), now)
      ensures ai.provider == old(ai.provider)
    {
      ghost var s0, h0 := sessions, ai.histories;
      ghost var idle := Idle(s0, now);
      var pending := sessions.Keys;
      while pending != {}
        invariant ai.Valid() && ai.provider == old(ai.provider)
        invariant pending <= s0.Keys
        invariant sessions == s0 - (idle - pending)
        invariant ai.histories == h0 - (idle - pending)
        decreases pending
      {
        var u :| u in pending;
        SweepStep(s0, idle, pending, u);
        SweepStep(h0, idle, pending, u);
        if now - sessions[u].lastInteraction > IdleTimeoutMs {
          sessions := sessions - {u};
          ai.ClearHistory(u);
        }
        pending := pending - {u};
      }
      assert idle - pending == idle;
      RemovalKeepsRegistry(s0, h0, idle);
    }
  }
}
