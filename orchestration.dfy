/** `BotOrchestrator` (bots/base_bot.py): config validation and the message
    callback that `_make_callback` builds for every bot. All callbacks share
    the orchestrator's set of processed event ids and its one rate limiter,
    so both are state of the `Orchestrator` object here. Typing indicators,
    sending the reply and logging are transport I/O; the two clock readings
    are parameters, in milliseconds for the age check and in seconds for
    the limiter. */
module Orchestration {
  import opened Text
  import opened Values
  import opened RateLimit
  import Agent

  /** `_load_config` after parsing: `homeserver` is checked first, then
      `models` must be present and truthy (a non-empty list). */
  function LoadConfig(config: map<string, Json>): (r: Result<map<string, Json>>)
    ensures r.Ok? <==> "homeserver" in config && "models" in config && Truthy(config["models"])
    ensures r.Ok? ==> r.value == config
    ensures "homeserver" !in config ==> r == Failure("Config missing 'homeserver' section")
    ensures "homeserver" in config && !("models" in config && Truthy(config["models"])) ==>
              r == Failure("Config missing 'models' section or no models defined")
  {
    if "homeserver" !in config then Failure("Config missing 'homeserver' section")
    else if "models" !in config || !Truthy(config["models"]) then
      Failure("Config missing 'models' section or no models defined")
    else Ok(config)
  }

  /** The listening bot as its callback sees it. */
  datatype Persona = Persona(name: string, matrixUser: string, backend: Agent.Backend)

  /** A room; only the number of its members is consulted. */
  datatype Room = Room(users: set<string>)

  /** A text message event. `serverTimestamp` is None for an event object
      without that attribute, whose age is then not checked. */
  datatype Event = Event(eventId: string, sender: string, body: string, serverTimestamp: Option<int>)

  datatype SkipReason = OwnMessage | AlreadyProcessed | TooOld | RateLimited | NotAddressed

  /** What one callback does with an event: nothing, or post `reply`, which
      the bot generated for the cleaned message `prompt`. */
  datatype Decision = Skip(reason: SkipReason) | Respond(prompt: string, reply: Json)
  {
    /** Whether this callback got past the duplicate check. */
    predicate PastDedup() {
      Respond? || reason == TooOld || reason == RateLimited || reason == NotAddressed
    }
  }

  /** The two tokens a bot answers to, in the order they are stripped. */
  function MentionTokens(p: Persona): seq<string> {
    ["@" + p.name, p.matrixUser]
  }

  /** `@name` in the lower-cased body, or the full user id in the body as it
      is. The name itself is not lower-cased. */
  predicate Mentioned(p: Persona, body: string) {
    Contains(Lower(body), "@" + p.name) || Contains(body, p.matrixUser)
  }

  predicate IsDm(room: Room) {
    |room.users| <= 2
  }

  /** The gate after rate limiting: answer when mention-only mode is off,
      when mentioned, or in a direct room if those are allowed. */
  predicate Addressed(mentionOnly: bool, allowDm: bool, p: Persona, room: Room, body: string) {
    !(mentionOnly && !Mentioned(p, body) && !(allowDm && IsDm(room)))
  }

  /** The message after each token in turn is removed everywhere,
      case-sensitively, and the result stripped. */
  function Cleaned(s: string, tokens: seq<string>): string
    decreases |tokens|
  {
    if tokens == [] then s else Cleaned(Strip(RemoveAll(s, tokens[0])), tokens[1..])
  }

  predicate Trimmed(s: string) {
    s == [] || (!IsSpace(s[0]) && !IsSpace(s[|s| - 1]))
  }

  /** The cleaning loop of the callback. */
  method CleanMessage(body: string, tokens: seq<string>) returns (clean: string)
    ensures clean == Cleaned(body, tokens)
  {
    clean := body;
    for i := 0 to |tokens|
      invariant Cleaned(body, tokens) == Cleaned(clean, tokens[i..])
    {
      assert tokens[i..][1..] == tokens[i + 1..];
      clean := Strip(RemoveAll(clean, tokens[i]));
    }
  }

  /** With at least one token the cleaned message has no whitespace at
      either end. */
  lemma {:induction false} CleanedTrimmed(s: string, tokens: seq<string>)
    requires tokens != []
    ensures Trimmed(Cleaned(s, tokens))
    decreases |tokens|
  {
    if |tokens| > 1 {
      CleanedTrimmed(Strip(RemoveAll(s, tokens[0])), tokens[1..]);
    }
  }

  /** When no token occurs in the message, cleaning only strips it. */
  lemma {:induction false} CleanedWithoutTokens(s: string, tokens: seq<string>)
    requires tokens != []
    requires forall i :: 0 <= i < |tokens| ==> !Contains(s, tokens[i])
    ensures Cleaned(s, tokens) == Strip(s)
    decreases |tokens|
  {
    RemoveAbsent(s, tokens[0]);
    var t := Strip(s);
    if |tokens| > 1 {
      forall i | 0 <= i < |tokens| - 1
        ensures !Contains(t, tokens[1..][i])
      {
        assert tokens[1..][i] == tokens[i + 1];
        if Contains(t, tokens[i + 1]) {
          ContainsStrip(s, tokens[i + 1]);
        }
      }
      CleanedWithoutTokens(t, tokens[1..]);
      StripIdempotent(s);
    }
  }

  /** The mention is detected case-insensitively but stripped
      case-sensitively: a message that names the bot only in another case
      addresses it, and its prompt keeps the mention. */
  lemma CaseMismatchedMentionSurvives(p: Persona, body: string)
    requires Contains(Lower(body), "@" + p.name)
    requires !Contains(body, "@" + p.name) && !Contains(body, p.matrixUser)
    ensures Mentioned(p, body)
    ensures Cleaned(body, MentionTokens(p)) == Strip(body)
  {
    CleanedWithoutTokens(body, MentionTokens(p));
  }

  lemma LowerMentionExample()
    ensures Contains(Lower("@Bo hi"), "@bo")
  {
    var lower := Lower("@Bo hi");
    assert lower[..3] == "@bo" by {
      assert lower[0] == '@' && lower[1] == 'b' && lower[2] == 'o';
    }
  }

  lemma ExactMentionExample()
    ensures !Contains("@Bo hi", "@bo") && !Contains("@Bo hi", "@bo:x.org")
  {
    var body := "@Bo hi";
    assert body[..3] != "@bo" by {
      assert body[..3][1] == 'B';
    }
    assert body[1..] == "Bo hi";
    if Contains(body[1..], "@bo") {
      ContainsHead(body[1..], "@bo");
    }
  }

  lemma StripExample()
    ensures Strip("@Bo hi") == "@Bo hi"
  {
    var body := "@Bo hi";
    assert LStrip(body, IsSpace) == body;
    assert RStrip(body, IsSpace) == body;
  }

  /** "@Bo hi" is such a message for the bot "bo" with user id "@bo:x.org":
      it mentions the bot, and the prompt is the whole message "@Bo hi". */
  lemma CaseMismatchedMentionExample(p: Persona)
    requires p.name == "bo" && p.matrixUser == "@bo:x.org"
    ensures Mentioned(p, "@Bo hi")
    ensures Cleaned("@Bo hi", MentionTokens(p)) == "@Bo hi"
  {
    assert "@" + p.name == "@bo";
    LowerMentionExample();
    ExactMentionExample();
    CaseMismatchedMentionSurvives(p, "@Bo hi");
    StripExample();
  }

  /** Some `n` elements of `s`: where `set(list(s)[-5000:])` cuts the set,
      which elements survive depends on the set's iteration order. */
  method TakeSubset(s: set<string>, n: nat) returns (r: set<string>)
    requires n <= |s|
    ensures r <= s && |r| == n
  {
    r := {};
    var rest := s;
    while |r| < n
      invariant r <= s && rest == s - r
      invariant |rest| == |s| - |r| && |r| <= n
      decreases n - |r|
    {
      var x :| x in rest;
      r := r + {x};
      rest := rest - {x};
    }
  }

  const MaxProcessed: nat := 10000
  const TrimmedSize: nat := 5000
  const MaxAgeMs: int := 30000

  /** The shared id set after `id` is added and, when it then holds more than
      10000 ids, cut to some 5000 of them (which may drop `id` itself). */
  predicate Recorded(before: set<string>, id: string, after: set<string>) {
    var added := before + {id};
    if |added| > MaxProcessed then after <= added && |after| == TrimmedSize else after == added
  }

  predicate TooOldAt(ev: Event, nowMs: int) {
    ev.serverTimestamp.Some? && nowMs - ev.serverTimestamp.value > MaxAgeMs
  }

  class Orchestrator {
    const mentionOnly: bool
    const allowDm: bool
    const limiter: RateLimiter
    var processed: set<string>

    ghost predicate Valid()
      reads this, limiter
    {
      |processed| <= MaxProcessed && limiter.Valid()
    }

    /** The state `__init__` sets up, from the already-read trigger and rate
        limit settings. */
    constructor (mentionOnly: bool, allowDm: bool, maxRequests: int, windowSeconds: int)
      ensures Valid()
      ensures this.mentionOnly == mentionOnly && this.allowDm == allowDm
      ensures limiter.maxRequests == maxRequests && limiter.windowSeconds == windowSeconds
      ensures limiter.requests == map[] && processed == {}
      ensures fresh(limiter)
    {
      this.mentionOnly := mentionOnly;
      this.allowDm := allowDm;
      limiter := new RateLimiter(maxRequests, windowSeconds);
      processed := {};
    }

    /** The callback of `bot` receiving `ev` in `room`; `server` answers the
        request the bot's backend sends. */
    method HandleEvent(bot: Persona, room: Room, ev: Event, nowMs: int, nowSec: int,
                       server: Agent.Request -> Agent.ChatCall) returns (d: Decision)
      requires Valid()
      modifies this, limiter
      ensures Valid()
      // The bot's own messages are ignored and not recorded.
      ensures ev.sender == bot.matrixUser ==>
                d == Skip(OwnMessage) && processed == old(processed) &&
                limiter.requests == old(limiter.requests)
      // An id some callback has already recorded is ignored.
      ensures ev.sender != bot.matrixUser && ev.eventId in old(processed) ==>
                d == Skip(AlreadyProcessed) && processed == old(processed) &&
                limiter.requests == old(limiter.requests)
      // Every other event is recorded before anything else is looked at.
      ensures d.PastDedup() <==> ev.sender != bot.matrixUser && ev.eventId !in old(processed)
      ensures d.PastDedup() ==> Recorded(old(processed), ev.eventId, processed)
      // Old events are dropped before they reach the limiter.
      ensures d.PastDedup() && TooOldAt(ev, nowMs) ==>
                d == Skip(TooOld) && limiter.requests == old(limiter.requests)
      // Every event that reaches the limiter is checked against the sender's
      // window, whether or not it addresses this bot.
      ensures d.PastDedup() && !TooOldAt(ev, nowMs) ==>
                Verdict(d != Skip(RateLimited), limiter.requests) ==
                Check(old(limiter.requests), limiter.maxRequests, limiter.windowSeconds, ev.sender, nowSec)
      // Past the limiter, the gate decides, and the reply is the bot's
      // response to the cleaned message.
      ensures d.PastDedup() && !TooOldAt(ev, nowMs) && d != Skip(RateLimited) ==>
                if Addressed(mentionOnly, allowDm, bot, room, ev.body) then
                  d.Respond? && d.prompt == Cleaned(ev.body, MentionTokens(bot)) &&
                  d.reply == Agent.GenerateResponse(bot.backend, d.prompt, ev.sender, server)
                else d == Skip(NotAddressed)
    {
      if ev.sender == bot.matrixUser {
        return Skip(OwnMessage);
      }
      if ev.eventId in processed {
        return Skip(AlreadyProcessed);
      }
      processed := processed + {ev.eventId};
      if |processed| > MaxProcessed {
        processed := TakeSubset(processed, TrimmedSize);
      }
      if ev.serverTimestamp.Some? {
        var ageMs := nowMs - ev.serverTimestamp.value;
        if ageMs > MaxAgeMs {
          return Skip(TooOld);
        }
      }
      var allowed := limiter.IsAllowed(ev.sender, nowSec);
      if !allowed {
        return Skip(RateLimited);
      }
      var mentioned := Contains(Lower(ev.body), "@" + bot.name) || Contains(ev.body, bot.matrixUser);
      var isDm := |room.users| <= 2;
      if mentionOnly && !mentioned && !(allowDm && isDm) {
        return Skip(NotAddressed);
      }
      var clean := CleanMessage(ev.body, MentionTokens(bot));
      var response := Agent.GenerateResponse(bot.backend, clean, ev.sender, server);
      d := Respond(clean, response);
    }
  }

  /** Two bots' callbacks receive the same event one after the other: at most
      one of them gets past the duplicate check. The set is below its cap, so
      the id recorded by the first is not trimmed away. The set is shared by
      all bots, so when neither bot sent a new event, the first callback takes
      it and the second skips it, even when only the second bot is mentioned:
      that mention gets no reply. */
  method DeliverToTwo(o: Orchestrator, a: Persona, b: Persona, room: Room, ev: Event,
                      nowMs: int, nowSec: int, server: Agent.Request -> Agent.ChatCall)
    returns (da: Decision, db: Decision)
    requires o.Valid() && |o.processed| < MaxProcessed
    modifies o, o.limiter
    ensures o.Valid()
    ensures !(da.PastDedup() && db.PastDedup())
    ensures ev.eventId in old(o.processed) ==> !da.PastDedup() && !db.PastDedup()
    ensures ev.sender != a.matrixUser && ev.sender != b.matrixUser && ev.eventId !in old(o.processed) ==>
              da.PastDedup() && db == Skip(AlreadyProcessed)
  {
    da := o.HandleEvent(a, room, ev, nowMs, nowSec, server);
    db := o.HandleEvent(b, room, ev, nowMs, nowSec, server);
  }

  /** Under mention-only mode a reply is posted only to a mention or, when
      direct rooms are allowed, in a room of at most two members; a message
      that passes the limiter but not this gate has still used up one of
      the sender's requests. */
  lemma GateRule(mentionOnly: bool, allowDm: bool, p: Persona, room: Room, body: string)
    requires mentionOnly
    ensures Addressed(mentionOnly, allowDm, p, room, body) <==>
              Mentioned(p, body) || (allowDm && |room.users| <= 2)
  {
  }
}
