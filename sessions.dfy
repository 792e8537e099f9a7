/** The per-user session engine: the context kept for each user, the strict
    decision order that picks the reply to a message, the session resets, and
    the session table that holds one context per user. */
module Sessions {
  import opened Sensitivity
  import opened Completion

  type UserId = int

  /** The per-user context. `flagged` counts the messages with a positive
      sensitivity score; a fresh context has it at zero (the source leaves the
      key out and reads it with default 0). `startedAt` is a clock reading in
      whole seconds. */
  datatype Context = Context(firstInteraction: bool, history: seq<Exchange>, flagged: nat, startedAt: int)

  /** The fixed message pools a reply may be drawn from. */
  datatype Pool = Endings | Hints | Promotions | Redirects | TierOne | TierTwo | TierThree

  /** A reply: a fixed line, a line drawn from a pool (by its index), or what
      the completion adapter answered. `Text` gives the characters sent. */
  datatype Reply =
    | Greeting
    | StartLine
    | ClearLine
    | Pooled(pool: Pool, index: nat)
    | Service(answer: ServiceReply)

  /** The random choices of one message: whether each of the two probabilistic
      draws came out below its threshold (15% for the hint, 8% for the promotion),
      and the number used to pick a line from a pool. */
  datatype Draws = Draws(hintRoll: bool, promoRoll: bool, pick: nat)

  /** The outcome of one event: the context afterwards and the reply. */
  datatype Step = Step(ctx: Context, reply: Reply)

  /** The fixed request the joke command sends to the completion service. */
  const JokeRequest: string := "Raconte-moi une blague courte et drôle avec ton humour marseillais"

  /** From this many flagged messages on, a flagged message gets a redirect. */
  const RedirectThreshold: nat := 3
  /** From this history length on, an ending hint may be given. */
  const HintThreshold: nat := 12
  /** Above this history length, a promotional message may be given. */
  const PromoThreshold: nat := 5

  function PoolSize(p: Pool): nat
  {
    match p
    case Endings => 8
    case Hints => 7
    case _ => 3
  }

  /** The lines of each pool, in the source's order. */
  const EndingLines: seq<string> := [
      "Bon, je dois y aller ! J'ai un vol tôt demain matin 😴 Bonne nuit !",
      "Il se fait tard ! Je vais me coucher 🌙 À bientôt !",
      "Je file ! J'ai encore du boulot à finir 📚 On se reparle ?",
      "Allez, je te laisse ! Ma colocataire m'attend pour manger 🍽️ Bisous !",
      "Je dois filer sous la douche ! Longue journée demain ⏰ Prends soin de toi !",
      "Bon, mes yeux se ferment ! 😴 Je vais pioncer ! Bonne nuit !",
      "Je dois arrêter là ! Révisions à finir 📖 À plus tard !",
      "Il faut que j'y aille ! Mon service commence tôt 💼 Bonne soirée !"]

  const HintLines: seq<string> := [
      "Dis donc, ça fait un moment qu'on discute ! 😅",
      "Je commence à avoir sommeil moi... 😴",
      "Il va falloir que je pense à aller me coucher bientôt !",
      "Ma journée de demain va être chargée ! 📚",
      "J'ai encore des trucs à faire avant de dormir...",
      "Le temps passe vite quand on discute ! ⏰",
      "Mes yeux commencent à piquer un peu 😪"]

  const PromotionLines: seq<string> := [
      "Tu sais, je partage beaucoup de contenu exclusif sur mon Fanvue. Ça pourrait t'intéresser ! 😊 https://www.fanvue.com/aliciia/fv-1",
      "Si tu veux en savoir plus sur moi, mon Fanvue est l'endroit idéal ! 😉 https://www.fanvue.com/aliciia/fv-1",
      "Je poste souvent des mises à jour sur mon Fanvue. N'hésite pas à y jeter un œil ! 👀 https://www.fanvue.com/aliciia/fv-1"]

  const RedirectLines: seq<string> := [
      "Haha tu es coquin ! 😏 J'ai un Fanvue si ça t'intéresse... https://www.fanvue.com/aliciia/fv-1",
      "Oh là là ! 😉 Rejoins-moi sur mon Fanvue pour plus ! https://www.fanvue.com/aliciia/fv-1",
      "Tu me fais rougir ! 🔥 Mon Fanvue : https://www.fanvue.com/aliciia/fv-1"]

  const TierOneLines: seq<string> := ["Haha tu es coquin ! 😏", "Oh là là ! 😉", "Tu me fais rougir ! 🔥"]

  const TierTwoLines: seq<string> := [
      "Waouh, tu n'y vas pas de main morte ! 😏",
      "Oh là là, tu me surprends ! 😉",
      "Tu me fais vraiment rougir ! 🔥"]

  const TierThreeLines: seq<string> := [
      "Oh mon dieu, tu es vraiment direct ! 😏",
      "Waouh, tu es plein d'audace ! 😉",
      "Tu me fais carrément rougir ! 🔥"]

  function Lines(p: Pool): (r: seq<string>)
    ensures |r| == PoolSize(p)
  {
    match p
    case Endings => EndingLines
    case Hints => HintLines
    case Promotions => PromotionLines
    case Redirects => RedirectLines
    case TierOne => TierOneLines
    case TierTwo => TierTwoLines
    case TierThree => TierThreeLines
  }

  /** The fixed lines of the greeting, the start command and the clear command. */
  const GreetingText: string := "ça me fait plaisir de te voir !"
  const StartText: string := "Coucou toi <3"
  const ClearText: string := "On efface tout ! 🔄"

  /** The characters of a reply: a pooled reply is one line of its pool, a
      service reply is what the completion adapter returned, and every reply
      that does not come from the service is non-empty. */
  function Text(r: Reply): (t: string)
    ensures r.Pooled? ==> t == Lines(r.pool)[r.index % PoolSize(r.pool)] && t in Lines(r.pool)
    ensures r.Service? ==> t == ServiceText(r.answer)
    ensures !r.Service? ==> |t| > 0
  {
    match r
    case Greeting => GreetingText
    case StartLine => StartText
    case ClearLine => ClearText
    case Pooled(p, i) => var lines := Lines(p); lines[i % |lines|]
    case Service(a) => ServiceText(a)
  }

  /** The line of a pool chosen by a random pick. */
  function Pick(p: Pool, n: nat): (r: Reply)
    ensures r.Pooled? && r.pool == p && r.index < PoolSize(p)
  {
    Pooled(p, n % PoolSize(p))
  }

  /** A random pick is shown as the line of its pool at the pick's index. */
  lemma PickRendersPoolLine(p: Pool, n: nat)
    ensures Text(Pick(p, n)) == Lines(p)[n % PoolSize(p)] && Text(Pick(p, n)) in Lines(p)
  {
    var k := PoolSize(p);
    var i := n % k;
    assert Pick(p, n) == Pooled(p, i);
    assert i % k == i;
  }

  /** The reply was drawn from pool `p`. */
  predicate FromPool(r: Reply, p: Pool)
  {
    r.Pooled? && r.pool == p
  }

  /** The pool for a positive score below the redirect threshold: one pool per
      tier, never a redirect, ending, hint or promotion pool. */
  function TierPool(score: nat): (r: Pool)
    ensures r == TierOne || r == TierTwo || r == TierThree
    ensures r == TierOne <==> score <= 1
    ensures r == TierThree <==> score >= 3
  {
    if score <= 1 then TierOne else if score == 2 then TierTwo else TierThree
  }

  /** A brand-new context, as created on first contact and by every reset. */
  function Fresh(first: bool, now: int): (r: Context)
    ensures r.firstInteraction == first && r.history == [] && r.flagged == 0 && r.startedAt == now
    ensures forall m :: !ShouldEnd(|r.history|, m)
    ensures !ShouldHint(|r.history|) && |r.history| <= PromoThreshold
  {
    Context(first, [], 0, now)
  }

  /** Whole minutes since `startedAt`, rounded down. For integer clock readings,
      rounding down keeps every comparison with a whole number of minutes exact. */
  function ElapsedMinutes(startedAt: int, now: int): (r: int)
    ensures 60 * r <= now - startedAt < 60 * (r + 1)
    ensures r >= 20 <==> now - startedAt >= 1200
  {
    (now - startedAt) / 60
  }

  /** The natural-ending rule, with its three clauses as written. The first
      clause is implied by the third, so the rule fires exactly when there are
      20 exchanges, or 15 exchanges after 20 minutes. */
  function ShouldEnd(messageCount: nat, elapsedMinutes: int): (r: bool)
    ensures r <==> messageCount >= 20 || (messageCount >= 15 && elapsedMinutes >= 20)
  {
    if messageCount >= 25 then true
    else if messageCount >= 15 && elapsedMinutes >= 20 then true
    else if messageCount >= 20 then true
    else false
  }

  /** The ending rule is monotone in both the history length and the elapsed time. */
  lemma ShouldEndMonotone(n: nat, m: int, n': nat, m': int)
    requires n <= n' && m <= m' && ShouldEnd(n, m)
    ensures ShouldEnd(n', m')
  {
  }

  /** The hint condition. Any history where it holds is also past the promotion
      threshold, and no history within the cap meets it. */
  predicate ShouldHint(messageCount: nat): (r: bool)
    ensures r ==> messageCount > PromoThreshold
    ensures messageCount <= MaxHistory ==> !r
  {
    messageCount >= HintThreshold
  }

  /** The redirect condition, read after the counter has been incremented. */
  predicate ShouldRedirect(flagged: nat)
  {
    flagged >= RedirectThreshold
  }

  /** On any history within the cap, neither the ending rule nor the hint
      condition can hold. */
  lemma CapRulesOutEndingAndHint(history: seq<Exchange>, elapsedMinutes: int)
    requires |history| <= MaxHistory
    ensures !ShouldEnd(|history|, elapsedMinutes) && !ShouldHint(|history|)
  {
  }

  /** The reply to one message in a user's context, in the strict decision
      order: greeting, natural ending, sensitivity routing, ending hint,
      promotion, completion. Apart from the ending reset, a turn keeps the start
      time, leaves the first interaction behind, raises the counter by at most
      one, and changes the history only through the completion call. */
  function Turn(c: Context, message: string, now: int, key: Option<string>, outcome: Outcome, draws: Draws): (r: Step)
    ensures r.ctx == Fresh(true, now) || (r.ctx.startedAt == c.startedAt && !r.ctx.firstInteraction)
    ensures r.ctx == Fresh(true, now) || r.ctx.flagged == c.flagged || r.ctx.flagged == c.flagged + 1
    ensures r.reply.Service? || r.ctx == Fresh(true, now) || r.ctx.history == c.history
  {
    if c.firstInteraction then
      Step(c.(firstInteraction := false), Greeting)
    else if ShouldEnd(|c.history|, ElapsedMinutes(c.startedAt, now)) then
      Step(Fresh(true, now), Pick(Endings, draws.pick))
    else if Score(message) > 0 then
      var c' := c.(flagged := c.flagged + 1);
      if ShouldRedirect(c'.flagged) then Step(c', Pick(Redirects, draws.pick))
      else Step(c', Pick(TierPool(Score(message)), draws.pick))
    else if ShouldHint(|c.history|) && draws.hintRoll then
      Step(c, Pick(Hints, draws.pick))
    else if |c.history| > PromoThreshold && draws.promoRoll then
      Step(c, Pick(Promotions, draws.pick))
    else
      var a := Complete(c.history, message, key, outcome);
      Step(c.(history := a.history), Service(a.reply))
  }

  /** The context of a user: the stored one, or a fresh first-interaction one. */
  function Lookup(contexts: map<UserId, Context>, u: UserId, now: int): (r: Context)
    ensures u in contexts ==> r == contexts[u]
    ensures u !in contexts ==> r.firstInteraction && r.history == [] && r.flagged == 0 && r.startedAt == now
  {
    if u in contexts then contexts[u] else Fresh(true, now)
  }

  /** First interaction: the greeting, with only the flag cleared, whatever the
      message. */
  lemma TurnGreetsFirst(c: Context, message: string, now: int, key: Option<string>, outcome: Outcome, draws: Draws)
    requires c.firstInteraction
    ensures Turn(c, message, now, key, outcome, draws) == Step(c.(firstInteraction := false), Greeting)
  {
  }

  /** Natural ending: a closing line, and the context is replaced by a fresh
      first-interaction one started now. */
  lemma TurnClosesWhenEnding(c: Context, message: string, now: int, key: Option<string>, outcome: Outcome, draws: Draws)
    requires !c.firstInteraction && ShouldEnd(|c.history|, ElapsedMinutes(c.startedAt, now))
    ensures var s := Turn(c, message, now, key, outcome, draws);
      FromPool(s.reply, Endings) && s.ctx == Fresh(true, now)
  {
  }

  /** Sensitivity routing: a positive score increments the counter by exactly one,
      leaves everything else alone and does not reach the completion call; the
      reply is a redirect once the counter is at 3, else from the score's tier. */
  lemma TurnRoutesSensitive(c: Context, message: string, now: int, key: Option<string>, outcome: Outcome, draws: Draws)
    requires !c.firstInteraction && !ShouldEnd(|c.history|, ElapsedMinutes(c.startedAt, now))
    requires Score(message) > 0
    ensures var s := Turn(c, message, now, key, outcome, draws);
      && s.ctx == c.(flagged := c.flagged + 1)
      && !s.reply.Service?
      && (c.flagged + 1 >= RedirectThreshold ==> FromPool(s.reply, Redirects))
      && (c.flagged + 1 < RedirectThreshold && Score(message) == 1 ==> FromPool(s.reply, TierOne))
      && (c.flagged + 1 < RedirectThreshold && Score(message) == 2 ==> FromPool(s.reply, TierTwo))
      && (c.flagged + 1 < RedirectThreshold && Score(message) >= 3 ==> FromPool(s.reply, TierThree))
  {
  }

  /** The completion call is reached exactly when no earlier branch applies, and
      only the history can change there. */
  lemma TurnCompletesOtherwise(c: Context, message: string, now: int, key: Option<string>, outcome: Outcome, draws: Draws)
    ensures var s := Turn(c, message, now, key, outcome, draws);
      s.reply.Service? <==>
        && !c.firstInteraction
        && !ShouldEnd(|c.history|, ElapsedMinutes(c.startedAt, now))
        && Score(message) == 0
        && !(ShouldHint(|c.history|) && draws.hintRoll)
        && !(|c.history| > PromoThreshold && draws.promoRoll)
    ensures var s := Turn(c, message, now, key, outcome, draws);
      var a := Complete(c.history, message, key, outcome);
      s.reply.Service? ==> s == Step(c.(history := a.history), Service(a.reply))
  {
  }

  /** Ending hint and promotion: each is given exactly when no earlier branch
      applies and its own condition and draw hold, and neither changes the context. */
  lemma TurnHintsOrPromotes(c: Context, message: string, now: int, key: Option<string>, outcome: Outcome, draws: Draws)
    ensures var s := Turn(c, message, now, key, outcome, draws);
      FromPool(s.reply, Hints) <==>
        && !c.firstInteraction
        && !ShouldEnd(|c.history|, ElapsedMinutes(c.startedAt, now))
        && Score(message) == 0
        && ShouldHint(|c.history|) && draws.hintRoll
    ensures var s := Turn(c, message, now, key, outcome, draws);
      FromPool(s.reply, Promotions) <==>
        && !c.firstInteraction
        && !ShouldEnd(|c.history|, ElapsedMinutes(c.startedAt, now))
        && Score(message) == 0
        && !(ShouldHint(|c.history|) && draws.hintRoll)
        && |c.history| > PromoThreshold && draws.promoRoll
    ensures var s := Turn(c, message, now, key, outcome, draws);
      FromPool(s.reply, Hints) || FromPool(s.reply, Promotions) ==> s.ctx == c
  {
  }

  /** A message with score 0 leaves the counter unchanged unless the session was reset. */
  lemma TurnZeroScoreKeepsCounter(c: Context, message: string, now: int, key: Option<string>, outcome: Outcome, draws: Draws)
    requires Score(message) == 0
    ensures var s := Turn(c, message, now, key, outcome, draws);
      !FromPool(s.reply, Endings) ==> s.ctx.flagged == c.flagged
  {
  }

  /** Every turn except the reset one keeps the start time, never raises the
      first-interaction flag, never lowers the counter, and keeps the history cap. */
  lemma TurnPreserves(c: Context, message: string, now: int, key: Option<string>, outcome: Outcome, draws: Draws)
    requires |c.history| <= MaxHistory
    ensures var s := Turn(c, message, now, key, outcome, draws);
      && |s.ctx.history| <= MaxHistory
      && (!FromPool(s.reply, Endings) ==>
            s.ctx.startedAt == c.startedAt && !s.ctx.firstInteraction && s.ctx.flagged >= c.flagged)
  {
  }

  // ---------------------------------------------------------------------------
  // Sequences of events for one user

  /** An event for one user: a text message, with what the clock, the key, the
      completion service and the random source gave while it was handled; the
      start or clear command; or the joke command, with the key and the
      completion service's outcome. */
  datatype Event =
    | Message(text: string, now: int, key: Option<string>, outcome: Outcome, draws: Draws)
    | StartCommand(at: int)
    | ClearCommand(at: int)
    | JokeCommand(jokeKey: Option<string>, jokeOutcome: Outcome)

  /** One event applied to the user's context. Start and clear both replace the
      whole context; they differ only in the first-interaction flag they set. The
      joke command skips the whole decision order: only the history can change,
      through the completion adapter. */
  function Apply(c: Context, e: Event): (r: Step)
    ensures e.StartCommand? || e.ClearCommand? ==>
      && r.ctx.history == [] && r.ctx.flagged == 0 && r.ctx.startedAt == e.at
      && r.ctx.firstInteraction == e.StartCommand?
    ensures e.JokeCommand? ==>
      && r.ctx == c.(history := r.ctx.history)
      && r.reply == Service(Complete(c.history, JokeRequest, e.jokeKey, e.jokeOutcome).reply)
  {
    match e
    case Message(text, now, key, outcome, draws) => Turn(c, text, now, key, outcome, draws)
    case StartCommand(t) => Step(Fresh(true, t), StartLine)
    case ClearCommand(t) => Step(Fresh(false, t), ClearLine)
    case JokeCommand(key, outcome) =>
      var a := Complete(c.history, JokeRequest, key, outcome);
      Step(c.(history := a.history), Service(a.reply))
  }

  /** The steps of a run of events from context `c`, the user's stored context:
      step `i` holds the context after event `i` and the reply to it. */
  function Run(c: Context, events: seq<Event>): (r: seq<Step>)
    ensures |r| == |events|
    ensures |events| > 0 ==> r[0] == Apply(c, events[0])
    ensures forall i :: 0 < i < |events| ==> r[i] == Apply(r[i - 1].ctx, events[i])
    decreases |events|
  {
    if events == [] then []
    else
      var s := Apply(c, events[0]);
      var rest := Run(s.ctx, events[1..]);
      assert forall i :: 0 < i < |rest| ==> rest[i] == Apply(rest[i - 1].ctx, events[1..][i]);
      [s] + rest
  }

  /** Starting within the cap, no run ever holds more than 8 exchanges. */
  lemma {:induction false} RunKeepsCap(c: Context, events: seq<Event>)
    requires |c.history| <= MaxHistory
    ensures forall i :: 0 <= i < |events| ==> |Run(c, events)[i].ctx.history| <= MaxHistory
    decreases |events|
  {
    if events != [] {
      var e := events[0];
      var s := Apply(c, e);
      if e.Message? {
        TurnPreserves(c, e.text, e.now, e.key, e.outcome, e.draws);
      } else if e.JokeCommand? {
        CompleteKeepsCap(c.history, JokeRequest, e.jokeKey, e.jokeOutcome);
      }
      RunKeepsCap(s.ctx, events[1..]);
      assert Run(c, events) == [s] + Run(s.ctx, events[1..]);
    }
  }

  /** Hence, on every run from a reachable context, the natural ending and the
      ending hint never happen. */
  lemma RunNeverClosesOrHints(c: Context, events: seq<Event>)
    requires |c.history| <= MaxHistory
    ensures forall i :: 0 <= i < |events| ==>
      !FromPool(Run(c, events)[i].reply, Endings) && !FromPool(Run(c, events)[i].reply, Hints)
  {
    var r := Run(c, events);
    RunKeepsCap(c, events);
    forall i | 0 <= i < |events|
      ensures !FromPool(r[i].reply, Endings) && !FromPool(r[i].reply, Hints)
    {
      var before := if i == 0 then c else r[i - 1].ctx;
      if events[i].Message? {
        CapRulesOutEndingAndHint(before.history, ElapsedMinutes(before.startedAt, events[i].now));
      }
    }
  }

  /** No reset in a run: only messages and joke commands. */
  predicate NoReset(events: seq<Event>)
  {
    forall i :: 0 <= i < |events| ==> !events[i].StartCommand? && !events[i].ClearCommand?
  }

  /** Once the counter has reached 3, every later message with a positive score
      gets a redirect, as long as the session is not reset; joke commands in
      between do not change this. */
  lemma {:induction false} RedirectsPersist(c: Context, events: seq<Event>)
    requires !c.firstInteraction && c.flagged >= RedirectThreshold && |c.history| <= MaxHistory
    requires NoReset(events)
    ensures forall i :: 0 <= i < |events| && events[i].Message? && Score(events[i].text) > 0 ==>
      FromPool(Run(c, events)[i].reply, Redirects)
    decreases |events|
  {
    if events != [] {
      var e := events[0];
      var s := Apply(c, e);
      if e.Message? {
        CapRulesOutEndingAndHint(c.history, ElapsedMinutes(c.startedAt, e.now));
        TurnPreserves(c, e.text, e.now, e.key, e.outcome, e.draws);
      } else {
        CompleteKeepsCap(c.history, JokeRequest, e.jokeKey, e.jokeOutcome);
      }
      assert NoReset(events[1..]) by {
        forall i | 0 <= i < |events[1..]| ensures !events[1..][i].StartCommand? && !events[1..][i].ClearCommand? {
          assert events[1..][i] == events[i + 1];
        }
      }
      RedirectsPersist(s.ctx, events[1..]);
      var r := Run(c, events);
      assert r == [s] + Run(s.ctx, events[1..]);
      forall i | 0 < i < |events| && events[i].Message? && Score(events[i].text) > 0
        ensures FromPool(r[i].reply, Redirects)
      {
        assert events[1..][i - 1] == events[i];
      }
    }
  }

  /** The very first reply ever sent to a user is the greeting, whatever the message. */
  lemma FirstReplyIsGreeting(t: int, events: seq<Event>)
    requires |events| > 0 && events[0].Message?
    ensures Run(Fresh(true, t), events)[0].reply == Greeting
  {
  }

  /** After a clear, the next message is not greeted; after a start, it is. */
  lemma ClearSkipsGreetingStartDoesNot(c: Context, t: int, m: Event)
    requires m.Message?
    ensures Run(c, [ClearCommand(t), m])[1].reply != Greeting
    ensures Run(c, [StartCommand(t), m])[1].reply == Greeting
  {
  }

  /** After a natural ending, the next message is greeted again. */
  lemma EndingRestoresGreeting(c: Context, e: Event, m: Event)
    requires e.Message? && m.Message?
    requires FromPool(Apply(c, e).reply, Endings)
    ensures Run(c, [e, m])[1].reply == Greeting
  {
  }

  /** A reset starts the clock again: right after start or clear, the ending rule
      measures elapsed time from the reset and sees an empty history. */
  lemma ResetRestartsClock(c: Context, t: int, u: int)
    ensures var s := Apply(c, ClearCommand(t)).ctx;
      s.startedAt == t && s.history == [] && s.flagged == 0 && ElapsedMinutes(s.startedAt, u) == (u - t) / 60
      && !ShouldEnd(|s.history|, ElapsedMinutes(s.startedAt, u))
    ensures var s := Apply(c, StartCommand(t)).ctx;
      s.startedAt == t && s.history == [] && s.flagged == 0 && !ShouldEnd(|s.history|, ElapsedMinutes(s.startedAt, u))
  {
  }

  // ---------------------------------------------------------------------------
  // The session table

  /** Every stored history is within the cap. */
  ghost predicate WithinCap(contexts: map<UserId, Context>)
  {
    forall u :: u in contexts ==> |contexts[u].history| <= MaxHistory
  }

  /** Every operation on the table keeps every stored history within the cap:
      answering a message, and both resets. */
  lemma TableKeepsCap(contexts: map<UserId, Context>, u: UserId, now: int, e: Event)
    requires WithinCap(contexts)
    requires e.JokeCommand? ==> u in contexts
    requires e.Message? ==> e.now == now
    ensures WithinCap(contexts[u := Apply(Lookup(contexts, u, now), e).ctx])
  {
    var c := Lookup(contexts, u, now);
    if e.Message? {
      TurnPreserves(c, e.text, e.now, e.key, e.outcome, e.draws);
    } else if e.JokeCommand? {
      CompleteKeepsCap(c.history, JokeRequest, e.jokeKey, e.jokeOutcome);
    }
  }

  /** The joke command keeps every stored history within the cap as well. */
  lemma JokeKeepsCap(contexts: map<UserId, Context>, u: UserId, key: Option<string>, outcome: Outcome)
    requires WithinCap(contexts) && u in contexts
    ensures WithinCap(contexts[u := contexts[u].(history := Complete(contexts[u].history, JokeRequest, key, outcome).history)])
  {
    CompleteKeepsCap(contexts[u].history, JokeRequest, key, outcome);
  }

  /** On a table within the cap, no user's message is ever answered by the
      natural ending or by an ending hint. */
  lemma TableNeverClosesOrHints(contexts: map<UserId, Context>, u: UserId, message: string, now: int,
                                key: Option<string>, outcome: Outcome, draws: Draws)
    requires WithinCap(contexts)
    ensures var s := Turn(Lookup(contexts, u, now), message, now, key, outcome, draws);
      !FromPool(s.reply, Endings) && !FromPool(s.reply, Hints)
  {
    var c := Lookup(contexts, u, now);
    CapRulesOutEndingAndHint(c.history, ElapsedMinutes(c.startedAt, now));
  }

  /** The table of per-user contexts. Every entry is replaced as a whole. The
      methods do not require the history cap: each one keeps it when it already
      holds (see TableKeepsCap), and requiring it would make the ending and hint
      branches dead code. */
  class SessionTable {
    var contexts: map<UserId, Context>

    constructor ()
      ensures contexts == map[]
    {
      contexts := map[];
    }

    /** Adds one to the user's flagged-message counter, in place. */
    method IncrementCounter(u: UserId)
      requires u in contexts
      modifies this
      ensures contexts == old(contexts)[u := old(contexts)[u].(flagged := old(contexts)[u].flagged + 1)]
    {
      var c := contexts[u];
      contexts := contexts[u := c.(flagged := c.flagged + 1)];
    }

    /** One completion attempt for the user: the key checks, the request, the
        service's outcome, and on success the update of the history in place.
        `request` is the message list sent, or None when the key checks stop
        the attempt before anything is sent. */
    method CompleteFor(u: UserId, message: string, key: Option<string>, outcome: Outcome)
      returns (reply: ServiceReply, request: Option<seq<ChatMessage>>)
      requires u in contexts
      modifies this
      ensures var a := Complete(old(contexts)[u].history, message, key, outcome);
        reply == a.reply && contexts == old(contexts)[u := old(contexts)[u].(history := a.history)]
      ensures request.Some? <==> KeyUsable(key)
      ensures request.Some? ==> WellFormedRequest(request.value, old(contexts)[u].history, message)
    {
      assert contexts[u := contexts[u].(history := contexts[u].history)] == contexts;
      if !HasKey(key) {
        return Apology(NoKey), None;
      }
      if !(KeyPrefix <= key.value) {
        return Apology(MalformedKey), None;
      }
      var c := contexts[u];
      var msgs := BuildRequest(c.history, message);
      request := Some(msgs);
      match outcome
      case Raised =>
        reply := Apology(Distracted);
      case Answered(status, content) =>
        if status == 401 {
          reply := Apology(Unauthorized);
        } else if status == 429 {
          reply := Apology(RateLimited);
        } else if status != 200 {
          reply := Apology(OtherStatus);
        } else {
          match content
          case None =>
            reply := Apology(Distracted);
          case Some(text) =>
            var h := c.history + [Exchange(message, text)];
            if |h| > MaxHistory {
              h := h[|h| - MaxHistory..];
            }
            assert h == Record(c.history, Exchange(message, text));
            contexts := contexts[u := c.(history := h)];
            reply := Generated(text);
        }
    }

    /** The reply to a text message from user `u`: looks up or creates the
        context, then follows the decision order, updating or replacing the
        user's entry. `request` is what was sent to the completion service, if
        anything. */
    method Respond(u: UserId, message: string, now: int, key: Option<string>, outcome: Outcome, draws: Draws)
      returns (reply: Reply, request: Option<seq<ChatMessage>>)
      modifies this
      ensures var s := Turn(Lookup(old(contexts), u, now), message, now, key, outcome, draws);
        contexts == old(contexts)[u := s.ctx] && reply == s.reply
      ensures request.Some? <==> reply.Service? && KeyUsable(key)
      ensures request.Some? ==> WellFormedRequest(request.value, Lookup(old(contexts), u, now).history, message)
      ensures WithinCap(old(contexts)) ==> WithinCap(contexts)
    {
      if WithinCap(contexts) {
        TableKeepsCap(contexts, u, now, Message(message, now, key, outcome, draws));
      }
      request := None;
      if u !in contexts {
        contexts := contexts[u := Fresh(true, now)];
      }
      var c := contexts[u];
      if c.firstInteraction {
        contexts := contexts[u := c.(firstInteraction := false)];
        return Greeting, None;
      }
      if ShouldEnd(|c.history|, ElapsedMinutes(c.startedAt, now)) {
        contexts := contexts[u := Fresh(true, now)];
        return Pick(Endings, draws.pick), None;
      }
      reply, request := Route(u, message, now, key, outcome, draws);
    }

    /** The part of the decision order after the greeting and the ending checks:
        sensitivity routing, ending hint, promotion, completion. */
    method Route(u: UserId, message: string, now: int, key: Option<string>, outcome: Outcome, draws: Draws)
      returns (reply: Reply, request: Option<seq<ChatMessage>>)
      requires u in contexts && !contexts[u].firstInteraction
      requires !ShouldEnd(|contexts[u].history|, ElapsedMinutes(contexts[u].startedAt, now))
      modifies this
      ensures var s := Turn(old(contexts)[u], message, now, key, outcome, draws);
        contexts == old(contexts)[u := s.ctx] && reply == s.reply
      ensures request.Some? <==> reply.Service? && KeyUsable(key)
      ensures request.Some? ==> WellFormedRequest(request.value, old(contexts)[u].history, message)
    {
      request := None;
      var c := contexts[u];
      var score := DetectScore(message);
      if score > 0 {
        IncrementCounter(u);
        if ShouldRedirect(contexts[u].flagged) {
          return Pick(Redirects, draws.pick), None;
        } else if score == 1 {
          return Pick(TierOne, draws.pick), None;
        } else if score == 2 {
          return Pick(TierTwo, draws.pick), None;
        } else {
          return Pick(TierThree, draws.pick), None;
        }
      }
      if ShouldHint(|c.history|) && draws.hintRoll {
        return Pick(Hints, draws.pick), None;
      }
      if |c.history| > PromoThreshold && draws.promoRoll {
        return Pick(Promotions, draws.pick), None;
      }
      var answer;
      answer, request := CompleteFor(u, message, key, outcome);
      reply := Service(answer);
    }

    /** The joke command: the fixed joke request goes straight to the completion
        adapter, with no greeting, routing or scoring. A known user's history is
        updated as for any completion; for an unknown user the adapter works on a
        throw-away empty context, so the table does not change. */
    method Joke(u: UserId, key: Option<string>, outcome: Outcome)
      returns (reply: ServiceReply, request: Option<seq<ChatMessage>>)
      modifies this
      ensures u in old(contexts) ==>
        var a := Complete(old(contexts)[u].history, JokeRequest, key, outcome);
        reply == a.reply && contexts == old(contexts)[u := old(contexts)[u].(history := a.history)]
      ensures u !in old(contexts) ==>
        reply == Complete([], JokeRequest, key, outcome).reply && contexts == old(contexts)
      ensures request.Some? <==> KeyUsable(key)
      ensures request.Some? && u in old(contexts) ==> WellFormedRequest(request.value, old(contexts)[u].history, JokeRequest)
      ensures request.Some? && u !in old(contexts) ==> WellFormedRequest(request.value, [], JokeRequest)
      ensures WithinCap(old(contexts)) ==> WithinCap(contexts)
    {
      if WithinCap(contexts) && u in contexts {
        JokeKeepsCap(contexts, u, key, outcome);
      }
      if u in contexts {
        reply, request := CompleteFor(u, JokeRequest, key, outcome);
      } else {
        request := None;
        if KeyUsable(key) {
          var msgs := BuildRequest([], JokeRequest);
          request := Some(msgs);
        }
        reply := Complete([], JokeRequest, key, outcome).reply;
      }
    }

    /** The start command: the user's context is replaced by a fresh
        first-interaction one. */
    method Start(u: UserId, now: int) returns (reply: Reply)
      modifies this
      ensures contexts == old(contexts)[u := Fresh(true, now)] && reply == StartLine
      ensures WithinCap(old(contexts)) ==> WithinCap(contexts)
    {
      contexts := contexts[u := Fresh(true, now)];
      reply := StartLine;
    }

    /** The clear command: the user's context is replaced by a fresh one whose
        first interaction is already over. */
    method Clear(u: UserId, now: int) returns (reply: Reply)
      modifies this
      ensures contexts == old(contexts)[u := Fresh(false, now)] && reply == ClearLine
      ensures WithinCap(old(contexts)) ==> WithinCap(contexts)
    {
      contexts := contexts[u := Fresh(false, now)];
      reply := ClearLine;
    }
  }
}
