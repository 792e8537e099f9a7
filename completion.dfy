/** The completion-service adapter: the bounded conversation history, the
    role-tagged request built from it, and the translation of the service's
    outcome into a reply (the model's text or a fixed apology). */
module Completion {

  datatype Option<T> = None | Some(value: T)

  /** One answered exchange of the history: the user's message and the reply. */
  datatype Exchange = Exchange(user: string, reply: string)

  /** The history keeps at most this many exchanges. */
  const MaxHistory: nat := 8

  /** At most this many recent exchanges are forwarded to the service. */
  const RecentWindow: nat := 5

  /** The credential prefix the key must carry. */
  const KeyPrefix: string := "gsk_"

  /** One entry of the request's role-tagged message list; the system entry
      carries the fixed persona prompt. */
  datatype ChatMessage = SystemPersona | FromUser(text: string) | FromAssistant(text: string)

  /** What the single call to the service produced: an exception from the
      call itself (timeout, connection error), or a response with a status code
      and, when the body could be decoded down to its text field, that text
      (already trimmed). */
  datatype Outcome = Raised | Answered(status: int, content: Option<string>)

  /** The failure conditions, each answered with its own apology. */
  datatype Failure = NoKey | MalformedKey | Unauthorized | RateLimited | OtherStatus | Distracted

  /** What the adapter answers: the service's text, or the apology for a failure. */
  datatype ServiceReply = Generated(text: string) | Apology(failure: Failure)

  /** The reply given to the user and the history after the call. */
  datatype Answer = Answer(reply: ServiceReply, history: seq<Exchange>)

  function Min(a: int, b: int): int { if a <= b then a else b }

  /** The fixed apology texts. */
  const NoKeyText: string := "Désolée, je ne peux pas répondre maintenant ! 😅"
  const MalformedKeyText: string := "Il y a un problème avec ma connexion ! 😔"
  const UnauthorizedText: string := "Ma connexion a des soucis ! 😅 Réessaie dans un moment !"
  const RateLimitedText: string := "Je suis débordée là ! 😵 Attends un peu !"
  const OtherStatusText: string := "Oups, j'ai un petit bug ! 🙈 Tu peux répéter ?"
  const DistractedText: string := "J'ai la tête ailleurs ! 😅 Tu disais quoi ?"

  /** The apology text for each failure condition. No two conditions share a
      text, so each failure can be told from the others by what the user reads. */
  function ApologyText(f: Failure): (r: string)
    ensures |r| > 0
    ensures f != NoKey ==> r != NoKeyText
    ensures f != MalformedKey ==> r != MalformedKeyText
    ensures f != Unauthorized ==> r != UnauthorizedText
    ensures f != RateLimited ==> r != RateLimitedText
    ensures f != OtherStatus ==> r != OtherStatusText
    ensures f != Distracted ==> r != DistractedText
  {
    match f
    case NoKey => NoKeyText
    case MalformedKey => MalformedKeyText
    case Unauthorized => UnauthorizedText
    case RateLimited => RateLimitedText
    case OtherStatus => OtherStatusText
    case Distracted => DistractedText
  }

  /** The text sent back to the user: the service's text verbatim, or the
      failure's apology, which is never empty. */
  function ServiceText(r: ServiceReply): (t: string)
    ensures r.Generated? ==> t == r.text
    ensures r.Apology? ==> t == ApologyText(r.failure) && |t| > 0
  {
    match r
    case Generated(text) => text
    case Apology(f) => ApologyText(f)
  }

  /** A key is configured when it is present and not empty. */
  predicate HasKey(key: Option<string>)
  {
    key.Some? && key.value != ""
  }

  /** A key is usable when it is configured and carries the expected prefix:
      then it has at least four characters, the first four being "gsk_". */
  predicate KeyUsable(key: Option<string>): (r: bool)
    ensures r ==> key.Some? && |key.value| >= 4 && key.value[..4] == KeyPrefix
    ensures r ==> HasKey(key)
  {
    HasKey(key) && KeyPrefix <= key.value
  }

  /** The service produced a usable reply text. */
  predicate Succeeded(outcome: Outcome)
  {
    outcome.Answered? && outcome.status == 200 && outcome.content.Some?
  }

  /** Appends an exchange and keeps only the most recent `MaxHistory` entries. */
  function Record(history: seq<Exchange>, e: Exchange): (r: seq<Exchange>)
    ensures |r| == Min(|history| + 1, MaxHistory)
    ensures r[|r| - 1] == e
    ensures r == (history + [e])[|history| + 1 - |r|..]
  {
    var h := history + [e];
    if |h| > MaxHistory then h[|h| - MaxHistory..] else h
  }

  /** Recording never lets the history grow past its cap, and entries keep their
      relative order: every entry of the old history that survives is found, in
      the same order, in front of the new exchange. */
  lemma {:induction false} RecordKeepsOrder(history: seq<Exchange>, e: Exchange, i: nat, j: nat)
    requires i < j < |history|
    requires |history| + 1 - Min(|history| + 1, MaxHistory) <= i
    ensures var r := Record(history, e);
      var d := |history| + 1 - |r|;
      0 <= i - d < j - d < |r| - 1 && r[i - d] == history[i] && r[j - d] == history[j]
  {
    var r := Record(history, e);
    var d := |history| + 1 - |r|;
    assert (history + [e])[i] == history[i] && (history + [e])[j] == history[j];
    assert r[i - d] == (history + [e])[d..][i - d];
  }

  /** The most recent exchanges forwarded to the service, oldest first. */
  function Recent(history: seq<Exchange>): (r: seq<Exchange>)
    ensures |r| == Min(|history|, RecentWindow)
    ensures r == history[|history| - |r|..]
  {
    if |history| <= RecentWindow then history else history[|history| - RecentWindow..]
  }

  /** The shape of the request: the persona first, then a user/assistant pair for
      each recent exchange, oldest first, then the current message as a user entry. */
  ghost predicate WellFormedRequest(msgs: seq<ChatMessage>, history: seq<Exchange>, message: string)
  {
    var recent := Recent(history);
    && |msgs| == 2 * Min(|history|, RecentWindow) + 2
    && msgs[0] == SystemPersona
    && msgs[|msgs| - 1] == FromUser(message)
    && forall i :: 0 <= i < |recent| ==>
         msgs[2 * i + 1] == FromUser(recent[i].user) && msgs[2 * i + 2] == FromAssistant(recent[i].reply)
  }

  /** The user and assistant entries for a list of exchanges, oldest first. */
  function Pairs(exchanges: seq<Exchange>): seq<ChatMessage>
    decreases |exchanges|
  {
    if exchanges == [] then []
    else
      var last := exchanges[|exchanges| - 1];
      Pairs(exchanges[..|exchanges| - 1]) + [FromUser(last.user), FromAssistant(last.reply)]
  }

  /** Exchange `i` contributes entries `2i` and `2i+1`. */
  lemma {:induction false} PairsAt(exchanges: seq<Exchange>, i: nat)
    requires i < |exchanges|
    ensures |Pairs(exchanges)| == 2 * |exchanges|
    ensures Pairs(exchanges)[2 * i] == FromUser(exchanges[i].user)
    ensures Pairs(exchanges)[2 * i + 1] == FromAssistant(exchanges[i].reply)
    decreases |exchanges|
  {
    var n := |exchanges| - 1;
    var init := exchanges[..n];
    if n > 0 {
      PairsAt(init, if i < n then i else 0);
    }
    if i < n {
      assert init[i] == exchanges[i];
      assert Pairs(exchanges)[2 * i] == Pairs(init)[2 * i];
      assert Pairs(exchanges)[2 * i + 1] == Pairs(init)[2 * i + 1];
    }
  }

  /** The list persona + pairs of the recent exchanges + current message has the request shape. */
  lemma RequestShape(history: seq<Exchange>, message: string)
    ensures WellFormedRequest([SystemPersona] + Pairs(Recent(history)) + [FromUser(message)], history, message)
  {
    var recent := Recent(history);
    var msgs := [SystemPersona] + Pairs(recent) + [FromUser(message)];
    if recent != [] {
      PairsAt(recent, 0);
    }
    forall i | 0 <= i < |recent|
      ensures msgs[2 * i + 1] == FromUser(recent[i].user) && msgs[2 * i + 2] == FromAssistant(recent[i].reply)
    {
      PairsAt(recent, i);
    }
  }

  /** Builds the role-tagged message list the way the source does, one entry at a time. */
  method BuildRequest(history: seq<Exchange>, message: string) returns (msgs: seq<ChatMessage>)
    ensures WellFormedRequest(msgs, history, message)
  {
    var recent := Recent(history);
    msgs := [SystemPersona];
    var i := 0;
    while i < |recent|
      invariant 0 <= i <= |recent|
      invariant msgs == [SystemPersona] + Pairs(recent[..i])
    {
      assert recent[..i + 1][..i] == recent[..i];
      msgs := msgs + [FromUser(recent[i].user), FromAssistant(recent[i].reply)];
      i := i + 1;
    }
    assert recent[..i] == recent;
    msgs := msgs + [FromUser(message)];
    RequestShape(history, message);
  }

  /** The reply and the new history after one completion attempt. The key checks
      come first; a response with a status other than 200 is not decoded. */
  function Complete(history: seq<Exchange>, message: string, key: Option<string>, outcome: Outcome): (r: Answer)
    ensures !HasKey(key) ==> r == Answer(Apology(NoKey), history)
    ensures HasKey(key) && !KeyUsable(key) ==> r == Answer(Apology(MalformedKey), history)
    ensures KeyUsable(key) && outcome == Raised ==> r == Answer(Apology(Distracted), history)
    ensures KeyUsable(key) && outcome.Answered? && outcome.status == 401 ==> r == Answer(Apology(Unauthorized), history)
    ensures KeyUsable(key) && outcome.Answered? && outcome.status == 429 ==> r == Answer(Apology(RateLimited), history)
    ensures KeyUsable(key) && outcome.Answered? && outcome.status !in {200, 401, 429} ==> r == Answer(Apology(OtherStatus), history)
    ensures KeyUsable(key) && outcome == Answered(200, None) ==> r == Answer(Apology(Distracted), history)
    ensures KeyUsable(key) && Succeeded(outcome) ==>
      r == Answer(Generated(outcome.content.value), Record(history, Exchange(message, outcome.content.value)))
  {
    if !HasKey(key) then Answer(Apology(NoKey), history)
    else if !(KeyPrefix <= key.value) then Answer(Apology(MalformedKey), history)
    else
      match outcome
      case Raised => Answer(Apology(Distracted), history)
      case Answered(status, content) =>
        if status == 401 then Answer(Apology(Unauthorized), history)
        else if status == 429 then Answer(Apology(RateLimited), history)
        else if status != 200 then Answer(Apology(OtherStatus), history)
        else
          match content
          case None => Answer(Apology(Distracted), history)
          case Some(text) => Answer(Generated(text), Record(history, Exchange(message, text)))
  }

  /** The history changes only on success; then the reply is the service's text
      and the history is the old one with the new exchange last, cut to the cap.
      On every failure the reply is an apology and the history is unchanged. */
  lemma CompleteChangesHistoryOnlyOnSuccess(history: seq<Exchange>, message: string, key: Option<string>, outcome: Outcome)
    ensures var r := Complete(history, message, key, outcome);
      if KeyUsable(key) && Succeeded(outcome) then
        r.reply == Generated(outcome.content.value)
        && r.history == Record(history, Exchange(message, outcome.content.value))
        && |r.history| == Min(|history| + 1, MaxHistory)
      else
        r.reply.Apology? && r.history == history
  {
  }

  /** A history within the cap stays within the cap after any completion attempt. */
  lemma CompleteKeepsCap(history: seq<Exchange>, message: string, key: Option<string>, outcome: Outcome)
    requires |history| <= MaxHistory
    ensures |Complete(history, message, key, outcome).history| <= MaxHistory
  {
  }
}
