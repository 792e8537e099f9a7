# Alicia session engine — a Dafny model

Alicia is a French-speaking Telegram chat persona. This project models the
per-user session engine behind it (`main.py`). It covers:

- the keyword sensitivity scorer;
- the bounded conversation history and the completion-service adapter;
- the strict decision order that picks the reply to each text message;
- the three ways a session is reset (`/start`, `/clear` and the natural ending);
- the `/blague` (joke) command, which goes straight to the completion adapter;
- the length bucket that chooses the "typing" delay.

## Modules

- `sensitivity.dfy` (`Sensitivity`): the fixed keyword table, with weights in
  the source's order.
  - `Score` is the specification: it sums the weights of the keywords that
    occur in the ASCII-lower-cased message.
  - `DetectScore` is the source's loop, proved equal to `Score`.
  - Proved: every score lies between 0 and 21, and a score is 0 exactly when
    no keyword occurs.
  - `Contains` is the substring test. It is proved equivalent to "occurs at
    some position".
- `completion.dfy` (`Completion`): the history is a sequence of exchanges (a
  user message and a reply).
  - `Record` appends an exchange and keeps the last 8.
  - `Recent` is the last 5 exchanges, the ones forwarded to the service.
  - `BuildRequest` builds the role-tagged request one entry at a time. It is
    proved to have the shape persona, then user/assistant pairs, then the
    current message.
  - `Complete` turns the key checks and the service's outcome into a reply: the
    model's text or one of six fixed apologies. It also gives the new history.
  - The history changes only on success.
- `sessions.dfy` (`Sessions`): one user's context (first-interaction flag,
  history, flagged-message counter, start time).
  - `Turn` is the reply-routing state machine as a function: greeting, natural
    ending, sensitivity routing, ending hint, promotion, completion.
  - `Run` folds a sequence of events (messages, `/start`, `/clear`, `/blague`)
    over the user's stored context.
  - `SessionTable` is a class holding `map<UserId, Context>`. Its methods follow
    the source's imperative code and are proved against `Turn` and `Complete`.
  - The history cap of 8 makes the ending rule (15, 20 or 25 exchanges) and the
    hint rule (12 exchanges) unreachable. This is proved for a single context,
    for every run of events, and for the table.
- `pacing.dfy` (`Pacing`): the bucket that chooses the typing-delay range from
  the reply's length.

Replies are symbolic: `Greeting`, `StartLine`, `ClearLine`, `Pooled(pool, index)`
and `Service(answer)`. `Sessions.Text` and `Completion.ServiceText` give the
exact characters sent, and every pool holds the source's exact lines.

These inputs are parameters of each operation:

- The clock (`now`, in whole seconds).
- The API key (`key: Option<string>`).
- The outcome of the single HTTP call (`Outcome`): an exception, or a status
  with the decoded, trimmed text when decoding succeeded.
- The random choices (`Draws`): whether the 15% hint draw and the 8%
  promotion draw came out below their thresholds, and the number used to pick
  a line from a pool.

## Model

| member | source | states |
|---|---|---|
| Sensitivity.DetectScore | main.py:69-89 | The loop over the keyword table returns `Score(message)`, at most 21, and 0 exactly when no keyword occurs in the lower-cased message |
| Sensitivity.Score | main.py:69-89 | Every message scores at most 21, the sum of all weights; the score is 0 if and only if no keyword occurs in the lower-cased message |
| Sensitivity.TotalWeightOfKeywords | main.py:71-84 | The weights of the twelve keywords add up to 21 |
| Sensitivity.MatchScore | main.py:85-89 | Each entry whose word occurs adds its weight once, so the accumulated score never exceeds the table's total weight |
| Sensitivity.MatchScoreZeroIff | main.py:85-89 | With positive weights, the accumulated score is 0 exactly when no word of the table occurs |
| Sensitivity.MatchScoreAtLeast | main.py:85-89 | Two different keywords that both occur contribute both their weights |
| Sensitivity.MatchScoreAtLeastOne | main.py:85-89 | Each keyword that occurs contributes its whole weight |
| Sensitivity.NueAndSeinsScoreAtLeastFour | main.py:74-75 | A message holding both "nue" and "seins" scores at least 4, which is the top tier |
| Sensitivity.ContainsIff | main.py:87 | The substring test holds exactly when the keyword occurs at some position of the message |
| Sensitivity.Contains | main.py:87 | A keyword is found only in a text at least as long as itself, and always when the text starts with it |
| Sensitivity.Lower | main.py:87 | Lower-casing keeps the length and maps each character through `LowerChar` |
| Sensitivity.LowerChar | main.py:87 | ASCII capitals become the matching small letter; every other character is unchanged |
| Pacing.DelayRangeMillis | main.py:94-99 | Every bucket's delay range lies within 1 to 3 seconds and is non-empty |
| Pacing.TypingBucket | main.py:93-99 | Under 30 characters is short, 100 or more is long, and the lengths in between are medium |
| Pacing.TypingDelayMonotone | main.py:91-99 | A longer reply never gets a lower or shorter delay range than a shorter one |
| Completion.Record | main.py:213-224 | Appending keeps at most 8 exchanges, puts the new exchange last, and keeps the last entries of old history + new exchange |
| Completion.RecordKeepsOrder | main.py:217-224 | The old entries that survive the cut keep their relative order, in front of the new exchange |
| Completion.Recent | main.py:179 | The forwarded window is the last min(n, 5) exchanges of the history |
| Completion.PairsAt | main.py:179-181 | Exchange i contributes the user entry at 2i and the assistant entry at 2i+1 |
| Completion.RequestShape | main.py:174-184 | Persona, then the pairs of the recent exchanges, then the current message form a well-formed request |
| Completion.BuildRequest | main.py:170-184 | The request has 2·min(n,5)+2 entries: persona first, then user/assistant pairs for the recent exchanges oldest first, the current message last |
| Completion.Complete | main.py:160-229 | Seven failure conditions, with six apologies and the history unchanged: no key (`!HasKey`: absent or empty, line 164), a key without the "gsk_" prefix, 401, 429 and any other non-200 status each have their own apology, while an exception and an undecodable body share one. The call `Succeeded` only when it answers 200 with decodable text (lines 203-211); then that text is returned and the exchange recorded |
| Completion.CompleteChangesHistoryOnlyOnSuccess | main.py:203-229 | On success the reply is the service's text and the new history is `Record(old, exchange)`, of length min(n+1, 8); on every failure the reply is an apology and the history is unchanged |
| Completion.CompleteKeepsCap | main.py:222-224 | A history within the cap stays within the cap after any completion attempt |
| Completion.ApologyText | main.py:164-229 | Every apology is non-empty, and no two failure conditions share an apology text |
| Completion.KeyUsable | main.py:164-168 | A usable key satisfies `HasKey` (present and non-empty, line 164), and its first four characters are "gsk_" (line 167) |
| Completion.ServiceText | main.py:165-229 | The string the adapter returns: the service's text verbatim on success, otherwise the failure's apology, which is never empty |
| Sessions.Lines | main.py:133-298 | Each pool holds as many lines as the source's list (8 endings, 7 hints, 3 of each other kind), with the lists of lines 136-143, 150-156, 234-236, 276-278, 283-285, 289-291 and 295-297 |
| Sessions.Pick | main.py:145 | A random pick from a pool names a line of that pool |
| Sessions.PickRendersPoolLine | main.py:145 | A random pick is shown as the line of its pool at the pick's index, so it is always one of that pool's lines |
| Sessions.Text | main.py:257-371 | The characters sent: the greeting (line 257), the start line (line 322) and the clear line (line 371) are non-empty; a pooled reply is the line of its pool at its index; a service reply is the adapter's string |
| Sessions.TierPool | main.py:281-298 | A flagged message below the redirect threshold gets a tier pool, never another: tier one for score 1, tier three from score 3, tier two in between |
| Sessions.Fresh | main.py:245-250 | A new context has the given first-interaction flag, an empty history, a zero counter and the current time; on it neither the ending rule nor the hint nor the promotion can fire |
| Sessions.ElapsedMinutes | main.py:115-116 | The whole minutes elapsed, rounded down; they reach 20 exactly when 1200 seconds have passed, as the source's float comparison does |
| Sessions.ShouldEnd | main.py:112-126 | The three-clause ending rule fires exactly when there are at least 20 exchanges, or at least 15 after 20 minutes |
| Sessions.ShouldEndMonotone | main.py:112-126 | More exchanges or more elapsed time never switch the ending rule off |
| Sessions.ShouldHint | main.py:128-131 | Whenever the hint condition holds, the history is also past the promotion threshold; no history within the cap meets it |
| Sessions.ShouldRedirect | main.py:101-104 | The redirect condition on the counter read after its increment. Its consequences are stated by TurnRoutesSensitive and RedirectsPersist |
| Sessions.CapRulesOutEndingAndHint | main.py:119-131 | A history of at most 8 exchanges triggers neither the ending rule nor the hint rule |
| Sessions.Turn | main.py:240-309 | Apart from the ending reset, a turn keeps the start time, leaves the first interaction behind, raises the counter by at most one, and changes the history only through the completion call |
| Sessions.Lookup | main.py:244-252 | A stored user gets their own context; a new user gets a first-interaction context with an empty history, a zero counter and the current time |
| Sessions.TurnGreetsFirst | main.py:243-257 | On first interaction the reply is the greeting and only the flag is cleared, whatever the message |
| Sessions.TurnClosesWhenEnding | main.py:259-268 | When the ending rule fires, the reply is a closing line and the context is replaced by a fresh first-interaction one |
| Sessions.TurnRoutesSensitive | main.py:270-298 | A positive score adds exactly one to the counter and never reaches the completion call; from 3 flagged messages the reply is a redirect, else it comes from the tier of the score |
| Sessions.TurnCompletesOtherwise | main.py:300-309 | The completion call happens if and only if no earlier branch applies; only the history then changes |
| Sessions.TurnHintsOrPromotes | main.py:300-306 | An ending hint is given exactly when no earlier branch applies and the hint condition and its draw hold; a promotion exactly when, in addition, no hint was given and there are more than 5 exchanges with the promotion draw; neither changes the context |
| Sessions.TurnZeroScoreKeepsCounter | main.py:270-273 | A message with score 0 leaves the counter alone unless the session ends |
| Sessions.TurnPreserves | main.py:240-309 | Every turn keeps the history cap; apart from an ending, it keeps the start time, never raises the first-interaction flag and never lowers the counter |
| Sessions.Apply | main.py:240-367 | `/start` and `/clear` replace the context by an empty one started at the reset, differing only in the first-interaction flag; a joke changes only the history and answers with the completion adapter's reply |
| Sessions.Run | main.py:240-309 | Step i of a run is event i applied to the context left by step i-1 |
| Sessions.RunKeepsCap | main.py:222-224 | No run from a context within the cap ever holds more than 8 exchanges, whatever messages, resets and joke commands it contains |
| Sessions.RunNeverClosesOrHints | main.py:112-131 | On every run from a context within the cap, no reply is a closing line or an ending hint |
| Sessions.RedirectsPersist | main.py:101-110 | Once 3 messages were flagged, every later flagged message gets a redirect until a reset, whatever joke commands come in between |
| Sessions.FirstReplyIsGreeting | main.py:244-257 | The first message of a new user is answered by the greeting |
| Sessions.ClearSkipsGreetingStartDoesNot | main.py:311-367 | After `/clear` (lines 362-367) the next message is not greeted; after `/start` (lines 313-318) it is |
| Sessions.EndingRestoresGreeting | main.py:260-268 | After a natural ending the next message is greeted again |
| Sessions.ResetRestartsClock | main.py:311-367 | Both `/start` and `/clear` empty the history, zero the counter and measure time from the reset |
| Sessions.TableKeepsCap | main.py:240-367 | Answering a message at the time it arrives, `/start`, `/clear`, and a joke from a stored user keep every stored history within the cap |
| Sessions.JokeKeepsCap | main.py:337-345 | The joke command keeps every stored history within the cap |
| Sessions.TableNeverClosesOrHints | main.py:259-302 | On a table within the cap, no message is answered by a closing line or an ending hint |
| Sessions.SessionTable.constructor | main.py:20 | The table starts empty |
| Sessions.SessionTable.IncrementCounter | main.py:106-110 | The user's counter goes up by exactly one and nothing else changes |
| Sessions.SessionTable.CompleteFor | main.py:160-229 | The reply and new history are those of `Complete`; a request is sent if and only if the key is usable, and it is well-formed |
| Sessions.SessionTable.Respond | main.py:240-309 | The new table replaces only the user's entry, with the context `Turn` gives, and the reply is the one `Turn` gives; a request is sent exactly on the completion path with a usable key; a table within the cap stays within it |
| Sessions.SessionTable.Route | main.py:270-309 | Past the greeting and the ending checks, the table and the reply are those `Turn` gives for sensitivity routing, hint, promotion or completion; a request is sent exactly on the completion path with a usable key, and it is well-formed |
| Sessions.SessionTable.Joke | main.py:337-345 | A known user's history is updated as for any completion; for an unknown user the table is unchanged; a table within the cap stays within it |
| Sessions.SessionTable.Start | main.py:311-322 | The user's entry becomes a fresh first-interaction context and the reply is the start line; a table within the cap stays within it |
| Sessions.SessionTable.Clear | main.py:360-367 | The user's entry becomes a fresh context that is past its first interaction, and the reply is the clear line; a table within the cap stays within it |

## Left out

- Telegram I/O (handlers, `reply_text`, the application set-up in `main()`)
  is not modelled, and neither is `asyncio.sleep`, including the random 1-2
  second "thinking" pause before each message is handled. Each handler is
  modelled as an operation on the session table.
- The HTTP request is not modelled: headers, JSON body, model name, sampling
  parameters and the 15-second timeout. Its result enters as the `Outcome`
  parameter. A timeout or connection error is `Raised`.
- JSON decoding is not modelled. A body whose text field cannot be reached is
  `Answered(200, None)`, which the source's catch-all turns into the same
  apology as an exception.
- The persona prompt is abstracted as the `SystemPersona` entry. Its text is
  not modelled.
- `random.random()` and `random.choice` are inputs (`Draws`). The 15% and 8%
  probabilities are not modelled, only the outcome of each draw.
- Pacing.TypingBucket: the uniform draw inside each delay range is left out
  (it is random and floating point); only the bucket and the range bounds are
  modelled.
- `time.time()` is an integer count of seconds. The elapsed minutes are rounded
  down, which gives the same result as the source's float comparison against 20
  for whole-second readings. Sub-second clocks are not modelled.
- Sensitivity.Lower: only ASCII letters are lower-cased. Python's `str.lower`
  also folds accented and other non-ASCII capitals; none of the keywords needs
  that, but a message such as "NUÉ" with non-ASCII capitals is not lower-cased
  as Python would do it.
- `.strip()` of the reply text is taken as already applied to the `Outcome`
  content.
- The `user_name` field of the context is never read or written after
  creation, so it is not modelled.
- `help_command` and `stats_command` only display text (the stats are two
  counts over the table), so they are not modelled.
- The start-up checks in `main()` are not modelled. When the bot is started
  through `main()`, they refuse to run without a well-formed key, so the "no
  key" and "malformed key" apologies can only appear in code paths that bypass
  `main()`. The model keeps both branches.
- Sessions.Run: a run starts from a stored context. A joke from a user with no
  stored context is answered from a throw-away context and stores nothing;
  SessionTable.Joke captures that case, Run does not.
- Each dictionary entry is replaced as a whole value. Aliasing between the
  `context` local and the stored dictionary is not modelled, because no code
  path keeps a stale alias after its entry is replaced.
