# Inbound-message dispatcher of insta-chatbot, in Dafny

This project models the core of the insta-chatbot agent: `MessageHandler.onMessage`, the
decision chain run for every inbound realtime direct message, and `findSpriteUrl`, the
function that picks a media URL out of a shared clip or post. The chain, in order:

1. identity check: no truthy `user_id`, or the account's own id, ends it silently;
2. operation check: anything but an `Add` operation ends it silently;
3. per-user permit: one permit of the sender is consumed; a rejection may send a cooldown notice;
4. media extraction: a falsy URL is answered with a fixed "not found" text;
5. follow gate: a sender who does not follow the account gets the welcome text;
6. classification: a falsy prediction is answered with a fixed failure text;
7. reply: the prediction is sent verbatim.

`Dispatcher.OnMessage` is a pure function of the handler (own account id, limiter
configuration, `notifyLimit`), the message and the answers of the three collaborators: the
limiter's outcome (`Granted` or `Rejected(consumedPoints, msBeforeNext)`), the follow flag and
the classifier's `Option<string>`. It returns the trace of calls made (`ConsumePermit`,
`CheckFollow`, `Classify`, `Send`) and the exit taken. `Sprite.FindSpriteUrl` returns
`Result<Option<string>, ExtractError>`, so the paths on which the JavaScript throws are
visible; in the dispatcher a throw ends the chain after the permit was spent, with nothing sent
(`Threw`).

Modules: `Wrappers` (Option, Result), `Decimal` (JavaScript's rendering of an integer and a
reader for it), `Constants` (src/constants.ts), `Messages` (the message record and
truthiness), `Sprite` (`findSpriteUrl`), `RateLimit` (limiter configuration, outcome, the
rounded wait and the cooldown notice) and `Dispatcher` (`onMessage`).

Modelling choices:

- User ids are integers. `user_id` is `Option<int>`; JavaScript's `!userId` is "absent or 0".
  The account id is `parseInt(cookieUserId)`, modelled as `Option<int>` with `None` for `NaN`,
  which equals no id, so no message is then recognised as the account's own.
- URLs and predictions are `Option<string>`; falsy means absent or empty.
- `Math.round(ms / 1000)` is `(ms + 500) / 1000` on integers. Dafny's division by a positive
  divisor rounds down, so this equals rounding half up for every integer `ms`, negative included.
- src/enums.ts is not part of this model. `Op` is `Add` or any other operation, and `ItemType`
  is `Clip`, `MediaShare` or any other type. Only the comparisons with `Add`, `Clip` and
  `MediaShare` matter.
- A media share whose candidate list is empty throws, because there is no `?.` after `[0]`
  (src/messageHandler.ts:108); a clip with an empty list yields no URL (src/messageHandler.ts:105).
  The code also throws when `message.clip`, `message.clip.clip` or `message.media_share` is absent.
  `Sprite.EmptyCandidatesDifferByBranch` states the difference between the two branches.

## Model

| member | source | states |
|---|---|---|
| Dispatcher.OnMessage | src/messageHandler.ts:35-95 | the trace is empty exactly when the identity or operation check fails; otherwise it starts with the sender's permit, calls come in chain order with at most one of each kind (so at most one message, sent last), all addressed to the sender; a classification is only ever asked for a follower, about the extracted truthy URL |
| Dispatcher.IdentityCheck | src/messageHandler.ts:36-46 | a missing or zero sender id, or the account's own id, produces no call at all, and these are exactly the two silent identity exits |
| Dispatcher.OperationCheck | src/messageHandler.ts:47-52 | for a valid non-self sender, the chain stops with no call exactly when the operation is not `Add` |
| Dispatcher.PermitComesFirst | src/messageHandler.ts:58-72 | every admitted message consumes exactly one permit of its sender as its first call and no other permit, including messages that then have no media or fail the follow gate; a message whose extraction throws has a trace of that permit alone |
| Dispatcher.RateLimitRejection | src/messageHandler.ts:58-70 | a rejected permit never leads to extraction, follow lookup or classification; one notice with the rounded wait is sent iff consumed points < 3 and notifications are on, otherwise nothing |
| Dispatcher.RateLimitedExit | src/messageHandler.ts:58-70 | the chain stops at the limiter iff the message is admitted and its permit rejected |
| Dispatcher.CooldownNoticeWithinWindow | src/messageHandler.ts:24-28 | for a handler built with a window of N minutes, a notice announces a wait between 0 and N*60 seconds whenever the limiter's rejection lies within its window |
| Dispatcher.ExtractionThrows | src/messageHandler.ts:72 | when extraction throws, only the permit was spent and nothing is sent |
| Dispatcher.NoMediaNotice | src/messageHandler.ts:72-77 | a falsy URL is answered with the not-found text, with no follow lookup or classification |
| Dispatcher.FollowGate | src/messageHandler.ts:72-84 | the follow lookup happens iff the message is admitted, its permit granted and a truthy URL extracted |
| Dispatcher.NonFollowerWelcomed | src/messageHandler.ts:79-84 | a sender who does not follow gets exactly the welcome text and no classification is asked |
| Dispatcher.ClassifiesOnlyFollowers | src/messageHandler.ts:79-86 | a classification call implies an admitted, granted message from a follower, about its extracted truthy URL |
| Dispatcher.Reply | src/messageHandler.ts:86-94 | for a follower, a truthy prediction is sent verbatim, and a falsy one is replaced by the prediction-failure text |
| Dispatcher.SendsExactlyOnce | src/messageHandler.ts:72-94 | once the permit is granted and extraction does not throw, exactly one message goes to the sender, as the last call |
| Dispatcher.NonFollowerClipScenario | src/messageHandler.ts:79-84 | a non-follower's reel with a thumbnail gets the welcome text and is never classified |
| Dispatcher.FollowerMediaShareScenario | src/messageHandler.ts:86-94 | a follower's shared post with one candidate is classified on that URL and the prediction is sent back once, unchanged |
| Sprite.FindSpriteUrl | src/messageHandler.ts:97-115 | a returned URL is the first candidate's of the clip's reel or of the shared media, and a present first candidate's URL is always returned; other item types give no URL and never throw; extraction throws iff the clip wrapper or reel is missing, or the media share is missing or lists no candidates |
| Sprite.ClipExtraction | src/messageHandler.ts:100-105 | for clips: missing wrapper or reel throws; missing `image_versions2`, missing candidates or an empty list give no URL; otherwise the first candidate's URL |
| Sprite.MediaShareExtraction | src/messageHandler.ts:106-108 | for media shares: missing share throws; missing `image_versions2` or candidates give no URL; an empty list throws; otherwise the first candidate's URL |
| Sprite.EmptyCandidatesDifferByBranch | src/messageHandler.ts:100-108 | the same media with an empty candidate list gives no URL as a clip but throws as a media share |
| Sprite.ExtractsFirstPlacedCandidate | src/messageHandler.ts:97-115 | a non-empty candidate list placed in a clip or media share is read back as its first URL |
| RateLimit.RoundSeconds | src/messageHandler.ts:61 | the wait in seconds is the nearest integer to `ms / 1000`, halves rounded up |
| RateLimit.RoundSecondsUnique | src/messageHandler.ts:61 | exactly one integer satisfies that nearest-integer condition |
| RateLimit.CooldownNoticeStatesSeconds | src/messageHandler.ts:64-67 | the notice is the fixed prefix, a numeral that reads back as the wait, and the fixed suffix |
| RateLimit.CooldownNoticeInjective | src/messageHandler.ts:64-67 | different waits give different notices |
| RateLimit.NoticeWithinWindow | src/messageHandler.ts:24-28 | a rejection within the configured window rounds to between 0 and the window length in seconds |
| Decimal.NatToDecimal | src/constants.ts:13 | rendering a whole number gives a non-empty string of digits with no leading zero except for 0 |
| Decimal.IntToDecimalRoundTrip | src/messageHandler.ts:66 | reading back the rendering of any integer gives that integer |
| Decimal.IntToDecimalInjective | src/messageHandler.ts:66 | different integers are rendered differently |
| Constants.FixedRepliesDistinct | src/constants.ts:9-15 | the welcome, not-found and prediction-failure texts are non-empty and pairwise different |

## Left out

- Rate limiter internals: `RateLimiterMemory` belongs to an external library. The model keeps only its configuration (1 point per `requestDelayMinutes * 60` seconds) and takes the outcome of one `consume` as an input. The guarantee of at most one classification per user per window is the library's, and is not proved here.
- `consumedPoints` is whatever the library reports. The model does not fix how it counts across rejections.
- `requestDelayMinutes` is a whole number of minutes (`nat`). A fractional JavaScript number is not modelled.
- The classifier (src/classifier.ts) is an oracle returning `Option<string>`. It downloads the image and calls an external inference API. Its only local logic is taking the first choice's text, and returning null on any error.
- src/chatbot.ts, app.ts, src/sessionManager.ts, src/utils.ts and src/pendingManager.ts are left out. They cover connection, reconnect timers, login, session files, logging, image download and the pending-thread poller, and they are all I/O or timers. `notifyLimit || true` in src/chatbot.ts:39 makes notifications always on in the deployed agent; the model keeps `notifyLimit` as a free parameter.
- The `DEBUG` message dump (src/messageHandler.ts:54) and all logging are side effects with no bearing on the outcome.
- `sendUserMessage` is a `Send` effect; its `broadcastText` call is not awaited, and its failures are not modelled.
- A `friendship.show` call that fails is not modelled; the follow lookup always answers.
- `thread_id`, `item_id` and the other message fields are only used in logs, so they are not part of the message record.
- A `user_id` that arrives as a string instead of a number is not modelled. It would never equal the parsed account id.
