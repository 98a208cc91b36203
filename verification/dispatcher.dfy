/** `MessageHandler.onMessage`: the per-message decision chain. Each inbound
    message passes, in order, the identity check, the operation check, the
    per-user permit, media extraction, the follow gate and classification,
    and the first check that fails ends the chain. The answers of the
    collaborators (limiter, follow lookup, classifier) are inputs; the
    result is the trace of calls made to them plus the exit taken. */
module Dispatcher {
  import opened Wrappers
  import opened Messages
  import opened Sprite
  import opened RateLimit
  import opened Constants

  /** What the handler holds: the account's own id (`parseInt` of the session
      cookie; `None` when that is `NaN`), its limiter and whether rejected
      users are told to wait. */
  datatype Handler = Handler(accountUserId: Option<int>, limiter: LimiterConfig, notifyLimit: bool)

  /** The handler's constructor: the limiter grants one request per
      `requestDelayMinutes`. */
  function NewHandler(accountUserId: Option<int>, requestDelayMinutes: nat, notifyLimit: bool): Handler {
    Handler(accountUserId, LimiterFor(requestDelayMinutes), notifyLimit)
  }

  /** The collaborators' answers for this message, consulted only when the
      chain reaches them. */
  datatype Oracles = Oracles(limiter: ConsumeOutcome, followedBy: bool, prediction: Option<string>)

  /** An observable call made while handling one message. */
  datatype Effect =
    | ConsumePermit(user: int)       // `limiter.consume(userId)`
    | CheckFollow(user: int)         // `friendship.show(userId)`
    | Classify(url: string)          // `classifyImage(spriteUrl)`
    | Send(user: int, text: string)  // `sendUserMessage(userId, text)`

  /** Where the chain stopped. `Threw` is the extraction throwing, which
      rejects the handler's promise with nothing sent. */
  datatype Exit =
    | NoUserId | OwnMessage | NotAdd | RateLimited | Threw(error: ExtractError)
    | NoMedia | NotFollowing | PredictionFailed | Replied

  datatype Outcome = Outcome(trace: seq<Effect>, exit: Exit)

  predicate IsOwnId(h: Handler, u: int) {
    h.accountUserId == Some(u)
  }

  /** The message passes the identity and operation checks. */
  predicate Admitted(h: Handler, m: InboundMessage) {
    TruthyId(m.userId) && !IsOwnId(h, m.userId.value) && m.op == Add
  }

  /** The position of each kind of call in the chain. */
  function Stage(e: Effect): nat {
    match e
    case ConsumePermit(_) => 0
    case CheckFollow(_) => 1
    case Classify(_) => 2
    case Send(_, _) => 3
  }

  /** Calls happen in chain order, each kind at most once; in particular at
      most one message is sent, and it is the last call. */
  predicate InStageOrder(t: seq<Effect>) {
    forall i, j :: 0 <= i < j < |t| ==> Stage(t[i]) < Stage(t[j])
  }

  /** Every permit, follow lookup and message concerns user `u`. */
  predicate AddressedTo(t: seq<Effect>, u: int) {
    forall i :: 0 <= i < |t| && !t[i].Classify? ==> t[i].user == u
  }

  predicate HasStage(t: seq<Effect>, stage: nat) {
    exists i :: 0 <= i < |t| && Stage(t[i]) == stage
  }

  /** Exactly one message is sent, to `u`, as the last call. */
  predicate SendsOnce(t: seq<Effect>, u: int) {
    && |t| >= 1
    && t[|t| - 1].Send? && t[|t| - 1].user == u
    && forall i :: 0 <= i < |t| - 1 ==> !t[i].Send?
  }

  /** The extracted URL, when extraction neither threw nor came back falsy. */
  predicate ExtractedUrl(m: InboundMessage, url: string) {
    FindSpriteUrl(m) == Success(Some(url)) && url != ""
  }

  function OnMessage(h: Handler, m: InboundMessage, o: Oracles): (r: Outcome)
    ensures r.trace == [] <==> !Admitted(h, m)
    ensures Admitted(h, m) ==>
              && r.trace[0] == ConsumePermit(m.userId.value)
              && InStageOrder(r.trace)
              && AddressedTo(r.trace, m.userId.value)
    ensures forall i :: 0 <= i < |r.trace| && r.trace[i].Classify? ==>
              o.followedBy && ExtractedUrl(m, r.trace[i].url)
  {
    // 1. identity check
    if !TruthyId(m.userId) then Outcome([], NoUserId)
    else if IsOwnId(h, m.userId.value) then Outcome([], OwnMessage)
    // 2. operation check
    else if m.op != Add then Outcome([], NotAdd)
    else
      var u := m.userId.value;
      var permit := ConsumePermit(u);
      // 3. per-user permit
      match o.limiter
      case Rejected(consumed, ms) =>
        if NotifiesRejection(consumed, h.notifyLimit)
        then Outcome([permit, Send(u, CooldownNotice(RoundSeconds(ms)))], RateLimited)
        else Outcome([permit], RateLimited)
      case Granted =>
        // 4. media extraction
        match FindSpriteUrl(m)
        case Failure(e) => Outcome([permit], Threw(e))
        case Success(url) =>
          if !TruthyText(url) then Outcome([permit, Send(u, SpriteNotFoundMessage)], NoMedia)
          // 5. follow gate
          else if !o.followedBy then Outcome([permit, CheckFollow(u), Send(u, WelcomeMessage)], NotFollowing)
          else
            // 6. classification
            var asked := [permit, CheckFollow(u), Classify(url.value)];
            if !TruthyText(o.prediction) then Outcome(asked + [Send(u, PredictionFailMessage)], PredictionFailed)
            // 7. reply
            else Outcome(asked + [Send(u, o.prediction.value)], Replied)
  }

  /** A message without a truthy sender id, or from the account itself, has
      no effect at all. */
  lemma IdentityCheck(h: Handler, m: InboundMessage, o: Oracles)
    ensures !TruthyId(m.userId) ==> OnMessage(h, m, o) == Outcome([], NoUserId)
    ensures TruthyId(m.userId) && IsOwnId(h, m.userId.value) ==> OnMessage(h, m, o) == Outcome([], OwnMessage)
    ensures OnMessage(h, m, o).exit in {NoUserId, OwnMessage} <==>
              !TruthyId(m.userId) || IsOwnId(h, m.userId.value)
  {
  }

  /** An operation other than `Add` has no effect, even from a valid sender. */
  lemma OperationCheck(h: Handler, m: InboundMessage, o: Oracles)
    requires TruthyId(m.userId) && !IsOwnId(h, m.userId.value)
    ensures m.op != Add <==> OnMessage(h, m, o) == Outcome([], NotAdd)
  {
  }

  /** Every admitted message spends exactly one permit of its sender, before
      anything else; a message whose extraction throws has spent that
      permit and done nothing more. */
  lemma PermitComesFirst(h: Handler, m: InboundMessage, o: Oracles)
    requires Admitted(h, m)
    ensures var t := OnMessage(h, m, o).trace;
      && t[0] == ConsumePermit(m.userId.value)
      && forall i :: 1 <= i < |t| ==> !t[i].ConsumePermit?
    ensures OnMessage(h, m, o).exit.Threw? ==> OnMessage(h, m, o).trace == [ConsumePermit(m.userId.value)]
  {
  }

  /** A rejected permit ends the chain before extraction, the follow lookup
      and classification; a single notice stating the rounded wait is sent
      exactly when the consumed points are below the threshold and
      notifications are on. */
  lemma RateLimitRejection(h: Handler, m: InboundMessage, o: Oracles)
    requires Admitted(h, m) && o.limiter.Rejected?
    ensures var r := OnMessage(h, m, o);
      var u := m.userId.value;
      && r.exit == RateLimited
      && !HasStage(r.trace, 1) && !HasStage(r.trace, 2)
      && (HasStage(r.trace, 3) <==> NotifiesRejection(o.limiter.consumedPoints, h.notifyLimit))
      && (NotifiesRejection(o.limiter.consumedPoints, h.notifyLimit) ==>
            r.trace == [ConsumePermit(u), Send(u, CooldownNotice(RoundSeconds(o.limiter.msBeforeNext)))])
      && (!NotifiesRejection(o.limiter.consumedPoints, h.notifyLimit) ==> r.trace == [ConsumePermit(u)])
  {
    var r := OnMessage(h, m, o);
    if NotifiesRejection(o.limiter.consumedPoints, h.notifyLimit) {
      assert Stage(r.trace[1]) == 3;
    }
  }

  /** The chain stops at the limiter exactly when an admitted message's
      permit is rejected. */
  lemma RateLimitedExit(h: Handler, m: InboundMessage, o: Oracles)
    ensures OnMessage(h, m, o).exit == RateLimited <==> Admitted(h, m) && o.limiter.Rejected?
  {
  }

  /** For a handler built with a window of `requestDelayMinutes`, a notice
      never announces a negative wait or one longer than the window, as long
      as the limiter's rejection lies within its window. */
  lemma CooldownNoticeWithinWindow(accountUserId: Option<int>, requestDelayMinutes: nat, notifyLimit: bool,
                                   m: InboundMessage, o: Oracles)
    requires Admitted(NewHandler(accountUserId, requestDelayMinutes, notifyLimit), m)
    requires o.limiter.Rejected? && RejectionWithin(LimiterFor(requestDelayMinutes), o.limiter)
    requires NotifiesRejection(o.limiter.consumedPoints, notifyLimit)
    ensures exists s ::
              && 0 <= s <= requestDelayMinutes * 60
              && OnMessage(NewHandler(accountUserId, requestDelayMinutes, notifyLimit), m, o).trace
                 == [ConsumePermit(m.userId.value), Send(m.userId.value, CooldownNotice(s))]
  {
    var h := NewHandler(accountUserId, requestDelayMinutes, notifyLimit);
    NoticeWithinWindow(h.limiter, o.limiter);
    RateLimitRejection(h, m, o);
    var s := RoundSeconds(o.limiter.msBeforeNext);
    assert 0 <= s <= requestDelayMinutes * 60;
  }

  /** A thrown extraction sends nothing: only the permit was spent. */
  lemma ExtractionThrows(h: Handler, m: InboundMessage, o: Oracles)
    requires Admitted(h, m) && o.limiter.Granted? && FindSpriteUrl(m).Failure?
    ensures OnMessage(h, m, o) == Outcome([ConsumePermit(m.userId.value)], Threw(FindSpriteUrl(m).error))
  {
  }

  /** A falsy URL is answered with the not-found text, before any follow
      lookup. */
  lemma NoMediaNotice(h: Handler, m: InboundMessage, o: Oracles)
    requires Admitted(h, m) && o.limiter.Granted?
    requires FindSpriteUrl(m).Success? && !TruthyText(FindSpriteUrl(m).value)
    ensures OnMessage(h, m, o) ==
              Outcome([ConsumePermit(m.userId.value), Send(m.userId.value, SpriteNotFoundMessage)], NoMedia)
  {
  }

  /** The follow lookup happens exactly when a granted message yields a
      truthy URL. */
  lemma FollowGate(h: Handler, m: InboundMessage, o: Oracles)
    ensures HasStage(OnMessage(h, m, o).trace, 1) <==>
              Admitted(h, m) && o.limiter.Granted? && exists url :: ExtractedUrl(m, url)
  {
    var r := OnMessage(h, m, o);
    if HasStage(r.trace, 1) {
      var i :| 0 <= i < |r.trace| && Stage(r.trace[i]) == 1;
      assert ExtractedUrl(m, FindSpriteUrl(m).value.value);
    }
    if Admitted(h, m) && o.limiter.Granted? && exists url :: ExtractedUrl(m, url) {
      assert Stage(r.trace[1]) == 1;
    }
  }

  /** A sender who does not follow the account gets the welcome text, and
      nothing is classified. */
  lemma NonFollowerWelcomed(h: Handler, m: InboundMessage, o: Oracles, url: string)
    requires Admitted(h, m) && o.limiter.Granted? && ExtractedUrl(m, url) && !o.followedBy
    ensures var u := m.userId.value;
      OnMessage(h, m, o) == Outcome([ConsumePermit(u), CheckFollow(u), Send(u, WelcomeMessage)], NotFollowing)
    ensures !HasStage(OnMessage(h, m, o).trace, 2)
  {
  }

  /** Classification is asked only about the extracted URL, and only for
      followers whose permit was granted. */
  lemma ClassifiesOnlyFollowers(h: Handler, m: InboundMessage, o: Oracles, url: string)
    requires Classify(url) in OnMessage(h, m, o).trace
    ensures Admitted(h, m) && o.limiter.Granted? && o.followedBy && ExtractedUrl(m, url)
  {
  }

  /** A follower's prediction is forwarded verbatim; a falsy prediction is
      replaced by the failure text. */
  lemma Reply(h: Handler, m: InboundMessage, o: Oracles, url: string)
    requires Admitted(h, m) && o.limiter.Granted? && ExtractedUrl(m, url) && o.followedBy
    ensures var u := m.userId.value;
      OnMessage(h, m, o) ==
        if TruthyText(o.prediction)
        then Outcome([ConsumePermit(u), CheckFollow(u), Classify(url), Send(u, o.prediction.value)], Replied)
        else Outcome([ConsumePermit(u), CheckFollow(u), Classify(url), Send(u, PredictionFailMessage)], PredictionFailed)
  {
  }

  /** Once the permit is granted and the extraction does not throw, the
      sender gets exactly one message, as the last call. */
  lemma SendsExactlyOnce(h: Handler, m: InboundMessage, o: Oracles)
    requires Admitted(h, m) && o.limiter.Granted? && FindSpriteUrl(m).Success?
    ensures SendsOnce(OnMessage(h, m, o).trace, m.userId.value)
  {
  }

  /** A sender who does not follow the account sends a reel with a
      thumbnail: the welcome text goes back and nothing is classified. */
  lemma NonFollowerClipScenario()
    ensures var h := NewHandler(Some(1), DefaultRequestDelay, true);
      var reel := Media(Some(ImageVersions(Some([Candidate(Some("https://img/a.png"))]))));
      var m := InboundMessage(Some(42), Add, Clip, Some(ClipShare(Some(reel))), None);
      OnMessage(h, m, Oracles(Granted, false, None)) ==
        Outcome([ConsumePermit(42), CheckFollow(42), Send(42, WelcomeMessage)], NotFollowing)
  {
  }

  /** A follower shares a post with one candidate; the classifier's text is
      sent back once, unchanged. */
  lemma FollowerMediaShareScenario()
    ensures var h := NewHandler(Some(1), DefaultRequestDelay, true);
      var post := Media(Some(ImageVersions(Some([Candidate(Some("https://img/x.png"))]))));
      var m := InboundMessage(Some(7), Add, MediaShare, None, Some(post));
      OnMessage(h, m, Oracles(Granted, true, Some("Movie Name: Foo"))) ==
        Outcome([ConsumePermit(7), CheckFollow(7), Classify("https://img/x.png"), Send(7, "Movie Name: Foo")], Replied)
  {
  }
}
