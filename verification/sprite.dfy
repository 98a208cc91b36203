/** `findSpriteUrl`: picks the first image candidate's URL out of a clip or a
    media share. The two branches are not written alike: the clip branch
    guards the first candidate with `?.`, the media-share branch does not,
    and neither guards the outer record. Every dereference of an absent
    value throws, which this model returns as a `Failure`. */
module Sprite {
  import opened Wrappers
  import opened Messages

  /** Why the extraction threw. */
  datatype ExtractError =
    | ClipMissing        // `const { clip } = message.clip` with no `message.clip`
    | ClipMediaMissing   // `clip.image_versions2` with no `message.clip.clip`
    | MediaShareMissing  // `media_share.image_versions2` with no `message.media_share`
    | NoFirstCandidate   // `candidates?.[0].url` on an empty candidate list

  /** The candidate list of `media`, when both optional layers are present. */
  function CandidatesOf(media: Media): Option<seq<Candidate>> {
    match media.imageVersions2
    case None => None
    case Some(iv) => iv.candidates
  }

  /** The media record a supported message type points at, if present. */
  function SharedMedia(m: InboundMessage): Option<Media> {
    match m.itemType
    case Clip => if m.clip.Some? then m.clip.value.clip else None
    case MediaShare => m.mediaShare
    case OtherItem(_) => None
  }

  /** The clip branch: `clip.image_versions2?.candidates?.[0]?.url`. */
  function ClipUrl(clip: Option<ClipShare>): Result<Option<string>, ExtractError> {
    match clip
    case None => Failure(ClipMissing)
    case Some(ClipShare(None)) => Failure(ClipMediaMissing)
    case Some(ClipShare(Some(media))) =>
      match CandidatesOf(media)
      case None => Success(None)
      case Some(cs) => if |cs| == 0 then Success(None) else Success(cs[0].url)
  }

  /** The media-share branch: `media_share.image_versions2?.candidates?.[0].url`. */
  function MediaShareUrl(share: Option<Media>): Result<Option<string>, ExtractError> {
    match share
    case None => Failure(MediaShareMissing)
    case Some(media) =>
      match CandidatesOf(media)
      case None => Success(None)
      case Some(cs) => if |cs| == 0 then Failure(NoFirstCandidate) else Success(cs[0].url)
  }

  /** A URL, when one is returned, is the first candidate's of the shared
      media, and a present first candidate's URL is returned; an unsupported item type never throws; and the extraction
      throws exactly when a record it dereferences is absent. */
  function FindSpriteUrl(m: InboundMessage): (r: Result<Option<string>, ExtractError>)
    ensures r.Success? && r.value.Some? ==>
              && SharedMedia(m).Some?
              && CandidatesOf(SharedMedia(m).value).Some?
              && var cs := CandidatesOf(SharedMedia(m).value).value;
                 |cs| >= 1 && cs[0].url == r.value
    ensures SharedMedia(m).Some? && CandidatesOf(SharedMedia(m).value).Some?
              && |CandidatesOf(SharedMedia(m).value).value| >= 1 ==>
              r == Success(CandidatesOf(SharedMedia(m).value).value[0].url)
    ensures m.itemType.OtherItem? ==> r == Success(None)
    ensures r.Failure? <==>
              || (m.itemType == Clip && (m.clip.None? || m.clip.value.clip.None?))
              || (m.itemType == MediaShare &&
                  (m.mediaShare.None? || CandidatesOf(m.mediaShare.value) == Some([])))
  {
    match m.itemType
    case Clip => ClipUrl(m.clip)
    case MediaShare => MediaShareUrl(m.mediaShare)
    case OtherItem(_) => Success(None)
  }

  /** Clip items: a missing wrapper or reel throws; otherwise the first
      candidate's URL, and no URL when any layer below the reel is missing
      or the candidate list is empty. */
  lemma ClipExtraction(m: InboundMessage)
    requires m.itemType == Clip
    ensures m.clip.None? ==> FindSpriteUrl(m) == Failure(ClipMissing)
    ensures m.clip.Some? && m.clip.value.clip.None? ==> FindSpriteUrl(m) == Failure(ClipMediaMissing)
    ensures m.clip.Some? && m.clip.value.clip.Some? ==>
              var media := m.clip.value.clip.value;
              && (media.imageVersions2.None? ==> FindSpriteUrl(m) == Success(None))
              && (CandidatesOf(media) == Some([]) ==> FindSpriteUrl(m) == Success(None))
              && (CandidatesOf(media).None? ==> FindSpriteUrl(m) == Success(None))
              && (CandidatesOf(media).Some? && |CandidatesOf(media).value| >= 1 ==>
                    FindSpriteUrl(m) == Success(CandidatesOf(media).value[0].url))
  {
  }

  /** Media-share items: a missing share throws, a missing layer yields no
      URL, an empty candidate list throws, otherwise the first URL. */
  lemma MediaShareExtraction(m: InboundMessage)
    requires m.itemType == MediaShare
    ensures m.mediaShare.None? ==> FindSpriteUrl(m) == Failure(MediaShareMissing)
    ensures m.mediaShare.Some? ==>
              var media := m.mediaShare.value;
              && (media.imageVersions2.None? ==> FindSpriteUrl(m) == Success(None))
              && (CandidatesOf(media).None? ==> FindSpriteUrl(m) == Success(None))
              && (CandidatesOf(media) == Some([]) ==> FindSpriteUrl(m) == Failure(NoFirstCandidate))
              && (CandidatesOf(media).Some? && |CandidatesOf(media).value| >= 1 ==>
                    FindSpriteUrl(m) == Success(CandidatesOf(media).value[0].url))
  {
  }

  /** The same reel with an empty candidate list gives no URL when it comes
      as a clip but throws when it comes as a media share. */
  lemma EmptyCandidatesDifferByBranch(m: InboundMessage, media: Media)
    requires CandidatesOf(media) == Some([])
    ensures FindSpriteUrl(m.(itemType := Clip, clip := Some(ClipShare(Some(media))))) == Success(None)
    ensures FindSpriteUrl(m.(itemType := MediaShare, mediaShare := Some(media))) == Failure(NoFirstCandidate)
  {
  }

  /** A message whose shared media lists `urls` as its candidates. */
  function WithCandidates(m: InboundMessage, kind: ItemType, urls: seq<Candidate>): InboundMessage {
    var media := Media(Some(ImageVersions(Some(urls))));
    m.(itemType := kind, clip := Some(ClipShare(Some(media))), mediaShare := Some(media))
  }

  /** Placing a candidate list in a clip or media share and extracting gives
      back the first candidate's URL. */
  lemma ExtractsFirstPlacedCandidate(m: InboundMessage, kind: ItemType, urls: seq<Candidate>)
    requires kind == Clip || kind == MediaShare
    requires |urls| >= 1
    ensures FindSpriteUrl(WithCandidates(m, kind, urls)) == Success(urls[0].url)
  {
  }
}
