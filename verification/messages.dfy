/** The inbound realtime message as the dispatcher reads it: a tagged record
    whose nested media fields may each be absent (`null` or `undefined`). */
module Messages {
  import opened Wrappers

  /** `message.op`; only `Add` (a newly inserted item) is processed. */
  datatype Op = Add | OtherOp(name: string)

  /** `message.item_type`; only clips and media shares carry a picture. */
  datatype ItemType = Clip | MediaShare | OtherItem(name: string)

  /** One entry of `image_versions2.candidates`. */
  datatype Candidate = Candidate(url: Option<string>)

  datatype ImageVersions = ImageVersions(candidates: Option<seq<Candidate>>)

  /** A shared post or reel: only its `image_versions2` is read. */
  datatype Media = Media(imageVersions2: Option<ImageVersions>)

  /** `message.clip`, a wrapper whose own `clip` field holds the reel. */
  datatype ClipShare = ClipShare(clip: Option<Media>)

  datatype InboundMessage = InboundMessage(
    userId: Option<int>,
    op: Op,
    itemType: ItemType,
    clip: Option<ClipShare>,
    mediaShare: Option<Media>)

  /** JavaScript truthiness of a numeric id: present and not zero. */
  predicate TruthyId(id: Option<int>) {
    id.Some? && id.value != 0
  }

  /** JavaScript truthiness of a string: present and not empty. */
  predicate TruthyText(s: Option<string>) {
    s.Some? && s.value != ""
  }
}
