/** `MediaGroup`: an ordered bundle of 2 to 10 groupable attachments, built by `From`. */
module MediaGroups {
  import opened Wrappers
  import opened Files
  import opened Media

  const MinItems: nat := 2
  const MaxItems: nat := 10

  /** The message of the `IllegalArgumentException` thrown for a bad size. */
  const SizeMessage: string := "media groups must include 2-10 items"

  /** The exception `MediaGroup`'s initialiser throws. */
  datatype GroupError = IllegalArgument(message: string)

  /** The fields of a `MediaGroup`; only `MediaGroup` values below are well formed. */
  datatype Group = Group(medias: seq<GroupableMedia>)

  /** A constructed group. The constructor is private in the source and its initialiser
      checks the size, so no group outside these bounds can exist. */
  type MediaGroup = g: Group | MinItems <= |g.medias| <= MaxItems
    witness Group([Photo(ByFileId(""), None, None), Photo(ByFileId(""), None, None)])

  /** `MediaGroup.from(vararg media)`: the group holding `items`, or the size error. */
  function From(items: seq<GroupableMedia>): (r: Result<MediaGroup, GroupError>)
    ensures r.Success? <==> 2 <= |items| <= 10
    ensures r.Success? ==> r.value.medias == items
    ensures r.Failure? ==> r.error == IllegalArgument(SizeMessage)
  {
    if MinItems <= |items| <= MaxItems then Success(Group(items))
    else Failure(IllegalArgument(SizeMessage))
  }

  /** Every group can be rebuilt from its own items: `From` reaches all of `MediaGroup`. */
  lemma FromRoundTrip(g: MediaGroup)
    ensures From(g.medias) == Success(g)
  {
  }

  /** No member of a group is an animation, so none carries the ANIMATION tag. */
  lemma NoAnimationInGroup(g: MediaGroup, i: int)
    requires 0 <= i < |g.medias|
    ensures !g.medias[i].Animation?
    ensures TypeOf(g.medias[i]) != ANIMATION
  {
  }

  /** A group may mix variants; one item is too few and eleven are too many. */
  lemma GroupSizeScenarios(p: GroupableMedia, v: GroupableMedia)
    requires p.Photo? && v.Video?
    ensures From([p, v]).Success? && From([p, v]).value.medias == [p, v]
    ensures From([p]) == Failure(IllegalArgument(SizeMessage))
    ensures From([p, p, p, p, p, p, p, p, p, p, p]) == Failure(IllegalArgument(SizeMessage))
  {
  }
}
