/**
 * The pig's interaction rules: what an interaction with the held item would do (its tag, a hint for
 * the client) and what it does (its result). The inherited rules of the animal superclass and the
 * saddling attempt are inputs.
 */
module PigEntity {

  datatype InteractiveTag = NoneTag | Mount | Saddle | OtherTag(name: string)

  datatype InteractionResult = Success | Consume | Pass {
    predicate ConsumesAction() { this != Pass }
  }

  /** The held item, by its identifier with the "minecraft:" namespace stripped. */
  datatype Item = Item(javaIdentifierStripped: string)

  /** The part of a pig the rules read: its SADDLED flag and its passengers' entity ids. */
  datatype Pig = Pig(saddled: bool, passengers: seq<int>)

  const Feed: set<string> := {"carrot", "potato", "beetroot"}

  /** `canEat`: the pig eats exactly its feed. */
  predicate CanEat(javaIdentifierStripped: string)
  {
    javaIdentifierStripped in Feed
  }

  /** The condition both decision procedures test first. */
  predicate MountGuard(pig: Pig, item: Item, sneaking: bool)
  {
    !CanEat(item.javaIdentifierStripped) && pig.saddled && |pig.passengers| == 0 && !sneaking
  }

  /**
   * `testMobInteraction`: mount first; otherwise the superclass's tag unless it is NONE; otherwise
   * SADDLE when the saddling attempt would consume the action.
   */
  function TestMobInteraction(pig: Pig, item: Item, sneaking: bool,
                              superTag: InteractiveTag, saddleAttempt: InteractionResult): (tag: InteractiveTag)
    ensures MountGuard(pig, item, sneaking) ==> tag == Mount
    ensures !MountGuard(pig, item, sneaking) && superTag != NoneTag ==> tag == superTag
    ensures !MountGuard(pig, item, sneaking) && superTag == NoneTag ==>
              (tag == Saddle <==> saddleAttempt.ConsumesAction()) &&
              (tag == NoneTag <==> !saddleAttempt.ConsumesAction())
  {
    if !CanEat(item.javaIdentifierStripped) && pig.saddled && |pig.passengers| == 0 && !sneaking then
      Mount
    else if superTag != NoneTag then
      superTag
    else if saddleAttempt.ConsumesAction() then
      Saddle
    else
      NoneTag
  }

  /**
   * `mobInteract`: mount first (SUCCESS); otherwise the superclass's result if it consumes the action;
   * otherwise the saddling attempt's result.
   */
  function MobInteract(pig: Pig, item: Item, sneaking: bool,
                       superResult: InteractionResult, saddleAttempt: InteractionResult): (result: InteractionResult)
    ensures MountGuard(pig, item, sneaking) ==> result == Success
    ensures !MountGuard(pig, item, sneaking) && superResult.ConsumesAction() ==> result == superResult
    ensures !MountGuard(pig, item, sneaking) && !superResult.ConsumesAction() ==> result == saddleAttempt
  {
    if !CanEat(item.javaIdentifierStripped) && pig.saddled && |pig.passengers| == 0 && !sneaking then
      Success
    else if superResult.ConsumesAction() then
      superResult
    else
      saddleAttempt
  }

  /** The tag path mounts whatever the superclass and the saddling attempt would say. */
  ghost predicate TagPathMounts(pig: Pig, item: Item, sneaking: bool)
  {
    forall superTag, saddleAttempt :: TestMobInteraction(pig, item, sneaking, superTag, saddleAttempt) == Mount
  }

  /** The result path succeeds whatever the superclass and the saddling attempt would say. */
  ghost predicate ResultPathMounts(pig: Pig, item: Item, sneaking: bool)
  {
    forall superResult, saddleAttempt :: MobInteract(pig, item, sneaking, superResult, saddleAttempt) == Success
  }

  /** The tag path takes its mount branch exactly under the guard: mount precedes the superclass. */
  lemma {:induction false} TagMountsIffGuard(pig: Pig, item: Item, sneaking: bool)
    ensures TagPathMounts(pig, item, sneaking) <==> MountGuard(pig, item, sneaking)
  {
    if !MountGuard(pig, item, sneaking) {
      assert TestMobInteraction(pig, item, sneaking, NoneTag, Pass) == NoneTag;
    }
  }

  /** The result path takes its mount branch exactly under the guard. */
  lemma {:induction false} ResultMountsIffGuard(pig: Pig, item: Item, sneaking: bool)
    ensures ResultPathMounts(pig, item, sneaking) <==> MountGuard(pig, item, sneaking)
  {
    if !MountGuard(pig, item, sneaking) {
      assert MobInteract(pig, item, sneaking, Pass, Pass) == Pass;
    }
  }

  /** The two paths agree on when the pig is mounted. */
  lemma {:induction false} MountBranchesAgree(pig: Pig, item: Item, sneaking: bool)
    ensures TagPathMounts(pig, item, sneaking) <==> ResultPathMounts(pig, item, sneaking)
  {
    TagMountsIffGuard(pig, item, sneaking);
    ResultMountsIffGuard(pig, item, sneaking);
  }

  /** Any one failed conjunct of the guard (feed in hand, no saddle, a passenger, sneaking) rules mounting out. */
  lemma {:induction false} NoMountWhenGuardFails(pig: Pig, item: Item, sneaking: bool)
    requires CanEat(item.javaIdentifierStripped) || !pig.saddled || |pig.passengers| > 0 || sneaking
    ensures !TagPathMounts(pig, item, sneaking) && !ResultPathMounts(pig, item, sneaking)
  {
    TagMountsIffGuard(pig, item, sneaking);
    ResultMountsIffGuard(pig, item, sneaking);
  }

  /** Holding any of the pig's feed rules out mounting on both paths, whatever the pig's state. */
  lemma {:induction false} FeedInHandNeverMounts(pig: Pig, javaIdentifierStripped: string, sneaking: bool)
    requires javaIdentifierStripped == "carrot" || javaIdentifierStripped == "potato" ||
             javaIdentifierStripped == "beetroot"
    ensures !TagPathMounts(pig, Item(javaIdentifierStripped), sneaking)
    ensures !ResultPathMounts(pig, Item(javaIdentifierStripped), sneaking)
  {
    NoMountWhenGuardFails(pig, Item(javaIdentifierStripped), sneaking);
  }

  /**
   * The tag never promises what the action refuses: when the superclass's tag is non-NONE exactly when
   * its result consumes the action, the pig's tag is non-NONE exactly when its result consumes it.
   */
  lemma TagPredictsResult(pig: Pig, item: Item, sneaking: bool, superTag: InteractiveTag,
                          superResult: InteractionResult, saddleAttempt: InteractionResult)
    requires (superTag != NoneTag) == superResult.ConsumesAction()
    ensures (TestMobInteraction(pig, item, sneaking, superTag, saddleAttempt) != NoneTag) ==
            MobInteract(pig, item, sneaking, superResult, saddleAttempt).ConsumesAction()
  {
  }
}
