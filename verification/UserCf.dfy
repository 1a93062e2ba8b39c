/** The user-based retriever and the profile service it gathers from. */
module UserCf {
  import opened Aggregation
  import opened ItemCf
  import opened Options

  const INT_MAX := 0x7FFF_FFFF
  const INT64_MAX := 0x7FFF_FFFF_FFFF_FFFF

  datatype UserNeighbor = UserNeighbor(userId: nat, score: real)
  datatype UserProfile = UserProfile(userId: int, behaviors: Behaviors)

  /** The channels copied for collaborative filtering. */
  datatype UserCfProfile = UserCfProfile(
    userId: int, recentLiked: seq<WeightedItem>, liked: seq<WeightedItem>, interested: seq<WeightedItem>)

  function FillUserCfProfile(p: UserProfile): UserCfProfile {
    UserCfProfile(p.userId, p.behaviors.recentLiked, p.behaviors.liked, p.behaviors.interested)
  }

  // ----- the profile service ---------------------------------------------------------------

  datatype StoreAnswer = Found(profile: UserProfile) | NotFound | Threw
  datatype ProfileStatus = PROFILE_SUCCESS | PROFILE_INVALID_REQUEST | PROFILE_USER_NOT_FOUND | PROFILE_SYSTEM_ERROR
  datatype ProfileResult = ProfileResult(status: ProfileStatus, userId: int, profile: Option<UserCfProfile>)
  datatype BatchResponse = BatchResponse(ok: bool, status: ProfileStatus, results: seq<ProfileResult>)

  predicate IsServable(userId: int) {
    0 < userId <= INT_MAX
  }

  function ResultFor(store: int -> StoreAnswer, userId: int): ProfileResult {
    if !IsServable(userId) then ProfileResult(PROFILE_INVALID_REQUEST, userId, None)
    else match store(userId)
      case Found(p) => ProfileResult(PROFILE_SUCCESS, userId, Some(FillUserCfProfile(p)))
      case NotFound => ProfileResult(PROFILE_USER_NOT_FOUND, userId, None)
      case Threw => ProfileResult(PROFILE_SYSTEM_ERROR, userId, None)
  }

  ghost predicate Throws(store: int -> StoreAnswer, userIds: seq<int>) {
    exists i :: 0 <= i < |userIds| && IsServable(userIds[i]) && store(userIds[i]).Threw?
  }

  method BatchGetUserCfProfiles(store: int -> StoreAnswer, userIds: seq<int>) returns (response: BatchResponse)
    ensures response.ok <==> !Throws(store, userIds)
    ensures response.ok ==> response.status == PROFILE_SUCCESS && |response.results| == |userIds|
                            && forall i :: 0 <= i < |userIds| ==> response.results[i] == ResultFor(store, userIds[i])
  {
    var results: seq<ProfileResult> := [];
    for i := 0 to |userIds|
      invariant |results| == i && forall j :: 0 <= j < i ==> results[j] == ResultFor(store, userIds[j])
      invariant forall j :: 0 <= j < i ==> !(IsServable(userIds[j]) && store(userIds[j]).Threw?)
    {
      var userId := userIds[i];
      if userId <= 0 || userId > INT_MAX {
        results := results + [ProfileResult(PROFILE_INVALID_REQUEST, userId, None)];
        continue;
      }
      match store(userId) {
        case Threw =>
          return BatchResponse(false, PROFILE_SYSTEM_ERROR, results);
        case NotFound =>
          results := results + [ProfileResult(PROFILE_USER_NOT_FOUND, userId, None)];
        case Found(p) =>
          results := results + [ProfileResult(PROFILE_SUCCESS, userId, Some(FillUserCfProfile(p)))];
      }
    }
    response := BatchResponse(true, PROFILE_SUCCESS, results);
  }

  // ----- seeds -------------------------------------------------------------------------------

  predicate HasSeed(s: seq<TriggerSeed>, id: nat) {
    exists i :: 0 <= i < |s| && s[i].entityId == id
  }

  /** Valid similar users, first occurrence only. */
  function SeedsFrom(user: nat, neighbors: seq<UserNeighbor>): seq<TriggerSeed> {
    if neighbors == [] then []
    else
      var last := neighbors[|neighbors| - 1];
      var r := SeedsFrom(user, neighbors[..|neighbors| - 1]);
      if last.userId == 0 || last.userId == user || last.score <= 0.0 || HasSeed(r, last.userId) then r
      else r + [TriggerSeed(last.userId, last.score)]
  }

  method CollectTriggerSeeds(user: nat, neighbors: seq<UserNeighbor>) returns (seeds: seq<TriggerSeed>)
    ensures seeds == SeedsFrom(user, neighbors)
  {
    seeds := [];
    var seen: set<nat> := {};
    for i := 0 to |neighbors|
      invariant seeds == SeedsFrom(user, neighbors[..i])
      invariant forall id :: id in seen <==> HasSeed(seeds, id)
    {
      assert neighbors[..i + 1][..i] == neighbors[..i];
      var n := neighbors[i];
      if n.userId == 0 || n.userId == user || n.score <= 0.0 {
        continue;
      }
      if n.userId in seen {
        continue;
      }
      HasSeedAppend(seeds, TriggerSeed(n.userId, n.score));
      seen := seen + {n.userId};
      seeds := seeds + [TriggerSeed(n.userId, n.score)];
    }
    assert neighbors[..|neighbors|] == neighbors;
  }

  lemma {:induction false} HasSeedAppend(s: seq<TriggerSeed>, x: TriggerSeed)
    ensures forall id :: HasSeed(s + [x], id) <==> HasSeed(s, id) || id == x.entityId
  {
    forall id ensures HasSeed(s + [x], id) <==> HasSeed(s, id) || id == x.entityId {
      if HasSeed(s, id) {
        var i :| 0 <= i < |s| && s[i].entityId == id;
        assert (s + [x])[i].entityId == id;
      }
      assert (s + [x])[|s|] == x;
    }
  }

  // ----- gather and scatter --------------------------------------------------------------------

  /** What slot i should hold: the profile of seed i's own user, if it can be served. */
  function SlotFor(store: int -> StoreAnswer, userId: nat): Option<UserCfProfile> {
    if IsServable(userId) && store(userId).Found? then Some(FillUserCfProfile(store(userId).profile)) else None
  }

  ghost predicate AskedFor(seeds: seq<TriggerSeed>, store: int -> StoreAnswer) {
    exists i :: 0 <= i < |seeds| && IsServable(seeds[i].entityId) && store(seeds[i].entityId).Threw?
  }

  predicate Requestable(userId: nat) {
    0 < userId <= INT64_MAX
  }

  method ValidUserIndexes(seeds: seq<TriggerSeed>) returns (userIds: seq<int>, validIndexes: seq<nat>)
    ensures |userIds| == |validIndexes|
    ensures forall k :: 0 <= k < |validIndexes| ==>
              validIndexes[k] < |seeds| && userIds[k] == seeds[validIndexes[k]].entityId
    ensures forall j, k :: 0 <= j < k < |validIndexes| ==> validIndexes[j] < validIndexes[k]
    ensures forall i :: 0 <= i < |seeds| ==> (Requestable(seeds[i].entityId) <==> i in validIndexes)
  {
    userIds, validIndexes := [], [];
    for i := 0 to |seeds|
      invariant |userIds| == |validIndexes|
      invariant forall k :: 0 <= k < |validIndexes| ==>
                  validIndexes[k] < i && userIds[k] == seeds[validIndexes[k]].entityId
      invariant forall j, k :: 0 <= j < k < |validIndexes| ==> validIndexes[j] < validIndexes[k]
      invariant forall m :: 0 <= m < i ==> (Requestable(seeds[m].entityId) <==> m in validIndexes)
    {
      var userId := seeds[i].entityId;
      if userId == 0 || userId > INT64_MAX {
        continue;
      }
      userIds := userIds + [userId];
      validIndexes := validIndexes + [i];
    }
  }

  /** LoadTriggerUserProfiles: `reachable` is the transport status of the one batch call. On
      success every slot holds its own seed's profile, or nothing if the store has none. */
  method LoadTriggerUserProfiles(seeds: seq<TriggerSeed>, store: int -> StoreAnswer, reachable: bool)
    returns (profiles: Option<seq<Option<UserCfProfile>>>)
    ensures profiles.Some? ==> |profiles.value| == |seeds|
                               && forall i :: 0 <= i < |seeds| ==>
                                 profiles.value[i] == SlotFor(store, seeds[i].entityId)
    ensures profiles.Some? <==>
              ((exists i :: 0 <= i < |seeds| && Requestable(seeds[i].entityId)) ==>
                reachable && !AskedFor(seeds, store))
  {
    var slots: seq<Option<UserCfProfile>> := seq(|seeds|, _ => None);
    var userIds, validIndexes := ValidUserIndexes(seeds);
    if validIndexes == [] {
      return Some(slots);
    }
    assert validIndexes[0] in validIndexes && Requestable(seeds[validIndexes[0]].entityId);
    if !reachable {
      return None;
    }
    var response := BatchGetUserCfProfiles(store, userIds);
    ThrowsTogether(seeds, store, userIds, validIndexes);
    if !response.ok || response.status != PROFILE_SUCCESS || |response.results| != |validIndexes| {
      return None;
    }
    for k := 0 to |response.results|
      invariant |slots| == |seeds|
      invariant forall j :: 0 <= j < k ==> slots[validIndexes[j]] == SlotFor(store, seeds[validIndexes[j]].entityId)
      invariant forall j :: k <= j < |validIndexes| ==> slots[validIndexes[j]] == None
      invariant forall i :: 0 <= i < |seeds| && i !in validIndexes ==> slots[i] == None
    {
      var result := response.results[k];
      if result.status != PROFILE_SUCCESS {
        continue;
      }
      slots := slots[validIndexes[k] := result.profile];
    }
    forall i | 0 <= i < |seeds| ensures slots[i] == SlotFor(store, seeds[i].entityId) {
      if i in validIndexes {
        var k :| 0 <= k < |validIndexes| && validIndexes[k] == i;
      }
    }
    return Some(slots);
  }

  lemma {:induction false} ThrowsTogether(seeds: seq<TriggerSeed>, store: int -> StoreAnswer, userIds: seq<int>,
          validIndexes: seq<nat>)
    requires |userIds| == |validIndexes|
    requires forall k :: 0 <= k < |validIndexes| ==>
               validIndexes[k] < |seeds| && userIds[k] == seeds[validIndexes[k]].entityId
    requires forall i :: 0 <= i < |seeds| ==> (Requestable(seeds[i].entityId) <==> i in validIndexes)
    ensures Throws(store, userIds) <==> AskedFor(seeds, store)
  {
    if Throws(store, userIds) {
      var k :| 0 <= k < |userIds| && IsServable(userIds[k]) && store(userIds[k]).Threw?;
      assert IsServable(seeds[validIndexes[k]].entityId);
    }
    if AskedFor(seeds, store) {
      var i :| 0 <= i < |seeds| && IsServable(seeds[i].entityId) && store(seeds[i].entityId).Threw?;
      var k :| 0 <= k < |validIndexes| && validIndexes[k] == i;
      assert IsServable(userIds[k]);
    }
  }

  // ----- aggregation ---------------------------------------------------------------------------

  function ProfileItems(p: UserCfProfile): seq<ScoredItem> {
    Channels(Behaviors(p.recentLiked, p.liked, p.interested, [], []), 1.0, 0.7, 0.3)
  }

  method CollectNeighborCandidateItems(p: UserCfProfile) returns (items: seq<ScoredItem>)
    ensures items == ProfileItems(p)
  {
    items := CollectChannels(Behaviors(p.recentLiked, p.liked, p.interested, [], []), 1.0, 0.7, 0.3);
  }

  /** One row per seed; a missing profile contributes nothing. */
  function SlotRow(slot: Option<UserCfProfile>): seq<ScoredItem> {
    if slot.None? then [] else ProfileItems(slot.value)
  }

  function SlotRows(slots: seq<Option<UserCfProfile>>): (r: seq<seq<ScoredItem>>)
    ensures |r| == |slots|
  {
    seq(|slots|, i requires 0 <= i < |slots| => SlotRow(slots[i]))
  }

  method AggregateCandidates(seeds: seq<TriggerSeed>, slots: seq<Option<UserCfProfile>>, filter: set<nat>)
    returns (pool: map<nat, CandidateScore>, missingProfiles: nat)
    requires |slots| == |seeds|
    ensures pool == Accumulate(EdgesOf(seeds, SlotRows(slots), filter))
    ensures missingProfiles == |set i | 0 <= i < |slots| && slots[i].None?|
  {
    hide Accumulate, EdgesOf, ProfileItems;
    pool, missingProfiles := map[], 0;
    ghost var rows := SlotRows(slots);
    ghost var missing: set<int> := {};
    NoEdges(filter);
    assert seeds[..0] == [] && rows[..0] == [];
    for i := 0 to |slots|
      invariant pool == Accumulate(EdgesOf(seeds[..i], rows[..i], filter))
      invariant missing == (set j | 0 <= j < i && slots[j].None?) && missingProfiles == |missing|
    {
      EdgesAppend(seeds[..i], rows[..i], filter, seeds[i], rows[i]);
      assert seeds[..i] + [seeds[i]] == seeds[..i + 1] && rows[..i] + [rows[i]] == rows[..i + 1];
      if slots[i].None? {
        missingProfiles := missingProfiles + 1;
        missing := missing + {i};
        EmptyRow(EdgesOf(seeds[..i], rows[..i], filter), seeds[i], filter);
        continue;
      }
      var items := CollectNeighborCandidateItems(slots[i].value);
      pool := AggregateRow(seeds[i], items, filter, pool, EdgesOf(seeds[..i], rows[..i], filter));
    }
    assert seeds[..|slots|] == seeds && rows[..|slots|] == rows;
  }

  lemma {:induction false} EmptyRow(edges: seq<Edge>, seed: TriggerSeed, filter: set<nat>)
    ensures edges + RowEdges(seed, [], filter) == edges
  {
  }

  // ----- the retriever --------------------------------------------------------------------------

  const USER_CF := "user_cf"
  const REASON_TYPE_USER_CF := 1
  const ENTITY_TYPE_USER := 6

  /** How the user-based retriever reports. */
  function UserStyle(multiplier: real, describe: nat -> string): Style {
    Style("user_cf", 1, 6, multiplier, describe)
  }

  /** The rows every seed contributes: its own user's behaviour, from the store. */
  function StoreRows(store: int -> StoreAnswer, seeds: seq<TriggerSeed>): (r: seq<seq<ScoredItem>>)
    ensures |r| == |seeds|
  {
    seq(|seeds|, i requires 0 <= i < |seeds| => SlotRow(SlotFor(store, seeds[i].entityId)))
  }

  /** A seed's row is its own user's three liking channels, whatever else the profile holds; a user
      the store cannot serve has an empty one. */
  lemma {:induction false} StoreRowMeaning(store: int -> StoreAnswer, seeds: seq<TriggerSeed>, i: nat)
    requires i < |seeds|
    ensures var answer := store(seeds[i].entityId);
            StoreRows(store, seeds)[i] ==
            if 0 < seeds[i].entityId <= 0x7FFF_FFFF && answer.Found?
            then Channels(answer.profile.behaviors, 1.0, 0.7, 0.3) else []
  {
    hide AppendChannel;
  }

  method Retrieve(user: nat, b: Behaviors, neighbors: Option<seq<UserNeighbor>>, store: int -> StoreAnswer,
          reachable: bool, max: int, multiplier: real, describe: nat -> string)
    returns (outcome: Outcome, filter: set<nat>)
    ensures IsFilter(b, filter)
    ensures neighbors.None? ==> outcome == SystemError
    ensures neighbors.Some? ==>
              var seeds := SeedsFrom(user, neighbors.value);
              if seeds == [] then outcome == EmptyTriggerSeeds
              else if (exists i :: 0 <= i < |seeds| && Requestable(seeds[i].entityId)) &&
                (!reachable || AskedFor(seeds, store))
              then outcome == SystemError
              else
                outcome == Success(ToResponse(
                  TopOfPool(ItemPool(seeds, StoreRows(store, seeds), filter), max),
                  USER_CF, REASON_TYPE_USER_CF, ENTITY_TYPE_USER, multiplier, describe)) &&
                AnswersEdges(EdgesOf(seeds, StoreRows(store, seeds), filter), max, UserStyle(multiplier, describe),
                             outcome.candidates)
  {
    hide Accumulate, EdgesOf, SeedsFrom, ProfileItems, AnswersEdges;
    var excluded := CollectItemIdsToFilterOut(b);
    filter := excluded;
    if neighbors.None? {
      return SystemError, filter;
    }
    var seeds := CollectTriggerSeeds(user, neighbors.value);
    if seeds == [] {
      return EmptyTriggerSeeds, filter;
    }
    var slots := LoadTriggerUserProfiles(seeds, store, reachable);
    if slots.None? {
      return SystemError, filter;
    }
    var pool, _ := AggregateCandidates(seeds, slots.value, excluded);
    assert SlotRows(slots.value) == StoreRows(store, seeds);
    AccumulateKeyed(EdgesOf(seeds, StoreRows(store, seeds), excluded));
    var response := FillResponseCandidates(pool, max, USER_CF, REASON_TYPE_USER_CF, ENTITY_TYPE_USER, multiplier,
      describe);
    ResponseAnswers(EdgesOf(seeds, StoreRows(store, seeds), excluded), max, UserStyle(multiplier, describe));
    outcome := Success(response);
  }
}
