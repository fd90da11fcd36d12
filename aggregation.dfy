/**
 * The two read-only aggregation views over the user collection: a channel
 * profile (subscriber counts and the viewer's subscription flag) and a user's
 * watch history with each video's owner projected.
 */
module Aggregation {
  import opened Wrappers
  import opened ApiErrors
  import opened Text
  import opened Accounts

  /** A document of the subscriptions collection. */
  datatype Subscription = Subscription(subscriber: UserId, channel: UserId)

  /** A `$lookup` into the subscriptions collection: the documents satisfying `p`, in collection order. */
  function Filter(subs: seq<Subscription>, p: Subscription -> bool): (r: seq<Subscription>)
    ensures |r| <= |subs|
    ensures forall s :: s in r <==> s in subs && p(s)
  {
    if subs == [] then []
    else
      var n := |subs| - 1;
      var earlier := Filter(subs[..n], p);
      assert subs == subs[..n] + [subs[n]];
      if p(subs[n]) then earlier + [subs[n]] else earlier
  }

  /** The positions below `n` whose subscription satisfies `p`. */
  ghost function Hits(subs: seq<Subscription>, p: Subscription -> bool, n: nat): set<int>
    requires n <= |subs|
  {
    set i | 0 <= i < n && p(subs[i])
  }

  lemma HitsStep(subs: seq<Subscription>, p: Subscription -> bool, n: nat)
    requires n < |subs|
    ensures |Hits(subs, p, n + 1)| == |Hits(subs, p, n)| + (if p(subs[n]) then 1 else 0)
  {
    var last: set<int> := if p(subs[n]) then {n} else {};
    assert Hits(subs, p, n + 1) == Hits(subs, p, n) + last;
    assert Hits(subs, p, n) !! last;
  }

  lemma {:induction false} FilterPrefixCounts(subs: seq<Subscription>, p: Subscription -> bool, n: nat)
    requires n <= |subs|
    ensures |Filter(subs[..n], p)| == |Hits(subs, p, n)|
  {
    if n > 0 {
      FilterPrefixCounts(subs, p, n - 1);
      HitsStep(subs, p, n - 1);
      assert subs[..n][..n - 1] == subs[..n - 1];
    }
  }

  /** The size of a lookup is the number of positions of the collection its filter selects. */
  lemma FilterCountsIndices(subs: seq<Subscription>, p: Subscription -> bool)
    ensures |Filter(subs, p)| == |set i | 0 <= i < |subs| && p(subs[i])|
  {
    FilterPrefixCounts(subs, p, |subs|);
    assert subs[..|subs|] == subs;
  }

  /** `$lookup` with `foreignField: "channel"`: the subscriptions to `channel`. */
  function SubscribersOf(subs: seq<Subscription>, channel: UserId): seq<Subscription> {
    Filter(subs, (s: Subscription) => s.channel == channel)
  }

  /** `$lookup` with `foreignField: "subscriber"`: the subscriptions `subscriber` holds. */
  function SubscribedTo(subs: seq<Subscription>, subscriber: UserId): seq<Subscription> {
    Filter(subs, (s: Subscription) => s.subscriber == subscriber)
  }

  /** The path `"$subscribers.subscriber"`: the subscriber field of every looked-up document. */
  function SubscriberField(lookup: seq<Subscription>): seq<UserId> {
    seq(|lookup|, k requires 0 <= k < |lookup| => lookup[k].subscriber)
  }

  /** The document the channel pipeline projects for one matched user. */
  datatype ChannelProfile = ChannelProfile(
    id: UserId,
    fullName: string,
    username: string,
    subcribersCount: nat,
    channelsSubscribedToCount: nat,
    isSubscribed: bool,
    avatar: string,
    coverImage: string,
    email: string)

  /** `$addFields` and `$project` for the matched user `id`, as seen by `viewer`. */
  function Profile(users: map<UserId, User>, subs: seq<Subscription>, id: UserId, viewer: UserId): ChannelProfile
    requires id in users
  {
    var u := users[id];
    var subscribers := SubscribersOf(subs, id);
    ChannelProfile(
      id, u.fullName, u.username,
      |subscribers|, |SubscribedTo(subs, id)|,
      viewer in SubscriberField(subscribers),
      u.avatar, u.coverImage, u.email)
  }

  /**
   * The counts are the numbers of subscription documents naming the user as
   * channel and as subscriber, and the flag says whether the viewer subscribes
   * to the user.
   */
  lemma ProfileCounts(users: map<UserId, User>, subs: seq<Subscription>, id: UserId, viewer: UserId)
    requires id in users
    ensures Profile(users, subs, id, viewer).subcribersCount == |set i | 0 <= i < |subs| && subs[i].channel == id|
    ensures Profile(users, subs, id, viewer).channelsSubscribedToCount == |set i | 0 <= i < |subs| && subs[i].subscriber == id|
    ensures Profile(users, subs, id, viewer).isSubscribed <==> Subscription(viewer, id) in subs
  {
    var isChannel := (s: Subscription) => s.channel == id;
    var isSubscriber := (s: Subscription) => s.subscriber == id;
    FilterCountsIndices(subs, isChannel);
    FilterCountsIndices(subs, isSubscriber);
    assert (set i | 0 <= i < |subs| && isChannel(subs[i])) == set i | 0 <= i < |subs| && subs[i].channel == id;
    assert (set i | 0 <= i < |subs| && isSubscriber(subs[i])) == set i | 0 <= i < |subs| && subs[i].subscriber == id;
    var subscribers := SubscribersOf(subs, id);
    var ids := SubscriberField(subscribers);
    if viewer in ids {
      var k :| 0 <= k < |ids| && ids[k] == viewer;
      assert subscribers[k] in subscribers;
      assert subscribers[k] == Subscription(viewer, id);
    }
    if Subscription(viewer, id) in subs {
      assert Subscription(viewer, id) in subscribers;
      var k :| 0 <= k < |subscribers| && subscribers[k] == Subscription(viewer, id);
      assert ids[k] == viewer;
    }
  }

  /** Some user below `bound` has exactly this (already lower-cased) username. */
  ghost predicate HasChannel(users: map<UserId, User>, bound: nat, name: string) {
    exists id :: id in users && id < bound && users[id].username == name
  }

  /** The whole channel pipeline: `$match` on the username, then one profile per matched user. */
  function ChannelAggregate(users: map<UserId, User>, bound: nat, subs: seq<Subscription>, name: string, viewer: UserId)
    : (r: seq<ChannelProfile>)
    requires Bounded(users, bound)
    ensures forall k :: 0 <= k < |r| ==>
      r[k].id in users && users[r[k].id].username == name && r[k] == Profile(users, subs, r[k].id, viewer)
    ensures r == [] <==> !HasChannel(users, bound, name)
  {
    var matched := Matching(users, bound, (u: User) => u.username == name);
    var r := seq(|matched|, k requires 0 <= k < |matched| => Profile(users, subs, matched[k], viewer));
    assert matched != [] ==> matched[0] in users && matched[0] < bound && users[matched[0]].username == name;
    assert HasChannel(users, bound, name) ==> matched != [];
    r
  }

  /**
   * `getUserChannelProfile` as written: a missing username is a 400; a 404 is
   * thrown when the aggregate is NOT empty; otherwise the response carries
   * `channel[0]` of an empty array, which is `undefined`.
   */
  function GetUserChannelProfile(users: map<UserId, User>, bound: nat, subs: seq<Subscription>, username: Option<string>, viewer: UserId)
    : (r: Result<Option<ChannelProfile>>)
    requires Bounded(users, bound)
    ensures !Truthy(username) ==> r == Err(BadRequest)
    ensures Truthy(username) ==> (r == Err(NotFound) <==> HasChannel(users, bound, Lower(username.value)))
    ensures r.Ok? ==> r.value == None
  {
    if !Truthy(username) then Err(BadRequest)
    else
      var channel := ChannelAggregate(users, bound, subs, Lower(username.value), viewer);
      if |channel| > 0 then Err(NotFound)
      else Ok(None)
  }

  /**
   * `getUserChannelProfile` with the evidently intended test: 404 exactly when
   * no user has the lower-cased username, otherwise that user's profile.
   */
  function GetUserChannelProfileCorrected(users: map<UserId, User>, bound: nat, subs: seq<Subscription>, username: Option<string>, viewer: UserId)
    : (r: Result<ChannelProfile>)
    requires Bounded(users, bound)
    ensures !Truthy(username) ==> r == Err(BadRequest)
    ensures Truthy(username) ==> (r == Err(NotFound) <==> !HasChannel(users, bound, Lower(username.value)))
    ensures r.Ok? ==> Truthy(username) && r.value.id in users && users[r.value.id].username == Lower(username.value)
    ensures r.Ok? ==> r.value == Profile(users, subs, r.value.id, viewer)
  {
    if !Truthy(username) then Err(BadRequest)
    else
      var channel := ChannelAggregate(users, bound, subs, Lower(username.value), viewer);
      if |channel| == 0 then Err(NotFound)
      else Ok(channel[0])
  }

  /**
   * Where a user has the requested name, the code as written answers 404 and
   * the corrected handler answers with that user's profile; where none has,
   * the code as written answers 200 with no data.
   */
  lemma ChannelProfileInverted(users: map<UserId, User>, bound: nat, subs: seq<Subscription>, name: string, viewer: UserId, id: UserId)
    requires UniqueKeys(users) && Bounded(users, bound)
    requires name != "" && id in users && users[id].username == Lower(name)
    ensures GetUserChannelProfile(users, bound, subs, Some(name), viewer) == Err(NotFound)
    ensures GetUserChannelProfileCorrected(users, bound, subs, Some(name), viewer) == Ok(Profile(users, subs, id, viewer))
  {
    assert HasChannel(users, bound, Lower(name));
  }

  lemma MissingChannelAnsweredEmpty(users: map<UserId, User>, bound: nat, subs: seq<Subscription>, name: string, viewer: UserId)
    requires Bounded(users, bound)
    requires name != "" && forall id :: id in users ==> users[id].username != Lower(name)
    ensures GetUserChannelProfile(users, bound, subs, Some(name), viewer) == Ok(None)
    ensures GetUserChannelProfileCorrected(users, bound, subs, Some(name), viewer) == Err(NotFound)
  {
  }

  /** A document of the videos collection, reduced to the fields the pipeline joins on. */
  datatype Video = Video(id: VideoId, owner: UserId)

  /** The owner projection `{ fullName, username, avatar }` (with `_id`). */
  datatype OwnerView = OwnerView(id: UserId, fullName: string, username: string, avatar: string)

  /** A watched video with `owner` replaced by `$first` of the owner lookup; absent when no user matched. */
  datatype VideoView = VideoView(id: VideoId, owner: Option<OwnerView>)

  /** The inner `$project` of one user document. */
  function Project(id: UserId, u: User): OwnerView {
    OwnerView(id, u.fullName, u.username, u.avatar)
  }

  /**
   * The inner `$lookup` from users with `foreignField: "_id"`: a scan of the
   * ids below `bound` that keeps the documents whose `_id` equals `owner`.
   */
  function OwnerLookup(users: map<UserId, User>, bound: nat, owner: UserId): seq<OwnerView> {
    if bound == 0 then []
    else
      var earlier := OwnerLookup(users, bound - 1, owner);
      if bound - 1 in users && bound - 1 == owner then earlier + [Project(owner, users[owner])] else earlier
  }

  /** `$first` of an array: its first element, or nothing for an empty one. */
  function First<T>(s: seq<T>): Option<T> {
    if s == [] then None else Some(s[0])
  }

  /** The owner field of a watched video: the projected owner when one exists. */
  function OwnerOf(users: map<UserId, User>, owner: UserId): Option<OwnerView> {
    if owner in users then Some(Project(owner, users[owner])) else None
  }

  function ViewOf(users: map<UserId, User>, v: Video): VideoView {
    VideoView(v.id, OwnerOf(users, v.owner))
  }

  /**
   * The outer `$lookup` from videos with `localField: "watchHistory"`: every
   * video whose id occurs in the history, in the videos collection's order.
   */
  function HistoryLookup(users: map<UserId, User>, videos: seq<Video>, history: seq<VideoId>): (r: seq<VideoView>)
    ensures |r| <= |videos|
    ensures forall k :: 0 <= k < |r| ==> r[k].id in history && exists v :: v in videos && r[k] == ViewOf(users, v)
    ensures forall v :: v in videos && v.id in history ==> ViewOf(users, v) in r
  {
    if videos == [] then []
    else
      var n := |videos| - 1;
      var earlier := HistoryLookup(users, videos[..n], history);
      assert videos == videos[..n] + [videos[n]];
      if videos[n].id in history then earlier + [ViewOf(users, videos[n])] else earlier
  }

  /**
   * `getWatchHistory`: `user[0].watchHistory` of the aggregate for `viewer`;
   * when no user has that id, `user[0]` is `undefined` and the handler fails.
   */
  function GetWatchHistory(users: map<UserId, User>, videos: seq<Video>, viewer: UserId): (r: Result<seq<VideoView>>)
    ensures r.Err? <==> viewer !in users
    ensures r.Err? ==> r.status == ServerError
    ensures r.Ok? ==> forall k :: 0 <= k < |r.value| ==>
      r.value[k].id in users[viewer].watchHistory && exists v :: v in videos && r.value[k] == ViewOf(users, v)
    ensures r.Ok? ==> forall v :: v in videos && v.id in users[viewer].watchHistory ==> ViewOf(users, v) in r.value
  {
    if viewer !in users then Err(ServerError)
    else Ok(HistoryLookup(users, videos, users[viewer].watchHistory))
  }

  /**
   * Since `_id` is unique, the owner lookup holds at most one document: one
   * exactly when the owner exists, and then that owner's projection.
   */
  lemma {:induction false} LookupShape(users: map<UserId, User>, bound: nat, owner: UserId)
    ensures |OwnerLookup(users, bound, owner)| <= 1
    ensures |OwnerLookup(users, bound, owner)| == 1 <==> owner in users && owner < bound
    ensures |OwnerLookup(users, bound, owner)| == 1 ==> OwnerLookup(users, bound, owner)[0] == Project(owner, users[owner])
  {
    if bound > 0 {
      LookupShape(users, bound - 1, owner);
    }
  }

  /**
   * `$first` over the owner lookup gives the video's `owner`: one projected
   * user object (not an array) when the owner exists, and absent otherwise.
   */
  lemma OwnerProjection(users: map<UserId, User>, bound: nat, v: Video)
    requires Bounded(users, bound)
    ensures First(OwnerLookup(users, bound, v.owner)) == ViewOf(users, v).owner
  {
    LookupShape(users, bound, v.owner);
  }
}
