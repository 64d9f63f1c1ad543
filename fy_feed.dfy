/** The Fy short-video feed (`fyRoutes.js`): a performance gate, a weighted
    score with a stable sort, the split of the ranked videos into buckets, the
    interleaving of promoted and organic videos, and the back-fill with videos
    the viewer already liked. The clock (`now`), the viewer's seen video ids and
    favourite categories are parameters. */
module FyFeed {
  import opened Base
  import opened Seqs
  import opened Text

  const TestAudienceSize: nat := 100
  const MinConversionThreshold: real := 0.01
  const MinLikesThreshold: real := 0.05
  const ConversionWeight: real := 0.6
  const LikeWeight: real := 0.3
  const RecencyWeight: real := 0.1
  const OneWeekMs: int := 7 * 24 * 60 * 60 * 1000
  const TargetFeedSize: nat := 50
  const PromotedInterval: nat := 6

  /** One row of the feed query. A `NULL` or zero counter is 0 (both are falsy
      for the `||` defaults); a missing category (left join) is `None`. */
  datatype Video = Video(
    id: int,
    views: nat,
    likes: nat,
    clicks: nat,
    createdAt: int,
    isPromoted: bool,
    promotionEnd: Option<int>,
    hasLiked: bool,
    category: Option<string>)

  /** A video with the fields `rankVideos` adds to it. */
  datatype RankedVideo = RankedVideo(video: Video, likeRate: real, conversionRate: real, finalScore: real)

  function VideoId(v: Video): int { v.id }
  function Id(r: RankedVideo): int { r.video.id }
  function FinalScore(r: RankedVideo): real { r.finalScore }

  // ---------------------------------------------------------------------------
  // Scoring
  // ---------------------------------------------------------------------------

  /** `views_count || 1`: the rates never divide by zero. */
  function RateDenominator(views: nat): (d: nat)
    ensures d >= 1 && (views > 0 ==> d == views)
  {
    if views == 0 then 1 else views
  }

  /** `calculateRecencyScore`: linear decay over one week, then 0. Age is `now - createdAt` in milliseconds. */
  function RecencyScore(createdAt: int, now: int): (r: real)
    ensures r >= 0.0
    ensures now - createdAt > OneWeekMs ==> r == 0.0
    ensures now - createdAt >= 0 ==> r <= 1.0
    ensures now - createdAt < 0 ==> r > 1.0
    ensures 0 <= now - createdAt <= OneWeekMs ==> r + (now - createdAt) as real / OneWeekMs as real == 1.0
  {
    var diff := now - createdAt;
    if diff > OneWeekMs then 0.0 else 1.0 - diff as real / OneWeekMs as real
  }

  /** The record `rankVideos` builds for one video. The reported `likeRate` is the
      conversion (click) rate, while the score weighs the true like rate. */
  function Rank(v: Video, now: int): (r: RankedVideo)
    ensures r.video == v
    ensures r.likeRate == r.conversionRate
    ensures r.conversionRate * RateDenominator(v.views) as real == v.clicks as real
    ensures r.finalScore == ConversionWeight * r.conversionRate
                          + LikeWeight * (v.likes as real / RateDenominator(v.views) as real)
                          + RecencyWeight * RecencyScore(v.createdAt, now)
    ensures r.finalScore >= 0.0
  {
    var views := RateDenominator(v.views) as real;
    var likeRate := v.likes as real / views;
    var conversionRate := v.clicks as real / views;
    var finalScore := conversionRate * ConversionWeight + likeRate * LikeWeight + RecencyScore(v.createdAt, now) * RecencyWeight;
    RankedVideo(v, conversionRate, conversionRate, finalScore)
  }

  function RankAt(now: int): Video -> RankedVideo {
    (v: Video) => Rank(v, now)
  }

  /** `rankVideos`: every video scored, then sorted by score, highest first (stable). */
  function RankVideos(videos: seq<Video>, now: int): (r: seq<RankedVideo>)
    ensures multiset(r) == multiset(Map(videos, RankAt(now)))
    ensures SortedDesc(r, FinalScore)
    ensures forall i :: 0 <= i < |r| ==> r[i].video in videos && r[i] == Rank(r[i].video, now)
  {
    var scored := Map(videos, RankAt(now));
    var r := SortDesc(scored, FinalScore);
    assert forall i :: 0 <= i < |r| ==> r[i].video in videos && r[i] == Rank(r[i].video, now) by {
      forall i | 0 <= i < |r| ensures r[i].video in videos && r[i] == Rank(r[i].video, now) {
        assert r[i] in multiset(scored);
        var k :| 0 <= k < |scored| && scored[k] == r[i];
        assert scored[k] == Rank(videos[k], now);
      }
    }
    r
  }

  /** Ranking keeps the videos' ids distinct. */
  lemma RankedIdsDistinct(videos: seq<Video>, now: int)
    requires KeysDistinct(videos, VideoId)
    ensures KeysDistinct(RankVideos(videos, now), Id)
  {
    var scored := Map(videos, RankAt(now));
    assert forall i :: 0 <= i < |scored| ==> Id(scored[i]) == VideoId(videos[i]);
    PermutationKeepsDistinct(scored, RankVideos(videos, now), Id);
  }

  // ---------------------------------------------------------------------------
  // Performance gate
  // ---------------------------------------------------------------------------

  /** A video still on trial (fewer than 100 views, `views_count || 0`) is kept;
      afterwards it must reach both minimum rates. */
  predicate PassesTestPerformance(v: Video) {
    v.views < TestAudienceSize
    || (v.clicks as real / v.views as real >= MinConversionThreshold
        && v.likes as real / v.views as real >= MinLikesThreshold)
  }

  /** `filterVideosByTestPerformance`: an order-preserving subsequence holding exactly the videos that pass the gate. */
  function FilterByTestPerformance(videos: seq<Video>): (r: seq<Video>)
    ensures IsSubsequence(r, videos)
    ensures forall i :: 0 <= i < |videos| ==> (videos[i] in r <==> PassesTestPerformance(videos[i]))
    ensures forall i :: 0 <= i < |r| ==> r[i] in videos && PassesTestPerformance(r[i])
  {
    FilterIsSubsequence(videos, PassesTestPerformance);
    var r := Filter(videos, PassesTestPerformance);
    assert forall i :: 0 <= i < |videos| && videos[i] in r ==> PassesTestPerformance(videos[i]) by {
      forall i | 0 <= i < |videos| && videos[i] in r ensures PassesTestPerformance(videos[i]) {
        var j :| 0 <= j < |r| && r[j] == videos[i];
      }
    }
    r
  }

  /** The gate spelled out: under 100 views a video is always kept; from 100 views on
      it is kept exactly when its click rate reaches 1% and its like rate 5%. */
  lemma TestPerformanceGate(v: Video)
    ensures v.views < TestAudienceSize ==> PassesTestPerformance(v)
    ensures v.views >= TestAudienceSize ==>
      (PassesTestPerformance(v) <==>
         (v.clicks as real >= MinConversionThreshold * v.views as real
          && v.likes as real >= MinLikesThreshold * v.views as real))
  {
    if v.views >= TestAudienceSize {
      var n := v.views as real;
      assert v.clicks as real / n * n == v.clicks as real;
      assert v.likes as real / n * n == v.likes as real;
      RatioAtLeast(v.clicks as real, n, MinConversionThreshold);
      RatioAtLeast(v.likes as real, n, MinLikesThreshold);
    }
  }

  lemma RatioAtLeast(a: real, n: real, t: real)
    requires n > 0.0
    ensures a / n >= t <==> a >= t * n
  {
    var q := a / n;
    assert a == q * n;
    if q >= t {
      assert q * n >= t * n;
    } else {
      assert q * n < t * n;
    }
  }

  // ---------------------------------------------------------------------------
  // Buckets
  // ---------------------------------------------------------------------------

  /** Where the feed loop sends a ranked video; `Seen` videos are dropped. */
  datatype Bucket = Promoted | Liked | Seen | Priority | Exploration

  /** Promoted, with an end date that is still in the future. */
  predicate ActivePromotion(v: Video, now: int) {
    v.isPromoted && v.promotionEnd.Some? && v.promotionEnd.value > now
  }

  /** The precedence of the bucketing loop: promoted, then liked, then seen
      (matched on `String(video.id)`), then favourite category, else exploration. */
  function Classify(v: Video, seen: set<string>, favourites: set<string>, now: int): Bucket {
    if ActivePromotion(v, now) then Promoted
    else if v.hasLiked then Liked
    else if IntToString(v.id) in seen then Seen
    else if |favourites| > 0 && v.category.Some? && v.category.value in favourites then Priority
    else Exploration
  }

  function InBucket(seen: set<string>, favourites: set<string>, now: int, k: Bucket): RankedVideo -> bool {
    (r: RankedVideo) => Classify(r.video, seen, favourites, now) == k
  }

  /** The videos of `ranked` that go to bucket `k`, in ranked order. */
  function Bucketed(ranked: seq<RankedVideo>, seen: set<string>, favourites: set<string>, now: int, k: Bucket): seq<RankedVideo> {
    Filter(ranked, InBucket(seen, favourites, now, k))
  }

  lemma BucketedStep(ranked: seq<RankedVideo>, i: nat, seen: set<string>, favourites: set<string>, now: int, k: Bucket)
    requires i < |ranked|
    ensures Bucketed(ranked[..i + 1], seen, favourites, now, k)
         == Bucketed(ranked[..i], seen, favourites, now, k)
          + (if Classify(ranked[i].video, seen, favourites, now) == k then [ranked[i]] else [])
  {
    assert ranked[..i + 1] == ranked[..i] + [ranked[i]];
    FilterConcat(ranked[..i], [ranked[i]], InBucket(seen, favourites, now, k));
  }

  /** The bucketing loop: each ranked video is pushed to the bucket it belongs to. */
  method Partition(ranked: seq<RankedVideo>, seen: set<string>, favourites: set<string>, now: int)
    returns (promoted: seq<RankedVideo>, liked: seq<RankedVideo>, priority: seq<RankedVideo>, exploration: seq<RankedVideo>)
    ensures promoted == Bucketed(ranked, seen, favourites, now, Promoted)
    ensures liked == Bucketed(ranked, seen, favourites, now, Liked)
    ensures priority == Bucketed(ranked, seen, favourites, now, Priority)
    ensures exploration == Bucketed(ranked, seen, favourites, now, Exploration)
  {
    promoted, liked, priority, exploration := [], [], [], [];
    for i := 0 to |ranked|
      invariant promoted == Bucketed(ranked[..i], seen, favourites, now, Promoted)
      invariant liked == Bucketed(ranked[..i], seen, favourites, now, Liked)
      invariant priority == Bucketed(ranked[..i], seen, favourites, now, Priority)
      invariant exploration == Bucketed(ranked[..i], seen, favourites, now, Exploration)
    {
      forall k: Bucket
        ensures Bucketed(ranked[..i + 1], seen, favourites, now, k)
             == Bucketed(ranked[..i], seen, favourites, now, k)
              + (if Classify(ranked[i].video, seen, favourites, now) == k then [ranked[i]] else [])
      {
        BucketedStep(ranked, i, seen, favourites, now, k);
      }
      var video := ranked[i];
      if video.video.isPromoted && video.video.promotionEnd.Some? && video.video.promotionEnd.value > now {
        promoted := promoted + [video];
        continue;
      }
      if video.video.hasLiked {
        liked := liked + [video];
        continue;
      }
      if IntToString(video.video.id) in seen {
        continue;
      }
      if |favourites| > 0 && video.video.category.Some? && video.video.category.value in favourites {
        priority := priority + [video];
      } else {
        exploration := exploration + [video];
      }
    }
    assert ranked[..|ranked|] == ranked;
  }

  /** Every ranked video lands in exactly one bucket. */
  lemma {:induction false} BucketsPartitionRanked(ranked: seq<RankedVideo>, seen: set<string>, favourites: set<string>, now: int)
    ensures multiset(ranked)
         == multiset(Bucketed(ranked, seen, favourites, now, Promoted))
          + multiset(Bucketed(ranked, seen, favourites, now, Liked))
          + multiset(Bucketed(ranked, seen, favourites, now, Seen))
          + multiset(Bucketed(ranked, seen, favourites, now, Priority))
          + multiset(Bucketed(ranked, seen, favourites, now, Exploration))
  {
    if ranked != [] {
      BucketedCons(ranked, seen, favourites, now, Promoted);
      BucketedCons(ranked, seen, favourites, now, Liked);
      BucketedCons(ranked, seen, favourites, now, Seen);
      BucketedCons(ranked, seen, favourites, now, Priority);
      BucketedCons(ranked, seen, favourites, now, Exploration);
      BucketsPartitionRanked(ranked[1..], seen, favourites, now);
      OneBucketGrows(ranked[0], Classify(ranked[0].video, seen, favourites, now),
        multiset(Bucketed(ranked, seen, favourites, now, Promoted)), multiset(Bucketed(ranked[1..], seen, favourites, now, Promoted)),
        multiset(Bucketed(ranked, seen, favourites, now, Liked)), multiset(Bucketed(ranked[1..], seen, favourites, now, Liked)),
        multiset(Bucketed(ranked, seen, favourites, now, Seen)), multiset(Bucketed(ranked[1..], seen, favourites, now, Seen)),
        multiset(Bucketed(ranked, seen, favourites, now, Priority)), multiset(Bucketed(ranked[1..], seen, favourites, now, Priority)),
        multiset(Bucketed(ranked, seen, favourites, now, Exploration)), multiset(Bucketed(ranked[1..], seen, favourites, now, Exploration)));
      MultisetCons(ranked);
    }
  }

  /** Adding one video to exactly one of the five buckets adds it once to their union. */
  lemma OneBucketGrows(x: RankedVideo, k: Bucket,
                       promoted: multiset<RankedVideo>, promoted0: multiset<RankedVideo>,
                       liked: multiset<RankedVideo>, liked0: multiset<RankedVideo>,
                       seen: multiset<RankedVideo>, seen0: multiset<RankedVideo>,
                       priority: multiset<RankedVideo>, priority0: multiset<RankedVideo>,
                       exploration: multiset<RankedVideo>, exploration0: multiset<RankedVideo>)
    requires promoted == promoted0 + (if k == Promoted then multiset{x} else multiset{})
    requires liked == liked0 + (if k == Liked then multiset{x} else multiset{})
    requires seen == seen0 + (if k == Seen then multiset{x} else multiset{})
    requires priority == priority0 + (if k == Priority then multiset{x} else multiset{})
    requires exploration == exploration0 + (if k == Exploration then multiset{x} else multiset{})
    ensures promoted + liked + seen + priority + exploration
         == multiset{x} + (promoted0 + liked0 + seen0 + priority0 + exploration0)
  {
  }

  /** The first ranked video goes to its own bucket and to no other. */
  lemma BucketedCons(ranked: seq<RankedVideo>, seen: set<string>, favourites: set<string>, now: int, k: Bucket)
    requires ranked != []
    ensures multiset(Bucketed(ranked, seen, favourites, now, k))
         == multiset(Bucketed(ranked[1..], seen, favourites, now, k))
          + (if Classify(ranked[0].video, seen, favourites, now) == k then multiset{ranked[0]} else multiset{})
  {
    assert ranked == [ranked[0]] + ranked[1..];
    FilterConcat([ranked[0]], ranked[1..], InBucket(seen, favourites, now, k));
  }

  /** Every bucket keeps ranked order: it is a subsequence of the ranking and sorted by score. */
  lemma BucketsKeepOrder(ranked: seq<RankedVideo>, seen: set<string>, favourites: set<string>, now: int, k: Bucket)
    requires SortedDesc(ranked, FinalScore)
    ensures IsSubsequence(Bucketed(ranked, seen, favourites, now, k), ranked)
    ensures SortedDesc(Bucketed(ranked, seen, favourites, now, k), FinalScore)
  {
    FilterIsSubsequence(ranked, InBucket(seen, favourites, now, k));
    FilterKeepsSorted(ranked, InBucket(seen, favourites, now, k), FinalScore);
  }

  /** Videos in different buckets have different ids. */
  lemma BucketsDisjoint(ranked: seq<RankedVideo>, seen: set<string>, favourites: set<string>, now: int, k1: Bucket, k2: Bucket)
    requires KeysDistinct(ranked, Id) && k1 != k2
    ensures forall x, y :: x in Bucketed(ranked, seen, favourites, now, k1) && y in Bucketed(ranked, seen, favourites, now, k2)
                           ==> Id(x) != Id(y)
  {
    forall x, y | x in Bucketed(ranked, seen, favourites, now, k1) && y in Bucketed(ranked, seen, favourites, now, k2)
      ensures Id(x) != Id(y)
    {
      DistinctElementsDistinctKeys(ranked, Id, x, y);
    }
  }

  // ---------------------------------------------------------------------------
  // Interleaving promoted and organic videos
  // ---------------------------------------------------------------------------

  /** The state of the mixing loop: the feed so far and the two read positions. */
  datatype Mix = Mix(feed: seq<RankedVideo>, promotedIndex: nat, organicIndex: nat)

  const Start: Mix := Mix([], 0, 0)

  /** `finalFeed.find(v => v.id === id)` finds a video. */
  predicate HasId(feed: seq<RankedVideo>, id: int) {
    exists i :: 0 <= i < |feed| && feed[i].video.id == id
  }

  /** Pushes `v` unless a video with its id is already in the feed. */
  function AppendIfAbsent(feed: seq<RankedVideo>, v: RankedVideo): (r: seq<RankedVideo>)
    ensures HasId(r, v.video.id)
    ensures HasId(feed, v.video.id) ==> r == feed
    ensures !HasId(feed, v.video.id) ==> r == feed + [v]
  {
    if HasId(feed, v.video.id) then feed
    else
      assert (feed + [v])[|feed|] == v;
      feed + [v]
  }

  /** The guard of the mixing loop. */
  predicate Running(promoted: seq<RankedVideo>, organic: seq<RankedVideo>, s: Mix) {
    |s.feed| < TargetFeedSize && (s.organicIndex < |organic| || s.promotedIndex < |promoted|)
  }

  /** One pass of the mixing loop body. At a length that is a multiple of 6 the
      next promoted candidate (cycling through the list) is pushed unless its id is
      already present, and that pass ends there; otherwise the next organic video is
      pushed, or, when the organic queue is used up, the next promoted candidate.
      The `break` of the source is unreachable, since the guard leaves
      `promotedIndex < |promoted|` when the organic queue is used up. */
  function Pass(promoted: seq<RankedVideo>, organic: seq<RankedVideo>, s: Mix): (r: Mix)
    requires Running(promoted, organic, s)
    ensures s.feed <= r.feed && |r.feed| <= |s.feed| + 1
    ensures r.promotedIndex + r.organicIndex == s.promotedIndex + s.organicIndex + 1
  {
    if |s.feed| % PromotedInterval == 0 && |promoted| > 0 then
      Mix(AppendIfAbsent(s.feed, promoted[s.promotedIndex % |promoted|]), s.promotedIndex + 1, s.organicIndex)
    else if s.organicIndex < |organic| then
      Mix(s.feed + [organic[s.organicIndex]], s.promotedIndex, s.organicIndex + 1)
    else
      Mix(AppendIfAbsent(s.feed, promoted[s.promotedIndex % |promoted|]), s.promotedIndex + 1, s.organicIndex)
  }

  function Step(promoted: seq<RankedVideo>, organic: seq<RankedVideo>, s: Mix): Mix {
    if Running(promoted, organic, s) then Pass(promoted, organic, s) else s
  }

  /** The state after `passes` iterations of the loop (a stopped loop stays stopped). */
  function Run(promoted: seq<RankedVideo>, organic: seq<RankedVideo>, s: Mix, passes: nat): Mix {
    if passes == 0 then s else Step(promoted, organic, Run(promoted, organic, s, passes - 1))
  }

  /** With distinct ids, the loop stops exactly when there is no promoted video, or
      there are enough promoted videos to fill the 50 slots at one per 6, or the
      organic queue runs out before every promoted video has had its slot. */
  predicate InterleaveTerminates(promotedCount: nat, organicCount: nat) {
    promotedCount == 0
    || PromotedInterval * promotedCount >= TargetFeedSize
    || organicCount <= (PromotedInterval - 1) * promotedCount
  }

  /** Every video of the feed is one of the first `p` promoted or the first `o` organic videos. */
  predicate Taken(promoted: seq<RankedVideo>, organic: seq<RankedVideo>, feed: seq<RankedVideo>, p: nat, o: nat)
    requires p <= |promoted| && o <= |organic|
  {
    forall i :: 0 <= i < |feed| ==> feed[i] in promoted[..p] || feed[i] in organic[..o]
  }

  /** The next promoted or organic video has an id the feed does not hold yet. */
  lemma NotYetTaken(promoted: seq<RankedVideo>, organic: seq<RankedVideo>, feed: seq<RankedVideo>, p: nat, o: nat, c: nat)
    requires KeysDistinct(promoted + organic, Id)
    requires p <= |promoted| && o <= |organic| && Taken(promoted, organic, feed, p, o)
    requires (c == p && p < |promoted|) || (c == |promoted| + o && o < |organic|)
    ensures !HasId(feed, (promoted + organic)[c].video.id)
  {
    var all := promoted + organic;
    forall i | 0 <= i < |feed| ensures feed[i].video.id != all[c].video.id {
      var t: nat;
      if feed[i] in promoted[..p] {
        var k :| 0 <= k < p && promoted[..p][k] == feed[i];
        t := k;
      } else {
        var k :| 0 <= k < o && organic[..o][k] == feed[i];
        t := |promoted| + k;
      }
      assert all[t] == feed[i];
      if t < c {
        assert Id(all[t]) != Id(all[c]);
      } else {
        assert Id(all[c]) != Id(all[t]);
      }
    }
  }

  /** Reading further into either list keeps every placed video accounted for. */
  lemma TakenGrow(promoted: seq<RankedVideo>, organic: seq<RankedVideo>, feed: seq<RankedVideo>, p: nat, o: nat, p2: nat, o2: nat, x: RankedVideo)
    requires p <= p2 <= |promoted| && o <= o2 <= |organic|
    requires Taken(promoted, organic, feed, p, o)
    requires x in promoted[..p2] || x in organic[..o2]
    ensures Taken(promoted, organic, feed + [x], p2, o2)
  {
    var feed' := feed + [x];
    forall i | 0 <= i < |feed'| ensures feed'[i] in promoted[..p2] || feed'[i] in organic[..o2] {
      if i < |feed| {
        var y := feed[i];
        assert feed'[i] == y;
        if y in promoted[..p] {
          var k :| 0 <= k < p && promoted[..p][k] == y;
          assert promoted[..p2][k] == y;
        } else {
          var k :| 0 <= k < o && organic[..o][k] == y;
          assert organic[..o2][k] == y;
        }
      }
    }
  }

  lemma NextOrganicFresh(promoted: seq<RankedVideo>, organic: seq<RankedVideo>, feed: seq<RankedVideo>, p: nat, o: nat)
    requires KeysDistinct(promoted + organic, Id)
    requires p <= |promoted| && o < |organic| && Taken(promoted, organic, feed, p, o)
    ensures !HasId(feed, organic[o].video.id)
  {
    NotYetTaken(promoted, organic, feed, p, o, |promoted| + o);
    assert (promoted + organic)[|promoted| + o] == organic[o];
  }

  lemma HasIdAppend(feed: seq<RankedVideo>, x: RankedVideo, id: int)
    requires HasId(feed, id)
    ensures HasId(feed + [x], id)
  {
    var i :| 0 <= i < |feed| && feed[i].video.id == id;
    assert (feed + [x])[i] == feed[i];
  }

  lemma AppendFreshDistinct(feed: seq<RankedVideo>, x: RankedVideo)
    requires KeysDistinct(feed, Id) && !HasId(feed, x.video.id)
    ensures KeysDistinct(feed + [x], Id)
  {
    var r := feed + [x];
    forall i, j | 0 <= i < j < |r| ensures Id(r[i]) != Id(r[j]) {
      if j < |feed| {
        assert r[i] == feed[i] && r[j] == feed[j];
      } else {
        assert r[i] == feed[i] && r[j] == x;
      }
    }
  }

  // --- The loop that does not stop -------------------------------------------

  /** Before every promoted video has had its slot: promoted at 0, 6, 12, ..., organic in between. */
  predicate Filling(promoted: seq<RankedVideo>, organic: seq<RankedVideo>, s: Mix) {
    var len := |s.feed|;
    len <= 6 * |promoted| && s.promotedIndex <= |promoted| && s.organicIndex <= |organic|
    && s.promotedIndex == (len + 5) / 6 && s.organicIndex == len - s.promotedIndex
    && Taken(promoted, organic, s.feed, s.promotedIndex, s.organicIndex)
    && (forall j :: 0 <= j < s.promotedIndex ==> HasId(s.feed, promoted[j].video.id))
  }

  /** Every promoted video is in the feed, whose length is a multiple of 6: each pass
      only advances `promotedIndex`. */
  predicate Stuck(promoted: seq<RankedVideo>, organic: seq<RankedVideo>, s: Mix) {
    |s.feed| == 6 * |promoted| && s.organicIndex == 5 * |promoted| && s.promotedIndex >= |promoted|
    && (forall j :: 0 <= j < |promoted| ==> HasId(s.feed, promoted[j].video.id))
  }

  lemma StuckStep(promoted: seq<RankedVideo>, organic: seq<RankedVideo>, s: Mix)
    requires !InterleaveTerminates(|promoted|, |organic|)
    requires Stuck(promoted, organic, s)
    ensures Running(promoted, organic, s) && Stuck(promoted, organic, Pass(promoted, organic, s))
  {
    var j := s.promotedIndex % |promoted|;
    assert HasId(s.feed, promoted[j].video.id);
    assert Pass(promoted, organic, s) == Mix(s.feed, s.promotedIndex + 1, s.organicIndex);
  }

  lemma FillingRunning(promoted: seq<RankedVideo>, organic: seq<RankedVideo>, s: Mix)
    requires !InterleaveTerminates(|promoted|, |organic|)
    requires Filling(promoted, organic, s)
    ensures Running(promoted, organic, s)
  {
  }

  /** A promoted slot while some promoted video is still missing: it is pushed. */
  lemma FillingSlotStep(promoted: seq<RankedVideo>, organic: seq<RankedVideo>, s: Mix)
    requires KeysDistinct(promoted + organic, Id)
    requires !InterleaveTerminates(|promoted|, |organic|)
    requires Filling(promoted, organic, s) && |s.feed| % 6 == 0 && s.promotedIndex < |promoted|
    ensures Running(promoted, organic, s) && Filling(promoted, organic, Pass(promoted, organic, s))
  {
    var p, o := s.promotedIndex, s.organicIndex;
    NotYetTaken(promoted, organic, s.feed, p, o, p);
    assert (promoted + organic)[p] == promoted[p];
    var x := promoted[p];
    var feed' := s.feed + [x];
    assert p % |promoted| == p;
    assert Pass(promoted, organic, s) == Mix(feed', p + 1, o);
    assert promoted[..p + 1] == promoted[..p] + [x];
    forall j | 0 <= j < p + 1 ensures HasId(feed', promoted[j].video.id) {
      if j < p {
        HasIdAppend(s.feed, x, promoted[j].video.id);
      } else {
        assert feed'[|s.feed|] == x;
      }
    }
  }

  /** The promoted slot after every promoted video is in: the loop gets stuck. */
  lemma FillingFullStep(promoted: seq<RankedVideo>, organic: seq<RankedVideo>, s: Mix)
    requires !InterleaveTerminates(|promoted|, |organic|)
    requires Filling(promoted, organic, s) && |s.feed| % 6 == 0 && s.promotedIndex == |promoted|
    ensures Running(promoted, organic, s) && Stuck(promoted, organic, Pass(promoted, organic, s))
  {
    assert HasId(s.feed, promoted[0].video.id);
    assert Pass(promoted, organic, s) == Mix(s.feed, s.promotedIndex + 1, s.organicIndex);
  }

  /** A slot between promoted ones: the next organic video is pushed. */
  lemma FillingOrganicStep(promoted: seq<RankedVideo>, organic: seq<RankedVideo>, s: Mix)
    requires !InterleaveTerminates(|promoted|, |organic|)
    requires Filling(promoted, organic, s) && |s.feed| % 6 != 0
    ensures Running(promoted, organic, s) && Filling(promoted, organic, Pass(promoted, organic, s))
  {
    var p, o := s.promotedIndex, s.organicIndex;
    var x := organic[o];
    var feed' := s.feed + [x];
    assert Pass(promoted, organic, s) == Mix(feed', p, o + 1);
    assert organic[..o + 1] == organic[..o] + [x];
    forall j | 0 <= j < p ensures HasId(feed', promoted[j].video.id) {
      HasIdAppend(s.feed, x, promoted[j].video.id);
    }
  }

  lemma DivergenceStep(promoted: seq<RankedVideo>, organic: seq<RankedVideo>, s: Mix)
    requires KeysDistinct(promoted + organic, Id)
    requires !InterleaveTerminates(|promoted|, |organic|)
    requires Filling(promoted, organic, s) || Stuck(promoted, organic, s)
    ensures Running(promoted, organic, s)
    ensures Filling(promoted, organic, Pass(promoted, organic, s)) || Stuck(promoted, organic, Pass(promoted, organic, s))
  {
    if Stuck(promoted, organic, s) {
      StuckStep(promoted, organic, s);
    } else if |s.feed| % 6 != 0 {
      FillingOrganicStep(promoted, organic, s);
    } else if s.promotedIndex < |promoted| {
      FillingSlotStep(promoted, organic, s);
    } else {
      FillingFullStep(promoted, organic, s);
    }
  }

  lemma {:induction false} DivergenceInvariant(promoted: seq<RankedVideo>, organic: seq<RankedVideo>, passes: nat)
    requires KeysDistinct(promoted + organic, Id)
    requires !InterleaveTerminates(|promoted|, |organic|)
    ensures Filling(promoted, organic, Run(promoted, organic, Start, passes)) || Stuck(promoted, organic, Run(promoted, organic, Start, passes))
  {
    if passes > 0 {
      DivergenceInvariant(promoted, organic, passes - 1);
      DivergenceStep(promoted, organic, Run(promoted, organic, Start, passes - 1));
    }
  }

  /** The mixing loop of the source does not always stop: with distinct ids, between
      one and eight promoted videos and more than five organic videos per promoted
      one (for instance one promoted and six organic videos), the guard holds after
      any number of passes. */
  lemma InterleaveDiverges(promoted: seq<RankedVideo>, organic: seq<RankedVideo>, passes: nat)
    requires KeysDistinct(promoted + organic, Id)
    requires !InterleaveTerminates(|promoted|, |organic|)
    ensures Running(promoted, organic, Run(promoted, organic, Start, passes))
  {
    DivergenceInvariant(promoted, organic, passes);
    DivergenceStep(promoted, organic, Run(promoted, organic, Start, passes));
  }

  // --- The loop when it stops --------------------------------------------------

  /** What holds after every pass when the loop stops: the feed holds the first
      `promotedIndex` promoted and the first `organicIndex` organic videos, each
      list in its own order, promoted ones at positions 0, 6, 12, ... for as long
      as organic videos last, and no id twice. */
  predicate Layout(promoted: seq<RankedVideo>, organic: seq<RankedVideo>, s: Mix) {
    var layout :=
      Counts(|promoted|, |organic|, |s.feed|, s.promotedIndex, s.organicIndex)
      && Contents(promoted, organic, s)
      && Slots(promoted, organic, s.feed);
    layout
  }

  /** How many videos of each list have been read for a feed of length `len`: the
      organic count is the number of non-slot positions, up to the queue length. */
  predicate Counts(n: nat, m: nat, len: nat, p: nat, o: nat) {
    var counts :=
      p <= n && o <= m && len <= TargetFeedSize && len == p + o
      && (n > 0 ==> o == Min(m, len - (len + 5) / 6));
    counts
  }

  predicate Contents(promoted: seq<RankedVideo>, organic: seq<RankedVideo>, s: Mix) {
    var contents :=
      s.promotedIndex <= |promoted| && s.organicIndex <= |organic|
      && Taken(promoted, organic, s.feed, s.promotedIndex, s.organicIndex)
      && KeysDistinct(s.feed, Id)
      && Filter(s.feed, InSeq(promoted)) == promoted[..s.promotedIndex]
      && Filter(s.feed, InSeq(organic)) == organic[..s.organicIndex];
    contents
  }

  predicate Slots(promoted: seq<RankedVideo>, organic: seq<RankedVideo>, feed: seq<RankedVideo>) {
    var slots :=
      (|promoted| > 0 && |feed| > 0 ==> feed[0] == promoted[0])
      && (forall j :: 0 <= j < |promoted| && 5 * j <= |organic| && 6 * j < |feed| ==> feed[6 * j] == promoted[j]);
    slots
  }

  lemma PromotedPushCounts(n: nat, m: nat, len: nat, p: nat, o: nat)
    requires Counts(n, m, len, p, o) && n > 0 && p < n && len < TargetFeedSize
    requires len % 6 == 0 || o == m
    ensures Counts(n, m, len + 1, p + 1, o)
    ensures len % PromotedInterval == 0 && 5 * (len / PromotedInterval) <= m ==> p == len / PromotedInterval
  {
  }

  lemma OrganicPushCounts(n: nat, m: nat, len: nat, p: nat, o: nat)
    requires Counts(n, m, len, p, o) && o < m && len < TargetFeedSize
    requires len % 6 != 0 || n == 0
    ensures Counts(n, m, len + 1, p, o + 1)
  {
  }

  /** Under the stopping condition a promoted slot always finds a promoted video not yet placed. */
  lemma SlotHasCandidate(n: nat, m: nat, len: nat, p: nat, o: nat)
    requires InterleaveTerminates(n, m) && Counts(n, m, len, p, o)
    requires n > 0 && len < TargetFeedSize && len % 6 == 0 && (o < m || p < n)
    ensures p < n
  {
  }

  /** Pushing a fresh video: the two filters and the distinctness follow. */
  lemma PushFresh(promoted: seq<RankedVideo>, organic: seq<RankedVideo>, feed: seq<RankedVideo>, x: RankedVideo, fromPromoted: bool)
    requires KeysDistinct(promoted + organic, Id)
    requires KeysDistinct(feed, Id) && !HasId(feed, x.video.id)
    requires fromPromoted ==> x in promoted
    requires !fromPromoted ==> x in organic
    ensures KeysDistinct(feed + [x], Id)
    ensures fromPromoted ==> Filter(feed + [x], InSeq(promoted)) == Filter(feed, InSeq(promoted)) + [x]
    ensures fromPromoted ==> Filter(feed + [x], InSeq(organic)) == Filter(feed, InSeq(organic))
    ensures !fromPromoted ==> Filter(feed + [x], InSeq(promoted)) == Filter(feed, InSeq(promoted))
    ensures !fromPromoted ==> Filter(feed + [x], InSeq(organic)) == Filter(feed, InSeq(organic)) + [x]
  {
    AppendFreshDistinct(feed, x);
    SplitKeepsDistinct(promoted, organic, Id);
    FilterConcat(feed, [x], InSeq(promoted));
    FilterConcat(feed, [x], InSeq(organic));
    if fromPromoted {
      var i :| 0 <= i < |promoted| && promoted[i] == x;
      forall j | 0 <= j < |organic| ensures organic[j] != x {
        assert Id(promoted[i]) != Id(organic[j]);
      }
    } else {
      var j :| 0 <= j < |organic| && organic[j] == x;
      forall i | 0 <= i < |promoted| ensures promoted[i] != x {
        assert Id(promoted[i]) != Id(organic[j]);
      }
    }
  }

  lemma PromotedPushContents(promoted: seq<RankedVideo>, organic: seq<RankedVideo>, s: Mix)
    requires KeysDistinct(promoted + organic, Id)
    requires Contents(promoted, organic, s) && s.promotedIndex < |promoted|
    ensures !HasId(s.feed, promoted[s.promotedIndex].video.id)
    ensures Contents(promoted, organic, Mix(s.feed + [promoted[s.promotedIndex]], s.promotedIndex + 1, s.organicIndex))
  {
    var p, o := s.promotedIndex, s.organicIndex;
    var x := promoted[p];
    NotYetTaken(promoted, organic, s.feed, p, o, p);
    assert (promoted + organic)[p] == x;
    PushFresh(promoted, organic, s.feed, x, true);
    assert promoted[..p + 1] == promoted[..p] + [x];
    assert promoted[..p + 1][p] == x;
    TakenGrow(promoted, organic, s.feed, p, o, p + 1, o, x);
  }

  lemma OrganicPushContents(promoted: seq<RankedVideo>, organic: seq<RankedVideo>, s: Mix)
    requires KeysDistinct(promoted + organic, Id)
    requires Contents(promoted, organic, s) && s.organicIndex < |organic|
    ensures Contents(promoted, organic, Mix(s.feed + [organic[s.organicIndex]], s.promotedIndex, s.organicIndex + 1))
  {
    var p, o := s.promotedIndex, s.organicIndex;
    var x := organic[o];
    NextOrganicFresh(promoted, organic, s.feed, p, o);
    PushFresh(promoted, organic, s.feed, x, false);
    assert organic[..o + 1] == organic[..o] + [x];
    assert organic[..o + 1][o] == x;
    TakenGrow(promoted, organic, s.feed, p, o, p, o + 1, x);
  }

  lemma PushSlots(promoted: seq<RankedVideo>, organic: seq<RankedVideo>, feed: seq<RankedVideo>, x: RankedVideo)
    requires Slots(promoted, organic, feed)
    requires |feed| % PromotedInterval == 0 && |feed| / PromotedInterval < |promoted|
             && 5 * (|feed| / PromotedInterval) <= |organic|
             ==> x == promoted[|feed| / PromotedInterval]
    ensures Slots(promoted, organic, feed + [x])
  {
    var feed' := feed + [x];
    forall j | 0 <= j < |promoted| && 5 * j <= |organic| && 6 * j < |feed'| ensures feed'[6 * j] == promoted[j] {
      if 6 * j < |feed| {
        assert feed'[6 * j] == feed[6 * j];
      } else {
        assert |feed| / PromotedInterval == j;
      }
    }
  }

  lemma PassPushesPromoted(promoted: seq<RankedVideo>, organic: seq<RankedVideo>, s: Mix)
    requires Running(promoted, organic, s) && s.promotedIndex < |promoted|
    requires |s.feed| % PromotedInterval == 0 || s.organicIndex == |organic|
    requires !HasId(s.feed, promoted[s.promotedIndex].video.id)
    ensures Pass(promoted, organic, s) == Mix(s.feed + [promoted[s.promotedIndex]], s.promotedIndex + 1, s.organicIndex)
  {
    assert s.promotedIndex % |promoted| == s.promotedIndex;
  }

  lemma PassPushesOrganic(promoted: seq<RankedVideo>, organic: seq<RankedVideo>, s: Mix)
    requires Running(promoted, organic, s) && s.organicIndex < |organic|
    requires !(|s.feed| % PromotedInterval == 0 && |promoted| > 0)
    ensures Pass(promoted, organic, s) == Mix(s.feed + [organic[s.organicIndex]], s.promotedIndex, s.organicIndex + 1)
  {
  }

  lemma LayoutOf(promoted: seq<RankedVideo>, organic: seq<RankedVideo>, t: Mix)
    requires Counts(|promoted|, |organic|, |t.feed|, t.promotedIndex, t.organicIndex)
    requires Contents(promoted, organic, t) && Slots(promoted, organic, t.feed)
    ensures Layout(promoted, organic, t)
  {
  }

  /** Pushing the next promoted video keeps the layout, whenever the pass reads the promoted list. */
  lemma PromotedPushLayout(promoted: seq<RankedVideo>, organic: seq<RankedVideo>, s: Mix)
    requires KeysDistinct(promoted + organic, Id)
    requires Layout(promoted, organic, s) && |s.feed| < TargetFeedSize && s.promotedIndex < |promoted|
    requires |s.feed| % PromotedInterval == 0 || s.organicIndex == |organic|
    ensures !HasId(s.feed, promoted[s.promotedIndex].video.id)
    ensures Layout(promoted, organic, Mix(s.feed + [promoted[s.promotedIndex]], s.promotedIndex + 1, s.organicIndex))
  {
    PromotedPushContents(promoted, organic, s);
    PromotedPushShape(promoted, organic, s);
    LayoutOf(promoted, organic, Mix(s.feed + [promoted[s.promotedIndex]], s.promotedIndex + 1, s.organicIndex));
  }

  lemma PromotedPushShape(promoted: seq<RankedVideo>, organic: seq<RankedVideo>, s: Mix)
    requires Counts(|promoted|, |organic|, |s.feed|, s.promotedIndex, s.organicIndex)
    requires Slots(promoted, organic, s.feed) && |s.feed| < TargetFeedSize && s.promotedIndex < |promoted|
    requires |s.feed| % PromotedInterval == 0 || s.organicIndex == |organic|
    ensures Counts(|promoted|, |organic|, |s.feed| + 1, s.promotedIndex + 1, s.organicIndex)
    ensures Slots(promoted, organic, s.feed + [promoted[s.promotedIndex]])
  {
    PromotedPushCounts(|promoted|, |organic|, |s.feed|, s.promotedIndex, s.organicIndex);
    PushSlots(promoted, organic, s.feed, promoted[s.promotedIndex]);
  }

  /** Pushing the next organic video keeps the layout, off the promoted slots. */
  lemma OrganicPushLayout(promoted: seq<RankedVideo>, organic: seq<RankedVideo>, s: Mix)
    requires KeysDistinct(promoted + organic, Id)
    requires Layout(promoted, organic, s) && |s.feed| < TargetFeedSize && s.organicIndex < |organic|
    requires !(|s.feed| % PromotedInterval == 0 && |promoted| > 0)
    ensures Layout(promoted, organic, Mix(s.feed + [organic[s.organicIndex]], s.promotedIndex, s.organicIndex + 1))
  {
    var p, o := s.promotedIndex, s.organicIndex;
    OrganicPushCounts(|promoted|, |organic|, |s.feed|, p, o);
    OrganicPushContents(promoted, organic, s);
    PushSlots(promoted, organic, s.feed, organic[o]);
    LayoutOf(promoted, organic, Mix(s.feed + [organic[o]], p, o + 1));
  }

  lemma LayoutSlotStep(promoted: seq<RankedVideo>, organic: seq<RankedVideo>, s: Mix)
    requires KeysDistinct(promoted + organic, Id)
    requires InterleaveTerminates(|promoted|, |organic|)
    requires Layout(promoted, organic, s) && Running(promoted, organic, s)
    requires |s.feed| % PromotedInterval == 0 && |promoted| > 0
    ensures Layout(promoted, organic, Pass(promoted, organic, s))
    ensures |Pass(promoted, organic, s).feed| == |s.feed| + 1
  {
    SlotHasCandidate(|promoted|, |organic|, |s.feed|, s.promotedIndex, s.organicIndex);
    PromotedPushLayout(promoted, organic, s);
    PassPushesPromoted(promoted, organic, s);
  }

  lemma LayoutOrganicStep(promoted: seq<RankedVideo>, organic: seq<RankedVideo>, s: Mix)
    requires KeysDistinct(promoted + organic, Id)
    requires Layout(promoted, organic, s) && Running(promoted, organic, s)
    requires !(|s.feed| % PromotedInterval == 0 && |promoted| > 0) && s.organicIndex < |organic|
    ensures Layout(promoted, organic, Pass(promoted, organic, s))
    ensures |Pass(promoted, organic, s).feed| == |s.feed| + 1
  {
    OrganicPushLayout(promoted, organic, s);
    PassPushesOrganic(promoted, organic, s);
  }

  lemma LayoutLeftoverStep(promoted: seq<RankedVideo>, organic: seq<RankedVideo>, s: Mix)
    requires KeysDistinct(promoted + organic, Id)
    requires Layout(promoted, organic, s) && Running(promoted, organic, s)
    requires !(|s.feed| % PromotedInterval == 0 && |promoted| > 0) && s.organicIndex == |organic|
    ensures Layout(promoted, organic, Pass(promoted, organic, s))
    ensures |Pass(promoted, organic, s).feed| == |s.feed| + 1
  {
    PromotedPushLayout(promoted, organic, s);
    PassPushesPromoted(promoted, organic, s);
  }

  /** Under the stopping condition each pass pushes exactly one fresh video and keeps the layout. */
  lemma LayoutStep(promoted: seq<RankedVideo>, organic: seq<RankedVideo>, s: Mix)
    requires KeysDistinct(promoted + organic, Id)
    requires InterleaveTerminates(|promoted|, |organic|)
    requires Layout(promoted, organic, s) && Running(promoted, organic, s)
    ensures Layout(promoted, organic, Pass(promoted, organic, s))
    ensures |Pass(promoted, organic, s).feed| == |s.feed| + 1
  {
    if |s.feed| % PromotedInterval == 0 && |promoted| > 0 {
      LayoutSlotStep(promoted, organic, s);
    } else if s.organicIndex < |organic| {
      LayoutOrganicStep(promoted, organic, s);
    } else {
      LayoutLeftoverStep(promoted, organic, s);
    }
  }

  lemma ModBelow(a: nat, n: nat)
    requires a < n
    ensures a % n == a
  {
  }

  lemma RunOnePass(promoted: seq<RankedVideo>, organic: seq<RankedVideo>, passes: nat, s: Mix)
    requires Run(promoted, organic, Start, passes) == s && Running(promoted, organic, s)
    ensures Run(promoted, organic, Start, passes + 1) == Pass(promoted, organic, s)
  {
  }

  /** What the layout gives once the loop guard fails. */
  lemma LayoutOutcome(promoted: seq<RankedVideo>, organic: seq<RankedVideo>, s: Mix)
    requires Layout(promoted, organic, s) && !Running(promoted, organic, s)
    ensures |s.feed| <= TargetFeedSize
    ensures KeysDistinct(s.feed, Id)
    ensures forall i :: 0 <= i < |s.feed| ==> s.feed[i] in promoted || s.feed[i] in organic
    ensures |promoted| > 0 ==> |s.feed| > 0 && s.feed[0] == promoted[0]
    ensures forall j :: 0 <= j < |promoted| && 5 * j <= |organic| && 6 * j < |s.feed| ==> s.feed[6 * j] == promoted[j]
    ensures Filter(s.feed, InSeq(promoted)) <= promoted && Filter(s.feed, InSeq(organic)) <= organic
    ensures |s.feed| == TargetFeedSize || (Filter(s.feed, InSeq(promoted)) == promoted && Filter(s.feed, InSeq(organic)) == organic)
  {
    CountsOutcome(|promoted|, |organic|, |s.feed|, s.promotedIndex, s.organicIndex);
    FeedSources(promoted, organic, s);
    FiltersOutcome(promoted, organic, s);
  }

  lemma CountsOutcome(n: nat, m: nat, len: nat, p: nat, o: nat)
    requires Counts(n, m, len, p, o) && !(len < TargetFeedSize && (o < m || p < n))
    ensures len <= TargetFeedSize && (n > 0 ==> len > 0)
    ensures len == TargetFeedSize || (p == n && o == m)
  {
  }

  lemma FiltersOutcome(promoted: seq<RankedVideo>, organic: seq<RankedVideo>, s: Mix)
    requires Contents(promoted, organic, s)
    ensures Filter(s.feed, InSeq(promoted)) <= promoted && Filter(s.feed, InSeq(organic)) <= organic
    ensures s.promotedIndex == |promoted| ==> Filter(s.feed, InSeq(promoted)) == promoted
    ensures s.organicIndex == |organic| ==> Filter(s.feed, InSeq(organic)) == organic
  {
    assert promoted[..|promoted|] == promoted && organic[..|organic|] == organic;
  }

  lemma FeedSources(promoted: seq<RankedVideo>, organic: seq<RankedVideo>, s: Mix)
    requires Contents(promoted, organic, s)
    ensures forall i :: 0 <= i < |s.feed| ==> s.feed[i] in promoted || s.feed[i] in organic
  {
    var feed, p, o := s.feed, s.promotedIndex, s.organicIndex;
    forall i | 0 <= i < |feed| ensures feed[i] in promoted || feed[i] in organic {
      if feed[i] in promoted[..p] {
        var k :| 0 <= k < p && promoted[..p][k] == feed[i];
        assert promoted[k] == feed[i];
      } else {
        var k :| 0 <= k < o && organic[..o][k] == feed[i];
        assert organic[k] == feed[i];
      }
    }
  }

  /** Under the stopping condition the layout holds after any number of passes
      (a stopped loop stays where it is). */
  lemma {:induction false} RunKeepsLayout(promoted: seq<RankedVideo>, organic: seq<RankedVideo>, passes: nat)
    requires KeysDistinct(promoted + organic, Id)
    requires InterleaveTerminates(|promoted|, |organic|)
    ensures Layout(promoted, organic, Run(promoted, organic, Start, passes))
  {
    if passes > 0 {
      RunKeepsLayout(promoted, organic, passes - 1);
      LayoutRunStep(promoted, organic, passes - 1);
    } else {
      LayoutStart(promoted, organic);
    }
  }

  lemma LayoutRunStep(promoted: seq<RankedVideo>, organic: seq<RankedVideo>, passes: nat)
    requires KeysDistinct(promoted + organic, Id)
    requires InterleaveTerminates(|promoted|, |organic|)
    requires Layout(promoted, organic, Run(promoted, organic, Start, passes))
    ensures Layout(promoted, organic, Run(promoted, organic, Start, passes + 1))
  {
    LayoutStepOrStay(promoted, organic, Run(promoted, organic, Start, passes));
    RunUnfold(promoted, organic, passes);
  }

  lemma RunUnfold(promoted: seq<RankedVideo>, organic: seq<RankedVideo>, passes: nat)
    ensures Run(promoted, organic, Start, passes + 1) == Step(promoted, organic, Run(promoted, organic, Start, passes))
  {
  }

  lemma LayoutStepOrStay(promoted: seq<RankedVideo>, organic: seq<RankedVideo>, s: Mix)
    requires KeysDistinct(promoted + organic, Id)
    requires InterleaveTerminates(|promoted|, |organic|)
    requires Layout(promoted, organic, s)
    ensures Layout(promoted, organic, Step(promoted, organic, s))
  {
    if Running(promoted, organic, s) {
      LayoutStep(promoted, organic, s);
    }
  }

  lemma LayoutStart(promoted: seq<RankedVideo>, organic: seq<RankedVideo>)
    ensures Layout(promoted, organic, Run(promoted, organic, Start, 0))
  {
    assert Run(promoted, organic, Start, 0) == Mix([], 0, 0);
  }

  /** One pass that reads the promoted list: under the stopping condition the video
      at `promotedIndex` exists and is new, and it is pushed. */
  lemma PromotedPass(promoted: seq<RankedVideo>, organic: seq<RankedVideo>, passes: nat, s: Mix)
    requires KeysDistinct(promoted + organic, Id)
    requires InterleaveTerminates(|promoted|, |organic|)
    requires Run(promoted, organic, Start, passes) == s && Running(promoted, organic, s)
    requires (|s.feed| % PromotedInterval == 0 && |promoted| > 0) || s.organicIndex == |organic|
    ensures s.promotedIndex < |promoted| && s.promotedIndex % |promoted| == s.promotedIndex
    ensures !HasId(s.feed, promoted[s.promotedIndex].video.id)
    ensures Run(promoted, organic, Start, passes + 1) == Mix(s.feed + [promoted[s.promotedIndex]], s.promotedIndex + 1, s.organicIndex)
  {
    RunKeepsLayout(promoted, organic, passes);
    LayoutStep(promoted, organic, s);
    RunOnePass(promoted, organic, passes, s);
    if |s.feed| % PromotedInterval == 0 && |promoted| > 0 {
      SlotHasCandidate(|promoted|, |organic|, |s.feed|, s.promotedIndex, s.organicIndex);
    }
    PromotedPushContents(promoted, organic, s);
    PassPushesPromoted(promoted, organic, s);
    ModBelow(s.promotedIndex, |promoted|);
  }

  /** One pass that reads the organic queue. */
  lemma OrganicPass(promoted: seq<RankedVideo>, organic: seq<RankedVideo>, passes: nat, s: Mix)
    requires KeysDistinct(promoted + organic, Id)
    requires InterleaveTerminates(|promoted|, |organic|)
    requires Run(promoted, organic, Start, passes) == s && Running(promoted, organic, s)
    requires !(|s.feed| % PromotedInterval == 0 && |promoted| > 0) && s.organicIndex < |organic|
    ensures Run(promoted, organic, Start, passes + 1) == Mix(s.feed + [organic[s.organicIndex]], s.promotedIndex, s.organicIndex + 1)
    ensures s.promotedIndex <= |promoted|
  {
    RunKeepsLayout(promoted, organic, passes);
    LayoutStep(promoted, organic, s);
    RunOnePass(promoted, organic, passes, s);
    PassPushesOrganic(promoted, organic, s);
  }

  /** The mixing loop (step 4 of `GET /fy`). It is proved here only under the
      stopping condition; `InterleaveDiverges` shows that otherwise it never stops.
      The result is the feed of the state machine once its guard fails. */
  method InterleaveFeed(promoted: seq<RankedVideo>, organic: seq<RankedVideo>) returns (feed: seq<RankedVideo>, ghost passes: nat)
    requires KeysDistinct(promoted + organic, Id)
    requires InterleaveTerminates(|promoted|, |organic|)
    ensures !Running(promoted, organic, Run(promoted, organic, Start, passes))
    ensures Run(promoted, organic, Start, passes).feed == feed
    ensures |feed| <= TargetFeedSize
    ensures KeysDistinct(feed, Id)
    ensures forall i :: 0 <= i < |feed| ==> feed[i] in promoted || feed[i] in organic
    ensures |promoted| > 0 ==> |feed| > 0 && feed[0] == promoted[0]
    ensures forall j :: 0 <= j < |promoted| && 5 * j <= |organic| && 6 * j < |feed| ==> feed[6 * j] == promoted[j]
    ensures Filter(feed, InSeq(promoted)) <= promoted && Filter(feed, InSeq(organic)) <= organic
    ensures |feed| == TargetFeedSize || (Filter(feed, InSeq(promoted)) == promoted && Filter(feed, InSeq(organic)) == organic)
  {
    var promotedIndex, organicIndex;
    feed, passes, promotedIndex, organicIndex := MixingLoop(promoted, organic);
    RunKeepsLayout(promoted, organic, passes);
    LayoutOutcome(promoted, organic, Mix(feed, promotedIndex, organicIndex));
  }

  /** The `while` loop of step 4 itself: it runs the passes of the state machine
      until its guard fails. */
  method MixingLoop(promoted: seq<RankedVideo>, organic: seq<RankedVideo>)
    returns (feed: seq<RankedVideo>, ghost passes: nat, promotedIndex: nat, organicIndex: nat)
    requires KeysDistinct(promoted + organic, Id)
    requires InterleaveTerminates(|promoted|, |organic|)
    ensures Run(promoted, organic, Start, passes) == Mix(feed, promotedIndex, organicIndex)
    ensures !Running(promoted, organic, Mix(feed, promotedIndex, organicIndex))
  {
    feed := [];
    promotedIndex, organicIndex := 0, 0;
    passes := 0;
    while |feed| < TargetFeedSize && (organicIndex < |organic| || promotedIndex < |promoted|)
      invariant Run(promoted, organic, Start, passes) == Mix(feed, promotedIndex, organicIndex)
      invariant promotedIndex <= |promoted| && organicIndex <= |organic|
      decreases (|organic| - organicIndex) + (|promoted| - promotedIndex)
    {
      if |feed| % PromotedInterval == 0 && |promoted| > 0 {
        PromotedPass(promoted, organic, passes, Mix(feed, promotedIndex, organicIndex));
        var videoToInsert := promoted[promotedIndex % |promoted|];
        if !HasId(feed, videoToInsert.video.id) {
          feed := feed + [videoToInsert];
        }
        promotedIndex := promotedIndex + 1;
        passes := passes + 1;
        continue;
      }
      if organicIndex < |organic| {
        OrganicPass(promoted, organic, passes, Mix(feed, promotedIndex, organicIndex));
        feed := feed + [organic[organicIndex]];
        organicIndex := organicIndex + 1;
      } else {
        PromotedPass(promoted, organic, passes, Mix(feed, promotedIndex, organicIndex));
        var videoToInsert := promoted[promotedIndex % |promoted|];
        if !HasId(feed, videoToInsert.video.id) {
          feed := feed + [videoToInsert];
        }
        promotedIndex := promotedIndex + 1;
      }
      passes := passes + 1;
    }
  }

  // ---------------------------------------------------------------------------
  // Back-fill with liked videos, and the whole feed
  // ---------------------------------------------------------------------------

  function Absent(feed: seq<RankedVideo>): RankedVideo -> bool {
    (lv: RankedVideo) => !HasId(feed, lv.video.id)
  }

  /** Step 5: the liked videos whose id is not in the feed yet fill the space left
      under 50, in ranked order, after everything the mixing loop placed. */
  function Backfill(feed: seq<RankedVideo>, liked: seq<RankedVideo>): (r: seq<RankedVideo>)
    requires |feed| <= TargetFeedSize
    ensures |feed| <= |r| <= TargetFeedSize && r[..|feed|] == feed
    ensures r[|feed|..] <= Filter(liked, Absent(feed))
    ensures |r| == TargetFeedSize || r[|feed|..] == Filter(liked, Absent(feed))
  {
    var remainingSpace := TargetFeedSize - |feed|;
    if remainingSpace > 0 && |liked| > 0 then
      var r := feed + Take(Filter(liked, Absent(feed)), remainingSpace);
      assert r[|feed|..] == Take(Filter(liked, Absent(feed)), remainingSpace);
      r
    else
      assert feed[|feed|..] == [];
      feed
  }

  /** Back-filling keeps ids distinct. */
  lemma BackfillDistinct(feed: seq<RankedVideo>, liked: seq<RankedVideo>)
    requires |feed| <= TargetFeedSize
    requires KeysDistinct(feed, Id) && KeysDistinct(liked, Id)
    ensures KeysDistinct(Backfill(feed, liked), Id)
  {
    var r := Backfill(feed, liked);
    var tail := r[|feed|..];
    var candidates := Filter(liked, Absent(feed));
    FilterKeepsDistinct(liked, Absent(feed), Id);
    assert KeysDistinct(tail, Id) by {
      forall i, j | 0 <= i < j < |tail| ensures Id(tail[i]) != Id(tail[j]) {
        assert tail[i] == candidates[i] && tail[j] == candidates[j];
      }
    }
    forall i, j | 0 <= i < |feed| && 0 <= j < |tail| ensures Id(feed[i]) != Id(tail[j]) {
      assert tail[j] == candidates[j];
      assert Absent(feed)(tail[j]);
    }
    ConcatKeepsDistinct(feed, tail, Id);
    assert r == feed + tail;
  }

  /** `GET /fy` can answer: the pool is empty, or the mixing loop stops on the buckets of this pool. */
  predicate FeedTerminates(pool: seq<Video>, seen: set<string>, favourites: set<string>, now: int) {
    var ranked := RankVideos(FilterByTestPerformance(pool), now);
    pool == []
    || InterleaveTerminates(|Bucketed(ranked, seen, favourites, now, Promoted)|,
                            |Bucketed(ranked, seen, favourites, now, Priority)| + |Bucketed(ranked, seen, favourites, now, Exploration)|)
  }

  /** Steps 1 to 5 of `GET /fy` after the query: gate, rank, bucket, mix, back-fill, cut at 50. */
  method GetFeed(pool: seq<Video>, seen: set<string>, favourites: set<string>, now: int) returns (feed: seq<RankedVideo>)
    requires KeysDistinct(pool, VideoId)
    requires FeedTerminates(pool, seen, favourites, now)
    ensures pool == [] ==> feed == []
    ensures |feed| <= TargetFeedSize
    ensures KeysDistinct(feed, Id)
    ensures forall i :: 0 <= i < |feed| ==>
      feed[i].video in pool && PassesTestPerformance(feed[i].video) && feed[i] == Rank(feed[i].video, now)
    ensures forall i :: 0 <= i < |feed| ==> Classify(feed[i].video, seen, favourites, now) != Seen
    ensures forall i, j :: 0 <= i < j < |feed| && Classify(feed[i].video, seen, favourites, now) == Liked
                           ==> Classify(feed[j].video, seen, favourites, now) == Liked
    ensures (exists i :: 0 <= i < |pool| && ActivePromotion(pool[i], now) && PassesTestPerformance(pool[i]))
            ==> |feed| > 0 && ActivePromotion(feed[0].video, now)
    ensures |feed| == TargetFeedSize
            || forall v :: v in pool && PassesTestPerformance(v) && Classify(v, seen, favourites, now) != Seen ==> Rank(v, now) in feed
  {
    if |pool| == 0 {
      return [];
    }
    var gated := FilterByTestPerformance(pool);
    var ranked := RankVideos(gated, now);
    RankedPoolDistinct(pool, now);
    var promoted, liked, priority, exploration := Partition(ranked, seen, favourites, now);
    var organicQueue := priority + exploration;
    OrganicQueueDistinct(ranked, seen, favourites, now);
    var mixed, passes := InterleaveFeed(promoted, organicQueue);
    var filled := Backfill(mixed, liked);
    feed := Take(filled, TargetFeedSize);
    FeedOutcome(pool, seen, favourites, now, ranked, promoted, liked, priority, exploration, mixed, feed);
    FeedCovers(pool, seen, favourites, now, ranked, promoted, liked, priority, exploration, mixed, feed);
  }

  lemma RankedPoolDistinct(pool: seq<Video>, now: int)
    requires KeysDistinct(pool, VideoId)
    ensures KeysDistinct(RankVideos(FilterByTestPerformance(pool), now), Id)
  {
    FilterKeepsDistinct(pool, PassesTestPerformance, VideoId);
    RankedIdsDistinct(FilterByTestPerformance(pool), now);
  }

  /** A ranked video comes, scored, from a pool video that passes the gate. */
  lemma RankedElement(pool: seq<Video>, now: int, x: RankedVideo)
    requires x in RankVideos(FilterByTestPerformance(pool), now)
    ensures x.video in pool && PassesTestPerformance(x.video) && x == Rank(x.video, now)
  {
    var ranked := RankVideos(FilterByTestPerformance(pool), now);
    var gated := FilterByTestPerformance(pool);
    var k :| 0 <= k < |ranked| && ranked[k] == x;
    var j :| 0 <= j < |gated| && gated[j] == x.video;
  }

  /** Where each video of the final feed comes from: the mixed part holds no liked
      video, the back-filled part only liked ones, and none was dropped as seen. */
  lemma FeedClassified(seen: set<string>, favourites: set<string>, now: int, ranked: seq<RankedVideo>,
                       promoted: seq<RankedVideo>, liked: seq<RankedVideo>, priority: seq<RankedVideo>, exploration: seq<RankedVideo>,
                       mixed: seq<RankedVideo>, feed: seq<RankedVideo>)
    requires promoted == Bucketed(ranked, seen, favourites, now, Promoted)
    requires liked == Bucketed(ranked, seen, favourites, now, Liked)
    requires priority == Bucketed(ranked, seen, favourites, now, Priority)
    requires exploration == Bucketed(ranked, seen, favourites, now, Exploration)
    requires |mixed| <= TargetFeedSize
    requires forall i :: 0 <= i < |mixed| ==> mixed[i] in promoted || mixed[i] in priority + exploration
    requires feed == Take(Backfill(mixed, liked), TargetFeedSize)
    ensures |mixed| <= |feed| && feed[..|mixed|] == mixed
    ensures forall i :: 0 <= i < |feed| ==> feed[i] in ranked && Classify(feed[i].video, seen, favourites, now) != Seen
    ensures forall i :: 0 <= i < |feed| ==> (Classify(feed[i].video, seen, favourites, now) == Liked <==> i >= |mixed|)
    ensures forall i, j :: 0 <= i < j < |feed| && Classify(feed[i].video, seen, favourites, now) == Liked
                           ==> Classify(feed[j].video, seen, favourites, now) == Liked
  {
    var filled := Backfill(mixed, liked);
    assert feed == filled;
    forall i | 0 <= i < |feed|
      ensures feed[i] in ranked && Classify(feed[i].video, seen, favourites, now) != Seen
      ensures Classify(feed[i].video, seen, favourites, now) == Liked <==> i >= |mixed|
    {
      if i < |mixed| {
        var x := mixed[i];
        assert feed[i] == filled[..|mixed|][i] == x;
        if x in promoted {
          BucketMember(ranked, seen, favourites, now, Promoted, x);
        } else if x in priority {
          BucketMember(ranked, seen, favourites, now, Priority, x);
        } else {
          assert x in exploration;
          BucketMember(ranked, seen, favourites, now, Exploration, x);
        }
      } else {
        var candidates := Filter(liked, Absent(mixed));
        assert feed[i] == filled[|mixed|..][i - |mixed|] == candidates[i - |mixed|];
        BucketMember(ranked, seen, favourites, now, Liked, feed[i]);
      }
    }
  }

  /** The guarantees of `GetFeed`, from what each step promises. */
  lemma FeedOutcome(pool: seq<Video>, seen: set<string>, favourites: set<string>, now: int, ranked: seq<RankedVideo>,
                    promoted: seq<RankedVideo>, liked: seq<RankedVideo>, priority: seq<RankedVideo>, exploration: seq<RankedVideo>,
                    mixed: seq<RankedVideo>, feed: seq<RankedVideo>)
    requires ranked == RankVideos(FilterByTestPerformance(pool), now) && KeysDistinct(ranked, Id)
    requires promoted == Bucketed(ranked, seen, favourites, now, Promoted)
    requires liked == Bucketed(ranked, seen, favourites, now, Liked)
    requires priority == Bucketed(ranked, seen, favourites, now, Priority)
    requires exploration == Bucketed(ranked, seen, favourites, now, Exploration)
    requires |mixed| <= TargetFeedSize && KeysDistinct(mixed, Id)
    requires forall i :: 0 <= i < |mixed| ==> mixed[i] in promoted || mixed[i] in priority + exploration
    requires |promoted| > 0 ==> |mixed| > 0 && mixed[0] == promoted[0]
    requires feed == Take(Backfill(mixed, liked), TargetFeedSize)
    ensures |feed| <= TargetFeedSize
    ensures KeysDistinct(feed, Id)
    ensures forall i :: 0 <= i < |feed| ==>
      feed[i].video in pool && PassesTestPerformance(feed[i].video) && feed[i] == Rank(feed[i].video, now)
    ensures forall i :: 0 <= i < |feed| ==> Classify(feed[i].video, seen, favourites, now) != Seen
    ensures forall i, j :: 0 <= i < j < |feed| && Classify(feed[i].video, seen, favourites, now) == Liked
                           ==> Classify(feed[j].video, seen, favourites, now) == Liked
    ensures (exists i :: 0 <= i < |pool| && ActivePromotion(pool[i], now) && PassesTestPerformance(pool[i]))
            ==> |feed| > 0 && ActivePromotion(feed[0].video, now)
  {
    FeedClassified(seen, favourites, now, ranked, promoted, liked, priority, exploration, mixed, feed);
    FeedDistinct(ranked, seen, favourites, now, liked, mixed, feed);
    FeedOrigins(pool, now, ranked, feed);
    FeedOpening(pool, seen, favourites, now, ranked, promoted, mixed, feed);
  }

  /** A feed shorter than 50 holds every pool video that passes the gate and is not seen. */
  lemma FeedCovers(pool: seq<Video>, seen: set<string>, favourites: set<string>, now: int, ranked: seq<RankedVideo>,
                   promoted: seq<RankedVideo>, liked: seq<RankedVideo>, priority: seq<RankedVideo>, exploration: seq<RankedVideo>,
                   mixed: seq<RankedVideo>, feed: seq<RankedVideo>)
    requires ranked == RankVideos(FilterByTestPerformance(pool), now) && KeysDistinct(ranked, Id)
    requires promoted == Bucketed(ranked, seen, favourites, now, Promoted)
    requires liked == Bucketed(ranked, seen, favourites, now, Liked)
    requires priority == Bucketed(ranked, seen, favourites, now, Priority)
    requires exploration == Bucketed(ranked, seen, favourites, now, Exploration)
    requires |mixed| <= TargetFeedSize
    requires forall i :: 0 <= i < |mixed| ==> mixed[i] in promoted || mixed[i] in priority + exploration
    requires |mixed| == TargetFeedSize
             || (Filter(mixed, InSeq(promoted)) == promoted && Filter(mixed, InSeq(priority + exploration)) == priority + exploration)
    requires feed == Take(Backfill(mixed, liked), TargetFeedSize)
    ensures |feed| == TargetFeedSize
            || forall v :: v in pool && PassesTestPerformance(v) && Classify(v, seen, favourites, now) != Seen ==> Rank(v, now) in feed
  {
    FeedComplete(seen, favourites, now, ranked, promoted, liked, priority, exploration, mixed, feed);
    if |feed| < TargetFeedSize {
      forall v | v in pool && PassesTestPerformance(v) && Classify(v, seen, favourites, now) != Seen
        ensures Rank(v, now) in feed
      {
        RankedHasEvery(pool, now, v);
      }
    }
  }

  lemma FeedDistinct(ranked: seq<RankedVideo>, seen: set<string>, favourites: set<string>, now: int,
                     liked: seq<RankedVideo>, mixed: seq<RankedVideo>, feed: seq<RankedVideo>)
    requires KeysDistinct(ranked, Id) && liked == Bucketed(ranked, seen, favourites, now, Liked)
    requires |mixed| <= TargetFeedSize && KeysDistinct(mixed, Id)
    requires feed == Take(Backfill(mixed, liked), TargetFeedSize)
    ensures |feed| <= TargetFeedSize && KeysDistinct(feed, Id)
  {
    FilterKeepsDistinct(ranked, InBucket(seen, favourites, now, Liked), Id);
    BackfillDistinct(mixed, liked);
    assert feed == Backfill(mixed, liked);
  }

  lemma FeedOrigins(pool: seq<Video>, now: int, ranked: seq<RankedVideo>, feed: seq<RankedVideo>)
    requires ranked == RankVideos(FilterByTestPerformance(pool), now)
    requires forall i :: 0 <= i < |feed| ==> feed[i] in ranked
    ensures forall i :: 0 <= i < |feed| ==>
      feed[i].video in pool && PassesTestPerformance(feed[i].video) && feed[i] == Rank(feed[i].video, now)
  {
    forall i | 0 <= i < |feed|
      ensures feed[i].video in pool && PassesTestPerformance(feed[i].video) && feed[i] == Rank(feed[i].video, now)
    {
      RankedElement(pool, now, feed[i]);
    }
  }

  lemma FeedOpening(pool: seq<Video>, seen: set<string>, favourites: set<string>, now: int, ranked: seq<RankedVideo>,
                    promoted: seq<RankedVideo>, mixed: seq<RankedVideo>, feed: seq<RankedVideo>)
    requires ranked == RankVideos(FilterByTestPerformance(pool), now)
    requires promoted == Bucketed(ranked, seen, favourites, now, Promoted)
    requires |promoted| > 0 ==> |mixed| > 0 && mixed[0] == promoted[0]
    requires |mixed| <= |feed| && feed[..|mixed|] == mixed
    ensures (exists i :: 0 <= i < |pool| && ActivePromotion(pool[i], now) && PassesTestPerformance(pool[i]))
            ==> |feed| > 0 && ActivePromotion(feed[0].video, now)
  {
    PromotionOpensFeed(pool, seen, favourites, now, ranked, promoted);
    if |promoted| > 0 {
      assert feed[0] == mixed[0] == promoted[0];
      BucketMember(ranked, seen, favourites, now, Promoted, promoted[0]);
    }
  }

  /** Every pool video that passes the gate is ranked. */
  lemma RankedHasEvery(pool: seq<Video>, now: int, v: Video)
    requires v in pool && PassesTestPerformance(v)
    ensures Rank(v, now) in RankVideos(FilterByTestPerformance(pool), now)
  {
    var gated := FilterByTestPerformance(pool);
    var i :| 0 <= i < |pool| && pool[i] == v;
    assert v in gated;
    var k :| 0 <= k < |gated| && gated[k] == v;
    var scored := Map(gated, RankAt(now));
    assert scored[k] == Rank(v, now);
    assert Rank(v, now) in multiset(scored);
  }

  /** A list the feed has used up is inside the feed. */
  lemma UsedUpIn(mixed: seq<RankedVideo>, s: seq<RankedVideo>, x: RankedVideo)
    requires Filter(mixed, InSeq(s)) == s && x in s
    ensures x in mixed
  {
    var r := Filter(mixed, InSeq(s));
    var i :| 0 <= i < |r| && r[i] == x;
  }

  /** A feed shorter than 50 holds every ranked video that is not seen: the
      mixing loop used up the promoted and organic buckets, and the back-fill
      appended every liked video, none of which the loop had placed. */
  lemma FeedComplete(seen: set<string>, favourites: set<string>, now: int, ranked: seq<RankedVideo>,
                     promoted: seq<RankedVideo>, liked: seq<RankedVideo>, priority: seq<RankedVideo>, exploration: seq<RankedVideo>,
                     mixed: seq<RankedVideo>, feed: seq<RankedVideo>)
    requires KeysDistinct(ranked, Id)
    requires promoted == Bucketed(ranked, seen, favourites, now, Promoted)
    requires liked == Bucketed(ranked, seen, favourites, now, Liked)
    requires priority == Bucketed(ranked, seen, favourites, now, Priority)
    requires exploration == Bucketed(ranked, seen, favourites, now, Exploration)
    requires |mixed| <= TargetFeedSize
    requires forall i :: 0 <= i < |mixed| ==> mixed[i] in promoted || mixed[i] in priority + exploration
    requires |mixed| == TargetFeedSize
             || (Filter(mixed, InSeq(promoted)) == promoted && Filter(mixed, InSeq(priority + exploration)) == priority + exploration)
    requires feed == Take(Backfill(mixed, liked), TargetFeedSize)
    ensures |feed| == TargetFeedSize
            || forall x :: x in ranked && Classify(x.video, seen, favourites, now) != Seen ==> x in feed
  {
    var filled := Backfill(mixed, liked);
    assert feed == filled;
    if |feed| < TargetFeedSize {
      assert feed[..|mixed|] == mixed;
      forall x | x in ranked && Classify(x.video, seen, favourites, now) != Seen
        ensures x in feed
      {
        var k := Classify(x.video, seen, favourites, now);
        var i :| 0 <= i < |ranked| && ranked[i] == x;
        assert InBucket(seen, favourites, now, k)(ranked[i]);
        assert x in Bucketed(ranked, seen, favourites, now, k);
        if k == Liked {
          LikedNotMixed(seen, favourites, now, ranked, promoted, priority, exploration, mixed, x);
          var m :| 0 <= m < |liked| && liked[m] == x;
          assert Absent(mixed)(liked[m]);
          assert x in filled[|mixed|..];
        } else if k == Promoted {
          UsedUpIn(mixed, promoted, x);
          assert x in feed[..|mixed|];
        } else {
          UsedUpIn(mixed, priority + exploration, x);
          assert x in feed[..|mixed|];
        }
      }
    }
  }

  /** No video of the mixed part shares its id with a liked video. */
  lemma LikedNotMixed(seen: set<string>, favourites: set<string>, now: int, ranked: seq<RankedVideo>,
                      promoted: seq<RankedVideo>, priority: seq<RankedVideo>, exploration: seq<RankedVideo>,
                      mixed: seq<RankedVideo>, x: RankedVideo)
    requires KeysDistinct(ranked, Id)
    requires promoted == Bucketed(ranked, seen, favourites, now, Promoted)
    requires priority == Bucketed(ranked, seen, favourites, now, Priority)
    requires exploration == Bucketed(ranked, seen, favourites, now, Exploration)
    requires forall i :: 0 <= i < |mixed| ==> mixed[i] in promoted || mixed[i] in priority + exploration
    requires x in ranked && Classify(x.video, seen, favourites, now) == Liked
    ensures !HasId(mixed, x.video.id)
  {
    forall j | 0 <= j < |mixed| ensures mixed[j].video.id != x.video.id {
      var y := mixed[j];
      if y in promoted {
        BucketMember(ranked, seen, favourites, now, Promoted, y);
      } else if y in priority {
        BucketMember(ranked, seen, favourites, now, Priority, y);
      } else {
        assert y in exploration;
        BucketMember(ranked, seen, favourites, now, Exploration, y);
      }
      assert y != x;
      DistinctElementsDistinctKeys(ranked, Id, y, x);
    }
  }

  lemma BucketMember(ranked: seq<RankedVideo>, seen: set<string>, favourites: set<string>, now: int, k: Bucket, x: RankedVideo)
    requires x in Bucketed(ranked, seen, favourites, now, k)
    ensures x in ranked && Classify(x.video, seen, favourites, now) == k
  {
    var b := Bucketed(ranked, seen, favourites, now, k);
    var i :| 0 <= i < |b| && b[i] == x;
  }

  /** The organic queue `priority ++ exploration` and the promoted bucket share no id. */
  lemma OrganicQueueDistinct(ranked: seq<RankedVideo>, seen: set<string>, favourites: set<string>, now: int)
    requires KeysDistinct(ranked, Id)
    ensures KeysDistinct(Bucketed(ranked, seen, favourites, now, Promoted)
                         + (Bucketed(ranked, seen, favourites, now, Priority) + Bucketed(ranked, seen, favourites, now, Exploration)), Id)
  {
    var promoted := Bucketed(ranked, seen, favourites, now, Promoted);
    var priority := Bucketed(ranked, seen, favourites, now, Priority);
    var exploration := Bucketed(ranked, seen, favourites, now, Exploration);
    FilterKeepsDistinct(ranked, InBucket(seen, favourites, now, Promoted), Id);
    FilterKeepsDistinct(ranked, InBucket(seen, favourites, now, Priority), Id);
    FilterKeepsDistinct(ranked, InBucket(seen, favourites, now, Exploration), Id);
    BucketsApart(ranked, seen, favourites, now, Priority, Exploration);
    ConcatKeepsDistinct(priority, exploration, Id);
    BucketsApart(ranked, seen, favourites, now, Promoted, Priority);
    BucketsApart(ranked, seen, favourites, now, Promoted, Exploration);
    ApartFromConcat(promoted, priority, exploration);
    ConcatKeepsDistinct(promoted, priority + exploration, Id);
  }

  /** `BucketsDisjoint` by position. */
  lemma BucketsApart(ranked: seq<RankedVideo>, seen: set<string>, favourites: set<string>, now: int, k1: Bucket, k2: Bucket)
    requires KeysDistinct(ranked, Id) && k1 != k2
    ensures forall i, j :: 0 <= i < |Bucketed(ranked, seen, favourites, now, k1)| && 0 <= j < |Bucketed(ranked, seen, favourites, now, k2)|
                           ==> Id(Bucketed(ranked, seen, favourites, now, k1)[i]) != Id(Bucketed(ranked, seen, favourites, now, k2)[j])
  {
    var b1 := Bucketed(ranked, seen, favourites, now, k1);
    var b2 := Bucketed(ranked, seen, favourites, now, k2);
    BucketsDisjoint(ranked, seen, favourites, now, k1, k2);
    forall i, j | 0 <= i < |b1| && 0 <= j < |b2| ensures Id(b1[i]) != Id(b2[j]) {
      assert b1[i] in b1 && b2[j] in b2;
    }
  }

  lemma ApartFromConcat(a: seq<RankedVideo>, b: seq<RankedVideo>, c: seq<RankedVideo>)
    requires forall i, j :: 0 <= i < |a| && 0 <= j < |b| ==> Id(a[i]) != Id(b[j])
    requires forall i, j :: 0 <= i < |a| && 0 <= j < |c| ==> Id(a[i]) != Id(c[j])
    ensures forall i, j :: 0 <= i < |a| && 0 <= j < |b + c| ==> Id(a[i]) != Id((b + c)[j])
  {
    forall i, j | 0 <= i < |a| && 0 <= j < |b + c| ensures Id(a[i]) != Id((b + c)[j]) {
      if j < |b| {
        assert (b + c)[j] == b[j];
      } else {
        assert (b + c)[j] == c[j - |b|];
      }
    }
  }

  /** A live promotion that passes the gate puts the promoted bucket in use. */
  lemma PromotionOpensFeed(pool: seq<Video>, seen: set<string>, favourites: set<string>, now: int,
                           ranked: seq<RankedVideo>, promoted: seq<RankedVideo>)
    requires ranked == RankVideos(FilterByTestPerformance(pool), now)
    requires promoted == Bucketed(ranked, seen, favourites, now, Promoted)
    ensures (exists i :: 0 <= i < |pool| && ActivePromotion(pool[i], now) && PassesTestPerformance(pool[i])) ==> |promoted| > 0
  {
    if i :| 0 <= i < |pool| && ActivePromotion(pool[i], now) && PassesTestPerformance(pool[i]) {
      var gated := FilterByTestPerformance(pool);
      assert pool[i] in gated;
      var k :| 0 <= k < |gated| && gated[k] == pool[i];
      var scored := Map(gated, RankAt(now));
      assert scored[k] == Rank(pool[i], now);
      assert scored[k] in multiset(ranked);
      var x := Rank(pool[i], now);
      var j :| 0 <= j < |ranked| && ranked[j] == x;
      assert InBucket(seen, favourites, now, Promoted)(ranked[j]);
      assert ranked[j] in promoted;
    }
  }
}
