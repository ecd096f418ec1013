/**
 * The process-wide message counters (`SimpleAnalytics`). Every tracked
 * message bumps the total and exactly one of the AI and fallback counters;
 * nothing ever decreases a counter.
 */
module Analytics {

  /** The `type` argument of `trackMessage`; any other string bumps no media counter. */
  datatype MessageKind = TextMessage | ImageMessage | LocationMessage | GalleryMessage

  /** A snapshot of `this.stats` (its `startTime` is left out with the clock). */
  datatype Counters = Counters(
    totalMessages: nat,
    uniqueUsers: set<string>,
    aiResponses: nat,
    fallbackResponses: nat,
    imageRequests: nat,
    locationRequests: nat,
    galleryRequests: nat,
    errors: nat)

  /** The counters of a freshly started process. */
  const Initial := Counters(0, {}, 0, 0, 0, 0, 0, 0)

  /** The relations between the counters that tracking keeps. */
  ghost predicate Balanced(c: Counters) {
    && c.totalMessages == c.aiResponses + c.fallbackResponses
    && c.imageRequests + c.locationRequests + c.galleryRequests <= c.totalMessages
    && |c.uniqueUsers| <= c.totalMessages
  }

  /** No counter goes down from `c` to `d`, and the user set only grows. */
  ghost predicate Grows(c: Counters, d: Counters) {
    && c.totalMessages <= d.totalMessages
    && c.uniqueUsers <= d.uniqueUsers
    && c.aiResponses <= d.aiResponses
    && c.fallbackResponses <= d.fallbackResponses
    && c.imageRequests <= d.imageRequests
    && c.locationRequests <= d.locationRequests
    && c.galleryRequests <= d.galleryRequests
    && c.errors <= d.errors
  }

  /** `trackMessage(userId, isAI, type)` on a snapshot. */
  function Track(c: Counters, user: string, isAI: bool, kind: MessageKind): (d: Counters)
    ensures Grows(c, d)
    ensures d.totalMessages == c.totalMessages + 1
    ensures d.aiResponses + d.fallbackResponses == c.aiResponses + c.fallbackResponses + 1
    ensures d.aiResponses == c.aiResponses + 1 <==> isAI
    ensures user in d.uniqueUsers
    ensures d.errors == c.errors
  {
    c.(totalMessages := c.totalMessages + 1,
       uniqueUsers := c.uniqueUsers + {user},
       aiResponses := if isAI then c.aiResponses + 1 else c.aiResponses,
       fallbackResponses := if isAI then c.fallbackResponses else c.fallbackResponses + 1,
       imageRequests := if kind == ImageMessage then c.imageRequests + 1 else c.imageRequests,
       locationRequests := if kind == LocationMessage then c.locationRequests + 1 else c.locationRequests,
       galleryRequests := if kind == GalleryMessage then c.galleryRequests + 1 else c.galleryRequests)
  }

  /** Tracking a message keeps the counters balanced. */
  lemma TrackKeepsBalance(c: Counters, user: string, isAI: bool, kind: MessageKind)
    requires Balanced(c)
    ensures Balanced(Track(c, user, isAI, kind))
  {
    assert |c.uniqueUsers + {user}| <= |c.uniqueUsers| + 1;
  }

  class SimpleAnalytics {
    var totalMessages: nat
    var uniqueUsers: set<string>
    var aiResponses: nat
    var fallbackResponses: nat
    var imageRequests: nat
    var locationRequests: nat
    var galleryRequests: nat
    var errors: nat

    function Snapshot(): Counters
      reads this
    {
      Counters(totalMessages, uniqueUsers, aiResponses, fallbackResponses,
               imageRequests, locationRequests, galleryRequests, errors)
    }

    /** `Balanced(Snapshot())`, written over the fields (see `ValidIsBalanced`). */
    ghost predicate Valid()
      reads this
    {
      && totalMessages == aiResponses + fallbackResponses
      && imageRequests + locationRequests + galleryRequests <= totalMessages
      && |uniqueUsers| <= totalMessages
    }

    lemma ValidIsBalanced()
      ensures Valid() <==> Balanced(Snapshot())
    {
    }

    constructor ()
      ensures Valid()
      ensures totalMessages == 0 && uniqueUsers == {} && aiResponses == 0 && fallbackResponses == 0
      ensures imageRequests == 0 && locationRequests == 0 && galleryRequests == 0 && errors == 0
    {
      totalMessages, uniqueUsers := 0, {};
      aiResponses, fallbackResponses := 0, 0;
      imageRequests, locationRequests, galleryRequests := 0, 0, 0;
      errors := 0;
    }

    method TrackMessage(user: string, isAI: bool, kind: MessageKind)
      requires Valid()
      modifies this
      ensures Valid()
      ensures Snapshot() == Track(old(Snapshot()), user, isAI, kind)
    {
      TrackKeepsBalance(Snapshot(), user, isAI, kind);
      totalMessages := totalMessages + 1;
      uniqueUsers := uniqueUsers + {user};
      if isAI {
        aiResponses := aiResponses + 1;
      } else {
        fallbackResponses := fallbackResponses + 1;
      }
      if kind == ImageMessage { imageRequests := imageRequests + 1; }
      if kind == LocationMessage { locationRequests := locationRequests + 1; }
      if kind == GalleryMessage { galleryRequests := galleryRequests + 1; }
    }

    /** `trackError`: counts one error and touches nothing else. */
    method TrackError()
      requires Valid()
      modifies this
      ensures Valid()
      ensures Snapshot() == old(Snapshot()).(errors := old(errors) + 1)
    {
      errors := errors + 1;
    }
  }
}
