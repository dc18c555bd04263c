/**
 * The unified feed envelope every platform service returns, and the order
 * the subscription feed is served in.
 */
module FeedVideos {
  import opened Wrappers

  /** The unified feed envelope; the last three fields are set for recommended videos only. */
  datatype FeedVideo = FeedVideo(
    id: string,
    platform: string,
    kind: string,
    title: string,
    description: string,
    url: string,
    thumbnail: string,
    channelTitle: string,
    channelId: string,
    publishedAt: string,
    viewCount: Option<string>,
    likeCount: Option<string>,
    duration: Option<string>)

  // ---------------------------------------------------------------------
  // The sort by publishedAt


  /** The sort key: the parsed date, and 0 for a missing one. */
  function PublishedKey(v: FeedVideo, parseDate: string -> int): int {
    if v.publishedAt == "" then 0 else parseDate(v.publishedAt)
  }

  predicate SortedByPublished(s: seq<FeedVideo>, parseDate: string -> int) {
    forall i, j :: 0 <= i < j < |s| ==> PublishedKey(s[i], parseDate) <= PublishedKey(s[j], parseDate)
  }

  /** The items with the given key, in order. */
  function WithKey(s: seq<FeedVideo>, key: int, parseDate: string -> int): seq<FeedVideo> {
    if s == [] then []
    else (if PublishedKey(s[0], parseDate) == key then [s[0]] else []) + WithKey(s[1..], key, parseDate)
  }

  /** Puts `v` before the first item whose key is not smaller. */
  function InsertByPublished(v: FeedVideo, s: seq<FeedVideo>, parseDate: string -> int): seq<FeedVideo> {
    if s == [] then [v]
    else if PublishedKey(v, parseDate) <= PublishedKey(s[0], parseDate) then [v] + s
    else [s[0]] + InsertByPublished(v, s[1..], parseDate)
  }

  /**
   * `videos.sort((a, b) => time(a) - time(b))`: the comparator's variable names
   * are swapped, so the order is ascending (oldest first); the sort is stable.
   */
  function SortByPublished(s: seq<FeedVideo>, parseDate: string -> int): seq<FeedVideo> {
    if s == [] then [] else InsertByPublished(s[0], SortByPublished(s[1..], parseDate), parseDate)
  }

  lemma {:induction false} InsertMembers(v: FeedVideo, s: seq<FeedVideo>, parseDate: string -> int)
    ensures |InsertByPublished(v, s, parseDate)| == |s| + 1
    ensures forall x :: x in InsertByPublished(v, s, parseDate) <==> x == v || x in s
    ensures multiset(InsertByPublished(v, s, parseDate)) == multiset(s) + multiset{v}
  {
    if s != [] && PublishedKey(v, parseDate) > PublishedKey(s[0], parseDate) {
      InsertMembers(v, s[1..], parseDate);
      assert s == [s[0]] + s[1..];
    }
  }

  /** An item no later than every item of a sorted sequence can go in front of it. */
  lemma PrependSorted(x: FeedVideo, s: seq<FeedVideo>, parseDate: string -> int)
    requires SortedByPublished(s, parseDate)
    requires forall y :: y in s ==> PublishedKey(x, parseDate) <= PublishedKey(y, parseDate)
    ensures SortedByPublished([x] + s, parseDate)
  {
    var full := [x] + s;
    forall i, j | 0 <= i < j < |full|
      ensures PublishedKey(full[i], parseDate) <= PublishedKey(full[j], parseDate)
    {
      assert full[j] == s[j - 1];
      if i == 0 {
        assert s[j - 1] in s;
      } else {
        assert full[i] == s[i - 1];
      }
    }
  }

  lemma {:induction false} InsertSorted(v: FeedVideo, s: seq<FeedVideo>, parseDate: string -> int)
    requires SortedByPublished(s, parseDate)
    ensures SortedByPublished(InsertByPublished(v, s, parseDate), parseDate)
  {
    if s == [] {
    } else if PublishedKey(v, parseDate) <= PublishedKey(s[0], parseDate) {
      forall y | y in s ensures PublishedKey(v, parseDate) <= PublishedKey(y, parseDate) {
        var j :| 0 <= j < |s| && s[j] == y;
        assert PublishedKey(s[0], parseDate) <= PublishedKey(s[j], parseDate);
      }
      PrependSorted(v, s, parseDate);
    } else {
      var tail := s[1..];
      forall y | y in tail ensures PublishedKey(s[0], parseDate) <= PublishedKey(y, parseDate) {
        var j :| 0 <= j < |tail| && tail[j] == y;
        assert tail[j] == s[j + 1];
      }
      assert SortedByPublished(tail, parseDate) by {
        assert forall i :: 0 <= i < |tail| ==> tail[i] == s[i + 1];
      }
      InsertSorted(v, tail, parseDate);
      InsertMembers(v, tail, parseDate);
      PrependSorted(s[0], InsertByPublished(v, tail, parseDate), parseDate);
    }
  }

  /** The subscription feed's order: non-decreasing by publishedAt ... */
  lemma {:induction false} SortByPublishedSorted(s: seq<FeedVideo>, parseDate: string -> int)
    ensures SortedByPublished(SortByPublished(s, parseDate), parseDate)
    ensures multiset(SortByPublished(s, parseDate)) == multiset(s)
  {
    if s != [] {
      SortByPublishedSorted(s[1..], parseDate);
      InsertSorted(s[0], SortByPublished(s[1..], parseDate), parseDate);
      InsertMembers(s[0], SortByPublished(s[1..], parseDate), parseDate);
      assert s == [s[0]] + s[1..];
    }
  }

  lemma {:induction false} InsertStable(v: FeedVideo, s: seq<FeedVideo>, key: int, parseDate: string -> int)
    ensures WithKey(InsertByPublished(v, s, parseDate), key, parseDate)
      == (if PublishedKey(v, parseDate) == key then [v] else []) + WithKey(s, key, parseDate)
  {
    if s == [] {
      assert [v][1..] == [];
    } else if PublishedKey(v, parseDate) <= PublishedKey(s[0], parseDate) {
      assert ([v] + s)[1..] == s;
    } else {
      var r := InsertByPublished(v, s[1..], parseDate);
      var vk: seq<FeedVideo> := if PublishedKey(v, parseDate) == key then [v] else [];
      var sk: seq<FeedVideo> := if PublishedKey(s[0], parseDate) == key then [s[0]] else [];
      InsertStable(v, s[1..], key, parseDate);
      assert ([s[0]] + r)[0] == s[0] && ([s[0]] + r)[1..] == r;
      assert vk == [] || sk == [];
      calc {
        WithKey([s[0]] + r, key, parseDate);
        sk + WithKey(r, key, parseDate);
        sk + (vk + WithKey(s[1..], key, parseDate));
        vk + (sk + WithKey(s[1..], key, parseDate));
        vk + WithKey(s, key, parseDate);
      }
    }
  }

  /** ... and stable: the items sharing a key keep their relative order. */
  lemma {:induction false} SortByPublishedStable(s: seq<FeedVideo>, key: int, parseDate: string -> int)
    ensures WithKey(SortByPublished(s, parseDate), key, parseDate) == WithKey(s, key, parseDate)
  {
    if s != [] {
      SortByPublishedStable(s[1..], key, parseDate);
      InsertStable(s[0], SortByPublished(s[1..], parseDate), key, parseDate);
    }
  }

}
