/**
 * The records the YouTube Data API returns for one video, as the pricing code
 * reads them: `video['snippet']['title']` and the three counters under
 * `video['statistics']`. The API may omit a counter (for instance when likes
 * are hidden); every reader of a counter uses `.get(name, 0)`, so an absent
 * counter reads as zero.
 */
module VideoData {
  import opened Wrappers

  datatype VideoStats = VideoStats(viewCount: Option<nat>, likeCount: Option<nat>, commentCount: Option<nat>)

  datatype Video = Video(title: string, statistics: VideoStats)

  function Views(s: VideoStats): nat { s.viewCount.GetOr(0) }

  function Likes(s: VideoStats): nat { s.likeCount.GetOr(0) }

  function Comments(s: VideoStats): nat { s.commentCount.GetOr(0) }
}
