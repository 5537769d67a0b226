/**
 * The decision rules of youtube_utils.py, applied to metadata records that
 * have already been fetched: which playlist entries become tracks, which
 * fetched records are accepted, which search hit is resolved to which link,
 * and where each chapter of an album video starts and ends.
 */
module YoutubeUtils {
  import opened Wrappers
  import opened Text

  const WatchPrefix := "https://www.youtube.com/watch?v="
  const PlaylistPrefix := "https://www.youtube.com/playlist?list="

  /**
   * One item of an `entries` list: a dictionary with the optional keys
   * `id`, `title` and `_type`, or any other value (None, a string, ...).
   */
  datatype Entry =
    | Other
    | Record(id: Option<string>, title: Option<string>, kind: Option<string>)

  datatype Track = Track(id: string, title: string, url: string)

  /** One element of a video's `chapters` list; each key may be missing. */
  datatype Chapter = Chapter(title: Option<string>, startTime: Option<real>, endTime: Option<real>)

  /** The keys of a fetched `info` record that the rules consult. */
  datatype Info = Info(
    id: Option<string>,
    title: Option<string>,
    entries: Option<seq<Entry>>,
    chapters: Option<seq<Chapter>>,
    webpageUrl: Option<string>)

  // ---------------------------------------------------------------------------
  // extract_tracks_from_playlist

  /** `entry and isinstance(entry, dict) and 'id' in entry` */
  predicate HasId(e: Entry) {
    e.Record? && e.id.Some?
  }

  function TrackOf(e: Entry): Track
    requires HasId(e)
  {
    Track(e.id.value, if e.title.Some? then e.title.value else "Unknown Track", WatchPrefix + e.id.value)
  }

  /** The tracks a list of playlist entries yields, entry by entry. */
  function Tracks(entries: seq<Entry>): seq<Track> {
    if entries == [] then []
    else (if HasId(entries[0]) then [TrackOf(entries[0])] else []) + Tracks(entries[1..])
  }

  /** Tracks are collected independently per entry. */
  lemma {:induction false} TracksAppend(a: seq<Entry>, b: seq<Entry>)
    ensures Tracks(a + b) == Tracks(a) + Tracks(b)
  {
    if a != [] {
      assert (a + b)[1..] == a[1..] + b;
      TracksAppend(a[1..], b);
    } else {
      assert a + b == b;
    }
  }

  /**
   * Walks the entries of a playlist record (absent `entries` key: None) and
   * appends one track per dictionary entry that carries an `id`.
   */
  method ExtractTracksFromPlaylist(entries: Option<seq<Entry>>) returns (tracks: seq<Track>)
    ensures entries.None? ==> tracks == []
    ensures entries.Some? ==> tracks == Tracks(entries.value)
  {
    tracks := [];
    if entries.Some? {
      var es := entries.value;
      var i := 0;
      while i < |es|
        invariant 0 <= i <= |es|
        invariant tracks == Tracks(es[..i])
      {
        var e := es[i];
        if e.Record? && e.id.Some? {
          var title := if e.title.Some? then e.title.value else "Unknown Track";
          tracks := tracks + [Track(e.id.value, title, WatchPrefix + e.id.value)];
        }
        assert es[..i + 1] == es[..i] + [e];
        TracksAppend(es[..i], [e]);
        assert Tracks([e]) == (if HasId(e) then [TrackOf(e)] else []) + Tracks([]);
        i := i + 1;
      }
      assert es[..|es|] == es;
    }
  }

  /** At most one track per entry, and exactly one per entry only when every entry has an id. */
  lemma {:induction false} TracksLength(entries: seq<Entry>)
    ensures |Tracks(entries)| <= |entries|
    ensures |Tracks(entries)| == |entries| <==> forall i :: 0 <= i < |entries| ==> HasId(entries[i])
  {
    if entries != [] {
      TracksLength(entries[1..]);
      assert forall i :: 1 <= i < |entries| ==> entries[i] == entries[1..][i - 1];
    }
  }

  /** Every track points at the watch page of its own id. */
  lemma {:induction false} TrackUrls(entries: seq<Entry>)
    ensures forall k :: 0 <= k < |Tracks(entries)| ==> Tracks(entries)[k].url == WatchPrefix + Tracks(entries)[k].id
  {
    if entries != [] {
      TrackUrls(entries[1..]);
    }
  }

  /** When every entry has an id, track k comes from entry k, in order. */
  lemma {:induction false} TracksOfValidEntries(entries: seq<Entry>)
    requires forall i :: 0 <= i < |entries| ==> HasId(entries[i])
    ensures |Tracks(entries)| == |entries|
    ensures forall k :: 0 <= k < |entries| && HasId(entries[k]) ==>
      Tracks(entries)[k].id == entries[k].id.value &&
      Tracks(entries)[k].title == (if entries[k].title.Some? then entries[k].title.value else "Unknown Track")
  {
    if entries != [] {
      TracksOfValidEntries(entries[1..]);
      assert forall k :: 1 <= k < |entries| ==> Tracks(entries)[k] == Tracks(entries[1..])[k - 1];
    }
  }

  /** An entry that is not a dictionary with an id leaves the result untouched. */
  lemma SkippedEntry(a: seq<Entry>, e: Entry, b: seq<Entry>)
    requires !HasId(e)
    ensures Tracks(a + [e] + b) == Tracks(a + b)
  {
    TracksAppend(a + [e], b);
    TracksAppend(a, [e]);
    TracksAppend(a, b);
    assert Tracks([e]) == [] + Tracks([]);
  }

  // ---------------------------------------------------------------------------
  // load_youtube_url

  /** Python truthiness of an optional string: present and non-empty. */
  predicate Truthy(s: Option<string>) {
    s.Some? && s.value != []
  }

  predicate IsPlaylist(info: Info) {
    info.entries.Some? && |info.entries.value| > 1
  }

  predicate IsChaptered(info: Info) {
    info.chapters.Some? && |info.chapters.value| > 1
  }

  /**
   * The acceptance rule applied to the record the fetch produced (None when
   * the fetch raised). A playlist whose id is falsy takes the first entry's
   * id, which raises (and so rejects) when that entry is not a dictionary;
   * a chaptered video whose id is falsy takes the text after the last `=`
   * of its page URL.
   */
  function LoadYoutubeUrl(fetched: Option<Info>): (r: Option<Info>)
    ensures r.Some? ==> fetched.Some? && (IsPlaylist(fetched.value) || IsChaptered(fetched.value))
    ensures fetched.Some? && IsPlaylist(fetched.value) ==>
      (r.Some? <==> Truthy(fetched.value.id) || fetched.value.entries.value[0].Record?)
    ensures fetched.Some? && !IsPlaylist(fetched.value) && IsChaptered(fetched.value) ==> r.Some?
    ensures r.Some? ==> r.value == fetched.value.(id := r.value.id)
    ensures r.Some? && Truthy(fetched.value.id) ==> r.value == fetched.value
    ensures r.Some? && !Truthy(fetched.value.id) && IsPlaylist(fetched.value) ==>
      r.value.id == fetched.value.entries.value[0].id
    ensures r.Some? && !Truthy(fetched.value.id) && !IsPlaylist(fetched.value) ==>
      r.value.id == Some(AfterLast(if fetched.value.webpageUrl.Some? then fetched.value.webpageUrl.value else "", '='))
      && '=' !in r.value.id.value
  {
    if fetched.None? then None
    else
      var info := fetched.value;
      if IsPlaylist(info) then
        if Truthy(info.id) then Some(info)
        else if info.entries.value[0].Record? then Some(info.(id := info.entries.value[0].id))
        else None
      else if IsChaptered(info) then
        if Truthy(info.id) then Some(info)
        else
          var page := if info.webpageUrl.Some? then info.webpageUrl.value else "";
          Some(info.(id := Some(AfterLast(page, '='))))
      else None
  }

  /** A playlist with a single entry and no chapters is rejected. */
  lemma SingleEntryPlaylistRejected(info: Info)
    requires info.entries.Some? && |info.entries.value| == 1
    requires info.chapters.None? || |info.chapters.value| <= 1
    ensures LoadYoutubeUrl(Some(info)).None?
  {
  }

  /** An accepted record is accepted again, unchanged: filling in the id is done once. */
  lemma LoadStable(fetched: Option<Info>)
    requires LoadYoutubeUrl(fetched).Some?
    ensures LoadYoutubeUrl(LoadYoutubeUrl(fetched)) == LoadYoutubeUrl(fetched)
  {
    var info := fetched.value;
    var r := LoadYoutubeUrl(fetched).value;
    if IsPlaylist(info) && !Truthy(info.id) {
      assert r.entries == info.entries;
      assert r == info.(id := info.entries.value[0].id);
    } else if !IsPlaylist(info) && !Truthy(info.id) {
      var page := if info.webpageUrl.Some? then info.webpageUrl.value else "";
      assert r == info.(id := Some(AfterLast(page, '=')));
      assert r.webpageUrl == info.webpageUrl;
    }
  }

  // ---------------------------------------------------------------------------
  // search_youtube_playlist

  /** What the search does next: load a link, hand back the hits, or give up with None. */
  datatype SearchOutcome = Load(link: string) | EntriesOnly(entries: seq<Entry>) | NoResult

  /** A query that is itself a playlist link is loaded without searching. */
  predicate IsDirectLink(query: string) {
    StartsWith(query, "http") && (Contains(query, "list=") || Contains(query, "playlist"))
  }

  predicate IsDigitChar(c: char) {
    '0' <= c <= '9'
  }

  /** `s.isdigit()` restricted to the ASCII digits. */
  predicate IsDigits(s: string) {
    |s| > 0 && forall i :: 0 <= i < |s| ==> IsDigitChar(s[i])
  }

  /** `int(s)` of a string of decimal digits. */
  function DigitsValue(s: string): nat
    requires forall i :: 0 <= i < |s| ==> IsDigitChar(s[i])
  {
    if s == [] then 0
    else
      var last := s[|s| - 1];
      assert IsDigitChar(last);
      DigitsValue(s[..|s| - 1]) * 10 + (last as int - '0' as int)
  }

  /** `str(n)` of a natural number. */
  function DecimalString(n: nat): (s: string)
    ensures IsDigits(s)
    ensures s != [] && (|s| == 1 <==> n < 10)
    ensures |s| == 1 || s[0] != '0'
  {
    var d := ['0' + (n % 10) as char];
    if n < 10 then d else DecimalString(n / 10) + d
  }

  /** Parsing the decimal form of a number gives the number back. */
  lemma {:induction false} DecimalRoundTrip(n: nat)
    ensures DigitsValue(DecimalString(n)) == n
  {
    var s := DecimalString(n);
    if n >= 10 {
      DecimalRoundTrip(n / 10);
      assert s[..|s| - 1] == DecimalString(n / 10);
    }
  }

  /** Different numbers have different decimal forms. */
  lemma DecimalInjective(m: nat, n: nat)
    requires DecimalString(m) == DecimalString(n)
    ensures m == n
  {
    DecimalRoundTrip(m);
    DecimalRoundTrip(n);
  }

  /** Python's `xs[i]` on a list of length n: the position read, None for an IndexError. */
  function PyIndex(n: nat, i: int): (r: Option<nat>)
    ensures r.Some? <==> -(n as int) <= i < n
    ensures r.Some? ==> r.value < n && (r.value == i || r.value == i + n)
  {
    if 0 <= i < n then Some(i)
    else if -(n as int) <= i < 0 then Some(i + n)
    else None
  }

  /** The index argument, else a digit-only AUDIOVISUALIZER_SELECTION_INDEX value, else none. */
  function SelectionIndex(given: Option<int>, env: Option<string>): (r: Option<int>)
    ensures given.Some? ==> r == given
    ensures given.None? && env.Some? && IsDigits(env.value) ==> r == Some(DigitsValue(env.value))
    ensures given.None? && (env.None? || !IsDigits(env.value)) ==> r.None?
  {
    if given.Some? then given
    else if env.Some? && IsDigits(env.value) then Some(DigitsValue(env.value))
    else None
  }

  /** The playlist form is chosen for a playlist-typed hit, a title mentioning playlists, or a `list=` query. */
  predicate WantsPlaylist(query: string, e: Entry)
    requires e.Record?
  {
    e.kind == Some("playlist")
    || Contains(AsciiLower(if e.title.Some? then e.title.value else ""), "playlist")
    || Contains(query, "list=")
  }

  /** An f-string renders a missing id as `None`. */
  function IdText(id: Option<string>): string {
    if id.Some? then id.value else "None"
  }

  function ResolvedUrl(query: string, e: Entry): string
    requires e.Record?
  {
    (if WantsPlaylist(query, e) then PlaylistPrefix else WatchPrefix) + IdText(e.id)
  }

  /** The resolved link is the playlist page exactly when the rule asks for it, and it ends with the hit's id. */
  lemma ResolvedUrlForm(query: string, e: Entry)
    requires e.Record?
    ensures StartsWith(ResolvedUrl(query, e), PlaylistPrefix) <==> WantsPlaylist(query, e)
    ensures StartsWith(ResolvedUrl(query, e), WatchPrefix) <==> !WantsPlaylist(query, e)
    ensures WantsPlaylist(query, e) ==> ResolvedUrl(query, e)[|PlaylistPrefix|..] == IdText(e.id)
    ensures !WantsPlaylist(query, e) ==> ResolvedUrl(query, e)[|WatchPrefix|..] == IdText(e.id)
  {
    var u := ResolvedUrl(query, e);
    assert PlaylistPrefix[24] == 'p' && WatchPrefix[24] == 'w';
    if WantsPlaylist(query, e) {
      assert u[24] == 'p';
    } else {
      assert u[24] == 'w';
    }
  }

  /** The hit chosen from a non-empty list and what becomes of it. */
  function Resolve(query: string, entries: seq<Entry>, index: Option<int>): SearchOutcome
    requires entries != []
  {
    var pos := if index.Some? then PyIndex(|entries|, index.value) else Some(0);
    if pos.None? then NoResult
    else
      var selected := entries[pos.value];
      if selected.Record? then Load(ResolvedUrl(query, selected)) else NoResult
  }

  /**
   * One search: `found` is the hit list of the flat search (an absent
   * `entries` key is the empty list; None when the search raised), `env`
   * the selection-index environment variable.
   */
  function SearchYoutubePlaylist(
    query: string, selectionIndex: Option<int>, returnEntriesOnly: bool,
    found: Option<seq<Entry>>, env: Option<string>): (r: SearchOutcome)
    ensures IsDirectLink(query) ==> r == Load(query)
    ensures !IsDirectLink(query) && (found.None? || found.value == []) ==> r == NoResult
    ensures r.EntriesOnly? <==> !IsDirectLink(query) && found.Some? && found.value != [] && returnEntriesOnly
    ensures r.EntriesOnly? ==> r.entries == found.value
    ensures r.Load? && !IsDirectLink(query) ==>
      exists k :: 0 <= k < |found.value| && found.value[k].Record? && r.link == ResolvedUrl(query, found.value[k])
  {
    if IsDirectLink(query) then Load(query)
    else if found.None? || found.value == [] then NoResult
    else if returnEntriesOnly then EntriesOnly(found.value)
    else Resolve(query, found.value, SelectionIndex(selectionIndex, env))
  }

  /** Without an index from either source, the first hit is the one resolved. */
  lemma SearchPicksFirst(query: string, entries: seq<Entry>, env: Option<string>)
    requires !IsDirectLink(query) && entries != []
    requires env.None? || !IsDigits(env.value)
    ensures SearchYoutubePlaylist(query, None, false, Some(entries), env) ==
      (if entries[0].Record? then Load(ResolvedUrl(query, entries[0])) else NoResult)
  {
  }

  /** A given index selects like Python indexing: negative indices count from the end, others fail. */
  lemma SearchPicksIndex(query: string, entries: seq<Entry>, i: int, env: Option<string>)
    requires !IsDirectLink(query) && entries != []
    ensures var r := SearchYoutubePlaylist(query, Some(i), false, Some(entries), env);
      (0 <= i < |entries| ==> r == (if entries[i].Record? then Load(ResolvedUrl(query, entries[i])) else NoResult)) &&
      (-|entries| <= i < 0 ==> r == (if entries[|entries| + i].Record? then Load(ResolvedUrl(query, entries[|entries| + i])) else NoResult)) &&
      (i < -|entries| || |entries| <= i ==> r == NoResult)
  {
  }

  /** The environment variable holding `str(k)` selects hit k. */
  lemma SearchPicksEnvIndex(query: string, entries: seq<Entry>, k: nat)
    requires !IsDirectLink(query) && k < |entries|
    ensures SearchYoutubePlaylist(query, None, false, Some(entries), Some(DecimalString(k))) ==
      (if entries[k].Record? then Load(ResolvedUrl(query, entries[k])) else NoResult)
  {
    DecimalRoundTrip(k);
  }

  // ---------------------------------------------------------------------------
  // split_album_video

  /** `chapter.get('start_time', 0)` */
  function StartOf(c: Chapter): real {
    if c.startTime.Some? then c.startTime.value else 0.0
  }

  /**
   * The audio length: what the probe measured, or else one second past the
   * last chapter's end_time (None: that lookup raises out of the function).
   */
  function FullDuration(probed: Option<real>, chapters: seq<Chapter>): (r: Option<real>)
    requires chapters != []
    ensures probed.Some? ==> r == probed
    ensures probed.None? ==> (r.Some? <==> chapters[|chapters| - 1].endTime.Some?)
    ensures probed.None? && r.Some? ==> r.value == chapters[|chapters| - 1].endTime.value + 1.0
  {
    if probed.Some? then probed
    else
      var last := chapters[|chapters| - 1];
      if last.endTime.Some? then Some(last.endTime.value + 1.0) else None
  }

  /**
   * Where chapter i (0-based) ends: the next chapter's start_time, or for the
   * last one its end_time (default: the full duration) capped at a tenth of
   * a second before the end. None when the next chapter has no start_time.
   */
  function ChapterEnd(chapters: seq<Chapter>, i: nat, fullDuration: real): (r: Option<real>)
    requires i < |chapters|
    ensures i + 1 < |chapters| ==> (r.Some? <==> chapters[i + 1].startTime.Some?)
    ensures i + 1 == |chapters| ==> r.Some? && r.value <= fullDuration - 0.1
    ensures i + 1 == |chapters| && chapters[i].endTime.Some? ==> r.Some? && r.value <= chapters[i].endTime.value
    ensures i + 1 == |chapters| && chapters[i].endTime.None? ==> r == Some(fullDuration - 0.1)
  {
    if i + 1 < |chapters| then chapters[i + 1].startTime
    else
      var e := if chapters[i].endTime.Some? then chapters[i].endTime.value else fullDuration;
      Some(if e < fullDuration - 0.1 then e else fullDuration - 0.1)
  }

  /** Consecutive tracks abut: each non-last track ends where the next one starts. */
  lemma ChaptersAbut(chapters: seq<Chapter>, i: nat, fullDuration: real)
    requires i + 1 < |chapters| && chapters[i + 1].startTime.Some?
    ensures ChapterEnd(chapters, i, fullDuration) == Some(StartOf(chapters[i + 1]))
  {
  }

  /**
   * The last track ends at the smaller of its end_time (the full duration when
   * it has none) and a tenth of a second before the end.
   */
  lemma LastChapterEnd(chapters: seq<Chapter>, fullDuration: real)
    requires chapters != []
    ensures var c := chapters[|chapters| - 1];
      var e := if c.endTime.Some? then c.endTime.value else fullDuration;
      var r := ChapterEnd(chapters, |chapters| - 1, fullDuration);
      r.Some? && (r.value == e || r.value == fullDuration - 0.1) && r.value <= e && r.value <= fullDuration - 0.1
  {
  }

  /** When the probe fails, the last track ends exactly at its recorded end_time. */
  lemma FallbackDurationKeepsLastEnd(chapters: seq<Chapter>)
    requires chapters != [] && chapters[|chapters| - 1].endTime.Some?
    ensures var d := FullDuration(None, chapters);
      d.Some? && ChapterEnd(chapters, |chapters| - 1, d.value) == chapters[|chapters| - 1].endTime
  {
  }

  /** The piece of audio one chapter becomes. */
  datatype Segment = Segment(id: string, title: string, start: real, end: real)

  /** `f"{video_id}_track{idx}"` for the 1-based chapter number idx. */
  function TrackId(videoId: string, idx: nat): string {
    videoId + "_track" + DecimalString(idx)
  }

  /** Chapters of one video get pairwise different track ids. */
  lemma TrackIdsDistinct(videoId: string, i: nat, j: nat)
    requires i != j
    ensures TrackId(videoId, i) != TrackId(videoId, j)
  {
    if TrackId(videoId, i) == TrackId(videoId, j) {
      var p := videoId + "_track";
      assert TrackId(videoId, i)[|p|..] == DecimalString(i);
      assert TrackId(videoId, j)[|p|..] == DecimalString(j);
      DecimalInjective(i, j);
    }
  }

  /** Chapter i (0-based) as a segment; None when its end cannot be determined. */
  function ChapterSegment(videoId: string, chapters: seq<Chapter>, i: nat, fullDuration: real): Option<Segment>
    requires i < |chapters|
  {
    var c := chapters[i];
    var end := ChapterEnd(chapters, i, fullDuration);
    if end.None? then None
    else
      var title := if c.title.Some? then c.title.value else "Track " + DecimalString(i + 1);
      Some(Segment(TrackId(videoId, i + 1), title, StartOf(c), end.value))
  }

  /** How a video is split: one segment per chapter, the whole video as one track, or an exception. */
  datatype SplitPlan = ByChapter(segments: seq<Option<Segment>>) | WholeVideo(track: Track) | Raises

  function SplitAlbumVideo(videoId: string, videoTitle: Option<string>, chapters: Option<seq<Chapter>>, probed: Option<real>): (r: SplitPlan)
    ensures chapters.None? || chapters.value == [] ==>
      r == WholeVideo(Track(videoId, if videoTitle.Some? then videoTitle.value else "Full Album", WatchPrefix + videoId))
    ensures r.Raises? <==> chapters.Some? && chapters.value != [] && FullDuration(probed, chapters.value).None?
    ensures r.ByChapter? ==> |r.segments| == |chapters.value|
    ensures r.ByChapter? ==> forall i :: 0 <= i < |r.segments| && r.segments[i].Some? ==>
      r.segments[i].value.id == TrackId(videoId, i + 1) && r.segments[i].value.start == StartOf(chapters.value[i])
    ensures r.ByChapter? ==>
      var d := FullDuration(probed, chapters.value).value;
      forall i :: 0 <= i < |r.segments| ==>
        && (r.segments[i].Some? <==> ChapterEnd(chapters.value, i, d).Some?)
        && (r.segments[i].Some? ==>
              && r.segments[i].value.end == ChapterEnd(chapters.value, i, d).value
              && r.segments[i].value.title ==
                   if chapters.value[i].title.Some? then chapters.value[i].title.value
                   else "Track " + DecimalString(i + 1))
  {
    if chapters.None? || chapters.value == [] then
      WholeVideo(Track(videoId, if videoTitle.Some? then videoTitle.value else "Full Album", WatchPrefix + videoId))
    else
      var cs := chapters.value;
      var d := FullDuration(probed, cs);
      if d.None? then Raises
      else ByChapter(seq(|cs|, i requires 0 <= i < |cs| => ChapterSegment(videoId, cs, i, d.value)))
  }

  /** In a split, every segment but the last ends where the next begins. */
  lemma SplitSegmentsAbut(videoId: string, videoTitle: Option<string>, chapters: Option<seq<Chapter>>, probed: Option<real>, i: nat)
    requires SplitAlbumVideo(videoId, videoTitle, chapters, probed).ByChapter?
    requires var segs := SplitAlbumVideo(videoId, videoTitle, chapters, probed).segments;
      i + 1 < |segs| && segs[i].Some? && segs[i + 1].Some?
    ensures var segs := SplitAlbumVideo(videoId, videoTitle, chapters, probed).segments;
      segs[i].value.end == segs[i + 1].value.start
  {
  }
}
