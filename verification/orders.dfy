/** Order documents, notifications and the suffix router of the Drive webhook
    (index.js:58, 98-132). */
module Orders {
  import opened Wrappers

  /** One entry of an order's `extraVideos` list. */
  datatype ExtraVideo = ExtraVideo(name: string, url: string)

  /** The fields of an `orders` document that the handler reads or writes, plus
      the document id. An absent Firestore field is `None`. `createdAt` is in
      milliseconds and is `None` also when the stored value is not a timestamp
      (the handler's `data.createdAt?.toDate` test fails for it). */
  datatype Order = Order(
    id: string,
    status: Option<string>,
    partner: Option<string>,
    createdAt: Option<int>,
    videoStart: Option<string>,
    videoEnd: Option<string>,
    completedAt: Option<int>,
    duration: Option<int>,
    extraVideos: Option<seq<ExtraVideo>>)

  /** A `notifications` document; `timestamp` stands for the server time. */
  datatype Notification = Notification(
    message: string, orderId: string, partner: string, readBy: seq<string>, timestamp: int)

  const URL_PREFIX := "https://drive.google.com/file/d/"
  const URL_SUFFIX := "/view"
  const COMPLETED := "Completed"
  const MS_PER_MINUTE := 60000

  /** The Drive viewer link of a file. The id sits between a fixed prefix and a
      fixed suffix, so it can be read back from the link. */
  function FileUrl(fileId: string): (url: string)
    ensures |url| == |URL_PREFIX| + |fileId| + |URL_SUFFIX|
    ensures url[..|URL_PREFIX|] == URL_PREFIX
    ensures url[|URL_PREFIX|..|URL_PREFIX| + |fileId|] == fileId
    ensures url[|URL_PREFIX| + |fileId|..] == URL_SUFFIX
  {
    URL_PREFIX + fileId + URL_SUFFIX
  }

  /** Different files have different links, so comparing links (the completion
      duplicate test) is comparing file ids. */
  lemma FileUrlInjective(a: string, b: string)
    requires FileUrl(a) == FileUrl(b)
    ensures a == b
  {
    assert a == FileUrl(a)[|URL_PREFIX|..|URL_PREFIX| + |a|];
  }

  /** `Math.round((now - created) / 60000)`: the whole number of minutes nearest
      to the elapsed time, a tie rounding up, as Math.round does. */
  function DurationMinutes(now: int, createdAt: int): (m: int)
    ensures m * MS_PER_MINUTE - MS_PER_MINUTE / 2 <= now - createdAt < m * MS_PER_MINUTE + MS_PER_MINUTE / 2
  {
    (now - createdAt + MS_PER_MINUTE / 2) / MS_PER_MINUTE
  }

  /** `data.partner || ""`. */
  function PartnerOf(o: Order): string { o.partner.GetOr("") }

  /** The completion message: "Order <code> is completed." in Vietnamese. */
  function CompletionMessage(code: string): string {
    "Đơn hàng " + code + " đã hoàn thành."
  }

  predicate HasName(extra: seq<ExtraVideo>, name: string) {
    exists i :: 0 <= i < |extra| && extra[i].name == name
  }

  /** No two entries of the list share a name. */
  predicate UniqueNames(extra: seq<ExtraVideo>) {
    forall i, j :: 0 <= i < j < |extra| ==> extra[i].name != extra[j].name
  }

  /** `extra.find(v => v.name === fileName)`, read as a yes/no answer. */
  method FindByName(extra: seq<ExtraVideo>, name: string) returns (found: bool)
    ensures found <==> HasName(extra, name)
  {
    found := false;
    var i := 0;
    while i < |extra| && !found
      invariant 0 <= i <= |extra|
      invariant found <==> exists j :: 0 <= j < i && extra[j].name == name
    {
      found := extra[i].name == name;
      i := i + 1;
    }
  }

  /** What the router does to the order and whether it files a notification. */
  datatype Outcome = Outcome(order: Order, notice: Option<Notification>)

  /** The suffix router (index.js:103-132) as one value transition: `B` sets the
      start video; no suffix completes the order unless the same end video is
      already recorded; a suffix starting with an upper-case P appends an extra
      file unless one of the same name is listed; any other suffix (a
      lower-case b or p, which the case-insensitive pattern lets through)
      selects no branch and leaves the order as it is. */
  function Route(o: Order, code: string, suffix: string, fileId: string, fileName: string, now: int): (r: Outcome)
    // every branch keeps the document's identity and the fields the handler only reads
    ensures r.order.id == o.id && r.order.partner == o.partner && r.order.createdAt == o.createdAt
    // a notification is filed exactly for a fresh completion, and then it is the completion notice
    ensures r.notice.Some? <==> suffix == "" && o.videoEnd != Some(FileUrl(fileId))
    ensures r.notice.Some? ==>
      r.notice.value == Notification(CompletionMessage(code), o.id, PartnerOf(o), [], now)
    // start: only videoStart changes
    ensures suffix == "B" ==>
      r.order.videoStart == Some(FileUrl(fileId)) && r.order.(videoStart := o.videoStart) == o
    // completion
    ensures suffix == "" && o.videoEnd == Some(FileUrl(fileId)) ==> r.order == o
    ensures suffix == "" && o.videoEnd != Some(FileUrl(fileId)) ==>
      && r.order.videoEnd == Some(FileUrl(fileId))
      && r.order.status == Some(COMPLETED)
      && r.order.completedAt == Some(now)
      && (o.createdAt.Some? ==> r.order.duration == Some(DurationMinutes(now, o.createdAt.value)))
      && (o.createdAt.None? ==> r.order.duration == o.duration)
      && r.order.videoStart == o.videoStart && r.order.extraVideos == o.extraVideos
    // supplemental: append at the end unless the name is already listed
    ensures suffix != "" && suffix != "B" && suffix[0] == 'P' ==>
      if HasName(o.extraVideos.GetOr([]), fileName) then r.order == o
      else r.order == o.(extraVideos := Some(o.extraVideos.GetOr([]) + [ExtraVideo(fileName, FileUrl(fileId))]))
    // any other suffix: nothing changes
    ensures suffix != "" && suffix != "B" && suffix[0] != 'P' ==> r.order == o
  {
    var url := FileUrl(fileId);
    if suffix == "B" then
      Outcome(o.(videoStart := Some(url)), None)
    else if suffix == "" then
      if o.videoEnd == Some(url) then Outcome(o, None)
      else
        var duration := if o.createdAt.Some? then Some(DurationMinutes(now, o.createdAt.value)) else o.duration;
        Outcome(
          o.(videoEnd := Some(url), status := Some(COMPLETED), completedAt := Some(now), duration := duration),
          Some(Notification(CompletionMessage(code), o.id, PartnerOf(o), [], now)))
    else if suffix[0] == 'P' then
      var extra := o.extraVideos.GetOr([]);
      if HasName(extra, fileName) then Outcome(o, None)
      else Outcome(o.(extraVideos := Some(extra + [ExtraVideo(fileName, url)])), None)
    else
      Outcome(o, None)
  }

  /** Routing the same file a second time, at any later time, changes nothing
      and files no notification: the start link is already set, the end link
      already equals the file's link, or the extra file's name is already
      listed. */
  lemma RouteIdempotent(o: Order, code: string, suffix: string, fileId: string, fileName: string, now: int, later: int)
    ensures var once := Route(o, code, suffix, fileId, fileName, now).order;
            Route(once, code, suffix, fileId, fileName, later) == Outcome(once, None)
  {
    var once := Route(o, code, suffix, fileId, fileName, now).order;
    if suffix != "" && suffix != "B" && suffix[0] == 'P' && !HasName(o.extraVideos.GetOr([]), fileName) {
      var extra := o.extraVideos.GetOr([]) + [ExtraVideo(fileName, FileUrl(fileId))];
      assert extra[|extra| - 1].name == fileName;
    }
  }

  /** Appending an extra file keeps the names of the list unique, keeps every
      earlier entry in place, and leaves exactly one entry with the file's name. */
  lemma RoutePreservesUniqueNames(o: Order, code: string, suffix: string, fileId: string, fileName: string, now: int)
    requires UniqueNames(o.extraVideos.GetOr([]))
    ensures var after := Route(o, code, suffix, fileId, fileName, now).order.extraVideos.GetOr([]);
            && UniqueNames(after)
            && after[..|o.extraVideos.GetOr([])|] == o.extraVideos.GetOr([])
    ensures suffix != "" && suffix != "B" && suffix[0] == 'P' ==>
            var after := Route(o, code, suffix, fileId, fileName, now).order.extraVideos.GetOr([]);
            && HasName(after, fileName)
            && forall i, j :: 0 <= i < |after| && 0 <= j < |after| && after[i].name == fileName && after[j].name == fileName ==> i == j
  {
    var before := o.extraVideos.GetOr([]);
    if suffix != "" && suffix != "B" && suffix[0] == 'P' && !HasName(before, fileName) {
      var after := before + [ExtraVideo(fileName, FileUrl(fileId))];
      assert after[|before|].name == fileName;
    }
  }
}
