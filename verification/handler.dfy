/** The handler as the source runs it: three stores updated in place, step by
    step, and an `updates` record built field by field before it is applied to
    the order document (index.js:22-139). */
module Handler {
  import opened Wrappers
  import opened Classifier
  import opened Orders
  import opened Webhook

  /** The fields `doc.ref.update(updates)` writes; `None` means the field is not
      part of the update. */
  datatype Updates = Updates(
    videoStart: Option<string>,
    videoEnd: Option<string>,
    status: Option<string>,
    completedAt: Option<int>,
    duration: Option<int>,
    extraVideos: Option<seq<ExtraVideo>>)

  const NO_UPDATES := Updates(None, None, None, None, None, None)

  /** A Firestore field update: each field named in `u` is overwritten, every
      other field of the document keeps its value. */
  function ApplyUpdates(o: Order, u: Updates): (r: Order)
    ensures r.id == o.id && r.partner == o.partner && r.createdAt == o.createdAt
    ensures u.videoStart.Some? ==> r.videoStart == u.videoStart
    ensures u.videoStart.None? ==> r.videoStart == o.videoStart
    ensures u.videoEnd.Some? ==> r.videoEnd == u.videoEnd
    ensures u.videoEnd.None? ==> r.videoEnd == o.videoEnd
    ensures u.status.Some? ==> r.status == u.status
    ensures u.status.None? ==> r.status == o.status
    ensures u.completedAt.Some? ==> r.completedAt == u.completedAt
    ensures u.completedAt.None? ==> r.completedAt == o.completedAt
    ensures u.duration.Some? ==> r.duration == u.duration
    ensures u.duration.None? ==> r.duration == o.duration
    ensures u.extraVideos.Some? ==> r.extraVideos == u.extraVideos
    ensures u.extraVideos.None? ==> r.extraVideos == o.extraVideos
    ensures u == NO_UPDATES ==> r == o
  {
    o.(videoStart := if u.videoStart.Some? then u.videoStart else o.videoStart,
       videoEnd := if u.videoEnd.Some? then u.videoEnd else o.videoEnd,
       status := if u.status.Some? then u.status else o.status,
       completedAt := if u.completedAt.Some? then u.completedAt else o.completedAt,
       duration := if u.duration.Some? then u.duration else o.duration,
       extraVideos := if u.extraVideos.Some? then u.extraVideos else o.extraVideos)
  }

  /** The Firestore collections the handler touches. */
  class Stores {
    var processed: set<string>
    var orders: map<string, Order>
    var notifications: seq<Notification>

    function Snapshot(): Db
      reads this
    {
      Db(processed, orders, notifications)
    }

    constructor (db: Db)
      ensures Snapshot() == db
    {
      processed, orders, notifications := db.processed, db.orders, db.notifications;
    }

    /** The ledger transaction (index.js:62-80): record `fileId` unless it is
        already there, and report whether this call recorded it. */
    method Claim(fileId: string) returns (claimed: bool)
      modifies this`processed
      ensures claimed <==> fileId !in old(processed)
      ensures processed == old(processed) + {fileId}
    {
      claimed := fileId !in processed;
      if claimed {
        processed := processed + {fileId};
      }
    }

    /** `db.collection("notifications").add(...)`. */
    method AddNotification(n: Notification)
      modifies this`notifications
      ensures notifications == old(notifications) + [n]
    {
      notifications := notifications + [n];
    }

    /** `doc.ref.update(updates)` on the order with the given code. */
    method UpdateOrder(code: string, u: Updates)
      requires code in orders
      modifies this`orders
      ensures orders == old(orders)[code := ApplyUpdates(old(orders)[code], u)]
    {
      orders := orders[code := ApplyUpdates(orders[code], u)];
    }

    /** One request: answers the status code and leaves the stores as the
        transition Webhook.Handle describes; the lemmas of module Webhook then
        apply to every call. */
    method HandleWebhook(req: Request, listing: Listing, now: int) returns (status: int)
      modifies this
      ensures (status, Snapshot()) == Handle(old(Snapshot()), req, listing, now)
    {
      if req.resourceState != Some("update") || req.changed != Some("children") {
        return OK;
      }
      if listing.ListFailed? {
        return SERVER_ERROR;
      }
      if listing.newest.None? {
        return OK;
      }
      var file := listing.newest.value;
      var fileUrl := FileUrl(file.id);

      var claimed := Claim(file.id);
      if !claimed {
        assert processed == old(processed);
        return OK;
      }

      var found := Classify(file.name);
      if found.None? {
        return OK;
      }
      var code, suffix := found.value.code, found.value.suffix;

      if code !in orders {
        return OK;
      }
      var data := orders[code];
      var updates := NO_UPDATES;
      ghost var routed := Route(data, code, suffix, file.id, file.name, now);

      if suffix == "B" {
        updates := updates.(videoStart := Some(fileUrl));
      } else if suffix == "" {
        if data.videoEnd == Some(fileUrl) {
          assert routed == Outcome(data, None);
          assert orders[code := data] == orders;
          assert notifications + NoticeList(routed.notice) == notifications;
          return OK;
        }
        updates := updates.(videoEnd := Some(fileUrl));
        updates := updates.(status := Some(COMPLETED));
        updates := updates.(completedAt := Some(now));
        if data.createdAt.Some? {
          updates := updates.(duration := Some(DurationMinutes(now, data.createdAt.value)));
        }
        AddNotification(Notification(CompletionMessage(code), data.id, PartnerOf(data), [], now));
      } else if suffix[0] == 'P' {
        var extra := data.extraVideos.GetOr([]);
        var duplicate := FindByName(extra, file.name);
        if duplicate {
          assert routed == Outcome(data, None);
          assert orders[code := data] == orders;
          assert notifications + NoticeList(routed.notice) == notifications;
          return OK;
        }
        extra := extra + [ExtraVideo(file.name, fileUrl)];
        updates := updates.(extraVideos := Some(extra));
      }

      assert ApplyUpdates(data, updates) == routed.order;
      assert notifications == old(notifications) + NoticeList(routed.notice);
      UpdateOrder(code, updates);
      return OK;
    }
  }
}
