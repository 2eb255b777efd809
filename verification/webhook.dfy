/** The `/drive-webhook` handler (index.js:22-139) as a transition over the
    three Firestore collections it touches: the `processed_files` ledger, the
    `orders` collection (keyed here by order code) and the `notifications`
    collection. */
module Webhook {
  import opened Wrappers
  import opened Classifier
  import opened Orders

  /** The two request headers the handler reads; `None` when a header is missing. */
  datatype Request = Request(resourceState: Option<string>, changed: Option<string>)

  /** The id and name of a file in the watched Drive folder. */
  datatype DriveFile = DriveFile(id: string, name: string)

  /** The answer of the Drive listing: the call failed, or it returned the newest
      video or image of the folder, if there is one. */
  datatype Listing = ListFailed | Listed(newest: Option<DriveFile>)

  /** The three stores. */
  datatype Db = Db(processed: set<string>, orders: map<string, Order>, notifications: seq<Notification>)

  const OK := 200
  const SERVER_ERROR := 500

  /** The gate: a change to the children of the watched folder. */
  predicate IsChildrenUpdate(req: Request) {
    req.resourceState == Some("update") && req.changed == Some("children")
  }

  function NoticeList(n: Option<Notification>): seq<Notification> {
    if n.Some? then [n.value] else []
  }

  /** Everything after the ledger claim (index.js:83-132): classify the name,
      find the order, route by suffix. */
  function Process(db: Db, f: DriveFile, now: int): Db {
    match Classify(f.name)
    case None => db
    case Some(m) =>
      if m.code !in db.orders then db
      else
        var out := Route(db.orders[m.code], m.code, m.suffix, f.id, f.name, now);
        db.(orders := db.orders[m.code := out.order],
            notifications := db.notifications + NoticeList(out.notice))
  }

  /** One request to the handler: its status code and the stores afterwards. */
  function Handle(db: Db, req: Request, listing: Listing, now: int): (r: (int, Db))
    // the ledger gains at most the newest file's id, and the order codes stay the same
    ensures db.processed <= r.1.processed
    ensures r.1.orders.Keys == db.orders.Keys
    // notifications are only ever appended, at most one per request
    ensures |db.notifications| <= |r.1.notifications| <= |db.notifications| + 1
    ensures r.1.notifications[..|db.notifications|] == db.notifications
    // only a failed Drive listing answers 500, and it changes nothing
    ensures r.0 == SERVER_ERROR <==> IsChildrenUpdate(req) && listing == ListFailed
    ensures r.0 != SERVER_ERROR ==> r.0 == OK
    ensures r.0 == SERVER_ERROR ==> r.1 == db
  {
    if !IsChildrenUpdate(req) then (OK, db)
    else
      match listing
      case ListFailed => (SERVER_ERROR, db)
      case Listed(None) => (OK, db)
      case Listed(Some(f)) =>
        if f.id in db.processed then (OK, db)
        else (OK, Process(db.(processed := db.processed + {f.id}), f, now))
  }

  /** Any request other than a children update of the folder answers 200 and
      changes none of the stores (index.js:30-33). */
  lemma GateIgnoresOtherEvents(db: Db, req: Request, listing: Listing, now: int)
    requires !IsChildrenUpdate(req)
    ensures Handle(db, req, listing, now) == (OK, db)
  {
  }

  /** An empty Drive listing answers 200 and changes nothing (index.js:53-54). */
  lemma NoFileNoChange(db: Db, req: Request, now: int)
    ensures Handle(db, req, Listed(None), now) == (OK, db)
  {
  }

  /** A file whose id is already in the ledger answers 200 and changes nothing
      (index.js:62-80). */
  lemma ProcessedFileIsSkipped(db: Db, req: Request, f: DriveFile, now: int)
    requires f.id in db.processed
    ensures Handle(db, req, Listed(Some(f)), now) == (OK, db)
  {
  }

  /** A new file is claimed in the ledger before anything else is looked at:
      whatever its name and whether or not its order exists, its id is added,
      and nothing else is. */
  lemma NewFileIsClaimed(db: Db, req: Request, f: DriveFile, now: int)
    requires IsChildrenUpdate(req)
    ensures Handle(db, req, Listed(Some(f)), now).0 == OK
    ensures Handle(db, req, Listed(Some(f)), now).1.processed == db.processed + {f.id}
  {
  }

  /** A file whose name the pattern rejects, or whose code has no order, leaves
      the orders and notifications as they were; only the claim remains. */
  lemma SkippedFileOnlyClaims(db: Db, req: Request, f: DriveFile, now: int)
    requires IsChildrenUpdate(req) && f.id !in db.processed
    requires Classify(f.name).None? || Classify(f.name).value.code !in db.orders
    ensures Handle(db, req, Listed(Some(f)), now) == (OK, db.(processed := db.processed + {f.id}))
  {
  }

  /** A suffix that selects no branch (a lower-case b or p that the
      case-insensitive pattern accepts) leaves the orders and notifications as
      they were. */
  lemma UnroutedSuffixOnlyClaims(db: Db, req: Request, f: DriveFile, now: int)
    requires IsChildrenUpdate(req) && f.id !in db.processed
    requires Classify(f.name).Some?
    requires var s := Classify(f.name).value.suffix; s != "" && s != "B" && s[0] != 'P'
    ensures Handle(db, req, Listed(Some(f)), now) == (OK, db.(processed := db.processed + {f.id}))
  {
    var m := Classify(f.name).value;
    if m.code in db.orders {
      var out := Route(db.orders[m.code], m.code, m.suffix, f.id, f.name, now);
      assert out == Outcome(db.orders[m.code], None);
      assert db.orders[m.code := db.orders[m.code]] == db.orders;
      var claimed := db.(processed := db.processed + {f.id});
      assert claimed.notifications + NoticeList(out.notice) == claimed.notifications;
      assert Process(claimed, f, now) == claimed;
    }
  }

  /** The lower-case names "abc1b.mp4" and "abc1p2.png" match the pattern but
      only claim their file. */
  lemma LowerCaseSuffixOnlyClaims(db: Db, req: Request, id: string, name: string, now: int)
    requires IsChildrenUpdate(req) && id !in db.processed
    requires name == "abc1b.mp4" || name == "abc1p2.png"
    ensures Handle(db, req, Listed(Some(DriveFile(id, name))), now)
         == (OK, db.(processed := db.processed + {id}))
  {
    if name == "abc1b.mp4" {
      ClassifyLowerStartExample(name);
    } else {
      ClassifyLowerSupplementalExample(name);
    }
    UnroutedSuffixOnlyClaims(db, req, DriveFile(id, name), now);
  }

  /** For a new file with a recognised name and an existing order, the order
      becomes what the router makes of it and the router's notice, if any, is
      appended; every other order is untouched. */
  lemma RecognisedFileIsRouted(db: Db, req: Request, f: DriveFile, now: int)
    requires IsChildrenUpdate(req) && f.id !in db.processed
    requires Classify(f.name).Some? && Classify(f.name).value.code in db.orders
    ensures var m := Classify(f.name).value;
            var out := Route(db.orders[m.code], m.code, m.suffix, f.id, f.name, now);
            var after := Handle(db, req, Listed(Some(f)), now).1;
            && after.orders[m.code] == out.order
            && after.notifications == db.notifications + NoticeList(out.notice)
            && (forall c :: c in db.orders && c != m.code ==> after.orders[c] == db.orders[c])
  {
  }

  /** One delivery of the webhook: its headers, what the Drive listing returns
      and the clock reading. */
  datatype Delivery = Delivery(req: Request, listing: Listing, now: int)

  /** The stores after handling the deliveries one after another. */
  function Run(db: Db, ds: seq<Delivery>): (r: Db)
    decreases |ds|
    ensures r.orders.Keys == db.orders.Keys
    ensures db.processed <= r.processed
    ensures |db.notifications| <= |r.notifications| <= |db.notifications| + |ds|
    ensures r.notifications[..|db.notifications|] == db.notifications
  {
    if ds == [] then db
    else
      var last := ds[|ds| - 1];
      Handle(Run(db, ds[..|ds| - 1]), last.req, last.listing, last.now).1
  }

  /** The ledger only grows along a run. */
  lemma {:induction false} LedgerGrowsAlongRun(db: Db, ds: seq<Delivery>, k: nat, m: nat)
    requires k <= m <= |ds|
    ensures Run(db, ds[..k]).processed <= Run(db, ds[..m]).processed
  {
    if k < m {
      LedgerGrowsAlongRun(db, ds, k, m - 1);
      assert ds[..m][..m - 1] == ds[..m - 1];
    }
  }

  /** At-most-once processing: once a children-update delivery has presented a
      file, every later delivery that presents a file with the same id (a
      redelivery, the same file still being the newest, or the file renamed)
      leaves all three stores unchanged. */
  lemma {:induction false} AtMostOnce(db: Db, ds: seq<Delivery>, i: nat, j: nat, f: DriveFile, g: DriveFile)
    requires i < j < |ds|
    requires IsChildrenUpdate(ds[i].req) && ds[i].listing == Listed(Some(f))
    requires ds[j].listing == Listed(Some(g)) && g.id == f.id
    ensures Run(db, ds[..j + 1]) == Run(db, ds[..j])
  {
    assert ds[..i + 1][..i] == ds[..i];
    assert f.id in Run(db, ds[..i + 1]).processed;
    LedgerGrowsAlongRun(db, ds, i + 1, j);
    assert ds[..j + 1][..j] == ds[..j];
  }

  /** The start-then-completion scenario for any two names that classify as
      the start and the completion video of order "XYZ9". */
  lemma StartThenCompletion(db: Db, f1: DriveFile, f2: DriveFile, t0: int, t1: int)
    requires f1.id != f2.id && f1.id !in db.processed && f2.id !in db.processed
    requires Classify(f1.name) == Some(Match("XYZ9", "B")) && Classify(f2.name) == Some(Match("XYZ9", ""))
    requires "XYZ9" in db.orders
    requires db.orders["XYZ9"].createdAt == Some(t0) && db.orders["XYZ9"].videoEnd == None
    ensures var req := Request(Some("update"), Some("children"));
            var ds := [Delivery(req, Listed(Some(f1)), t1), Delivery(req, Listed(Some(f2)), t0 + 60 * MS_PER_MINUTE)];
            var o := Run(db, ds).orders["XYZ9"];
            && o.videoStart == Some(FileUrl(f1.id))
            && o.videoEnd == Some(FileUrl(f2.id))
            && o.status == Some(COMPLETED)
            && o.duration == Some(60)
            && Run(db, ds).notifications == db.notifications +
                 [Notification(CompletionMessage("XYZ9"), db.orders["XYZ9"].id, PartnerOf(db.orders["XYZ9"]), [], t0 + 60 * MS_PER_MINUTE)]
  {
    var req := Request(Some("update"), Some("children"));
    var d1 := Delivery(req, Listed(Some(f1)), t1);
    var d2 := Delivery(req, Listed(Some(f2)), t0 + 60 * MS_PER_MINUTE);
    var ds := [d1, d2];
    assert ds[..1] == [d1] && ds[..1][..0] == [];
    assert [d1][..0] == [];
    var mid := Handle(db, req, d1.listing, t1).1;
    assert Run(db, ds[..1]) == mid;
    RecognisedFileIsRouted(db, req, f1, t1);
    assert mid.orders["XYZ9"].videoEnd == None;
    assert f2.id !in mid.processed;
    RecognisedFileIsRouted(mid, req, f2, d2.now);
    assert DurationMinutes(d2.now, t0) == 60;
    assert Run(db, ds) == Handle(mid, req, d2.listing, d2.now).1;
  }

  /** The scenario with the file names "XYZ9B.mp4" and "XYZ9.mp4". */
  lemma StartThenCompletionScenario(db: Db, f1: DriveFile, f2: DriveFile, t0: int, t1: int)
    requires f1.name == "XYZ9B.mp4" && f2.name == "XYZ9.mp4"
    requires f1.id != f2.id && f1.id !in db.processed && f2.id !in db.processed
    requires "XYZ9" in db.orders
    requires db.orders["XYZ9"].createdAt == Some(t0) && db.orders["XYZ9"].videoEnd == None
    ensures var req := Request(Some("update"), Some("children"));
            var ds := [Delivery(req, Listed(Some(f1)), t1), Delivery(req, Listed(Some(f2)), t0 + 60 * MS_PER_MINUTE)];
            var o := Run(db, ds).orders["XYZ9"];
            && o.videoStart == Some(FileUrl(f1.id))
            && o.videoEnd == Some(FileUrl(f2.id))
            && o.status == Some(COMPLETED)
            && o.duration == Some(60)
            && |Run(db, ds).notifications| == |db.notifications| + 1
            && Run(db, ds).notifications[|db.notifications|].orderId == db.orders["XYZ9"].id
  {
    ClassifyScenarioExamples(f1.name, f2.name);
    StartThenCompletion(db, f1, f2, t0, t1);
  }
}
