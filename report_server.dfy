/** The report server's storage (server/server.js): a module-level list of
    reports behind `GET`, `POST` and `DELETE /api/reports`. HTTP, CORS and
    JSON plumbing are left out; what remains is the list logic. */
module ReportServer {
  import opened Common
  import opened Text

  datatype StoredReport = StoredReport(
    id: string,
    rtype: string,
    message: string,
    location: string,
    photoUrl: Option<string>,
    audioUrl: Option<string>,
    timestamp: string,
    isVerified: bool,
    urgency: string)

  /** The fields of a POST body. A field that is absent and one that is the
      empty string behave alike under `||`, so both are written "". */
  datatype PostBody = PostBody(
    id: string,
    rtype: string,
    message: string,
    location: string,
    photoUrl: string,
    audioUrl: string)

  datatype PostReply = Created(report: StoredReport) | AlreadyExists(report: StoredReport)

  datatype DeleteReply = Deleted | NotFound

  /** `x || fallback` for a string field. */
  function OrElse(x: string, fallback: string): string {
    if x != "" then x else fallback
  }

  /** `x || undefined` for an optional string field. */
  function OrAbsent(x: string): Option<string> {
    if x != "" then Some(x) else None
  }

  /** The record a POST would create; `nowMs` and `nowIso` stand for
      `Date.now()` and `new Date().toISOString()`. */
  function NewReport(body: PostBody, nowMs: int, nowIso: string): (r: StoredReport)
    ensures r.id == if body.id != "" then body.id else "report-" + IntToString(nowMs)
    ensures r.id != ""
    ensures r.rtype == OrElse(body.rtype, "general") && r.message == body.message
    ensures r.location == OrElse(body.location, "Unknown")
    ensures r.photoUrl == OrAbsent(body.photoUrl) && r.audioUrl == OrAbsent(body.audioUrl)
    ensures r.timestamp == nowIso && !r.isVerified && r.urgency == "Medium"
  {
    StoredReport(
      OrElse(body.id, "report-" + IntToString(nowMs)),
      OrElse(body.rtype, "general"),
      OrElse(body.message, ""),
      OrElse(body.location, "Unknown"),
      OrAbsent(body.photoUrl),
      OrAbsent(body.audioUrl),
      nowIso,
      false,
      "Medium")
  }

  /** `reports.findIndex(r => r.id === id)`. */
  function FindIndex(reports: seq<StoredReport>, id: string): (r: Option<nat>)
    ensures r.Some? ==> r.value < |reports| && reports[r.value].id == id
    ensures r.Some? ==> forall k :: 0 <= k < r.value ==> reports[k].id != id
    ensures r.None? <==> forall k :: 0 <= k < |reports| ==> reports[k].id != id
    decreases |reports|
  {
    if reports == [] then None
    else if reports[0].id == id then Some(0)
    else match FindIndex(reports[1..], id)
      case None => None
      case Some(i) => Some(i + 1)
  }

  /** The collection after a POST: unchanged when a record already has the
      supplied id (or the id "" when none is supplied), otherwise the new
      record in front of the records already stored, which keep their order. */
  function AfterPost(reports: seq<StoredReport>, body: PostBody, nowMs: int, nowIso: string): (r: seq<StoredReport>)
    ensures r == reports <==> FindIndex(reports, body.id).Some?
    ensures |reports| <= |r| <= |reports| + 1
    ensures r[|r| - |reports|..] == reports
    ensures FindIndex(reports, body.id).None? ==> r == [NewReport(body, nowMs, nowIso)] + reports
    ensures body.id != "" ==> exists k :: 0 <= k < |r| && r[k].id == body.id
  {
    match FindIndex(reports, body.id)
    case Some(i) =>
      assert reports[i].id == body.id;
      reports
    case None =>
      var r := [NewReport(body, nowMs, nowIso)] + reports;
      assert r[0].id == OrElse(body.id, "report-" + IntToString(nowMs));
      r
  }

  /** The test DELETE's `filter` applies: any record without that id. */
  function HasOtherId(id: string): StoredReport -> bool {
    (x: StoredReport) => x.id != id
  }

  /** `reports.filter(r => r.id !== id)`: every record without the id, as
      often as it was stored; the order of what is kept is `Filter`'s (see
      `WithoutIdKeepsOrder`). */
  function WithoutId(reports: seq<StoredReport>, id: string): (r: seq<StoredReport>)
    ensures |r| <= |reports|
    ensures forall k :: 0 <= k < |r| ==> r[k].id != id && r[k] in reports
    ensures forall k :: 0 <= k < |reports| && reports[k].id != id ==> reports[k] in r
    ensures forall x: StoredReport :: x.id != id ==> Count(r, x) == Count(reports, x)
  {
    var r := Filter(reports, HasOtherId(id));
    forall x: StoredReport | x.id != id ensures Count(r, x) == Count(reports, x) {
      FilterCount(reports, HasOtherId(id), x);
    }
    r
  }

  /** DELETE works part by part: what survives of the newer records still
      comes before what survives of the older ones, so GET after a DELETE
      lists the remaining records in their stored order. */
  lemma WithoutIdKeepsOrder(a: seq<StoredReport>, b: seq<StoredReport>, id: string)
    ensures WithoutId(a + b, id) == WithoutId(a, id) + WithoutId(b, id)
  {
    FilterAppend(a, b, HasOtherId(id));
  }

  predicate UniqueIds(reports: seq<StoredReport>) {
    forall i, j :: 0 <= i < j < |reports| ==> reports[i].id != reports[j].id
  }

  /** DELETE shortens the collection exactly when some record has that id;
      otherwise the collection is returned as it is. */
  lemma {:induction false} DeleteShrinksIffPresent(reports: seq<StoredReport>, id: string)
    ensures |WithoutId(reports, id)| < |reports| <==> exists k :: 0 <= k < |reports| && reports[k].id == id
    ensures (forall k :: 0 <= k < |reports| ==> reports[k].id != id) ==> WithoutId(reports, id) == reports
    decreases |reports|
  {
    if reports != [] {
      DeleteShrinksIffPresent(reports[1..], id);
      if reports[0].id != id {
        assert forall k :: 1 <= k < |reports| ==> reports[k] == reports[1..][k - 1];
      }
    }
  }

  /** When every POST supplies an id, ids stay unique: a POST with a fresh id
      adds one record with that id, and one with a known id adds nothing. */
  lemma PostWithIdKeepsIdsUnique(reports: seq<StoredReport>, body: PostBody, nowMs: int, nowIso: string)
    requires UniqueIds(reports)
    requires body.id != ""
    ensures UniqueIds(AfterPost(reports, body, nowMs, nowIso))
  {
    var r := AfterPost(reports, body, nowMs, nowIso);
    if FindIndex(reports, body.id).None? {
      forall i, j | 0 <= i < j < |r| ensures r[i].id != r[j].id {
        if i == 0 {
          assert r[j] == reports[j - 1];
        } else {
          assert r[i] == reports[i - 1] && r[j] == reports[j - 1];
        }
      }
    }
  }

  /** Repeating a POST that carries an id leaves the collection as the first
      one left it: creation is idempotent by the client-supplied id. */
  lemma PostWithIdIdempotent(reports: seq<StoredReport>, body: PostBody, t1: int, iso1: string, t2: int, iso2: string)
    requires body.id != ""
    ensures AfterPost(AfterPost(reports, body, t1, iso1), body, t2, iso2) == AfterPost(reports, body, t1, iso1)
  {
    var once := AfterPost(reports, body, t1, iso1);
    if FindIndex(reports, body.id).None? {
      assert once[0].id == body.id;
      assert FindIndex(once, body.id) == Some(0);
    }
  }

  /** The duplicate check compares against the supplied id only, never the
      generated one: two POSTs without an id in the same millisecond store
      two records with the same id. */
  lemma GeneratedIdsAreNotChecked(body: PostBody, nowMs: int, nowIso: string)
    requires body.id == ""
    ensures var twice := AfterPost(AfterPost([], body, nowMs, nowIso), body, nowMs, nowIso);
      |twice| == 2 && twice[0].id == twice[1].id == "report-" + IntToString(nowMs)
  {
    var once := AfterPost([], body, nowMs, nowIso);
    assert once[0].id != "";
    assert FindIndex(once, "") == None;
  }

  class ReportStore {
    /** `let reports = []`: newest insert first. */
    var reports: seq<StoredReport>

    constructor ()
      ensures reports == []
    {
      reports := [];
    }

    /** `GET /api/reports`: the whole collection in stored order. */
    method Get() returns (r: seq<StoredReport>)
      ensures r == reports
    {
      r := reports;
    }

    /** `DELETE /api/reports/:id`: removes every record with that id and
        answers success exactly when the collection got shorter. */
    method Delete(id: string) returns (reply: DeleteReply)
      modifies this
      ensures reports == WithoutId(old(reports), id)
      ensures reply == Deleted <==> |reports| < |old(reports)|
      ensures reply == NotFound ==> reports == old(reports)
    {
      var initialLength := |reports|;
      reports := WithoutId(reports, id);
      if |reports| < initialLength {
        reply := Deleted;
      } else {
        DeleteShrinksIffPresent(old(reports), id);
        reply := NotFound;
      }
    }

    /** `POST /api/reports`: answers with the existing record when the
        supplied id is taken, else prepends the new record and answers with it. */
    method Post(body: PostBody, nowMs: int, nowIso: string) returns (reply: PostReply)
      modifies this
      ensures reports == AfterPost(old(reports), body, nowMs, nowIso)
      ensures match FindIndex(old(reports), body.id)
        case Some(i) => reply == AlreadyExists(old(reports)[i])
        case None => reply == Created(NewReport(body, nowMs, nowIso))
    {
      var newReport := NewReport(body, nowMs, nowIso);
      var existingIndex := FindIndex(reports, body.id);
      if existingIndex.Some? {
        return AlreadyExists(reports[existingIndex.value]);
      }
      reports := [newReport] + reports;
      reply := Created(newReport);
    }
  }
}
