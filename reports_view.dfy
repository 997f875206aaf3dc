/** The NGO report feed (components/ReportsView.tsx): mesh `REPORT_NEW`
    packets become feed items, the operator toggles verification, and the
    complaint form is validated, prepended and cleared. */
module ReportsView {
  import opened Common
  import opened Text
  import opened I18n
  import opened Mesh
  import opened NgoTypes
  import opened NgoMesh

  /** A template literal's rendering of a string field that may be missing. */
  function Show(field: Option<string>): string {
    if field.Some? then field.value else "undefined"
  }

  /** The payload's `type` mapped onto the feed's report types. */
  function CategoryType(category: Option<string>): (t: ReportType)
    ensures t == WaterIssue <==> category == Some("water")
    ensures t == PowerIssue <==> category == Some("power")
    ensures t == WaterIssue || t == PowerIssue || t == General
  {
    if category == Some("water") then WaterIssue
    else if category == Some("power") then PowerIssue
    else General
  }

  /** The feed item a mesh packet yields: only `REPORT_NEW` packets yield
      one, and one whose payload is `null` cannot be destructured (the
      callback throws) and yields none. `nowIso` stands for
      `new Date().toISOString()`. */
  function MeshReport(p: Packet, nowIso: string): (r: Option<Report>)
    ensures r.Some? <==> p.ptype == ReportNew && p.payload.Fields?
    ensures r.Some? ==>
      && r.value.id == "mesh-" + p.messageId
      && r.value.neighborhoodId == "khartoum-1"
      && r.value.rtype == CategoryType(p.payload.category)
      && r.value.message == Show(p.payload.location) + ": " + Show(p.payload.message)
      && !r.value.isVerified
      && r.value.urgency == Some(Medium)
      && r.value.imageUrl.None? && r.value.audioUrl.None?
    ensures r.Some? && p.payload.timestamp.Some? && p.payload.timestamp.value != "" ==>
      r.value.timestamp == p.payload.timestamp.value
    ensures r.Some? && (p.payload.timestamp.None? || p.payload.timestamp.value == "") ==>
      r.value.timestamp == nowIso
  {
    if p.ptype != ReportNew then None
    else match p.payload
      case NullPayload => None
      case Fields(category, message, location, timestamp) =>
        Some(Report(
          "mesh-" + p.messageId,
          "khartoum-1",
          CategoryType(category),
          if timestamp.Some? && timestamp.value != "" then timestamp.value else nowIso,
          Show(location) + ": " + Show(message),
          None,
          None,
          false,
          Some(Medium)))
  }

  /** The feed after a mesh packet: the new item in front of the unchanged
      feed, or the feed as it was. There is no id check at this layer. */
  function WithMeshPacket(feed: seq<Report>, p: Packet, nowIso: string): (r: seq<Report>)
    ensures MeshReport(p, nowIso).None? ==> r == feed
    ensures MeshReport(p, nowIso).Some? ==> |r| == |feed| + 1 && r[0] == MeshReport(p, nowIso).value && r[1..] == feed
  {
    match MeshReport(p, nowIso)
    case None => feed
    case Some(report) => [report] + feed
  }

  /** The "mesh-" prefix keeps distinct message ids distinct. */
  lemma MeshIdsInjective(a: string, b: string)
    requires "mesh-" + a == "mesh-" + b
    ensures a == b
  {
    assert a == ("mesh-" + a)[5..];
  }

  predicate UniqueIds(feed: seq<Report>) {
    forall i, j :: 0 <= i < j < |feed| ==> feed[i].id != feed[j].id
  }

  /** Feed ids stay unique as long as each prepended mesh item's message id
      has not produced an item before, which is what the service's seen-set
      guarantees for mesh items. */
  lemma MeshPrependKeepsIdsUnique(feed: seq<Report>, p: Packet, nowIso: string)
    requires UniqueIds(feed)
    requires forall i :: 0 <= i < |feed| ==> feed[i].id != "mesh-" + p.messageId
    ensures UniqueIds(WithMeshPacket(feed, p, nowIso))
  {
    var r := WithMeshPacket(feed, p, nowIso);
    if MeshReport(p, nowIso).Some? {
      forall i, j | 0 <= i < j < |r| ensures r[i].id != r[j].id {
        assert r[j] == feed[j - 1];
        if i > 0 {
          assert r[i] == feed[i - 1];
        }
      }
    }
  }

  /** Every mesh item of the feed (an id starting with "mesh-") came from a
      message id in `seen`. */
  predicate MeshIdsSeen(feed: seq<Report>, seen: set<string>) {
    forall i :: 0 <= i < |feed| && |feed[i].id| >= 5 && feed[i].id[..5] == "mesh-" ==> feed[i].id[5..] in seen
  }

  /** The NGO listener calls the feed's callback only for a message id not
      in its seen-set, and adds that id to the set. So if every mesh item of
      the feed came from a seen id, the new item's id is fresh: the feed's
      ids stay unique, and the correspondence holds for the grown set. */
  lemma SeenSetKeepsFeedIdsUnique(feed: seq<Report>, seen: set<string>, p: Packet, nowIso: string)
    requires UniqueIds(feed) && MeshIdsSeen(feed, seen)
    requires p.messageId !in seen
    ensures UniqueIds(WithMeshPacket(feed, p, nowIso))
    ensures MeshIdsSeen(WithMeshPacket(feed, p, nowIso), seen + {p.messageId})
  {
    var newId := "mesh-" + p.messageId;
    assert newId[..5] == "mesh-" && newId[5..] == p.messageId;
    MeshPrependKeepsIdsUnique(feed, p, nowIso);
  }

  /** `toggleVerification(id)`: flip `isVerified` on the items with that id. */
  function Toggled(feed: seq<Report>, id: string): (r: seq<Report>)
    ensures |r| == |feed|
    ensures forall i :: 0 <= i < |r| ==> r[i].(isVerified := feed[i].isVerified) == feed[i]
    ensures forall i :: 0 <= i < |r| ==> (r[i].isVerified != feed[i].isVerified <==> feed[i].id == id)
  {
    seq(|feed|, i requires 0 <= i < |feed| =>
      if feed[i].id == id then feed[i].(isVerified := !feed[i].isVerified) else feed[i])
  }

  /** Toggling the same id twice restores the feed. */
  lemma ToggleTwiceRestores(feed: seq<Report>, id: string)
    ensures Toggled(Toggled(feed, id), id) == feed
  {
    var once := Toggled(feed, id);
    var twice := Toggled(once, id);
    forall i | 0 <= i < |feed| ensures twice[i] == feed[i] {
      assert once[i].id == feed[i].id;
    }
  }

  /** The complaint form's state; "" in a select is `None`. */
  datatype ComplaintForm = ComplaintForm(
    neighborhoodId: string,
    complaintType: Option<ReportType>,
    description: string,
    urgency: Option<Urgency>,
    imageUrl: Option<string>,
    audioUrl: Option<string>,
    error: Option<string>)

  /** The form `handleClearForm` resets to. */
  const EmptyForm: ComplaintForm := ComplaintForm("", None, "", None, None, None, None)

  /** The submission check: every field chosen and the description not blank. */
  predicate Complete(form: ComplaintForm) {
    && form.neighborhoodId != ""
    && form.complaintType.Some?
    && Trim(form.description) != ""
    && form.urgency.Some?
  }

  /** A form passes exactly when the neighbourhood, type and urgency are
      chosen and the description has a character that is not white space. */
  lemma CompleteIffFilled(form: ComplaintForm)
    ensures Complete(form) <==>
      && form.neighborhoodId != "" && form.complaintType.Some? && form.urgency.Some?
      && exists k :: 0 <= k < |form.description| && !IsJsSpace(form.description[k])
  {
    TrimEmptyIffBlank(form.description);
  }

  /** The feed item an accepted complaint becomes; `nowMs` and `nowIso`
      stand for `Date.now()` and `new Date().toISOString()`. */
  function ComplaintReport(form: ComplaintForm, nowMs: int, nowIso: string): (r: Report)
    requires Complete(form)
    ensures r.id == "report-" + IntToString(nowMs)
    ensures r.neighborhoodId == form.neighborhoodId && r.rtype == form.complaintType.value
    ensures r.message == Trim(form.description) && r.message != ""
    ensures r.imageUrl == form.imageUrl && r.audioUrl == form.audioUrl
    ensures !r.isVerified && r.urgency == form.urgency
    ensures r.timestamp == nowIso
  {
    Report(
      "report-" + IntToString(nowMs),
      form.neighborhoodId,
      form.complaintType.value,
      nowIso,
      Trim(form.description),
      form.imageUrl,
      form.audioUrl,
      false,
      form.urgency)
  }

  class ReportsView {
    const catalog: Catalog
    const lang: string
    var reports: seq<Report>
    var complaint: ComplaintForm

    constructor (catalog: Catalog, lang: string, initial: seq<Report>)
      ensures this.catalog == catalog && this.lang == lang
      ensures reports == initial && complaint == EmptyForm
    {
      this.catalog := catalog;
      this.lang := lang;
      reports := initial;
      complaint := EmptyForm;
    }

    /** The callback the view registers with the NGO mesh service. */
    method OnMeshPacket(p: Packet, nowIso: string)
      modifies this
      ensures reports == WithMeshPacket(old(reports), p, nowIso)
      ensures complaint == old(complaint)
    {
      reports := WithMeshPacket(reports, p, nowIso);
    }

    method ToggleVerification(id: string)
      modifies this
      ensures reports == Toggled(old(reports), id)
      ensures complaint == old(complaint)
    {
      reports := Toggled(reports, id);
    }

    /** `handleClearForm`. */
    method ClearForm()
      modifies this
      ensures complaint == EmptyForm
      ensures reports == old(reports)
    {
      complaint := EmptyForm;
    }

    /** `handleSubmitComplaint`: an incomplete form gets the translated
        "fill all fields" error and the feed is unchanged; a complete one is
        prepended to the feed and the form is cleared. */
    method SubmitComplaint(nowMs: int, nowIso: string) returns (accepted: bool)
      modifies this
      ensures accepted == Complete(old(complaint))
      ensures !accepted ==>
        && reports == old(reports)
        && complaint == old(complaint).(error := Some(Translate(catalog, lang, "report.fillAllFields", [])))
      ensures accepted ==>
        && reports == [ComplaintReport(old(complaint), nowMs, nowIso)] + old(reports)
        && complaint == EmptyForm
    {
      var form := complaint;
      if form.neighborhoodId == "" || form.complaintType.None? || Trim(form.description) == "" || form.urgency.None? {
        var message := GetTranslation(catalog, lang, "report.fillAllFields", []);
        complaint := complaint.(error := Some(message));
        return false;
      }
      var newReport := ComplaintReport(form, nowMs, nowIso);
      reports := [newReport] + reports;
      ClearForm();
      accepted := true;
    }
  }

  /** The feed's subscription to the NGO listener, for one storage event:
      the view's callback `h` sees the packet only when the listener invokes
      it, which happens only for a message id the listener had not seen. So
      a feed whose mesh items all come from seen ids, and whose ids are
      unique, keeps both properties however the events arrive, repeated
      deliveries of one packet included. The view subscribes once per
      mount, so its callback is registered at most once. */
  method ReceiveStorageEvent(svc: NgoMeshService, view: ReportsView, h: HandlerId, ev: StorageEvent, nowIso: string)
    returns (invoked: seq<HandlerId>)
    requires svc.Valid()
    requires Count(svc.callbacks, h) <= 1
    requires UniqueIds(view.reports) && MeshIdsSeen(view.reports, svc.messageHistory)
    modifies svc, view
    ensures svc.Valid()
    ensures UniqueIds(view.reports) && MeshIdsSeen(view.reports, svc.messageHistory)
    ensures h in invoked <==>
      && old(svc.listening) && svc.Incoming(ev).Some?
      && svc.Incoming(ev).value.messageId !in old(svc.messageHistory) && h in old(svc.callbacks)
    ensures h in invoked ==>
      svc.Incoming(ev).Some? && view.reports == WithMeshPacket(old(view.reports), svc.Incoming(ev).value, nowIso)
    ensures h !in invoked ==> view.reports == old(view.reports)
    ensures view.complaint == old(view.complaint)
  {
    invoked := svc.OnStorageEvent(ev);
    if h in invoked {
      var p := svc.Incoming(ev).value;
      SeenSetKeepsFeedIdsUnique(view.reports, old(svc.messageHistory), p, nowIso);
      view.OnMeshPacket(p, nowIso);
    }
  }
}
