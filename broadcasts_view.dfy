/** The NGO broadcast form (components/BroadcastsView.tsx): the operator
    picks neighbourhoods, writes or requests a suggested SMS text, and sends
    it, which puts one item at the head of the broadcast history. */
module Broadcasts {
  import opened Common
  import opened Text
  import opened I18n
  import opened NgoTypes

  datatype BroadcastItem = BroadcastItem(id: string, timestamp: string, area: string, message: string)

  /** How a suggestion request settled: the suggested text, or the error's message. */
  datatype Suggestion = Suggested(text: string) | Failed(message: string)

  /** The two fixed error texts the form shows (they are not translated). */
  const NO_AREA_FOR_SUGGESTION: string := "Please select at least one neighborhood to get a suggestion."
  const NOTHING_TO_SEND: string := "Please select areas and provide a message."

  /** `neighborhoods.find(nb => nb.id === id)`. */
  function FindById(ns: seq<Neighborhood>, id: string): (r: Option<Neighborhood>)
    ensures r.Some? ==> r.value in ns && r.value.id == id
    ensures r.None? <==> forall i :: 0 <= i < |ns| ==> ns[i].id != id
    ensures r.Some? ==> exists i :: 0 <= i < |ns| && ns[i] == r.value && forall k :: 0 <= k < i ==> ns[k].id != id
    decreases |ns|
  {
    if ns == [] then None
    else if ns[0].id == id then Some(ns[0])
    else
      var r := FindById(ns[1..], id);
      if r.Some? then
        var i :| 0 <= i < |ns[1..]| && ns[1..][i] == r.value && forall k :: 0 <= k < i ==> ns[1..][k].id != id;
        assert ns[i + 1] == r.value;
        r
      else r
  }

  /** `find(...)?.name || id`: the first matching neighbourhood's name, or
      the id itself when no neighbourhood has it or the name is empty. */
  function AreaName(ns: seq<Neighborhood>, id: string): (r: string)
    ensures (forall i :: 0 <= i < |ns| ==> ns[i].id != id) ==> r == id
    ensures r != id ==> exists i :: 0 <= i < |ns| && ns[i].id == id && ns[i].name == r
    ensures r == "" ==> id == ""
    ensures FindById(ns, id).Some? && FindById(ns, id).value.name != "" ==> r == FindById(ns, id).value.name
  {
    match FindById(ns, id)
    case None => id
    case Some(nb) => if nb.name != "" then nb.name else id
  }

  /** The names of the chosen ids, in selection order. */
  function AreaNames(ns: seq<Neighborhood>, ids: seq<string>): (r: seq<string>)
    ensures |r| == |ids|
    ensures forall i :: 0 <= i < |ids| ==> r[i] == AreaName(ns, ids[i])
  {
    seq(|ids|, i requires 0 <= i < |ids| => AreaName(ns, ids[i]))
  }

  /** The history item's `area`: the chosen areas' names joined by ", ". */
  function AreaLabel(ns: seq<Neighborhood>, ids: seq<string>): (r: string)
    ensures |ids| == 1 ==> r == AreaName(ns, ids[0])
  {
    Join(AreaNames(ns, ids), ", ")
  }

  /** Choosing one more area appends ", " and its name to the label. */
  lemma AreaLabelSnoc(ns: seq<Neighborhood>, ids: seq<string>, id: string)
    requires ids != []
    ensures AreaLabel(ns, ids + [id]) == AreaLabel(ns, ids) + ", " + AreaName(ns, id)
  {
    assert AreaNames(ns, ids + [id]) == AreaNames(ns, ids) + [AreaName(ns, id)];
    JoinSnoc(AreaNames(ns, ids), AreaName(ns, id), ", ");
  }

  /** Whether `handleSendBroadcast` goes ahead: some area chosen and a
      message that is not blank. */
  predicate CanSend(selected: seq<string>, message: string) {
    |selected| != 0 && Trim(message) != ""
  }

  /** The history item a send creates; `nowMs` and `nowIso` stand for
      `Date.now()` and `new Date().toISOString()`. */
  function NewBroadcast(ns: seq<Neighborhood>, selected: seq<string>, message: string, nowMs: int, nowIso: string): (b: BroadcastItem)
    requires CanSend(selected, message)
    ensures b.id == "b-" + IntToString(nowMs) && b.timestamp == nowIso
    ensures b.area == AreaLabel(ns, selected)
    ensures b.message == Trim(message) && b.message != ""
  {
    BroadcastItem("b-" + IntToString(nowMs), nowIso, AreaLabel(ns, selected), Trim(message))
  }

  class BroadcastsView {
    const neighborhoods: seq<Neighborhood>
    const catalog: Catalog
    const lang: string
    var selected: seq<string>
    var message: string
    var isGenerating: bool
    var error: Option<string>
    var history: seq<BroadcastItem>

    constructor (neighborhoods: seq<Neighborhood>, catalog: Catalog, lang: string, initial: seq<BroadcastItem>)
      ensures this.neighborhoods == neighborhoods && this.catalog == catalog && this.lang == lang
      ensures selected == [] && message == "" && !isGenerating && error.None? && history == initial
    {
      this.neighborhoods := neighborhoods;
      this.catalog := catalog;
      this.lang := lang;
      selected := [];
      message := "";
      isGenerating := false;
      error := None;
      history := initial;
    }

    /** `handleNeighborhoodSelect`: the selection becomes the chosen options. */
    method Select(ids: seq<string>)
      modifies this
      ensures selected == ids
      ensures message == old(message) && isGenerating == old(isGenerating)
      ensures error == old(error) && history == old(history)
    {
      selected := ids;
    }

    /** The message box's change handler; the box is disabled while a
        suggestion is in flight. */
    method EditMessage(text: string)
      requires !isGenerating
      modifies this
      ensures message == text
      ensures selected == old(selected) && isGenerating == old(isGenerating)
      ensures error == old(error) && history == old(history)
    {
      message := text;
    }

    /** The synchronous part of `handleSuggestMessage`: with nothing
        selected it shows an error and asks for nothing; otherwise it
        clears the error, marks the request in flight and asks for a
        suggestion (`requested`). */
    method SuggestMessage() returns (requested: bool)
      modifies this
      ensures requested <==> |old(selected)| != 0
      ensures !requested ==> error == Some(NO_AREA_FOR_SUGGESTION) && isGenerating == old(isGenerating)
      ensures requested ==> error.None? && isGenerating
      ensures selected == old(selected) && message == old(message) && history == old(history)
    {
      if |selected| == 0 {
        error := Some(NO_AREA_FOR_SUGGESTION);
        return false;
      }
      isGenerating := true;
      error := None;
      requested := true;
    }

    /** The rest of `handleSuggestMessage` once the request settles: a
        suggestion replaces the message, a failure shows the translated
        `error.gemini` text with the error's message, and either way the
        request is no longer in flight. */
    method SuggestionSettled(outcome: Suggestion)
      modifies this
      ensures !isGenerating
      ensures outcome.Suggested? ==> message == outcome.text && error == old(error)
      ensures outcome.Failed? ==>
        && message == old(message)
        && error == Some(Translate(catalog, lang, "error.gemini", [Param("message", Str(outcome.message))]))
      ensures selected == old(selected) && history == old(history)
    {
      match outcome {
        case Suggested(text) =>
          message := text;
        case Failed(m) =>
          var text := GetTranslation(catalog, lang, "error.gemini", [Param("message", Str(m))]);
          error := Some(text);
      }
      isGenerating := false;
    }

    /** `handleSendBroadcast`: without an area or with a blank message it
        shows an error and the history is unchanged; otherwise the new item
        goes to the head of the history and the form is cleared. */
    method SendBroadcast(nowMs: int, nowIso: string) returns (sent: bool)
      modifies this
      ensures sent == CanSend(old(selected), old(message))
      ensures !sent ==>
        && error == Some(NOTHING_TO_SEND)
        && history == old(history) && selected == old(selected) && message == old(message)
        && isGenerating == old(isGenerating)
      ensures sent ==>
        && history == [NewBroadcast(neighborhoods, old(selected), old(message), nowMs, nowIso)] + old(history)
        && selected == [] && message == "" && error.None?
        && isGenerating == old(isGenerating)
    {
      if |selected| == 0 || Trim(message) == "" {
        error := Some(NOTHING_TO_SEND);
        return false;
      }
      error := None;
      var item := BroadcastItem("b-" + IntToString(nowMs), nowIso, AreaLabel(neighborhoods, selected), Trim(message));
      history := [item] + history;
      selected := [];
      message := "";
      sent := true;
    }
  }
}
