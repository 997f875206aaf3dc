/** The user app's USSD menu (Miyah-user/src/components/USSDSimulator.tsx,
    with the territory table of Miyah-user/src/data/ussdData.ts): a phone
    keypad that edits an input buffer and, on SEND, moves a session through
    the menu states. */
module Ussd {
  import opened Common

  datatype UssdState = Idle | MainMenu | TerritorySelect | ServiceSelect | DisplayInfo

  datatype Service = Water | Electricity

  /** `USSDSession`; an absent optional field is `None`. */
  datatype Session = Session(
    state: UssdState,
    input: string,
    selectedTerritory: Option<string>,
    selectedService: Option<Service>,
    history: seq<string>)

  /** What the phone's screen shows. The texts are fixed except for the
      territory name and, on the information screen, the table entry for the
      chosen territory and service. */
  datatype Screen =
    | StartPrompt                              // "Enter *122# to start"
    | TerritoryMenu                            // welcome text and the six territories
    | ServiceMenu(territoryName: string)       // the territory's name and the service menu
    | ServiceInfo(territory: string, service: Service)
    | InvalidInput                             // "Invalid input. Please try again."
    | SessionEnded                             // "Session ended. Enter *122# to start"

  const START_CODE: string := "*122#"

  /** The names in `SUDAN_TERRITORIES`, by key. */
  const TERRITORIES: map<string, string> := map[
    "1" := "Khartoum",
    "2" := "Gezira (Al-Jazeera)",
    "3" := "Omdurman",
    "4" := "Kassala",
    "5" := "Port Sudan",
    "6" := "Nyala"]

  /** The key sent to choose a service on the service menu. */
  function ServiceKey(service: Service): string {
    match service
    case Water => "1"
    case Electricity => "2"
  }

  /** The session the simulator starts with and returns to on exit. */
  const IDLE_SESSION: Session := Session(Idle, "", None, None, [])

  /** The session right after `*122#`: the territory menu, nothing chosen. */
  const MENU_SESSION: Session := Session(TerritorySelect, "", None, None, [START_CODE])

  /** `input.match(/^[1-6]$/)`: exactly one character, a digit from 1 to 6. */
  predicate IsTerritoryKey(input: string) {
    |input| == 1 && '1' <= input[0] <= '6'
  }

  /** The pattern accepts exactly the keys of the territory table. */
  lemma TerritoryKeyIffInTable(input: string)
    ensures IsTerritoryKey(input) <==> input in TERRITORIES
  {
    if IsTerritoryKey(input) {
      var c := input[0];
      assert input == [c];
      assert c == '1' || c == '2' || c == '3' || c == '4' || c == '5' || c == '6';
    }
  }

  /** What the menu expects in each state, by state: `*122#` to start, a
      territory key, `0` or a service key, `0` or `#`. */
  function AcceptedInputs(state: UssdState): set<string> {
    match state
    case Idle => {START_CODE}
    case MainMenu => {}
    case TerritorySelect => TERRITORIES.Keys
    case ServiceSelect => {"0", "1", "2"}
    case DisplayInfo => {"0", "#"}
  }

  /** The sessions the simulator can reach: the state decides what is
      chosen and the history records the path of accepted inputs; the
      declared `MAIN_MENU` state never occurs. */
  predicate WellFormed(s: Session) {
    match s.state
    case Idle => s.selectedTerritory.None? && s.selectedService.None? && s.history == []
    case MainMenu => false
    case TerritorySelect => s.selectedTerritory.None? && s.selectedService.None? && s.history == [START_CODE]
    case ServiceSelect =>
      && s.selectedTerritory.Some? && s.selectedTerritory.value in TERRITORIES
      && s.selectedService.None?
      && s.history == [START_CODE, s.selectedTerritory.value]
    case DisplayInfo =>
      && s.selectedTerritory.Some? && s.selectedTerritory.value in TERRITORIES
      && s.selectedService.Some?
      && s.history == [START_CODE, s.selectedTerritory.value, ServiceKey(s.selectedService.value)]
  }

  /** `processUSSD(input)` on the current session and screen, as the
      session and screen it leaves. Choosing a service without a known
      territory reads a field of `undefined` and throws before anything is
      set, which leaves both as they were. */
  function Step(s: Session, shown: Screen, input: string): (r: (Session, Screen))
    ensures r == (s, shown) || r.0.input == ""
    ensures r.1 == InvalidInput && r != (s, shown) ==> r.0 == s.(input := "")
    ensures r.1.ServiceMenu? && r != (s, shown) ==>
      && r.0.selectedTerritory.Some? && r.0.selectedTerritory.value in TERRITORIES
      && r.1.territoryName == TERRITORIES[r.0.selectedTerritory.value]
    ensures r.1 == SessionEnded && r != (s, shown) ==> r.0 == IDLE_SESSION
  {
    if input == START_CODE && s.state == Idle then
      (MENU_SESSION, TerritoryMenu)
    else if s.state == TerritorySelect && IsTerritoryKey(input) then
      TerritoryKeyIffInTable(input);
      (s.(state := ServiceSelect, selectedTerritory := Some(input), input := "", history := s.history + [input]),
       ServiceMenu(TERRITORIES[input]))
    else if s.state == ServiceSelect && input == "0" then
      (Session(TerritorySelect, "", None, None, if s.history == [] then [] else s.history[..|s.history| - 1]),
       TerritoryMenu)
    else if s.state == ServiceSelect && (input == "1" || input == "2") then
      if s.selectedTerritory.Some? && s.selectedTerritory.value in TERRITORIES then
        var service := if input == "1" then Water else Electricity;
        (s.(state := DisplayInfo, selectedService := Some(service), input := "", history := s.history + [input]),
         ServiceInfo(s.selectedTerritory.value, service))
      else
        (s, shown)
    else if s.state == DisplayInfo && input == "0" then
      (MENU_SESSION, TerritoryMenu)
    else if s.state == DisplayInfo && input == "#" then
      (IDLE_SESSION, SessionEnded)
    else
      (s.(input := ""), InvalidInput)
  }

  /** Every step keeps a reachable session reachable; in
      particular the selected territory is always a key of the table and the
      `MAIN_MENU` state is never entered. */
  lemma StepKeepsWellFormed(s: Session, shown: Screen, input: string)
    requires WellFormed(s)
    ensures WellFormed(Step(s, shown, input).0)
    ensures Step(s, shown, input).0.state != MainMenu
  {
    if s.state == TerritorySelect && IsTerritoryKey(input) {
      TerritoryKeyIffInTable(input);
    }
  }

  /** On a reachable session an input is refused exactly when it is not
      one the current state expects; a refused input keeps the state, the
      selections and the history and only clears the buffer. */
  lemma InvalidIffUnexpected(s: Session, shown: Screen, input: string)
    requires WellFormed(s)
    ensures Step(s, shown, input).1 == InvalidInput <==> input !in AcceptedInputs(s.state)
    ensures input !in AcceptedInputs(s.state) ==> Step(s, shown, input).0 == s.(input := "")
  {
    TerritoryKeyIffInTable(input);
  }

  /** Accepted inputs clear the buffer and move along the menu: the state
      after each accepted input, by state. */
  lemma AcceptedMoves(s: Session, shown: Screen, input: string)
    requires WellFormed(s)
    requires input in AcceptedInputs(s.state)
    ensures Step(s, shown, input).0.input == ""
    ensures s.state == Idle ==> Step(s, shown, input).0 == MENU_SESSION
    ensures s.state == TerritorySelect ==>
      Step(s, shown, input).0 == Session(ServiceSelect, "", Some(input), None, [START_CODE, input])
    ensures s.state == ServiceSelect && input == "0" ==> Step(s, shown, input).0 == MENU_SESSION
    ensures s.state == ServiceSelect && input == "1" ==>
      Step(s, shown, input).0 == Session(DisplayInfo, "", s.selectedTerritory, Some(Water), s.history + ["1"])
    ensures s.state == ServiceSelect && input == "2" ==>
      Step(s, shown, input).0 == Session(DisplayInfo, "", s.selectedTerritory, Some(Electricity), s.history + ["2"])
    ensures s.state == DisplayInfo && input == "0" ==> Step(s, shown, input).0 == MENU_SESSION
    ensures s.state == DisplayInfo && input == "#" ==> Step(s, shown, input).0 == IDLE_SESSION
  {
    TerritoryKeyIffInTable(input);
  }

  /** Choosing a territory and then `0` returns to the session the choice
      was made from, with the buffer cleared. */
  lemma SelectThenBackRoundTrip(s: Session, shown: Screen, key: string)
    requires WellFormed(s) && s.state == TerritorySelect
    requires key in TERRITORIES
    ensures var chosen := Step(s, shown, key);
      Step(chosen.0, chosen.1, "0") == (s.(input := ""), TerritoryMenu)
  {
    TerritoryKeyIffInTable(key);
    var chosen := Step(s, shown, key);
    assert chosen.0.history == [START_CODE, key];
    assert chosen.0.history[..1] == [START_CODE];
  }

  class UssdSimulator {
    var session: Session
    var display: Screen

    ghost predicate Valid()
      reads this
    {
      WellFormed(session)
    }

    constructor ()
      ensures Valid()
      ensures session == IDLE_SESSION && display == StartPrompt
    {
      session := IDLE_SESSION;
      display := StartPrompt;
    }

    /** `handleKeyPress`: the key is appended to the buffer. */
    method KeyPress(key: string)
      requires Valid()
      modifies this
      ensures Valid()
      ensures session == old(session).(input := old(session.input) + key)
      ensures display == old(display)
    {
      session := session.(input := session.input + key);
    }

    /** `handleDelete`: `slice(0, -1)` drops the last character; an empty
        buffer stays empty. */
    method Delete()
      requires Valid()
      modifies this
      ensures Valid()
      ensures old(session.input) == [] ==> session == old(session)
      ensures old(session.input) != [] ==>
        session == old(session).(input := old(session.input)[..|old(session.input)| - 1])
      ensures display == old(display)
    {
      if session.input != [] {
        session := session.(input := session.input[..|session.input| - 1]);
      }
    }

    /** `processUSSD`: the first rule that matches the state and input
        sets the new session and screen. */
    method ProcessUssd(input: string)
      requires Valid()
      modifies this
      ensures Valid()
      ensures (session, display) == Step(old(session), old(display), input)
    {
      StepKeepsWellFormed(session, display, input);
      if input == START_CODE && session.state == Idle {
        session := MENU_SESSION;
        display := TerritoryMenu;
        return;
      }
      if session.state == TerritorySelect && IsTerritoryKey(input) {
        TerritoryKeyIffInTable(input);
        var name := TERRITORIES[input];
        session := session.(state := ServiceSelect, selectedTerritory := Some(input), input := "",
                            history := session.history + [input]);
        display := ServiceMenu(name);
        return;
      }
      if session.state == ServiceSelect {
        if input == "0" {
          var history := if session.history == [] then [] else session.history[..|session.history| - 1];
          session := Session(TerritorySelect, "", None, None, history);
          display := TerritoryMenu;
          return;
        }
        if input == "1" || input == "2" {
          var territory := session.selectedTerritory.value;
          var service := if input == "1" then Water else Electricity;
          session := session.(state := DisplayInfo, selectedService := Some(service), input := "",
                              history := session.history + [input]);
          display := ServiceInfo(territory, service);
          return;
        }
      }
      if session.state == DisplayInfo {
        if input == "0" {
          session := MENU_SESSION;
          display := TerritoryMenu;
          return;
        }
        if input == "#" {
          session := IDLE_SESSION;
          display := SessionEnded;
          return;
        }
      }
      display := InvalidInput;
      session := session.(input := "");
    }

    /** `handleSend`: the buffer is processed as one input. */
    method Send()
      requires Valid()
      modifies this
      ensures Valid()
      ensures (session, display) == Step(old(session), old(display), old(session.input))
    {
      ProcessUssd(session.input);
    }

    /** `handleBack`: from the territory menu back to idle; on the service
        menu and the information screen exactly what sending `0` does;
        nothing when idle. */
    method Back()
      requires Valid()
      modifies this
      ensures Valid()
      ensures old(session.state) == Idle ==> session == old(session) && display == old(display)
      ensures old(session.state) == TerritorySelect ==> session == IDLE_SESSION && display == StartPrompt
      ensures old(session.state) in {ServiceSelect, DisplayInfo} ==>
        (session, display) == Step(old(session), old(display), "0")
    {
      if session.state == TerritorySelect {
        session := IDLE_SESSION;
        display := StartPrompt;
      } else if session.state == ServiceSelect {
        ProcessUssd("0");
      } else if session.state == DisplayInfo {
        ProcessUssd("0");
      }
    }
  }
}
