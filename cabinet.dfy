/**
 * The cabinet (`Cabinet`): it opens the first time the telescope's light is
 * seen switching on, stays open, and once open, interacting with it ends the
 * demo. Playing the opening sound and ending the demo are recorded as a
 * counter and a flag.
 */
module CabinetLatch {
  import opened Engine
  import opened TelescopeView

  /** The cabinet's own flags and the number of times the opening sound was played. */
  datatype CabinetState = CabinetState(isOpen: bool, wasLightOn: bool, openSounds: nat)

  const Closed: CabinetState := CabinetState(false, false, 0)

  /**
   * One `Update`: while closed and with a telescope, a light that is on now
   * and was off at the last tracked frame opens the cabinet; the reading is
   * then remembered. An open cabinet, or one without a telescope, ignores it.
   */
  function Tick(s: CabinetState, hasTelescope: bool, lightOn: bool): (r: CabinetState)
    ensures s.isOpen ==> r.isOpen
    ensures s.isOpen || !hasTelescope ==> r == s
    ensures !s.isOpen && hasTelescope ==> r.wasLightOn == lightOn
    ensures !s.isOpen && hasTelescope ==> (r.isOpen <==> lightOn && !s.wasLightOn)
    ensures r.openSounds == s.openSounds + (if r.isOpen && !s.isOpen then 1 else 0)
  {
    if !s.isOpen && hasTelescope then
      var afterEdge := if lightOn && !s.wasLightOn then s.(isOpen := true, openSounds := s.openSounds + 1) else s;
      afterEdge.(wasLightOn := lightOn)
    else s
  }

  function Run(s: CabinetState, hasTelescope: bool, readings: seq<bool>): CabinetState
    decreases |readings|
  {
    if readings == [] then s else Run(Tick(s, hasTelescope, readings[0]), hasTelescope, readings[1..])
  }

  /** Reachable states: a remembered light implies the cabinet is open, and the sound plays once, at opening. */
  predicate Consistent(s: CabinetState) {
    && (s.wasLightOn ==> s.isOpen)
    && s.openSounds == (if s.isOpen then 1 else 0)
  }

  /**
   * From the initial closed state with a telescope, the cabinet ends up open
   * exactly when the light was on in some tracked frame; it is never closed
   * again and the opening sound plays at most once.
   */
  lemma {:induction false} OpensIffLightSeen(s: CabinetState, readings: seq<bool>)
    requires Consistent(s)
    ensures Consistent(Run(s, true, readings))
    ensures Run(s, true, readings).isOpen <==> s.isOpen || exists i :: 0 <= i < |readings| && readings[i]
    decreases |readings|
  {
    if readings != [] {
      var next := Tick(s, true, readings[0]);
      OpensIffLightSeen(next, readings[1..]);
      if exists i :: 0 <= i < |readings[1..]| && readings[1..][i] {
        var i :| 0 <= i < |readings[1..]| && readings[1..][i];
        assert readings[i + 1];
      }
      if exists i :: 0 <= i < |readings| && readings[i] {
        var i :| 0 <= i < |readings| && readings[i];
        if i > 0 {
          assert readings[1..][i - 1];
        }
      }
    }
  }

  /** Without a telescope the cabinet never opens. */
  lemma {:induction false} NeverOpensWithoutTelescope(s: CabinetState, readings: seq<bool>)
    ensures Run(s, false, readings) == s
    decreases |readings|
  {
    if readings != [] {
      NeverOpensWithoutTelescope(Tick(s, false, readings[0]), readings[1..]);
    }
  }

  class Cabinet {
    const closedModel: GameObject?
    const openModel: GameObject?
    const bookModel: GameObject?
    const requiredTelescope: Telescope?
    var isOpen: bool
    var wasLightOn: bool
    /** How many times the opening sound was played. */
    var openSounds: nat
    /** Whether `EndDemo` ran. */
    var demoEnded: bool

    function State(): CabinetState
      reads this
    {
      CabinetState(isOpen, wasLightOn, openSounds)
    }

    /** The field initialisers. */
    constructor (closedModel: GameObject?, openModel: GameObject?, bookModel: GameObject?, requiredTelescope: Telescope?)
      ensures this.closedModel == closedModel && this.openModel == openModel && this.bookModel == bookModel
      ensures this.requiredTelescope == requiredTelescope
      ensures State() == Closed && !demoEnded
    {
      this.closedModel := closedModel;
      this.openModel := openModel;
      this.bookModel := bookModel;
      this.requiredTelescope := requiredTelescope;
      isOpen := false;
      wasLightOn := false;
      openSounds := 0;
      demoEnded := false;
    }

    /** The scene objects the cabinet switches, where assigned. */
    function Models(): set<GameObject>
      reads this
    {
      (if closedModel != null then {closedModel} else {})
      + (if openModel != null then {openModel} else {})
      + (if bookModel != null then {bookModel} else {})
    }

    /** The closed model shows, the open one and the book are hidden (a later assignment wins when two are the same object). */
    method Start()
      modifies Models()
      ensures closedModel != null && closedModel != openModel && closedModel != bookModel ==> closedModel.active
      ensures openModel != null ==> !openModel.active
      ensures bookModel != null ==> !bookModel.active
    {
      if closedModel != null {
        closedModel.active := true;
      }
      if openModel != null {
        openModel.active := false;
      }
      if bookModel != null {
        bookModel.active := false;
      }
    }

    /** The light as the telescope reports it, false without a telescope. */
    function LightReading(): bool
      reads this, requiredTelescope, if requiredTelescope != null then {requiredTelescope.telescopeLight} else {}
    {
      requiredTelescope != null && requiredTelescope.IsLightOn()
    }

    method Update()
      modifies this, Models()
      ensures State() == Tick(old(State()), requiredTelescope != null, old(LightReading()))
      ensures demoEnded == old(demoEnded)
      ensures isOpen && !old(isOpen) ==> OpenShown()
      ensures isOpen == old(isOpen) ==> unchanged(Models())
    {
      if !isOpen && requiredTelescope != null {
        var isLightOn := requiredTelescope.IsLightOn();
        if isLightOn && !wasLightOn {
          OpenCabinet();
        }
        wasLightOn := isLightOn;
      }
    }

    /** The closed model is hidden, and the open model and the book are shown. */
    ghost predicate OpenShown()
      reads this, Models()
    {
      && (closedModel != null && closedModel != openModel && closedModel != bookModel ==> !closedModel.active)
      && (openModel != null ==> openModel.active)
      && (bookModel != null ==> bookModel.active)
    }

    method OpenCabinet()
      modifies this`isOpen, this`openSounds, Models()
      ensures isOpen && openSounds == old(openSounds) + 1
      ensures OpenShown()
    {
      isOpen := true;
      if closedModel != null {
        closedModel.active := false;
      }
      if openModel != null {
        openModel.active := true;
      }
      if bookModel != null {
        bookModel.active := true;
      }
      openSounds := openSounds + 1;
    }

    /** Ends the demo when open; otherwise nothing happens. */
    method Interact(interactor: GameObject)
      modifies this`demoEnded
      ensures demoEnded == (old(demoEnded) || isOpen)
    {
      if isOpen {
        demoEnded := true;
      }
    }
  }
}
