/** components/EmergencyAlert.tsx: the three-second countdown after a fall, and the phone
    number the calling screen shows. Geolocation, the dialer and speech are left to the
    runtime; the interval is an explicit tick. */
module EmergencyAlert {
  import opened Wrappers
  import opened Types

  /** The number shown before any stored one is read. */
  const DefaultPhone := "666"
  /** The countdown's start, in seconds. */
  const CountdownStart := 3

  /** The stored-number priority: the saved emergency number when it is non-empty, else
      the saved family number when it is non-empty, else the default. */
  function ChoosePhone(savedEmergency: Option<string>, savedFamily: Option<string>): (r: string)
    ensures Truthy(savedEmergency) ==> r == savedEmergency.value
    ensures !Truthy(savedEmergency) && Truthy(savedFamily) ==> r == savedFamily.value
    ensures !Truthy(savedEmergency) && !Truthy(savedFamily) ==> r == DefaultPhone
  {
    if Truthy(savedEmergency) then savedEmergency.value
    else if Truthy(savedFamily) then savedFamily.value
    else DefaultPhone
  }

  /** The shown number is never empty, and it is one of the two stored numbers or the
      default. */
  lemma ChosenPhoneIsNeverEmpty(savedEmergency: Option<string>, savedFamily: Option<string>)
    ensures ChoosePhone(savedEmergency, savedFamily) != ""
    ensures ChoosePhone(savedEmergency, savedFamily) in
      {DefaultPhone} + (if savedEmergency.Some? then {savedEmergency.value} else {})
                     + (if savedFamily.Some? then {savedFamily.value} else {})
  {
  }

  /** The interval's updater: a count above one goes down by one; any other count becomes
      zero, and that is the tick that starts the call. */
  function CountdownNext(prev: int): (r: (int, bool))
    ensures prev > 1 ==> r == (prev - 1, false)
    ensures prev <= 1 ==> r == (0, true)
  {
    if prev <= 1 then (0, true) else (prev - 1, false)
  }

  /** From three, the first two ticks only count down and the third starts the call. */
  lemma CallStartsOnThirdTick()
    ensures CountdownNext(CountdownStart) == (2, false)
    ensures CountdownNext(CountdownNext(CountdownStart).0) == (1, false)
    ensures CountdownNext(CountdownNext(CountdownNext(CountdownStart).0).0) == (0, true)
  {
  }

  /** What the component renders. */
  datatype Screen = CountdownScreen(seconds: int) | CallingScreen(phone: string)

  class Alert {
    var countdown: int
    var isCalling: bool
    var emergencyPhone: string
    var timerRunning: bool
    /** How many times `startEmergencyCall` ran. */
    ghost var callsStarted: nat

    ghost predicate Valid()
      reads this
    {
      && 0 <= countdown <= CountdownStart
      && callsStarted <= 1
      && (isCalling <==> callsStarted == 1)
      && (timerRunning ==> !isCalling && countdown >= 1)
      && (isCalling ==> countdown == 0)
    }

    /** The initial state: three seconds, not calling, the default number. */
    constructor ()
      ensures Valid() && countdown == CountdownStart && !isCalling && !timerRunning
      ensures emergencyPhone == DefaultPhone && callsStarted == 0
    {
      countdown := CountdownStart;
      isCalling := false;
      emergencyPhone := DefaultPhone;
      timerRunning := false;
      callsStarted := 0;
    }

    /** The mount effect: read the two stored numbers and start the interval. */
    method Mount(savedEmergency: Option<string>, savedFamily: Option<string>)
      requires Valid() && !timerRunning && !isCalling && countdown == CountdownStart
      requires emergencyPhone == DefaultPhone
      modifies this
      ensures Valid() && timerRunning
      ensures emergencyPhone == ChoosePhone(savedEmergency, savedFamily)
      ensures countdown == old(countdown) && isCalling == old(isCalling) && callsStarted == old(callsStarted)
    {
      if Truthy(savedEmergency) {
        emergencyPhone := savedEmergency.value;
      } else if Truthy(savedFamily) {
        emergencyPhone := savedFamily.value;
      }
      timerRunning := true;
    }

    /** One firing of the interval. */
    method Tick()
      requires Valid() && timerRunning
      modifies this
      ensures Valid()
      ensures (countdown, isCalling) == CountdownNext(old(countdown))
      ensures timerRunning <==> !isCalling
      ensures callsStarted == if isCalling then 1 else 0
      ensures emergencyPhone == old(emergencyPhone)
    {
      var (next, startCall) := CountdownNext(countdown);
      countdown := next;
      if startCall {
        timerRunning := false;
        StartEmergencyCall();
      }
    }

    /** `startEmergencyCall`: the calling screen from now on. */
    method StartEmergencyCall()
      requires !isCalling && callsStarted == 0
      modifies this
      ensures isCalling && callsStarted == 1
      ensures countdown == old(countdown) && timerRunning == old(timerRunning)
      ensures emergencyPhone == old(emergencyPhone)
    {
      isCalling := true;
      callsStarted := callsStarted + 1;
    }

    /** The effect's cleanup: the interval is cleared. */
    method Unmount()
      requires Valid()
      modifies this
      ensures Valid() && !timerRunning
      ensures countdown == old(countdown) && isCalling == old(isCalling) && callsStarted == old(callsStarted)
      ensures emergencyPhone == old(emergencyPhone)
    {
      timerRunning := false;
    }

    /** Once calling, only the calling screen renders, with the shown number. */
    function Render(): (r: Screen)
      reads this
      ensures r.CallingScreen? <==> isCalling
      ensures r.CallingScreen? ==> r.phone == emergencyPhone
      ensures r.CountdownScreen? ==> r.seconds == countdown
    {
      if isCalling then CallingScreen(emergencyPhone) else CountdownScreen(countdown)
    }
  }

  /** The whole alert: three ticks after mounting, the calling screen shows the stored
      number, the call was started exactly once, and the interval is gone. */
  method FullCountdown(savedEmergency: Option<string>, savedFamily: Option<string>) returns (a: Alert)
    ensures a.isCalling && a.callsStarted == 1 && !a.timerRunning && a.countdown == 0
    ensures a.Render() == CallingScreen(ChoosePhone(savedEmergency, savedFamily))
  {
    a := new Alert();
    a.Mount(savedEmergency, savedFamily);
    a.Tick();
    a.Tick();
    a.Tick();
  }
}
