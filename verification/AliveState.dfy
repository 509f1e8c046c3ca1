/** Liveness detection and the search for the baud rate. */
module AliveStates {

  datatype Phase = Probing | Found | Reprobing

  datatype Alive = Alive(phase: Phase, frameWasReceived: bool, probeCounter: nat)
  {
    predicate IsAlive() {
      phase == Found || phase == Reprobing
    }
  }

  const ALIVE_RESET := Alive(Probing, false, 0)

  datatype Event = FrameReceived | StateTimeout | ProbeTimeout

  /** A valid frame arrived. */
  function Heard(a: Alive): Alive {
    a.(phase := Found, frameWasReceived := true)
  }

  /** The 15 s state timer fired. */
  function Doubted(a: Alive): Alive {
    match a.phase
    case Found => if a.frameWasReceived then a.(frameWasReceived := false) else a.(phase := Reprobing)
    case Reprobing => a.(phase := Probing)
    case Probing => a
  }

  /** The 500 ms probe timer fired. */
  function Probed(a: Alive): Alive {
    if a.phase == Probing then a.(probeCounter := (a.probeCounter + 1) % 4) else a
  }

  predicate ChangesRate(a: Alive, e: Event) {
    e == ProbeTimeout && a.phase == Probing && (a.probeCounter + 1) % 4 == 0
  }

  predicate SendsProbe(a: Alive) {
    a.phase != Found
  }

  class AliveState {
    var phase: Phase
    var frameWasReceived: bool
    var probeCounter: nat

    ghost function View(): Alive
      reads this
    {
      Alive(phase, frameWasReceived, probeCounter)
    }

    ghost predicate Valid()
      reads this
    {
      frameWasReceived ==> phase == Found
    }

    constructor ()
      ensures Valid() && View() == ALIVE_RESET
    {
      phase, frameWasReceived, probeCounter := Probing, false, 0;
    }

    method Reset()
      modifies this
      ensures Valid() && View() == ALIVE_RESET
    {
      phase := Probing;
      frameWasReceived := false;
      probeCounter := 0;
    }

    /** The caller runs the callback for the first probe. */
    method Start()
      modifies this
      ensures Valid() && View() == ALIVE_RESET
    {
      probeCounter := 0;
      phase := Probing;
      frameWasReceived := false;
    }

    method Stop()
      modifies this
      ensures Valid() && View() == ALIVE_RESET
    {
      Reset();
    }

    /** Tells whether the link came alive by this frame. */
    method OnFrameReceived() returns (changed: bool)
      modifies this
      ensures Valid() && View() == Heard(old(View()))
      ensures changed <==> !old(View()).IsAlive()
    {
      frameWasReceived := true;
      if phase == Probing {
        phase := Found;
        return true;
      } else {
        phase := Found;
        return false;
      }
    }

    predicate IsAlive()
      reads this
      ensures IsAlive() == View().IsAlive()
    {
      phase == Found || phase == Reprobing
    }

    method OnStateTimeout()
      requires Valid()
      modifies this
      ensures Valid() && View() == Doubted(old(View()))
    {
      if phase == Found {
        if frameWasReceived {
          frameWasReceived := false;
        } else {
          phase := Reprobing;
        }
      } else if phase == Reprobing {
        if !frameWasReceived {
          phase := Probing;
        } else {
          assert false;
        }
      }
    }

    /** The caller runs the callbacks, the change of the baud rate first. */
    method OnProbeTimeout() returns (changeBaudRate: bool, sendProbe: bool)
      requires Valid()
      modifies this
      ensures Valid() && View() == Probed(old(View()))
      ensures changeBaudRate == ChangesRate(old(View()), ProbeTimeout)
      ensures sendProbe == SendsProbe(old(View()))
      ensures sendProbe <==> old(phase) != Found
      ensures changeBaudRate <==> old(phase) == Probing && probeCounter == 0
    {
      changeBaudRate, sendProbe := false, false;
      if phase == Probing {
        probeCounter := (probeCounter + 1) % 4;
        if probeCounter == 0 {
          changeBaudRate := true;
        }
        sendProbe := true;
      } else if phase == Reprobing {
        sendProbe := true;
      }
    }
  }

  // ---------- Runs since Start ----------

  function React(a: Alive, e: Event): Alive {
    match e
    case FrameReceived => Heard(a)
    case StateTimeout => Doubted(a)
    case ProbeTimeout => Probed(a)
  }

  function After(run: seq<Event>): Alive {
    if run == [] then ALIVE_RESET else React(After(run[..|run| - 1]), run[|run| - 1])
  }

  datatype Option<T> = None | Some(value: T)

  /** How many state timeouts fired since the last frame, if there was a frame. */
  function TimeoutsSinceFrame(run: seq<Event>): Option<nat> {
    if run == [] then None
    else
      var before := TimeoutsSinceFrame(run[..|run| - 1]);
      match run[|run| - 1]
      case FrameReceived => Some(0)
      case StateTimeout => if before.Some? then Some(before.value + 1) else None
      case ProbeTimeout => before
  }

  /** The state of the machine is a function of this one number. */
  lemma {:induction false} AliveIsHistory(run: seq<Event>)
    ensures var n := TimeoutsSinceFrame(run); var a := After(run);
      && (a.IsAlive() <==> n.Some? && n.value < 3)
      && (a.phase == Found <==> n.Some? && n.value < 2)
      && (a.frameWasReceived <==> n == Some(0))
  {
    if run != [] {
      AliveIsHistory(run[..|run| - 1]);
    }
  }

  // ---------- The search for the baud rate ----------

  class BaudRate {
    var currentBaudrateIndex: nat

    constructor ()
      ensures currentBaudrateIndex == 0 && GetBaudRate() == 9600
    {
      currentBaudrateIndex := 0;
    }

    function GetBaudRate(): nat
      reads this
    {
      Rate(currentBaudrateIndex)
    }

    method ToggleBaudRate()
      modifies this
      ensures currentBaudrateIndex == Toggled(old(currentBaudrateIndex))
      ensures {old(GetBaudRate()), GetBaudRate()} == {9600, 115200}
    {
      if currentBaudrateIndex == 0 {
        currentBaudrateIndex := 1;
      } else {
        currentBaudrateIndex := 0;
      }
    }
  }

  function Rate(index: nat): nat {
    if index == 0 then 9600 else 115200
  }

  function Toggled(index: nat): nat {
    if index == 0 then 1 else 0
  }

  /** The rate index after a run. */
  function IndexAfter(start: nat, run: seq<Event>): nat {
    if run == [] then start
    else
      var before := run[..|run| - 1];
      var index := IndexAfter(start, before);
      if ChangesRate(After(before), run[|run| - 1]) then Toggled(index) else index
  }

  /** The rates at which the probes of the search were called for, in order. */
  function SearchRates(start: nat, run: seq<Event>): seq<nat> {
    if run == [] then []
    else
      var before := run[..|run| - 1];
      if run[|run| - 1] == ProbeTimeout && SendsProbe(After(before)) && !After(before).IsAlive()
      then SearchRates(start, before) + [Rate(IndexAfter(start, run))]
      else SearchRates(start, before)
  }

  /** How often the probe timer fired while nothing was heard of a device. */
  function SearchTimeouts(run: seq<Event>): nat {
    if run == [] then 0
    else
      var before := run[..|run| - 1];
      var n := TimeoutsSinceFrame(before);
      SearchTimeouts(before) + (if run[|run| - 1] == ProbeTimeout && (n.None? || n.value >= 3) then 1 else 0)
  }

  /** Each of these calls for a probe, and nothing else is a probe of the search. */
  lemma {:induction false} EverySearchTimeoutProbes(start: nat, run: seq<Event>)
    ensures |SearchRates(start, run)| == SearchTimeouts(run)
  {
    if run != [] {
      EverySearchTimeoutProbes(start, run[..|run| - 1]);
      AliveIsHistory(run[..|run| - 1]);
    }
  }

  /** A probe timeout calls for a probe unless a frame was heard and at most one state
      timeout fired since. */
  lemma ProbesUnlessFound(run: seq<Event>)
    ensures var n := TimeoutsSinceFrame(run); SendsProbe(After(run)) <==> n.None? || n.value >= 2
  {
    AliveIsHistory(run);
  }

  function AlternateIndex(start: nat, toggles: nat): nat {
    if toggles % 2 == 0 then start else Toggled(start)
  }

  /** After n probes of the search the rate was toggled n / 4 times, even if the
      search was interrupted by a live period. */
  lemma {:induction false} SearchProgress(start: nat, run: seq<Event>)
    requires start < 2
    ensures var n := |SearchRates(start, run)|;
      After(run).probeCounter == n % 4 && IndexAfter(start, run) == AlternateIndex(start, n / 4)
  {
    if run != [] {
      var before := run[..|run| - 1];
      SearchProgress(start, before);
      QuarterStep(start, |SearchRates(start, before)|);
    }
  }

  lemma QuarterStep(start: nat, n: nat)
    requires start < 2
    ensures (n + 1) % 4 == (n % 4 + 1) % 4
    ensures AlternateIndex(start, (n + 1) / 4)
         == if (n % 4 + 1) % 4 == 0 then Toggled(AlternateIndex(start, n / 4)) else AlternateIndex(start, n / 4)
  {
    var q, r := n / 4, n % 4;
    assert n + 1 == 4 * q + (r + 1);
    assert (n + 1) / 4 == if r == 3 then q + 1 else q;
    assert (q + 1) % 2 == 1 - q % 2;
  }

  lemma {:induction false} SearchRateAt(start: nat, run: seq<Event>, k: nat)
    requires start < 2 && k < |SearchRates(start, run)|
    ensures SearchRates(start, run)[k] == Rate(AlternateIndex(start, (k + 1) / 4))
  {
    var before := run[..|run| - 1];
    if k < |SearchRates(start, before)| {
      SearchRateAt(start, before, k);
    } else {
      SearchProgress(start, run);
    }
  }

  function Count(rates: seq<nat>, rate: nat): nat {
    if rates == [] then 0 else Count(rates[..|rates| - 1], rate) + (if rates[|rates| - 1] == rate then 1 else 0)
  }

  lemma FourOfEach(start: nat, k: nat, w: seq<nat>)
    requires start < 2 && |w| == 8
    requires forall i :: 0 <= i < 8 ==> w[i] == Rate(AlternateIndex(start, (k + i + 1) / 4))
    ensures Count(w, 9600) == 4 && Count(w, 115200) == 4
  {
    assert forall i :: 0 <= i < 4 ==> w[i] != w[i + 4];
    FourPairs(w);
  }

  /** Any eight consecutive probes of the search try each rate exactly four times. */
  lemma EightProbesTryBothRates(start: nat, run: seq<Event>, k: nat)
    requires start < 2
    ensures var rates := SearchRates(start, run);
      k + 8 <= |rates| ==> Count(rates[k..k + 8], 9600) == 4 && Count(rates[k..k + 8], 115200) == 4
  {
    var rates := SearchRates(start, run);
    if k + 8 <= |rates| {
      var w := rates[k..k + 8];
      forall i | 0 <= i < 8
        ensures w[i] == Rate(AlternateIndex(start, (k + i + 1) / 4))
      {
        SearchRateAt(start, run, k + i);
      }
      FourOfEach(start, k, w);
    }
  }

  lemma FourPairs(w: seq<nat>)
    requires |w| == 8 && forall i :: 0 <= i < 8 ==> w[i] == 9600 || w[i] == 115200
    requires forall i :: 0 <= i < 4 ==> w[i] != w[i + 4]
    ensures Count(w, 9600) == 4 && Count(w, 115200) == 4
  {
    assert w[..7][..6] == w[..6] && w[..6][..5] == w[..5] && w[..5][..4] == w[..4];
    assert w[..4][..3] == w[..3] && w[..3][..2] == w[..2] && w[..2][..1] == w[..1] && w[..1][..0] == [];
    assert w[0] != w[4] && w[1] != w[5] && w[2] != w[6] && w[3] != w[7];
    forall r: nat
      ensures Count(w[..2], r) == (if w[0] == r then 1 else 0) + (if w[1] == r then 1 else 0)
    {
      assert Count(w[..1], r) == if w[0] == r then 1 else 0;
    }
    forall r: nat
      ensures Count(w[..5], r) == Count(w[..2], r) + (if w[2] == r then 1 else 0) + (if w[3] == r then 1 else 0) + (if w[4] == r then 1 else 0)
    {
      assert Count(w[..4], r) == Count(w[..3], r) + if w[3] == r then 1 else 0;
      assert Count(w[..3], r) == Count(w[..2], r) + if w[2] == r then 1 else 0;
    }
    forall r: nat
      ensures Count(w, r) == Count(w[..5], r) + (if w[5] == r then 1 else 0) + (if w[6] == r then 1 else 0) + (if w[7] == r then 1 else 0)
    {
      assert Count(w[..7], r) == Count(w[..6], r) + if w[6] == r then 1 else 0;
      assert Count(w[..6], r) == Count(w[..5], r) + if w[5] == r then 1 else 0;
    }
  }
}
