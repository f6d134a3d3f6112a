/** Finding the rig's serial port (CompassWorker.cs, the start of `Work`):
    every port is opened and sent the bulk command; a port that has 24
    bytes waiting half a second later answers like the rig. The model sees
    the ports as the sequence of the byte counts they would have waiting,
    and a port by its position in `SerialPort.GetPortNames()`. */
module Discovery {
  import opened Vectors

  /** Four sensors of six bytes: the reply to one bulk command. */
  const ProbeReplyLength: nat := 24

  /** The ports whose reply has the rig's length. */
  function Answering(waiting: seq<nat>): (ports: set<nat>)
    ensures forall p: nat :: p in ports <==> p < |waiting| && waiting[p] == ProbeReplyLength
  {
    set p | 0 <= p < |waiting| && waiting[p] == ProbeReplyLength
  }

  /** The port `_serialPort` is left holding, open, after the loop as
      written: the last one probed, and only if it answered. */
  function LastProbed(waiting: seq<nat>): (used: Option<nat>)
    ensures used.Some? <==> |waiting| > 0 && waiting[|waiting| - 1] == ProbeReplyLength
    ensures used.Some? ==> used.value == |waiting| - 1
  {
    if |waiting| > 0 && waiting[|waiting| - 1] == ProbeReplyLength then Some(|waiting| - 1) else None
  }

  /** The loop as written: each port is opened and closed again only when
      it does not answer; nothing stops the loop at the first port that
      does. `open` are the ports still open afterwards, `used` the one the
      worker goes on with (`None`: it sleeps and tries again). */
  method DiscoverAsWritten(waiting: seq<nat>) returns (used: Option<nat>, open: set<nat>)
    ensures open == Answering(waiting)
    ensures used == LastProbed(waiting)
  {
    used := None;
    open := {};
    for p := 0 to |waiting|
      invariant open == set q | 0 <= q < p && waiting[q] == ProbeReplyLength
      invariant used == LastProbed(waiting[..p])
    {
      if waiting[p] == ProbeReplyLength {
        open := open + {p};
        used := Some(p);
      } else {
        used := None;
      }
    }
    assert waiting[..|waiting|] == waiting;
  }

  /** The first port at `from` or later that answers. */
  function FirstAnsweringFrom(waiting: seq<nat>, from: nat): (first: Option<nat>)
    requires from <= |waiting|
    decreases |waiting| - from
    ensures first.Some? ==> from <= first.value < |waiting| && waiting[first.value] == ProbeReplyLength
    ensures first.Some? ==> forall q | from <= q < first.value :: waiting[q] != ProbeReplyLength
    ensures first.None? ==> forall q | from <= q < |waiting| :: waiting[q] != ProbeReplyLength
  {
    if from == |waiting| then None
    else if waiting[from] == ProbeReplyLength then Some(from)
    else FirstAnsweringFrom(waiting, from + 1)
  }

  /** The port discovery evidently means to find: the first that answers. */
  function FirstAnswering(waiting: seq<nat>): (first: Option<nat>)
    ensures first.Some? ==> first.value in Answering(waiting)
    ensures first.Some? ==> forall q | 0 <= q < first.value :: waiting[q] != ProbeReplyLength
    ensures first.None? <==> Answering(waiting) == {}
  {
    FirstAnsweringFrom(waiting, 0)
  }

  /** The corrected loop: stop at the first port that answers, so it is the
      only port left open and the one the worker uses. */
  method Discover(waiting: seq<nat>) returns (used: Option<nat>, open: set<nat>)
    ensures used == FirstAnswering(waiting)
    ensures open == if used.Some? then {used.value} else {}
  {
    var p := 0;
    while p < |waiting| && waiting[p] != ProbeReplyLength
      invariant p <= |waiting|
      invariant FirstAnsweringFrom(waiting, p) == FirstAnsweringFrom(waiting, 0)
    {
      p := p + 1;
    }
    if p < |waiting| {
      used, open := Some(p), {p};
    } else {
      used, open := None, {};
    }
  }

  /** The discrepancy: with the rig on the first of two ports, the loop as
      written ends up with no port (the second one, closed) and leaves the
      rig's port open, while the corrected loop uses the rig's port. */
  lemma RigOnFirstOfTwoPorts()
    ensures LastProbed([24, 0]) == None
    ensures Answering([24, 0]) == {0}
    ensures FirstAnswering([24, 0]) == Some(0)
  {
    assert FirstAnsweringFrom([24, 0], 0) == Some(0);
  }

  /** The two loops agree exactly when no port answers or only the last port
      does: elsewhere the loop as written misses the rig or leaks a port. */
  lemma AgreeOnlyWhenLastAnswersAlone(waiting: seq<nat>)
    ensures (LastProbed(waiting) == FirstAnswering(waiting) && |Answering(waiting)| <= 1)
        <==> (Answering(waiting) == {} || Answering(waiting) == {|waiting| - 1})
  {
    var a, f := Answering(waiting), FirstAnswering(waiting);
    if a == {|waiting| - 1} {
      assert |waiting| - 1 in a;
    }
    if LastProbed(waiting) == f && |a| <= 1 && a != {} {
      var last := |waiting| - 1;
      assert last in a;
    }
  }
}
