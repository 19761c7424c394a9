/** Where the two copies of the client agree and where they differ. */
module Copies {
  import opened Wire
  import Controller
  import Zone

  /** On a status whose `power` is an integer the two power checks agree. */
  lemma PowerChecksAgreeOnIntegers(status: Response, n: int)
    requires "power" in status && status["power"] == VInt(n)
    ensures Controller.ArePoweredOn(Returns(Some(status))) == Zone.PoweredOn(Some(status))
    ensures Zone.PoweredOn(Some(status)) == Returns(Some(n == 1))
  {
    assert status != map[];
  }

  /** The controller compares `power == 1` as it is, the media player's copy
      converts with `int(...)` first, so the two can disagree: the string "1"
      and the float 1.5 read as on in the media player and as off in the
      controller. */
  lemma PowerChecksDiffer()
    ensures Controller.ArePoweredOn(Returns(Some(map["power" := VStr("1")]))) == Returns(Some(false))
    ensures Zone.PoweredOn(Some(map["power" := VStr("1")])) == Returns(Some(true))
    ensures Controller.ArePoweredOn(Returns(Some(map["power" := VReal(1.5)]))) == Returns(Some(false))
    ensures Zone.PoweredOn(Some(map["power" := VReal(1.5)])) == Returns(Some(true))
  {
    var text, fraction := map["power" := VStr("1")], map["power" := VReal(1.5)];
    assert "power" in text && "power" in fraction;
    assert text != map[] && fraction != map[];
    assert AllDigits("1") && DigitsValue("1") == 1;
    assert (1.5).Floor == 1;
  }

  /** The controller's retry loop differs only in rejecting replies whose
      `comhead` does not match: when every parsed 200 reply matches, both loops
      make the same calls, sleep the same and return the same reply. */
  lemma {:induction false} SendCopiesAgreeOnMatchingReplies(instr: Instruction, attempts: int, t: nat -> Outcome, i: nat)
    requires forall k :: i <= k < attempts && Zone.Good(t(k)) ==> Controller.Good(instr, t(k))
    ensures Controller.SendFrom(instr, attempts, t, i) == Zone.SendFrom(attempts, t, i)
    decreases attempts - i
  {
    if i < attempts {
      SendCopiesAgreeOnMatchingReplies(instr, attempts, t, i + 1);
    }
  }

  /** A reply with a mismatched `comhead` is returned by the media player's copy at once
      and skipped without a sleep by the controller. */
  lemma MismatchedReply(instr: Instruction, attempts: int, t: nat -> Outcome, m: Response)
    requires attempts >= 1
    requires t(0) == Reply(200, Parsed(m)) && Get(m, "comhead") != Get(instr, "comhead")
    ensures Zone.SendFrom(attempts, t, 0) == Run(Some(m), 1, [])
    ensures var c := Controller.SendFrom(instr, attempts, t, 0);
            var rest := Controller.SendFrom(instr, attempts, t, 1);
            c == Run(rest.result, rest.calls + 1, rest.delays)
  {
  }

  /** Both copies post the same instructions: the same `video switch` for a
      route and the same `set poweronoff` for each power command, whatever the
      device answers. */
  lemma SameInstructions(deviceNum: int, sourceNum: int, t: nat -> Outcome, u: nat -> Outcome)
    ensures Controller.SetDeviceSource(deviceNum, sourceNum, t).posted == Zone.SetDeviceSource(deviceNum, sourceNum, u).posted
    ensures Controller.PowerOnDevices(t).posted == Zone.PowerOnDevices(u).posted
    ensures Controller.PowerOffDevices(t).posted == Zone.PowerOffDevices(u).posted
  {
  }
}
