/**
 The path search as an object (Client/Source/PathMtuDiscovery.h,
 Client/Source/PathMtuDiscovery.cpp). Each method is proved to do what `PathMtuModel` says.
 */
module PathMtuDiscoveries {
  import opened Packets
  import opened PathMtuModel

  class PathMtuDiscovery {
    var status: Status
    var safePayloadBytes: int
    var candidatePayloadBytes: int
    var upperBoundPayloadBytes: int
    var nextProbeId: nat
    var activeProbe: Probe
    var attempts: nat
    var awaitingAcknowledgement: bool
    var deadline: int
    var earliestNextProbe: int

    ghost function Model(): Search
      reads this
    {
      Search(status, safePayloadBytes, candidatePayloadBytes, upperBoundPayloadBytes, nextProbeId, activeProbe,
             attempts, awaitingAcknowledgement, deadline, earliestNextProbe)
    }

    constructor ()
      ensures Model() == NEW_SEARCH
    {
      status, safePayloadBytes, candidatePayloadBytes, upperBoundPayloadBytes := Unavailable, 0, FALLBACK, 0;
      nextProbeId, activeProbe, attempts, awaitingAcknowledgement := 1, Probe(0, 0), 0, false;
      deadline, earliestNextProbe := 0, 0;
    }

    method SetSupported(supported: bool)
      modifies this
      ensures Model() == SupportSet(old(Model()), supported)
    {
      if !supported {
        status, awaitingAcknowledgement := Unavailable, false;
        return;
      }
      if status != Unavailable {
        return;
      }
      status := Searching;
      safePayloadBytes, candidatePayloadBytes, upperBoundPayloadBytes := 0, FALLBACK, 0;
      attempts, awaitingAcknowledgement := 0, false;
    }

    method MarkFailed()
      modifies this
      ensures Model() == MarkedFailed(old(Model()))
    {
      status, awaitingAcknowledgement := Failed, false;
    }

    method Poll(now: int) returns (probe: Option<Probe>)
      modifies this
      ensures Model() == Polled(old(Model()), now)
      ensures probe == if Transmits(old(Model()), now) then Some(activeProbe) else None
    {
      hide FailureRecorded;
      if status != Searching {
        return None;
      }
      if awaitingAcknowledgement {
        if now < deadline {
          return None;
        }
        if attempts >= MAXIMUM_ATTEMPTS {
          awaitingAcknowledgement := false;
          FailureKeepsTimes(Model());
          RecordFailure();
          if status != Searching {
            return None;
          }
        }
      }
      if !awaitingAcknowledgement && now < earliestNextProbe {
        return None;
      }
      if !awaitingAcknowledgement {
        activeProbe := Probe(nextProbeId, candidatePayloadBytes);
        nextProbeId := nextProbeId + 1;
        attempts := 0;
        awaitingAcknowledgement := true;
      }
      attempts := attempts + 1;
      deadline := now + PROBE_TIMEOUT;
      return Some(activeProbe);
    }

    method Acknowledge(id: nat, payloadBytes: int, now: int) returns (accepted: bool)
      modifies this
      ensures Model() == Acknowledged(old(Model()), Probe(id, payloadBytes), now)
      ensures accepted == Confirms(old(Model()), Probe(id, payloadBytes))
    {
      if status != Searching || !awaitingAcknowledgement
         || activeProbe.id != id || activeProbe.payload != payloadBytes {
        return false;
      }
      awaitingAcknowledgement := false;
      attempts := 0;
      earliestNextProbe := now + PROBE_TIMEOUT;
      RecordSuccess();
      return true;
    }

    function SafePayloadBytes(): (bytes: int)
      reads this
      ensures bytes == Reported(Model())
    {
      if safePayloadBytes > 0 then safePayloadBytes else FALLBACK
    }

    method RecordSuccess()
      modifies this`status, this`safePayloadBytes, this`candidatePayloadBytes
      ensures Model() == SuccessRecorded(old(Model()))
    {
      safePayloadBytes := candidatePayloadBytes;
      if upperBoundPayloadBytes > 0 {
        SelectBinarySearchTarget();
      } else {
        SelectNextGrowthTarget();
      }
    }

    method RecordFailure()
      modifies this`status, this`upperBoundPayloadBytes, this`candidatePayloadBytes
      ensures Model() == FailureRecorded(old(Model()))
    {
      if safePayloadBytes == 0 {
        status := Failed;
        return;
      }
      upperBoundPayloadBytes := candidatePayloadBytes - ALIGNMENT;
      SelectBinarySearchTarget();
    }

    method SelectNextGrowthTarget()
      modifies this`status, this`candidatePayloadBytes
      ensures Model() == GrowthSelected(old(Model()))
    {
      for i := 0 to |GROWTH_TARGETS|
        invariant Model() == old(Model())
        invariant FirstAbove(GROWTH_TARGETS, safePayloadBytes) == FirstAbove(GROWTH_TARGETS[i..], safePayloadBytes)
      {
        if GROWTH_TARGETS[i] > safePayloadBytes {
          candidatePayloadBytes := GROWTH_TARGETS[i];
          return;
        }
      }
      status := Complete;
    }

    method SelectBinarySearchTarget()
      modifies this`status, this`candidatePayloadBytes
      ensures Model() == BinarySelected(old(Model()))
    {
      if upperBoundPayloadBytes < safePayloadBytes + ALIGNMENT {
        status := Complete;
        return;
      }
      var alignedHalfSpan := (upperBoundPayloadBytes - safePayloadBytes) / 2 / ALIGNMENT * ALIGNMENT;
      candidatePayloadBytes := safePayloadBytes + alignedHalfSpan;
      if candidatePayloadBytes <= safePayloadBytes {
        candidatePayloadBytes := safePayloadBytes + ALIGNMENT;
      }
    }
  }

  lemma FailureKeepsTimes(s: Search)
    ensures var r := FailureRecorded(s);
      r.awaiting == s.awaiting && r.earliest == s.earliest && r.nextId == s.nextId
  {}
}
