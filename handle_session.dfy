/** The life of one `Handle`: any number of `claim_interface` calls, each
    answered by the library, then the deleter when the last reference goes.
    The lemmas say which calls the library sees, in which order, whatever
    it answers; the helper `ClaimNext` and the three client methods at the
    end show the wrapper's own methods producing those calls. */
module HandleSession {
  import opened CTypes
  import opened Libusb
  import opened Usb

  /** One `claim_interface` of interface `ifno` (already narrowed to `int`)
      that the library answered with `err`. */
  datatype Claim = Claim(ifno: int32, err: int32)

  /** What the shared deleter records after `claims`, starting from a
      freshly opened handle. */
  function Recorded(claims: seq<Claim>): int32 {
    if claims == [] then -1
    else
      var last := claims[|claims| - 1];
      ClaimStep(Recorded(claims[..|claims| - 1]), last.ifno, last.err)
  }

  /** The index of the last claim the library accepted, or -1 if none was. */
  function LastAccepted(claims: seq<Claim>): (k: int)
    ensures -1 <= k < |claims|
    ensures k >= 0 ==> claims[k].err >= 0
    ensures forall j :: k < j < |claims| ==> claims[j].err < 0
  {
    if claims == [] then -1
    else if claims[|claims| - 1].err >= 0 then |claims| - 1
    else LastAccepted(claims[..|claims| - 1])
  }

  /** Failed claims leave the record alone and a later accepted claim
      overwrites an earlier one: the record is the most recent accepted
      interface, or "close only" if none was accepted. */
  lemma {:induction false} RecordedIsLastAccepted(claims: seq<Claim>)
    ensures Recorded(claims) == (if LastAccepted(claims) < 0 then -1 else claims[LastAccepted(claims)].ifno)
  {
    if claims != [] {
      RecordedIsLastAccepted(claims[..|claims| - 1]);
    }
  }

  /** The `claim_interface` calls the library sees, in order. */
  function ClaimCalls(handle: Ptr, claims: seq<Claim>): seq<Call> {
    seq(|claims|, i requires 0 <= i < |claims| => Call.ClaimInterface(handle, claims[i].ifno, claims[i].err))
  }

  /** Every call a handle causes after it is opened. */
  function SessionCalls(handle: Ptr, claims: seq<Claim>, releaseErr: int32): seq<Call> {
    ClaimCalls(handle, claims) + TeardownCalls(handle, Recorded(claims), releaseErr)
  }

  function CloseCount(calls: seq<Call>): nat {
    if calls == [] then 0
    else CloseCount(calls[..|calls| - 1]) + (if calls[|calls| - 1].Close? then 1 else 0)
  }

  lemma {:induction false} CloseCountNone(calls: seq<Call>)
    requires forall i :: 0 <= i < |calls| ==> !calls[i].Close?
    ensures CloseCount(calls) == 0
  {
    if calls != [] {
      CloseCountNone(calls[..|calls| - 1]);
    }
  }

  /** Whatever the claims and the release answer, the handle is closed
      exactly once, by the very last call. */
  lemma SessionClosesOnceLast(handle: Ptr, claims: seq<Claim>, releaseErr: int32)
    ensures var calls := SessionCalls(handle, claims, releaseErr);
      && calls[|calls| - 1] == Call.Close(handle)
      && CloseCount(calls) == 1
  {
    var calls := SessionCalls(handle, claims, releaseErr);
    var init := calls[..|calls| - 1];
    assert forall i :: 0 <= i < |init| ==> !init[i].Close?;
    CloseCountNone(init);
  }

  /** A handle on which no claim was accepted is only closed: no
      `release_interface` is ever attempted. */
  lemma SessionWithoutClaimOnlyCloses(handle: Ptr, claims: seq<Claim>, releaseErr: int32)
    requires forall i :: 0 <= i < |claims| ==> claims[i].err < 0
    ensures SessionCalls(handle, claims, releaseErr) == ClaimCalls(handle, claims) + [Call.Close(handle)]
    ensures forall c :: c in SessionCalls(handle, claims, releaseErr) ==> !c.ReleaseInterface?
  {
    RecordedIsLastAccepted(claims);
  }

  /** After an accepted claim, the most recently accepted interface is
      released right before the close, even when the release fails; an
      interface number that narrows to -1 is the one exception. */
  lemma SessionReleasesLastAcceptedBeforeClose(handle: Ptr, claims: seq<Claim>, releaseErr: int32)
    requires LastAccepted(claims) >= 0
    ensures var calls := SessionCalls(handle, claims, releaseErr);
      var ifno := claims[LastAccepted(claims)].ifno;
      ifno != -1 ==>
        && |calls| == |claims| + 2
        && calls[|calls| - 2] == Call.ReleaseInterface(handle, ifno, releaseErr)
        && calls[|calls| - 1] == Call.Close(handle)
  {
    RecordedIsLastAccepted(claims);
  }

  /** One `claim_interface` on a non-null handle, seen as the `Claim` it
      makes: the library's answer steps the deleter's record. */
  method ClaimNext(p: Provider, handle: Handle, interfaceNumber: uint32) returns (ghost claim: Claim)
    requires handle.raw != NULL && handle.live
    modifies p, handle.deleter
    ensures claim.ifno == ToInt32(interfaceNumber as int)
    ensures handle.deleter.ifno == ClaimStep(old(handle.deleter.ifno), claim.ifno, claim.err)
    ensures p.trace == old(p.trace) + [Call.ClaimInterface(handle.raw, claim.ifno, claim.err)]
  {
    var r, calls := Usb.ClaimInterface(p, handle, interfaceNumber);
    claim := Claim(calls[0].ifno, calls[0].err);
  }

  /** Claims every interface in `interfaceNumbers` in turn on a freshly
      opened handle, then drops it: the calls the library sees are exactly
      those of a session with one claim per number, narrowed to `int`, each
      with the library's answer, so the session lemmas above hold of what
      the wrapper does. */
  method ClaimAllThenDrop(p: Provider, handle: Handle, interfaceNumbers: seq<uint32>)
    returns (ghost claims: seq<Claim>, ghost releaseErr: int32)
    requires handle.raw != NULL && handle.live && handle.deleter.ifno == -1
    modifies p, handle, handle.deleter
    ensures |claims| == |interfaceNumbers|
    ensures forall i :: 0 <= i < |claims| ==> claims[i].ifno == ToInt32(interfaceNumbers[i] as int)
    ensures p.trace == old(p.trace) + SessionCalls(handle.raw, claims, releaseErr)
    ensures !handle.live
  {
    claims := [];
    var i := 0;
    while i < |interfaceNumbers|
      invariant 0 <= i <= |interfaceNumbers| && |claims| == i
      invariant forall k :: 0 <= k < i ==> claims[k].ifno == ToInt32(interfaceNumbers[k] as int)
      invariant handle.live && handle.deleter.ifno == Recorded(claims)
      invariant p.trace == old(p.trace) + ClaimCalls(handle.raw, claims)
    {
      ghost var claim := ClaimNext(p, handle, interfaceNumbers[i]);
      claims := claims + [claim];
      i := i + 1;
    }
    releaseErr := handle.Drop(p);
  }

  /** A handle opened and dropped without a claim: the library sees exactly
      the open and then the close of the handle it returned. */
  method OpenThenDrop(p: Provider, dev: Device) returns (isOpen: bool)
    requires dev.raw != NULL && dev.live
    modifies p
    ensures |p.trace| > |old(p.trace)| && p.trace[|old(p.trace)|].Open?
    ensures var open := p.trace[|old(p.trace)|];
      && isOpen == (open.err >= 0)
      && open.dev == dev.raw
      && p.trace == old(p.trace) + [open] + (if isOpen then [Call.Close(open.handle)] else [])
  {
    var r, calls := Usb.Open(p, dev);
    isOpen := r.Success?;
    if isOpen {
      var releaseErr := r.value.Drop(p);
    }
  }

  /** A handle opened, claimed once and dropped: the calls after the open
      are those of a session with that one claim. */
  method OpenClaimThenDrop(p: Provider, dev: Device, interfaceNumber: uint32) returns (isOpen: bool)
    requires dev.raw != NULL && dev.live
    modifies p
    ensures |p.trace| > |old(p.trace)| && p.trace[|old(p.trace)|].Open?
    ensures var open := p.trace[|old(p.trace)|];
      && isOpen == (open.err >= 0)
      && (!isOpen ==> p.trace == old(p.trace) + [open])
      && (isOpen && open.handle != NULL ==>
            exists claim: Claim, releaseErr: int32 ::
              && claim.ifno == ToInt32(interfaceNumber as int)
              && p.trace == old(p.trace) + [open] + SessionCalls(open.handle, [claim], releaseErr))
      && (isOpen && open.handle == NULL ==> p.trace == old(p.trace) + [open, Call.Close(NULL)])
  {
    var r, calls := Usb.Open(p, dev);
    ghost var open := calls[0];
    isOpen := r.Success?;
    if isOpen {
      var handle := r.value;
      if handle.raw != NULL {
        ghost var claims, releaseErr := ClaimAllThenDrop(p, handle, [interfaceNumber]);
        assert claims == [claims[0]];
        assert p.trace == old(p.trace) + [open] + SessionCalls(open.handle, [claims[0]], releaseErr);
      } else {
        var claimed, claimCalls := Usb.ClaimInterface(p, handle, interfaceNumber);
        ghost var releaseErr := handle.Drop(p);
      }
    }
  }
}
