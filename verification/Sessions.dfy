// The session loop: bytes arrive in any pieces, complete frames are dispatched
// and erased, a frame that takes too long or cannot be read ends the session, and
// a stop can come before any turn of the loop (src/transport.cpp).

module Sessions {
  import opened Base
  import opened Framing

  datatype Disposition = Continue | ProtocolFailure | Bye

  // What one wait on the socket brings, with the clock reading before it.
  datatype Receipt = Data(bytes: seq<byte>) | Nothing | Closed | Broken
  datatype Arrival = Arrival(now: Ticks, receipt: Receipt)

  datatype Ending =
    | Stopped | Idle | SaidBye | Refused | BadFrame(status: FrameStatus) | PeerClosed(leftover: bool) | TimedOut
    | ReceiveFailed
  {
    // Whether the ending counts as a protocol failure.
    predicate Failure() { Refused? || BadFrame? || (PeerClosed? && leftover) || TimedOut? || ReceiveFailed? }

    // Everything that arrived was looked at, or can never be.
    predicate Exhausted() { Idle? || PeerClosed? || BadFrame? || ReceiveFailed? }
  }

  datatype Session = Session(dispatched: seq<Frame>, ending: Ending)

  // The bounds of a session, its hash, what dispatching a frame answers after
  // those before it, and whether the server is still running at each turn of the
  // loop.
  datatype Wire = Wire(
    maxBytes: nat, hash: seq<byte> -> u64, budget: Ticks, dispatch: (seq<Frame>, Frame) -> Disposition,
    running: nat -> bool)
  {
    function Decode(b: seq<byte>): (d: Decoded)
      ensures d.Complete? ==> 1 <= d.consumed <= |b|
    {
      DecodeFrame(b, maxBytes, hash)
    }

    // The moment a frame that started now must be complete.
    function Deadline(now: Ticks): Ticks { if now + budget > U64_MAX then U64_MAX else now + budget }
  }

  // ------------------------------------------------------------------------
  // The loop
  // ------------------------------------------------------------------------

  // With no more arrivals the loop goes on waiting.
  function Run(
    w: Wire, turn: nat, buffer: seq<byte>, deadline: Option<Ticks>, dispatched: seq<Frame>, arrivals: seq<Arrival>,
    closing: bool): Session
    decreases |arrivals|, |buffer|
  {
    if !w.running(turn) then Session(dispatched, Stopped)
    else
      match w.Decode(buffer)
      case Complete(frame, n) =>
        (match w.dispatch(dispatched, frame)
         case Continue => Run(w, turn + 1, buffer[n..], None, dispatched + [frame], arrivals, closing)
         case ProtocolFailure => Session(dispatched + [frame], Refused)
         case Bye => Session(dispatched + [frame], SaidBye))
      case Failed(status) =>
        if !status.Incomplete? then Session(dispatched, BadFrame(status))
        else if closing then Session(dispatched, PeerClosed(buffer != []))
        else if arrivals == [] then Session(dispatched, Idle)
        else if Late(buffer, deadline, arrivals[0].now) then Session(dispatched, TimedOut)
        else
          var armed := Watched(w, buffer, deadline, arrivals[0].now);
          match arrivals[0].receipt
          case Data(bytes) => Run(w, turn + 1, buffer + bytes, armed, dispatched, arrivals[1..], false)
          case Nothing => Run(w, turn + 1, buffer, armed, dispatched, arrivals[1..], false)
          case Closed => Run(w, turn + 1, buffer, armed, dispatched, arrivals[1..], true)
          case Broken => Session(dispatched, ReceiveFailed)
  }

  function SessionOf(w: Wire, arrivals: seq<Arrival>): Session { Run(w, 0, [], None, [], arrivals, false) }

  predicate Late(buffer: seq<byte>, deadline: Option<Ticks>, now: Ticks)
  {
    buffer != [] && deadline.Some? && now >= deadline.value
  }

  // Only a frame that has started is watched.
  function Watched(w: Wire, buffer: seq<byte>, deadline: Option<Ticks>, now: Ticks): Option<Ticks>
  {
    if buffer == [] then None else if deadline.Some? then deadline else Some(w.Deadline(now))
  }

  // The loop of the source: decode, erase and dispatch, or wait for more.
  method RunSession(w: Wire, arrivals: seq<Arrival>) returns (dispatched: seq<Frame>, ending: Ending)
    ensures Session(dispatched, ending) == SessionOf(w, arrivals)
  {
    var buffer: seq<byte> := [];
    var partial, closing := false, false;
    var deadline: Ticks := 0;
    var turn, next := 0, 0;
    dispatched := [];
    while w.running(turn)
      invariant next <= |arrivals|
      invariant SessionOf(w, arrivals) ==
        Run(w, turn, buffer, if partial then Some(deadline) else None, dispatched, arrivals[next..], closing)
      decreases |arrivals| - next, |buffer|
    {
      turn := turn + 1;
      var decoded := w.Decode(buffer);
      if decoded.Complete? {
        buffer := buffer[decoded.consumed..];
        partial := false;
        var disposition := w.dispatch(dispatched, decoded.frame);
        dispatched := dispatched + [decoded.frame];
        if disposition.Continue? {
          continue;
        }
        return dispatched, if disposition.ProtocolFailure? then Refused else SaidBye;
      }
      if !decoded.status.Incomplete? {
        return dispatched, BadFrame(decoded.status);
      }
      if closing {
        return dispatched, PeerClosed(buffer != []);
      }
      if next == |arrivals| {
        return dispatched, Idle;
      }
      var arrival := arrivals[next];
      if buffer != [] {
        if !partial {
          partial, deadline := true, w.Deadline(arrival.now);
        } else if arrival.now >= deadline {
          return dispatched, TimedOut;
        }
      } else {
        partial := false;
      }
      next := next + 1;
      match arrival.receipt {
        case Data(bytes) => buffer := buffer + bytes;
        case Nothing =>
        case Closed => closing := true;
        case Broken => return dispatched, ReceiveFailed;
      }
    }
    return dispatched, Stopped;
  }

  // ------------------------------------------------------------------------
  // What a byte stream contains
  // ------------------------------------------------------------------------

  function Frames(w: Wire, b: seq<byte>): seq<Frame>
    decreases |b|
  {
    match w.Decode(b)
    case Complete(frame, n) => [frame] + Frames(w, b[n..])
    case Failed(_) => []
  }

  // The bytes that arrive before the peer closes or the socket fails.
  function Received(arrivals: seq<Arrival>): seq<byte>
  {
    if arrivals == [] then []
    else
      match arrivals[0].receipt
      case Data(bytes) => bytes + Received(arrivals[1..])
      case Nothing => Received(arrivals[1..])
      case _ => []
  }

  // What is left after the complete frames.
  function Residue(w: Wire, b: seq<byte>): seq<byte>
    decreases |b|
  {
    match w.Decode(b)
    case Complete(_, n) => Residue(w, b[n..])
    case Failed(_) => b
  }

  // The first frame of a buffer is the first frame of the whole stream.
  lemma FirstFrame(w: Wire, b: seq<byte>, rest: seq<byte>)
    ensures w.Decode(b).Complete? ==>
      var next := b[w.Decode(b).consumed..] + rest;
      Frames(w, b + rest) == [w.Decode(b).frame] + Frames(w, next) && Residue(w, b + rest) == Residue(w, next)
    ensures w.Decode(b).Failed? && !w.Decode(b).status.Incomplete? ==>
      Frames(w, b + rest) == [] && w.Decode(Residue(w, b + rest)) == w.Decode(b)
  {
    hide DecodeFrame;
    var d := w.Decode(b);
    if d != Failed(Incomplete) {
      DecodeIsStable(b, rest, w.maxBytes, w.hash);
      if d.Complete? {
        assert (b + rest)[d.consumed..] == b[d.consumed..] + rest;
      }
    }
  }

  // What a session did with a stream after the frames before it. Whatever the
  // pieces, it dispatched a prefix of the frames of the stream, and all of them
  // unless a stop, dispatching or the clock cut it short; the ending says why.
  ghost predicate Follows(w: Wire, r: Session, before: seq<Frame>, stream: seq<byte>)
  {
    && before <= r.dispatched <= before + Frames(w, stream)
    && (r.ending.Exhausted() ==> r.dispatched == before + Frames(w, stream))
    && match r.ending
       case BadFrame(status) => w.Decode(Residue(w, stream)) == Failed(status) && !status.Incomplete?
       case PeerClosed(leftover) =>
         w.Decode(Residue(w, stream)) == Failed(Incomplete) && (leftover <==> Residue(w, stream) != [])
       case Stopped => !AlwaysRunning(w)
       case Idle => w.Decode(Residue(w, stream)) == Failed(Incomplete)
       case ReceiveFailed => w.Decode(Residue(w, stream)) == Failed(Incomplete)
       case Refused => Answered(w, r.dispatched, ProtocolFailure)
       case SaidBye => Answered(w, r.dispatched, Bye)
       case TimedOut => true
  }

  ghost predicate AlwaysRunning(w: Wire) { forall turn :: w.running(turn) }

  // What dispatching the last frame answered.
  ghost predicate Answered(w: Wire, dispatched: seq<Frame>, d: Disposition)
  {
    dispatched != [] && w.dispatch(dispatched[..|dispatched| - 1], dispatched[|dispatched| - 1]) == d
  }

  // A frame that was dispatched comes before what the rest of the session does.
  lemma FollowsOn(w: Wire, r: Session, before: seq<Frame>, frame: Frame, stream: seq<byte>, next: seq<byte>)
    requires Follows(w, r, before + [frame], next)
    requires Frames(w, stream) == [frame] + Frames(w, next) && Residue(w, stream) == Residue(w, next)
    ensures Follows(w, r, before, stream)
  {
    hide Frames, Residue, Wire.Decode;
    assert before + ([frame] + Frames(w, next)) == before + [frame] + Frames(w, next);
  }

  // Where the loop ends without reading more.
  lemma FollowsAtOnce(w: Wire, dispatched: seq<Frame>, buffer: seq<byte>, coming: seq<byte>, ending: Ending)
    requires w.Decode(buffer).Failed?
    requires match ending
             case BadFrame(status) => w.Decode(buffer) == Failed(status) && !status.Incomplete?
             case PeerClosed(leftover) =>
               w.Decode(buffer) == Failed(Incomplete) && coming == [] && (leftover <==> buffer != [])
             case Idle => w.Decode(buffer) == Failed(Incomplete) && coming == []
             case ReceiveFailed => w.Decode(buffer) == Failed(Incomplete) && coming == []
             case TimedOut => true
             case _ => false
    ensures Follows(w, Session(dispatched, ending), dispatched, buffer + coming)
  {
    hide Wire.Decode;
    FirstFrame(w, buffer, coming);
    if coming == [] {
      assert buffer + coming == buffer;
    }
    assert dispatched + [] == dispatched;
  }

  lemma FollowsFrame(w: Wire, dispatched: seq<Frame>, frame: Frame, d: Disposition, ending: Ending, later: seq<byte>)
    requires w.dispatch(dispatched, frame) == d
    requires (d.ProtocolFailure? && ending.Refused?) || (d.Bye? && ending.SaidBye?)
    ensures Follows(w, Session(dispatched + [frame], ending), dispatched + [frame], later)
  {
    hide Frames, Residue, Wire.Decode;
    assert (dispatched + [frame])[..|dispatched|] == dispatched;
  }

  lemma FollowsStopped(w: Wire, turn: nat, dispatched: seq<Frame>, stream: seq<byte>)
    requires !w.running(turn)
    ensures Follows(w, Session(dispatched, Stopped), dispatched, stream)
  {
    hide Frames, Residue, Wire.Decode;
  }

  lemma {:induction false} SessionFollowsStream(
    w: Wire, turn: nat, buffer: seq<byte>, deadline: Option<Ticks>, dispatched: seq<Frame>, arrivals: seq<Arrival>,
    closing: bool)
    ensures Follows(w, Run(w, turn, buffer, deadline, dispatched, arrivals, closing), dispatched,
                    buffer + if closing then [] else Received(arrivals))
    decreases |arrivals|, |buffer|
  {
    hide Wire.Decode, Follows, Frames, Residue;
    var coming := if closing then [] else Received(arrivals);
    var r := Run(w, turn, buffer, deadline, dispatched, arrivals, closing);
    if !w.running(turn) {
      FollowsStopped(w, turn, dispatched, buffer + coming);
    } else {
      match w.Decode(buffer)
      case Complete(frame, n) =>
        FirstFrame(w, buffer, coming);
        if w.dispatch(dispatched, frame).Continue? {
          SessionFollowsStream(w, turn + 1, buffer[n..], None, dispatched + [frame], arrivals, closing);
        } else {
          FollowsFrame(w, dispatched, frame, w.dispatch(dispatched, frame), r.ending, buffer[n..] + coming);
        }
        FollowsOn(w, r, dispatched, frame, buffer + coming, buffer[n..] + coming);
      case Failed(status) =>
        if !status.Incomplete? || closing || arrivals == [] || Late(buffer, deadline, arrivals[0].now)
           || arrivals[0].receipt.Broken? {
          FollowsAtOnce(w, dispatched, buffer, coming, r.ending);
        } else {
          var armed := Watched(w, buffer, deadline, arrivals[0].now);
          match arrivals[0].receipt
          case Data(bytes) =>
            SessionFollowsStream(w, turn + 1, buffer + bytes, armed, dispatched, arrivals[1..], false);
            assert buffer + bytes + Received(arrivals[1..]) == buffer + coming;
          case Nothing => SessionFollowsStream(w, turn + 1, buffer, armed, dispatched, arrivals[1..], false);
          case Closed => SessionFollowsStream(w, turn + 1, buffer, armed, dispatched, arrivals[1..], true);
          case Broken =>
        }
    }
  }

  // How the bytes were cut does not matter: of two sessions that received the
  // same stream one dispatched a prefix of what the other did, and the same
  // frames when neither was cut short.
  lemma CuttingDoesNotMatter(w: Wire, a: seq<Arrival>, b: seq<Arrival>)
    requires Received(a) == Received(b)
    ensures var r, q := SessionOf(w, a), SessionOf(w, b);
            && (r.dispatched <= q.dispatched || q.dispatched <= r.dispatched)
            && (r.ending.Exhausted() ==> q.dispatched <= r.dispatched)
            && (r.ending.Exhausted() && q.ending.Exhausted() ==> r.dispatched == q.dispatched)
  {
    hide Run, Frames, Residue;
    SessionFollowsStream(w, 0, [], None, [], a, false);
    SessionFollowsStream(w, 0, [], None, [], b, false);
  }

  // ------------------------------------------------------------------------
  // Delivery
  // ------------------------------------------------------------------------

  ghost predicate AllEncodable(w: Wire, fs: seq<Frame>)
  {
    forall i :: 0 <= i < |fs| ==> Encodable(fs[i], w.maxBytes)
  }

  function Stream(w: Wire, fs: seq<Frame>): seq<byte>
    requires AllEncodable(w, fs)
  {
    if fs == [] then [] else EncodeFrame(fs[0], w.maxBytes, w.hash).value + Stream(w, fs[1..])
  }

  function AsReceived(w: Wire, fs: seq<Frame>): seq<Frame>
    requires AllEncodable(w, fs)
  {
    if fs == [] then [] else [fs[0].Sent()] + AsReceived(w, fs[1..])
  }

  // A stream of encoded frames contains those frames and nothing else.
  lemma {:induction false} StreamContainsItsFrames(w: Wire, fs: seq<Frame>)
    requires AllEncodable(w, fs)
    ensures Frames(w, Stream(w, fs)) == AsReceived(w, fs) && Residue(w, Stream(w, fs)) == []
  {
    hide DecodeFrame, SealFrame;
    if fs == [] {
      NothingIsIncomplete(w);
    } else {
      var b := EncodeFrame(fs[0], w.maxBytes, w.hash).value;
      LargerBound(fs[0], w.maxBytes);
      EncodedFrameIsAccepted(fs[0], w.maxBytes, w.hash);
      FirstFrame(w, b, Stream(w, fs[1..]));
      assert b[|b|..] + Stream(w, fs[1..]) == Stream(w, fs[1..]);
      StreamContainsItsFrames(w, fs[1..]);
    }
  }

  lemma LargerBound(f: Frame, maxBytes: nat)
    requires Encodable(f, maxBytes)
    ensures Max(maxBytes, FrameSize(0)) == maxBytes
  {
  }

  lemma NothingIsIncomplete(w: Wire)
    ensures w.Decode([]) == Failed(Incomplete)
  {
  }

  // ------------------------------------------------------------------------
  // Stalled frames
  // ------------------------------------------------------------------------

  // What has been received when the loop waits for the k-th time, taken apart
  // into complete frames and the beginning of one.
  function CountAt(w: Wire, a: seq<Arrival>, k: nat): nat
    requires k <= |a|
  {
    |Frames(w, Received(a[..k]))|
  }

  predicate HungAt(w: Wire, a: seq<Arrival>, k: nat)
    requires k <= |a|
  {
    Residue(w, Received(a[..k])) != []
  }

  // At wait i a frame is incomplete that was not so at the wait before.
  predicate Starts(w: Wire, a: seq<Arrival>, i: nat)
    requires i <= |a|
  {
    i == 0 || !HungAt(w, a, i - 1) || CountAt(w, a, i - 1) != CountAt(w, a, i)
  }

  // The same frame is incomplete at every wait from i to j.
  ghost predicate Unfinished(w: Wire, a: seq<Arrival>, i: nat, j: nat)
    requires i <= j <= |a|
  {
    forall m :: i <= m <= j ==> HungAt(w, a, m) && CountAt(w, a, m) == CountAt(w, a, i)
  }

  // One frame is incomplete from wait i to wait j, which comes no earlier than
  // the budget after the first.
  ghost predicate Stalls(w: Wire, a: seq<Arrival>, i: nat, j: nat)
  {
    i < j < |a| && Starts(w, a, i) && Unfinished(w, a, i, j) && a[j].now >= w.Deadline(a[i].now)
  }

  ghost predicate SomeFrameStalls(w: Wire, a: seq<Arrival>) { exists i: nat, j: nat :: Stalls(w, a, i, j) }

  ghost predicate NoneStalledBefore(w: Wire, a: seq<Arrival>, k: nat)
  {
    forall i: nat, j: nat :: j < k ==> !Stalls(w, a, i, j)
  }

  // The deadline was set at the wait at which the present frame started; without
  // one there is no frame that was incomplete at the wait before.
  ghost predicate DeadlineOf(w: Wire, a: seq<Arrival>, k: nat, deadline: Option<Ticks>, done: nat)
    requires k <= |a|
  {
    match deadline
    case None => k > 0 && HungAt(w, a, k - 1) ==> CountAt(w, a, k - 1) < done
    case Some(d) =>
      exists f: nat :: f < k && Starts(w, a, f) && Unfinished(w, a, f, k - 1) && CountAt(w, a, f) == done
                       && d == w.Deadline(a[f].now)
  }

  ghost predicate StillOpen(a: seq<Arrival>)
  {
    forall i :: 0 <= i < |a| ==> !a[i].receipt.Closed? && !a[i].receipt.Broken?
  }

  // The loop before its k-th wait.
  ghost predicate Waits(
    w: Wire, a: seq<Arrival>, k: nat, buffer: seq<byte>, deadline: Option<Ticks>, dispatched: seq<Frame>)
    requires k <= |a|
  {
    && CountAt(w, a, k) == |dispatched| + |Frames(w, buffer)| && Residue(w, Received(a[..k])) == Residue(w, buffer)
    && (k > 0 ==> CountAt(w, a, k - 1) <= |dispatched|)
    && DeadlineOf(w, a, k, deadline, |dispatched|) && NoneStalledBefore(w, a, k)
  }

  lemma {:induction false} ReceivedNext(a: seq<Arrival>, k: nat)
    requires k < |a| && StillOpen(a[..k])
    ensures Received(a[..k + 1])
         == Received(a[..k]) + if a[k].receipt.Data? then a[k].receipt.bytes else []
    decreases k
  {
    if k == 0 {
      assert a[..1][1..] == [];
    } else {
      var rest := a[..k][1..];
      assert a[..k + 1][1..] == a[1..][..k] && rest == a[1..][..k - 1];
      assert forall i :: 0 <= i < |rest| ==> rest[i] == a[..k][i + 1];
      ReceivedNext(a[1..], k - 1);
    }
  }

  // A frame that is incomplete all the way does not start again.
  lemma StartsOnce(w: Wire, a: seq<Arrival>, k: nat)
    requires k <= |a|
    ensures forall i: nat, m: nat :: i < m <= k && Unfinished(w, a, i, k) ==> !Starts(w, a, m)
  {
    hide HungAt, CountAt;
    forall i: nat, m: nat | i < m <= k && Unfinished(w, a, i, k)
      ensures !Starts(w, a, m)
    {
      assert HungAt(w, a, m - 1) && CountAt(w, a, m - 1) == CountAt(w, a, i) == CountAt(w, a, m);
    }
  }

  ghost predicate NoneStallsAt(w: Wire, a: seq<Arrival>, k: nat) { forall i: nat :: !Stalls(w, a, i, k) }

  lemma NothingHangs(w: Wire, a: seq<Arrival>, k: nat, done: nat)
    requires k < |a| && !HungAt(w, a, k)
    ensures NoneStallsAt(w, a, k) && DeadlineOf(w, a, k + 1, None, done)
  {
    hide HungAt, CountAt;
  }

  lemma StartsHere(w: Wire, a: seq<Arrival>, k: nat, done: nat)
    requires k < |a| && HungAt(w, a, k) && CountAt(w, a, k) == done && DeadlineOf(w, a, k, None, done)
    ensures NoneStallsAt(w, a, k) && DeadlineOf(w, a, k + 1, Some(w.Deadline(a[k].now)), done)
  {
    hide HungAt, CountAt;
    StartsOnce(w, a, k);
    assert Starts(w, a, k) && Unfinished(w, a, k, k);
  }

  lemma GoesOn(w: Wire, a: seq<Arrival>, k: nat, d: Ticks, done: nat)
    requires k < |a| && HungAt(w, a, k) && CountAt(w, a, k) == done && DeadlineOf(w, a, k, Some(d), done)
    ensures a[k].now >= d ==> SomeFrameStalls(w, a)
    ensures a[k].now < d ==> NoneStallsAt(w, a, k) && DeadlineOf(w, a, k + 1, Some(d), done)
  {
    hide HungAt, CountAt, Starts;
    var f: nat :| f < k && Starts(w, a, f) && Unfinished(w, a, f, k - 1) && CountAt(w, a, f) == done
                  && d == w.Deadline(a[f].now);
    assert Unfinished(w, a, f, k);
    if a[k].now >= d {
      assert Stalls(w, a, f, k);
    }
    hide Unfinished;
    StartsOnce(w, a, k);
    assert forall i: nat :: Stalls(w, a, i, k) ==> i == f;
  }

  // At a wait that is not late no frame has stalled, and the deadline is set for
  // the next one.
  lemma WaitIsTimed(
    w: Wire, a: seq<Arrival>, k: nat, buffer: seq<byte>, deadline: Option<Ticks>, dispatched: seq<Frame>)
    requires k < |a| && Waits(w, a, k, buffer, deadline, dispatched) && w.Decode(buffer).Failed?
    ensures Late(buffer, deadline, a[k].now) ==> SomeFrameStalls(w, a)
    ensures !Late(buffer, deadline, a[k].now) ==>
      && NoneStalledBefore(w, a, k + 1)
      && DeadlineOf(w, a, k + 1, Watched(w, buffer, deadline, a[k].now), |dispatched|)
  {
    hide CountAt, Wire.Decode, Wire.Deadline, DeadlineOf, Stalls, SomeFrameStalls;
    assert Frames(w, buffer) == [] && Residue(w, buffer) == buffer;
    assert HungAt(w, a, k) <==> buffer != [];
    if buffer == [] {
      NothingHangs(w, a, k, |dispatched|);
    } else if deadline.None? {
      StartsHere(w, a, k, |dispatched|);
    } else {
      GoesOn(w, a, k, deadline.value, |dispatched|);
    }
  }

  lemma NextWait(
    w: Wire, a: seq<Arrival>, k: nat, buffer: seq<byte>, deadline: Option<Ticks>, dispatched: seq<Frame>,
    more: seq<byte>)
    requires k < |a| && StillOpen(a[..k]) && Waits(w, a, k, buffer, deadline, dispatched)
    requires w.Decode(buffer) == Failed(Incomplete) && !Late(buffer, deadline, a[k].now)
    requires more == if a[k].receipt.Data? then a[k].receipt.bytes else []
    ensures Waits(w, a, k + 1, buffer + more, Watched(w, buffer, deadline, a[k].now), dispatched)
  {
    hide Wire.Decode, Wire.Deadline, DeadlineOf, NoneStalledBefore, Watched;
    WaitIsTimed(w, a, k, buffer, deadline, dispatched);
    ReceivedNext(a, k);
    assert Frames(w, buffer) == [];
    StreamGrows(w, Received(a[..k]), more);
  }

  // More bytes continue what is left after the complete frames.
  lemma {:induction false} StreamGrows(w: Wire, b: seq<byte>, more: seq<byte>)
    requires w.Decode(Residue(w, b)) == Failed(Incomplete)
    ensures |Frames(w, b + more)| == |Frames(w, b)| + |Frames(w, Residue(w, b) + more)|
    ensures Residue(w, b + more) == Residue(w, Residue(w, b) + more)
    decreases |b|
  {
    hide Wire.Decode;
    FirstFrame(w, b, more);
    if w.Decode(b).Complete? {
      StreamGrows(w, b[w.Decode(b).consumed..], more);
    }
  }

  // From any wait of the loop on, a time-out comes of a stalled frame and a stalled
  // frame of a time-out, unless the session ended otherwise.
  lemma {:induction false} StallsTimeOut(
    w: Wire, a: seq<Arrival>, k: nat, turn: nat, buffer: seq<byte>, deadline: Option<Ticks>, dispatched: seq<Frame>,
    closing: bool)
    requires k <= |a| && (!closing ==> StillOpen(a[..k]) && Waits(w, a, k, buffer, deadline, dispatched))
    ensures var ending := Run(w, turn, buffer, deadline, dispatched, a[k..], closing).ending;
            && (ending.TimedOut? ==> SomeFrameStalls(w, a))
            && (ending.Idle? ==> !SomeFrameStalls(w, a))
    decreases |a| - k, |buffer|
  {
    hide Wire.Decode, Waits, Watched;
    if w.running(turn) {
      match w.Decode(buffer)
      case Complete(frame, n) =>
        if !closing {
          DispatchKeepsWaiting(w, a, k, buffer, deadline, dispatched);
        }
        StallsTimeOut(w, a, k, turn + 1, buffer[n..], None, dispatched + [frame], closing);
      case Failed(status) =>
        if status.Incomplete? && !closing {
          if k == |a| {
            WaitsKnows(w, a, k, buffer, deadline, dispatched);
          } else if Late(buffer, deadline, a[k].now) {
            WaitIsTimed(w, a, k, buffer, deadline, dispatched);
          } else {
            var armed := Watched(w, buffer, deadline, a[k].now);
            assert a[k..][1..] == a[k + 1..] && a[k..][0] == a[k];
            assert a[..k + 1] == a[..k] + [a[k]];
            match a[k].receipt
            case Data(bytes) =>
              NextWait(w, a, k, buffer, deadline, dispatched, bytes);
              StallsTimeOut(w, a, k + 1, turn + 1, buffer + bytes, armed, dispatched, false);
            case Nothing =>
              NextWait(w, a, k, buffer, deadline, dispatched, []);
              assert buffer + [] == buffer;
              StallsTimeOut(w, a, k + 1, turn + 1, buffer, armed, dispatched, false);
            case Closed => StallsTimeOut(w, a, k + 1, turn + 1, buffer, armed, dispatched, true);
            case Broken =>
          }
        }
    }
  }

  lemma WaitsKnows(w: Wire, a: seq<Arrival>, k: nat, buffer: seq<byte>, deadline: Option<Ticks>, dispatched: seq<Frame>)
    requires k == |a| && Waits(w, a, k, buffer, deadline, dispatched)
    ensures !SomeFrameStalls(w, a)
  {
    hide DeadlineOf, CountAt, HungAt, Starts, Unfinished;
  }

  lemma DispatchKeepsWaiting(
    w: Wire, a: seq<Arrival>, k: nat, buffer: seq<byte>, deadline: Option<Ticks>, dispatched: seq<Frame>)
    requires k <= |a| && Waits(w, a, k, buffer, deadline, dispatched) && w.Decode(buffer).Complete?
    ensures var d := w.Decode(buffer); Waits(w, a, k, buffer[d.consumed..], None, dispatched + [d.frame])
  {
    hide Wire.Decode, Starts, Unfinished, NoneStalledBefore;
  }

  // A session times out only if some frame stalls; one that has gone on to wait
  // for more has had none that did.
  lemma TimesOutOnlyOnStalls(w: Wire, arrivals: seq<Arrival>)
    ensures var ending := SessionOf(w, arrivals).ending;
            && (ending.TimedOut? ==> SomeFrameStalls(w, arrivals))
            && (ending.Idle? ==> !SomeFrameStalls(w, arrivals))
  {
    hide Run, Wire.Decode;
    assert arrivals[0..] == arrivals && Received(arrivals[..0]) == [];
    StallsTimeOut(w, arrivals, 0, 0, [], None, [], false);
  }

  // For any list of frames and any way of cutting their bytes into pieces, a
  // session dispatches those frames, in order, and no other. It leaves some of
  // them out only when it is stopped, when one frame stays incomplete for the
  // whole budget, or when dispatching the last one it did ended the session; the
  // stream itself is never held against the peer.
  lemma FramesAreDelivered(w: Wire, fs: seq<Frame>, arrivals: seq<Arrival>)
    requires AllEncodable(w, fs) && Received(arrivals) == Stream(w, fs)
    ensures var r := SessionOf(w, arrivals);
            && r.dispatched <= AsReceived(w, fs)
            && match r.ending
               case Stopped => !AlwaysRunning(w)
               case TimedOut => SomeFrameStalls(w, arrivals)
               case Refused => Answered(w, r.dispatched, ProtocolFailure)
               case SaidBye => Answered(w, r.dispatched, Bye)
               case BadFrame(_) => false
               case PeerClosed(leftover) => !leftover && r.dispatched == AsReceived(w, fs)
               case Idle => !SomeFrameStalls(w, arrivals) && r.dispatched == AsReceived(w, fs)
               case ReceiveFailed => r.dispatched == AsReceived(w, fs)
  {
    hide Run, Frames, Residue, Stream, AsReceived, DecodeFrame, Stalls;
    SessionFollowsStream(w, 0, [], None, [], arrivals, false);
    assert [] + Received(arrivals) == Stream(w, fs);
    StreamContainsItsFrames(w, fs);
    NothingIsIncomplete(w);
    TimesOutOnlyOnStalls(w, arrivals);
  }
}
