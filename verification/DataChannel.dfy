/** The two ends of the data channel as the C code runs them: partial-transfer loops, the senders
    and the receive loop, proved against the codec of module Wire. */
module DataChannel {
  import opened Protocol
  import opened Wire

  lemma ProgressStep(script: seq<Chunk>, i: nat, n: nat)
    requires i < |script| && n > 0
    ensures var k := Progress(script[i..], n);
            match script[i]
            case Interrupted => k == Progress(script[i + 1..], n)
            case Failed => k == 0
            case Moved(m) => k == if Min(m, n) == 0 then 0 else Min(m, n) + Progress(script[i + 1..], n - Min(m, n))
  {
    assert script[i..][1..] == script[i + 1..];
  }

  /** One more event of a receive loop, put in front of what the rest of the script does. */
  lemma ReadArrives(wire: seq<Cell>, script: seq<Recv>, i: nat, n: nat)
    requires i < |script| && n > 0 && script[i].Arrives?
    ensures var r := Read(wire + script[i].cells, n, script[i + 1..]);
            Read(wire, n, script[i..]) == r.(came := script[i].cells + r.came)
  {
    assert script[i..][1..] == script[i + 1..];
  }

  lemma ReadStops(wire: seq<Cell>, script: seq<Recv>, i: nat, n: nat)
    requires i < |script| && n > 0 && script[i].Call? && !script[i].c.Interrupted?
    requires script[i].c.Failed? || script[i].c.n == 0 || wire == []
    ensures Read(wire, n, script[i..]) == Reading([], wire, [])
  {
  }

  lemma {:induction false} ReadMoves(wire: seq<Cell>, script: seq<Recv>, i: nat, n: nat)
    requires i < |script| && n > 0 && script[i].Call? && script[i].c.Moved? && script[i].c.n > 0 && wire != []
    ensures var step := Min(Min(script[i].c.n, n), |wire|);
            var r := Read(wire[step..], n - step, script[i + 1..]);
            Read(wire, n, script[i..]) == r.(got := wire[..step] + r.got)
  {
    assert script[i..][1..] == script[i + 1..];
  }

  lemma ReadRetries(wire: seq<Cell>, script: seq<Recv>, i: nat, n: nat)
    requires i < |script| && n > 0 && script[i] == Call(Interrupted)
    ensures Read(wire, n, script[i..]) == Read(wire, n, script[i + 1..])
  {
    assert script[i..][1..] == script[i + 1..];
  }

  /** What a drain adds to what was received before it. */
  function Onto(ms: seq<Msg>, came: seq<Cell>, ok: bool, d: Drained): Drained {
    Drained(ms + d.ms, d.rest, came + d.came, ok && d.ok)
  }

  lemma OntoEmpty(d: Drained)
    ensures Onto([], [], true, d) == d
  {
    assert [] + d.ms == d.ms && [] + d.came == d.came;
  }

  lemma OntoAfter(ms: seq<Msg>, came: seq<Cell>, ok: bool, m: Option<Msg>, c: seq<Cell>, d: Drained)
    ensures Onto(ms, came, ok, After(m, c, d)) == Onto(if m.Some? then ms + [m.value] else ms, came + c, ok && m.Some?, d)
  {
    Regroup(came, c, d.came);
    if m.Some? {
      Regroup(ms, [m.value], d.ms);
    } else {
      assert [] + d.ms == d.ms;
    }
  }

  lemma DrainRound(dir: Dir, wire: seq<Cell>, turns: seq<Turn>, i: nat, r: Round)
    requires i < |turns| && r == OneRound(dir, wire, turns[i])
    ensures Drain(dir, wire, turns[i..]) ==
              if r.Stop? then Drained([], r.rest, r.came, r.ok) else After(r.m, r.came, Drain(dir, r.rest, turns[i + 1..]))
  {
    assert turns[i..][0] == turns[i] && turns[i..][1..] == turns[i + 1..];
  }

  lemma WriteOn(wire: seq<Cell>, buf: seq<Byte>, sent: nat, step: nat)
    requires sent + step <= |buf|
    ensures wire + Cells(buf[..sent]) + Cells(buf[sent..sent + step]) == wire + Cells(buf[..sent + step])
  {
  }

  class Channel {
    /** Bytes sent and not yet received. */
    var wire: seq<Cell>

    constructor ()
      ensures wire == []
    {
      wire := [];
    }

    method SendAll(buf: seq<Byte>, script: seq<Chunk>) returns (r: int)
      modifies this
      ensures wire == old(wire) + Cells(buf[..Progress(script, |buf|)])
      ensures r == if Progress(script, |buf|) == |buf| then 0 else -1
    {
      var sent, i := 0, 0;
      assert script[0..] == script && wire + Cells(buf[..0]) == wire;
      while sent < |buf|
        invariant 0 <= sent <= |buf| && 0 <= i <= |script|
        invariant Progress(script, |buf|) == sent + Progress(script[i..], |buf| - sent)
        invariant wire == old(wire) + Cells(buf[..sent])
        decreases |script| - i
      {
        if i == |script| {
          return -1;
        }
        ProgressStep(script, i, |buf| - sent);
        var chunk := script[i];
        i := i + 1;
        if chunk.Interrupted? {
          continue;
        }
        if chunk.Failed? || chunk.n == 0 {
          return -1;
        }
        var step := Min(chunk.n, |buf| - sent);
        WriteOn(old(wire), buf, sent, step);
        wire := wire + Cells(buf[sent..sent + step]);
        sent := sent + step;
      }
      return 0;
    }

    /** While it blocks, more cells may arrive. */
    method RecvAll(n: nat, script: seq<Recv>) returns (r: int, got: seq<Cell>, ghost came: seq<Cell>)
      modifies this
      ensures Reading(got, wire, came) == Read(old(wire), n, script)
      ensures r == if |got| == n then 0 else -1
    {
      var i := 0;
      got, came := [], [];
      ghost var whole := Read(wire, n, script);
      assert script[0..] == script;
      assert [] + whole.got == whole.got && [] + whole.came == whole.came;
      while |got| < n
        invariant |got| <= n && 0 <= i <= |script|
        invariant var rest := Read(wire, n - |got|, script[i..]);
                  whole == Reading(got + rest.got, rest.wire, came + rest.came)
        decreases |script| - i
      {
        ghost var left := n - |got|;
        if i == |script| {
          return -1, got, came;
        }
        var next := script[i];
        if next.Arrives? {
          ReadArrives(wire, script, i, left);
          Regroup(came, next.cells, Read(wire + next.cells, left, script[i + 1..]).came);
          wire := wire + next.cells;
          came := came + next.cells;
        } else if next.c.Interrupted? {
          ReadRetries(wire, script, i, left);
        } else {
          var step := if next.c.Failed? then 0 else Min(Min(next.c.n, n - |got|), |wire|);
          if step == 0 {
            ReadStops(wire, script, i, left);
            return -1, got, came;
          }
          ReadMoves(wire, script, i, left);
          Regroup(got, wire[..step], Read(wire[step..], left - step, script[i + 1..]).got);
          got := got + wire[..step];
          wire := wire[step..];
        }
        i := i + 1;
      }
      return 0, got, came;
    }

    /** send_fds: one sendmsg, all of it or nothing. */
    method SendFds(fds: seq<Fd>, ok: bool) returns (r: int)
      requires fds != []
      modifies this
      ensures wire == if ok then old(wire) + FdFrame(fds) else old(wire)
      ensures r == if ok then 0 else -1
    {
      if !ok {
        return -1;
      }
      wire := wire + FdFrame(fds);
      return 0;
    }

    /** push_input_event and push_output_event (no payload) and their with_length variants. */
    /** The push functions; the variants with a payload first allocate the message, and `memory` says
        how that turns out. */
    method PushEvent(dir: Dir, e: Event, payload: seq<Byte>, memory: bool, script: seq<Chunk>) returns (r: int)
      modifies this
      ensures r == 0 ==> wire == old(wire) + Encode(dir, Msg(e, payload, []))
      ensures r != 0 ==> exists k :: 0 <= k < FRAME_BYTES + |payload| && wire == old(wire) + Encode(dir, Msg(e, payload, []))[..k]
      ensures r == 0 <==> (payload == [] || memory) && Progress(script, FRAME_BYTES + |payload|) == FRAME_BYTES + |payload|
      ensures payload != [] && !memory ==> wire == old(wire)
    {
      if payload != [] && !memory {
        assert old(wire) + Encode(dir, Msg(e, payload, []))[..0] == old(wire);
        return -1;
      }
      var msg := Frame(dir, e) + payload;
      ghost var k := Progress(script, |msg|);
      assert msg[..|msg|] == msg && Cells(msg) + [] == Cells(msg);
      assert Encode(dir, Msg(e, payload, [])) == Cells(msg);
      assert Cells(msg[..k]) == Cells(msg)[..k];
      r := SendAll(msg, script);
    }

    method PushEventWithFds(e: Event, fds: seq<Fd>, script: seq<Chunk>, ok: bool) returns (done: bool)
      modifies this
      ensures done ==> wire == old(wire) + Encode(Input, Msg(e, [], fds))
      ensures done <==> Progress(script, FRAME_BYTES) == FRAME_BYTES && (fds == [] || ok)
    {
      ghost var start := wire;
      var frame := Frame(Input, e);
      assert frame[..FRAME_BYTES] == frame && frame + [] == frame;
      var sent := SendAll(frame, script);
      done := sent == 0;
      if done && fds != [] {
        var r := SendFds(fds, ok);
        done := r >= 0;
      }
      Regroup(start, Cells(frame), FdFrame(fds));
    }

    method PollEvent(dir: Dir, t: Turn) returns (r: int, event: Option<Event>, ghost came: seq<Cell>)
      modifies this
      ensures match Poll(dir, old(wire), t)
              case Nothing => r == 0 && event == None && wire == old(wire) && came == []
              case Broken(rest, c) => r == -1 && event == None && wire == rest && came == c
              case Got(e, rest, c) => r == 1 && event == Some(e) && wire == rest && came == c
    {
      var peeked := wire[..Min(Min(t.visible, FRAME_BYTES), |wire|)];
      if |peeked| < HEADER_BYTES {
        return 0, None, [];
      }
      assert peeked[..4] == wire[..4];
      if FromLE32(Bytes(peeked[..4])) != EventMsg(dir) {
        return 0, None, [];
      }
      var failed, got, arrived := RecvAll(FRAME_BYTES, t.frame);
      if failed < 0 {
        return -1, None, arrived;
      }
      return 1, Some(ParseEvent(Bytes(got[HEADER_BYTES..]))), arrived;
    }

    method PollExtendFds(max: nat, t: Turn) returns (r: int, fds: seq<Fd>, ghost came: seq<Cell>)
      requires 0 < max
      modifies this
      ensures came == Awaited(old(wire), t.extra)
      ensures var w := old(wire) + came;
              && wire == (if |w| < HEADER_BYTES then [] else w[HEADER_BYTES..])
              && (r == 1 <==> |w| >= HEADER_BYTES && FromLE32(Bytes(w[..4])) == EXTEND_FDS_MSG)
              && fds == if r == 1 then w[0].fds[..Min(max, |w[0].fds|)] else []
    {
      came := Awaited(wire, t.extra);
      wire := wire + Awaited(wire, t.extra);
      if |wire| < HEADER_BYTES {
        wire := [];
        return -1, [], came;
      }
      var header := wire[..HEADER_BYTES];
      var got := wire[0].fds[..Min(max, |wire[0].fds|)];
      assert header[..4] == wire[..4];
      wire := wire[HEADER_BYTES..];
      if FromLE32(Bytes(header[..4])) != EXTEND_FDS_MSG {
        return -1, [], came;
      }
      return 1, got, came;
    }

    method ProcessEvent(dir: Dir, e: Event, t: Turn) returns (m: Option<Msg>, ghost came: seq<Cell>)
      modifies this
      ensures Handled(m, wire, came) == Process(dir, e, old(wire), t)
    {
      var size, number := TrailerSize(dir, e), FdNumber(dir, e);
      if size > 0 {
        var r, got, arrived := RecvAll(size, t.extra);
        return if r == 0 then Some(Msg(e, Bytes(got), [])) else None, arrived;
      }
      if number == 0 || number > MAX_FDS {
        return Some(Msg(e, [], [])), [];
      }
      var r, fds, arrived := PollExtendFds(number, t);
      return if r != 1 || |fds| < number then None else Some(Msg(e, [], fds)), arrived;
    }

    method DoRound(dir: Dir, turns: seq<Turn>, i: nat) returns (r: int, m: Option<Msg>, ghost came: seq<Cell>)
      requires i < |turns|
      modifies this
      ensures Drain(dir, old(wire), turns[i..]) ==
                if r <= 0 then Drained([], wire, came, r == 0) else After(m, came, Drain(dir, wire, turns[i + 1..]))
    {
      DrainRound(dir, wire, turns, i, OneRound(dir, wire, turns[i]));
      var polled, event, arrived := PollEvent(dir, turns[i]);
      if polled <= 0 {
        return polled, None, arrived;
      }
      var handled, alsoArrived := ProcessEvent(dir, event.value, turns[i]);
      return 1, handled, arrived + alsoArrived;
    }

    /** onInputReadable, and the loop by which a consumer reads its output events. */
    method OnReadable(dir: Dir, turns: seq<Turn>) returns (ms: seq<Msg>, ghost came: seq<Cell>, ghost ok: bool)
      modifies this
      ensures Drained(ms, wire, came, ok) == Drain(dir, old(wire), turns)
    {
      ms, came, ok := [], [], true;
      assert turns[0..] == turns;
      OntoEmpty(Drain(dir, wire, turns));
      for i := 0 to |turns|
        invariant Drain(dir, old(wire), turns) == Onto(ms, came, ok, Drain(dir, wire, turns[i..]))
      {
        ghost var before, arrivedBefore, okBefore := ms, came, ok;
        var r, m, arrived := DoRound(dir, turns, i);
        came := came + arrived;
        if r <= 0 {
          ok := ok && r == 0;
          assert before + [] == before;
          return;
        }
        OntoAfter(before, arrivedBefore, okBefore, m, arrived, Drain(dir, wire, turns[i + 1..]));
        ok := ok && m.Some?;
        if m.Some? {
          ms := ms + [m.value];
        }
      }
      assert ms + [] == ms && came + [] == came;
    }
  }
}
