/** What each operation of a connection comes to, written out. */
module ConnSteps {
  import opened Pollers
  import opened ConnSpec

  /** An established connection is connected and reads. */
  lemma EstablishMeans(c: Conn, h: Hooks)
    requires Legal(c, Establish)
    ensures var d := Next(c, Establish);
      && d.state == Connected && d.events == c.events + {In, Pri} && d.index == Added
      && d.reading == c.reading && d.output == c.output && d.sent == c.sent
    ensures Posts(c, Establish, h) == []
  {
    assert In in c.events + {In, Pri};
  }

  /** Only `forceClose` of a connected connection makes it disconnecting. */
  lemma DisconnectingIsAsked(c: Conn, op: Op)
    requires Legal(c, op) && c.state != Disconnecting && Next(c, op).state == Disconnecting
    ensures op == ForceClose && c.state == Connected
  {
  }

  /** Only `connectEstablished` makes a connection connected. */
  lemma ConnectedIsEstablished(c: Conn, op: Op)
    requires Legal(c, op) && c.state != Connected && Next(c, op).state == Connected
    ensures op == Establish && c.state == Connecting
  {
  }

  /** A connection that is down stays down, and none begins anew. */
  lemma DownIsFinal(c: Conn, op: Op)
    requires Legal(c, op)
    ensures c.state == Disconnected ==> Next(c, op).state == Disconnected
    ensures Next(c, op).state == Connecting ==> c.state == Connecting
  {
  }

  /** `d` is what `c` becomes when `m` is sent and a direct write ends as `w`.  The message is lost
      if the connection is down, or if nothing waited in front of it and the peer turned out to be
      gone; then nothing changes.  Any other is, whole and in order, with the kernel or behind what
      was buffered; the kernel gets of it what it took, and that only if nothing waited.  A full
      kernel buffer loses nothing: the message waits, and writability is watched. */
  predicate Delivered(c: Conn, m: seq<Byte>, w: WriteResult, d: Conn)
    requires Taken(w) <= |m|
  {
    if c.state == Disconnected || (c.output == [] && (w == Failed(EPipe) || w == Failed(EConnReset))) then d == c
    else
      && d.sent + d.output == c.sent + c.output + m
      && d.sent == c.sent + (if c.output == [] && w.Wrote? then m[..w.n] else [])
      && (c.output == [] && w == Failed(EWouldBlock) ==> d.output == m && d.sent == c.sent)
      && d.state == c.state && d.reading == c.reading && d.events - {Out} == c.events - {Out}
      && (Out in d.events <==> d.output != [])
  }

  lemma SendMeans(c: Conn, m: seq<Byte>, w: WriteResult)
    requires Inv(c) && Legal(c, Send(m, w))
    ensures Delivered(c, m, w, Next(c, Send(m, w)))
  {
    StepKeeps(c, Send(m, w));
    if c.state != Disconnected {
      SendIs(c, m, w, Hooks(false, false, 0));
      if !Dropped(c, w) {
        SendConserves(c, m, w);
      }
    }
  }

  /** The connection answers for every message but the lost ones, and one task at most is queued:
      write-complete if the kernel took the whole message at once, high-water on a crossing. */
  lemma SendPosts(c: Conn, m: seq<Byte>, w: WriteResult, h: Hooks)
    requires Inv(c) && Legal(c, Send(m, w))
    ensures var lost := c.state == Disconnected || (c.output == [] && (w == Failed(EPipe) || w == Failed(EConnReset)));
      var size := |Next(c, Send(m, w)).output|;
      && Kept(c, Send(m, w)) == (if lost then [] else m)
      && Posts(c, Send(m, w), h) ==
           if lost then []
           else if h.writeComplete && c.output == [] && w == Wrote(|m|) then [WriteComplete]
           else if h.highWater && |c.output| < h.mark <= size then [HighWater(size)]
           else []
  {
    if c.state != Disconnected {
      SendIs(c, m, w, h);
    }
  }

  /** A write event moves what the kernel takes.  With the last byte, write interest ends, the
      write-complete task is queued if the callback is set, and a disconnecting connection closes. */
  lemma HandleWriteMeans(c: Conn, w: WriteResult, h: Hooks)
    requires Inv(c) && Legal(c, HandleWrite(w))
    ensures var d := Next(c, HandleWrite(w));
      if c.state == Disconnected || w.Failed? || w.n == 0 then d == c && Posts(c, HandleWrite(w), h) == []
      else
        && d.sent == c.sent + c.output[..w.n] && d.output == c.output[w.n..] && d.reading == c.reading
        && d.state == (if w.n == |c.output| && c.state == Disconnecting then Disconnected else c.state)
        && d.events == (if d.state == Disconnected then {} else if w.n == |c.output| then c.events - {Out} else c.events)
        && Posts(c, HandleWrite(w), h) ==
             (if w.n == |c.output| && h.writeComplete then [WriteComplete] else []) +
             (if w.n == |c.output| && c.state == Disconnecting then [CloseNotice] else [])
  {
    WriteIs(c, w, h);
    if c.state != Disconnected && w.Wrote? && 0 < w.n {
      assert Out in c.events;
    }
  }

  /** `forceClose` leaves the closing to a task, and only marks the connection. */
  lemma ForceCloseMeans(c: Conn, h: Hooks)
    ensures var up := c.state == Connected || c.state == Disconnecting;
      && Next(c, ForceClose) == (if up then c.(state := Disconnecting) else c)
      && Posts(c, ForceClose, h) == (if up then [ForceCloseTask] else [])
  {
  }

  /** `d` is `c` after it was closed. */
  predicate IsClosed(c: Conn, d: Conn) {
    d.state == Disconnected && d.events == {} && d.output == c.output && d.sent == c.sent && d.reading == c.reading
  }

  /** The task closes a connection that is still up, and tells the owner. */
  lemma ForceCloseInLoopMeans(c: Conn, h: Hooks)
    ensures var d := Next(c, ForceCloseInLoop);
      if c.state == Connected || c.state == Disconnecting then IsClosed(c, d) && Posts(c, ForceCloseInLoop, h) == [CloseNotice]
      else d == c && Posts(c, ForceCloseInLoop, h) == []
  {
  }

  /** So does end of stream; data and read errors leave the connection as it is. */
  lemma HandleReadMeans(c: Conn, r: ReadOutcome, h: Hooks)
    requires Legal(c, HandleRead(r))
    ensures var d := Next(c, HandleRead(r));
      if r == EndOfStream then IsClosed(c, d) && Posts(c, HandleRead(r), h) == [CloseNotice]
      else d == c && Posts(c, HandleRead(r), h) == []
  {
  }

  /** Switching reading changes the flag and the read interest, and nothing else. */
  lemma SwitchReadMeans(c: Conn, h: Hooks)
    requires Inv(c) && (c.state == Connected || c.state == Disconnecting)
    ensures var off, on := Next(c, StopRead), Next(c, StartRead);
      && !off.reading && off.events == c.events - {In, Pri} && on.reading && on.events == c.events + {In, Pri}
      && off.state == on.state == c.state && off.output == on.output == c.output && off.sent == on.sent == c.sent
    ensures Posts(c, StopRead, h) == Posts(c, StartRead, h) == []
  {
  }

  /** Destruction takes the channel out of the poller and closes what was still connected. */
  lemma DestroyMeans(c: Conn, h: Hooks)
    requires Inv(c) && Legal(c, Destroy)
    ensures IsClosed(c, Next(c, Destroy)) && Next(c, Destroy).index == New && Posts(c, Destroy, h) == []
  {
  }
}
