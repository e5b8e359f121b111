/** `net::TcpConnection` on its two buffers, its channel and the poller, proved to follow the
    machine of module `ConnSpec`. */
module Connections {
  import ByteQueue
  import opened Buffers
  import opened Pollers
  import opened ConnSpec
  import ConnSteps

  /** `sockets::write` on `bytes`: what the kernel has, after taking what `w` says. */
  function KernelTakes(sent: seq<Byte>, bytes: seq<Byte>, w: WriteResult): seq<Byte>
    requires Taken(w) <= |bytes|
  {
    sent + bytes[..Taken(w)]
  }

  class TcpConnection {
    const hooks: Hooks
    const poller: EPollPoller
    const channel: Channel
    const inputBuffer: Buffer
    const outputBuffer: Buffer
    var state: ConnState
    var reading: bool

    /** The bytes the kernel has taken. */
    var sent: seq<Byte>

    /** What was queued on the loop or told to the owner, in order. */
    var posted: seq<Post>

    ghost function Parts(): set<object>
      reads this, inputBuffer, outputBuffer
    {
      {this, poller, channel, inputBuffer, outputBuffer, inputBuffer.data, outputBuffer.data}
    }

    /** The parts are sound and apart from each other. */
    ghost predicate Linked()
      reads this, poller, poller.channels.Values, channel, inputBuffer, outputBuffer
    {
      && poller.Knows(channel) && inputBuffer.Valid() && outputBuffer.Valid()
      && inputBuffer != outputBuffer && inputBuffer.data != outputBuffer.data
    }

    ghost predicate Valid()
      reads this, poller, poller.channels.Values, channel, inputBuffer, outputBuffer, outputBuffer.data
    {
      Linked() && Inv(View())
    }

    ghost function View(): Conn
      requires outputBuffer.Valid()
      reads this, channel, outputBuffer, outputBuffer.data
    {
      Conn(state, reading, channel.events, channel.index, outputBuffer.Contents(), sent)
    }

    /** Seen from the kernel: while the connection is not down, its descriptor is watched for
        writability if and only if the output buffer holds something; once down, for nothing. */
    ghost predicate InterestIsExact()
      requires outputBuffer.Valid()
      reads this, poller, channel, outputBuffer, outputBuffer.data
    {
      if state == Disconnected then channel.fd in poller.kernel ==> poller.kernel[channel.fd].mask == {}
      else channel.fd in poller.kernel && Out in poller.kernel[channel.fd].mask <==> outputBuffer.Contents() != []
    }

    lemma WriteInterestIsExact()
      requires Valid()
      ensures InterestIsExact()
    {
      if channel.fd in poller.channels {
        assert poller.AgreesOn(channel.fd);
      }
    }

    constructor (fd: int, p: EPollPoller, hooks: Hooks)
      requires p.Valid() && fd !in p.channels
      ensures Valid() && View() == INIT && posted == [] && poller == p && channel.fd == fd && this.hooks == hooks
      ensures fresh(Parts() - {p})
    {
      this.hooks := hooks;
      poller := p;
      channel := new Channel(fd);
      inputBuffer := new Buffer();
      outputBuffer := new Buffer();
      state, reading, sent, posted := Connecting, true, [], [];
    }

    method ConnectEstablished()
      requires Valid() && Legal(View(), Establish)
      modifies this`state, poller, channel
      ensures Valid() && View() == Next(old(View()), Establish)
      ensures state == Connected && channel.events == old(channel.events) + {In, Pri} && channel.index == Added
      ensures poller.OthersKept(channel.fd)
    {
      state := Connected;
      channel.SetEvents(channel.events + READ_EVENT, poller);
    }

    method SendInLoop(message: seq<Byte>, w: WriteResult)
      requires Valid() && Legal(View(), Send(message, w))
      modifies this`sent, this`posted, poller, channel, outputBuffer, outputBuffer.data
      ensures Valid() && View() == Next(old(View()), Send(message, w))
      ensures posted == old(posted) + Posts(old(View()), Send(message, w), hooks)
      ensures ConnSteps.Delivered(old(View()), message, w, View())
      ensures fresh(outputBuffer.data) || outputBuffer.data == old(outputBuffer.data)
      ensures poller.OthersKept(channel.fd)
    {
      hide EPollPoller.Knows, Inv, ConnSteps.Delivered;
      ConnSteps.SendMeans(View(), message, w);
      var faultError := false;
      var nwrote := 0;
      if state == Disconnected {
        return;
      }
      hide Next, Posts;
      StepKeeps(View(), Send(message, w));
      SendIs(View(), message, w, hooks);
      if !channel.IsWriting() && outputBuffer.ReadableBytes() == 0 {
        nwrote, faultError := WriteDirectly(message, w);
      }
      assert sent == old(sent) + message[..nwrote];
      var remaining := |message| - nwrote;
      assert remaining <= |message|;
      if !faultError && remaining > 0 {
        Keep(message[nwrote..]);
      }
    }

    /** The direct write, made only when nothing waits in front of the message. */
    method WriteDirectly(message: seq<Byte>, w: WriteResult) returns (nwrote: nat, faultError: bool)
      requires Taken(w) <= |message|
      modifies this`sent, this`posted
      ensures nwrote == (if w.Wrote? then w.n else 0) && sent == old(sent) + message[..nwrote]
      ensures faultError <==> w == Failed(EPipe) || w == Failed(EConnReset)
      ensures posted == old(posted) + PostIf(hooks.writeComplete && w.Wrote? && nwrote == |message|, WriteComplete)
    {
      nwrote, faultError := 0, false;
      match w
      case Wrote(n) =>
        sent := KernelTakes(sent, message, w);
        nwrote := n;
        if nwrote == |message| && hooks.writeComplete {
          posted := posted + [WriteComplete];
        }
      case Failed(errno) =>
        if errno != EWouldBlock {
          if errno == EPipe || errno == EConnReset {
            faultError := true;
          }
        }
    }

    /** The second half of `sendInLoop`: the rest of the message waits for writability. */
    method Keep(rest: seq<Byte>)
      requires Linked() && rest != []
      modifies this`posted, poller, channel, outputBuffer, outputBuffer.data
      ensures Linked()
      ensures View() == Waits(old(View()), rest)
      ensures var size := old(outputBuffer.ReadableBytes());
        posted == old(posted) + PostIf(hooks.highWater && size < hooks.mark <= size + |rest|, HighWater(size + |rest|))
      ensures fresh(outputBuffer.data) || outputBuffer.data == old(outputBuffer.data)
      ensures poller.OthersKept(channel.fd)
    {
      var oldLen := outputBuffer.ReadableBytes();
      if oldLen + |rest| >= hooks.mark && oldLen < hooks.mark && hooks.highWater {
        posted := posted + [HighWater(oldLen + |rest|)];
      }
      outputBuffer.Append(rest);
      if !channel.IsWriting() {
        channel.EnableWriting(poller);
      }
    }

    method ForceClose()
      requires Valid()
      modifies this`state, this`posted
      ensures Valid() && View() == Next(old(View()), ConnSpec.ForceClose)
      ensures posted == old(posted) + Posts(old(View()), ConnSpec.ForceClose, hooks)
    {
      if state == Connected || state == Disconnecting {
        state := Disconnecting;
        posted := posted + [ForceCloseTask];
      }
    }

    method ForceCloseInLoop()
      requires Valid()
      modifies this`state, this`posted, poller, channel
      ensures Valid() && View() == Next(old(View()), ConnSpec.ForceCloseInLoop)
      ensures state != Connected && state != Disconnecting
      ensures posted == old(posted) + Posts(old(View()), ConnSpec.ForceCloseInLoop, hooks)
      ensures poller.OthersKept(channel.fd)
    {
      if state == Connected || state == Disconnecting {
        HandleClose();
      }
    }

    /** The descriptor leaves the kernel's table if and only if it was in it. */
    method HandleClose()
      requires Valid() && Up(View())
      modifies this`state, this`posted, poller, channel
      ensures Valid() && View() == CloseNext(old(View())) && posted == old(posted) + [CloseNotice]
      ensures channel.fd in poller.kernel <==> old(channel.fd !in poller.kernel)
      ensures poller.OthersKept(channel.fd)
    {
      state := Disconnected;
      channel.DisableAll(poller);
      posted := posted + [CloseNotice];
    }

    /** `result` is what `readv` gives; end of stream closes, data goes to the input buffer. */
    method HandleRead(result: ReadResult)
      requires Valid() && (result.Got? ==> |result.bytes| <= inputBuffer.Offered())
      requires result.Got? && result.bytes == [] ==> Up(View())
      modifies this`state, this`posted, poller, channel, inputBuffer, inputBuffer.data
      ensures Valid()
      ensures fresh(inputBuffer.data) || inputBuffer.data == old(inputBuffer.data)
      ensures inputBuffer.Contents() == old(inputBuffer.Contents()) + if result.Got? then result.bytes else []
      ensures var r := if result.ReadError? then ReadFailed else if result.bytes == [] then EndOfStream else Data;
        View() == Next(old(View()), ConnSpec.HandleRead(r)) && posted == old(posted) + Posts(old(View()), ConnSpec.HandleRead(r), hooks)
      ensures poller.OthersKept(channel.fd)
    {
      var n := inputBuffer.ReadFd(result);
      if n == 0 {
        HandleClose();
      }
    }

    method HandleWrite(w: WriteResult)
      requires Valid() && Legal(View(), ConnSpec.HandleWrite(w))
      modifies this`state, this`posted, this`sent, poller, channel, outputBuffer, outputBuffer.data
      ensures Valid() && View() == Next(old(View()), ConnSpec.HandleWrite(w))
      ensures posted == old(posted) + Posts(old(View()), ConnSpec.HandleWrite(w), hooks)
      ensures outputBuffer.data == old(outputBuffer.data)
      ensures poller.OthersKept(channel.fd)
    {
      hide EPollPoller.Knows, Inv, Next, Posts, PostIf;
      StepKeeps(View(), ConnSpec.HandleWrite(w));
      WriteIs(View(), w, hooks);
      if channel.IsWriting() {
        if w.Wrote? && w.n > 0 {
          sent := KernelTakes(sent, outputBuffer.Contents(), w);
          EmptiedKeeps(old(View()), sent);
          outputBuffer.Retrieve(w.n);
          if outputBuffer.ReadableBytes() == 0 {
            Drained();
          }
        }
      }
    }

    /** The end of `handleWrite` once everything is written. */
    method Drained()
      requires Linked() && Inv(Watch(View(), channel.events - WRITE_EVENT)) && state != Disconnected
      modifies this`state, this`posted, poller, channel
      ensures Valid()
      ensures View() == Finished(old(View()))
      ensures posted == old(posted) + (PostIf(hooks.writeComplete, WriteComplete) + PostIf(old(state) == Disconnecting, CloseNotice))
      ensures poller.OthersKept(channel.fd)
    {
      hide EPollPoller.Knows, Inv;
      channel.DisableWriting(poller);
      if hooks.writeComplete {
        posted := posted + [WriteComplete];
      }
      if state == Disconnecting {
        ForceCloseInLoop();
      }
    }

    method StopRead()
      requires Valid() && Up(View())
      modifies this`reading, poller, channel
      ensures Valid() && View() == Next(old(View()), ConnSpec.StopRead)
      ensures !reading && channel.events == old(channel.events) - {In, Pri}
      ensures poller.OthersKept(channel.fd)
    {
      if reading || channel.IsReading() {
        channel.DisableReading(poller);
        reading := false;
      }
    }

    /** `startRead` ends up in the function named `stopReadInLoop`, which switches reading on. */
    method StartRead()
      requires Valid() && Up(View())
      modifies this`reading, poller, channel
      ensures Valid() && View() == Next(old(View()), ConnSpec.StartRead)
      ensures reading && channel.events == old(channel.events) + {In, Pri}
      ensures poller.OthersKept(channel.fd)
    {
      if !reading || !channel.IsReading() {
        channel.SetEvents(channel.events + READ_EVENT, poller);
        reading := true;
      }
    }

    method ConnectDestroyed()
      requires Valid() && Legal(View(), Destroy)
      modifies this`state, poller, channel
      ensures Valid() && View() == Next(old(View()), Destroy)
      ensures channel.fd !in poller.kernel && channel.fd !in poller.channels
      ensures poller.OthersKept(channel.fd)
    {
      if state == Connected {
        state := Disconnected;
        channel.DisableAll(poller);
      }
      channel.Remove(poller);
    }

    /** Any operation of the machine.  A read finds `input` in the socket and takes as much of it as
        it offers space for. */
    method Perform(op: Op, input: seq<Byte>)
      requires Valid() && Legal(View(), op) && (op == ConnSpec.HandleRead(Data) ==> input != [])
      modifies this`state, this`reading, this`sent, this`posted, poller, channel
      modifies inputBuffer, inputBuffer.data, outputBuffer, outputBuffer.data
      ensures Valid() && View() == Next(old(View()), op) && posted == old(posted) + Posts(old(View()), op, hooks)
      ensures fresh(inputBuffer.data) || inputBuffer.data == old(inputBuffer.data)
      ensures fresh(outputBuffer.data) || outputBuffer.data == old(outputBuffer.data)
      ensures poller.OthersKept(channel.fd)
    {
      hide Inv, EPollPoller.Knows, Next;
      match op
      case Establish => ConnectEstablished();
      case Send(message, w) => SendInLoop(message, w);
      case ForceClose => ForceClose();
      case ForceCloseInLoop => ForceCloseInLoop();
      case HandleRead(r) =>
        var n := ByteQueue.Min(|input|, inputBuffer.Offered());
        HandleRead(if r == ReadFailed then ReadError(11) else if r == EndOfStream then Got([]) else Got(input[..n]));
      case HandleWrite(w) => HandleWrite(w);
      case StopRead => StopRead();
      case StartRead => StartRead();
      case Destroy => ConnectDestroyed();
    }
  }
}
