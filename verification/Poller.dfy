/** `net::Channel` and `net::EPollPoller`: a channel's interest mask, the poller's map of channels,
    and the kernel's interest table, which must agree at all times. */
module Pollers {

  datatype Flag = In | Pri | Out | Err | Hup | RdHup

  const READ_EVENT: set<Flag> := {In, Pri}
  const WRITE_EVENT: set<Flag> := {Out}

  /** The kernel reports these whether or not they were asked for. */
  const ALWAYS: set<Flag> := {Err, Hup}

  /** Unknown to the poller; watched by the kernel; known to the poller but not watched. */
  datatype Index = New | Added | Deleted

  /** What `updateChannel` makes of a channel's index. */
  function NextIndex(index: Index, events: set<Flag>): Index {
    if index == Added && events == {} then Deleted else Added
  }

  datatype Operation = Add | Mod | Del

  datatype Interest = Interest(mask: set<Flag>, channel: Channel)

  /** One ready descriptor as `epoll_wait` hands it back. */
  datatype Ready = Ready(fd: int, channel: Channel, flags: set<Flag>)

  class Channel {
    const fd: int
    var events: set<Flag>
    var revents: set<Flag>
    var index: Index
    var addedToLoop: bool

    constructor (fd: int)
      ensures this.fd == fd && events == {} && revents == {} && index == New && !addedToLoop
    {
      this.fd := fd;
      events, revents, index, addedToLoop := {}, {}, New, false;
    }

    predicate IsNoneEvent() reads this { events == {} }

    predicate IsWriting() reads this { Out in events }

    predicate IsReading() reads this { events * READ_EVENT != {} }

    /** The common part of the five mask changes: set the mask, tell the poller. */
    method SetEvents(mask: set<Flag>, p: EPollPoller)
      requires p.Knows(this)
      modifies this, p
      ensures p.Knows(this) && events == mask && index == NextIndex(old(index), mask) && addedToLoop
      ensures revents == old(revents)
      ensures p.channels == old(p.channels)[fd := this]
      ensures p.kernel == if index == Added then old(p.kernel)[fd := Interest(mask, this)] else old(p.kernel) - {fd}
      ensures p.OthersKept(fd)
    {
      events := mask;
      addedToLoop := true;
      p.UpdateChannel(this);
    }

    method EnableReading(p: EPollPoller)
      requires p.Knows(this)
      modifies this, p
      ensures p.Knows(this) && IsReading() && IsWriting() == old(IsWriting()) && index == Added
      ensures events == old(events) + {In, Pri} && p.OthersKept(fd)
      ensures p.channels == old(p.channels)[fd := this] && p.kernel == old(p.kernel)[fd := Interest(events, this)]
    {
      SetEvents(events + READ_EVENT, p);
      assert In in events * READ_EVENT;
    }

    method DisableReading(p: EPollPoller)
      requires p.Knows(this)
      modifies this, p
      ensures p.Knows(this) && !IsReading() && IsWriting() == old(IsWriting()) && events == old(events) - {In, Pri} && p.OthersKept(fd)
      ensures index == NextIndex(old(index), events) && p.channels == old(p.channels)[fd := this]
      ensures p.kernel == if index == Added then old(p.kernel)[fd := Interest(events, this)] else old(p.kernel) - {fd}
    {
      SetEvents(events - READ_EVENT, p);
    }

    method EnableWriting(p: EPollPoller)
      requires p.Knows(this)
      modifies this, p
      ensures p.Knows(this) && IsWriting() && events == old(events) + {Out} && index == Added && p.OthersKept(fd)
      ensures p.channels == old(p.channels)[fd := this] && p.kernel == old(p.kernel)[fd := Interest(events, this)]
    {
      SetEvents(events + WRITE_EVENT, p);
      assert Out in events;
    }

    method DisableWriting(p: EPollPoller)
      requires p.Knows(this)
      modifies this, p
      ensures p.Knows(this) && !IsWriting() && events == old(events) - {Out} && p.OthersKept(fd)
      ensures index == NextIndex(old(index), events) && p.channels == old(p.channels)[fd := this]
      ensures p.kernel == if index == Added then old(p.kernel)[fd := Interest(events, this)] else old(p.kernel) - {fd}
    {
      SetEvents(events - WRITE_EVENT, p);
    }

    /** Takes the channel out of the kernel's table exactly when it was in it.  A channel that was
        already out is put back, watching nothing but the flags nobody can switch off. */
    method DisableAll(p: EPollPoller)
      requires p.Knows(this)
      modifies this, p
      ensures p.Knows(this) && IsNoneEvent() && index != New && p.channels == old(p.channels)[fd := this]
      ensures (fd in p.kernel <==> old(fd !in p.kernel)) && p.OthersKept(fd)
      ensures p.kernel == if index == Added then old(p.kernel)[fd := Interest({}, this)] else old(p.kernel) - {fd}
    {
      SetEvents({}, p);
    }

    method Remove(p: EPollPoller)
      requires p.Knows(this) && IsNoneEvent() && index != New
      modifies this, p
      ensures p.Knows(this) && index == New && !addedToLoop && IsNoneEvent()
      ensures p.channels == old(p.channels) - {fd} && p.kernel == old(p.kernel) - {fd} && p.OthersKept(fd)
    {
      addedToLoop := false;
      p.RemoveChannel(this);
    }
  }

  /** The map has `ch` if and only if its index says so; a new channel watches nothing. */
  ghost predicate KnownIn(channels: map<int, Channel>, ch: Channel)
    reads ch
  {
    if ch.index == New then ch.fd !in channels && ch.events == {} && !ch.addedToLoop
    else ch.fd in channels && channels[ch.fd] == ch
  }

  class EPollPoller {
    var channels: map<int, Channel>
    var kernel: map<int, Interest>

    /** The map, the index of the channel and the kernel's table say the same about `fd`. */
    ghost predicate AgreesOn(fd: int)
      requires fd in channels
      reads this, channels.Values
    {
      var ch := channels[fd];
      && ch.fd == fd && ch.index != New && ch.addedToLoop
      && (ch.index == Added <==> fd in kernel)
      && (fd in kernel ==> kernel[fd] == Interest(ch.events, ch))
      && (ch.index == Deleted ==> ch.events == {})
    }

    /** The kernel's table holds exactly the added channels, each with its own mask, and the map
        holds exactly the added and the deleted ones. */
    ghost predicate Valid()
      reads this, channels.Values
    {
      kernel.Keys <= channels.Keys && forall fd :: fd in channels ==> AgreesOn(fd)
    }

    /** And `ch` is in the map if and only if its index says so. */
    ghost predicate Knows(ch: Channel)
      reads this, channels.Values, ch
    {
      Valid() && KnownIn(channels, ch)
    }

    /** Apart from `fd`, nothing has changed in either table. */
    twostate predicate OthersKept(fd: int)
      reads this
    {
      channels - {fd} == old(channels) - {fd} && kernel - {fd} == old(kernel) - {fd}
    }

    /** So a channel with another descriptor is still known: `was` is the map before the change. */
    lemma KeptIsKnown(was: map<int, Channel>, fd: int, ch: Channel)
      requires Valid() && channels - {fd} == was - {fd} && ch.fd != fd
      requires KnownIn(was, ch)
      ensures Knows(ch)
    {
      assert ch.fd in channels <==> ch.fd in channels - {fd};
      assert ch.fd in was <==> ch.fd in was - {fd};
      assert ch.fd in channels ==> channels[ch.fd] == (channels - {fd})[ch.fd] == was[ch.fd];
    }

    constructor ()
      ensures Valid() && channels == map[] && kernel == map[]
    {
      channels, kernel := map[], map[];
    }

    /** `epoll_ctl`.  It fails on adding a descriptor that is there and on changing one that is
        not. */
    method Control(op: Operation, ch: Channel) returns (ok: bool)
      modifies this`kernel
      ensures ok <==> (op == Add <==> ch.fd !in old(kernel))
      ensures !ok ==> kernel == old(kernel)
      ensures ok ==> kernel == if op == Del then old(kernel) - {ch.fd} else old(kernel)[ch.fd := Interest(ch.events, ch)]
    {
      ok := (op == Add) == (ch.fd !in kernel);
      if ok {
        kernel := if op == Del then kernel - {ch.fd} else kernel[ch.fd := Interest(ch.events, ch)];
      }
    }

    /** Called when the mask of `ch` may be ahead of the kernel's table; everything else agrees.
        No call to `epoll_ctl` fails. */
    method UpdateChannel(ch: Channel)
      requires kernel.Keys <= channels.Keys && ch.addedToLoop
      requires forall fd :: fd in channels && fd != ch.fd ==> AgreesOn(fd)
      requires if ch.index == New then ch.fd !in channels else
        ch.fd in channels && channels[ch.fd] == ch && (ch.index == Added <==> ch.fd in kernel)
      modifies this, ch`index
      ensures Knows(ch) && ch.index == NextIndex(old(ch.index), ch.events)
      ensures channels == old(channels)[ch.fd := ch]
      ensures kernel == if ch.index == Added then old(kernel)[ch.fd := Interest(ch.events, ch)] else old(kernel) - {ch.fd}
    {
      ghost var was := channels;
      assert forall fd :: fd in channels && fd != ch.fd ==> channels[fd] != ch;
      var ok;
      if ch.index == New || ch.index == Deleted {
        if ch.index == New {
          channels := channels[ch.fd := ch];
        }
        ok := Control(Add, ch);
        ch.index := Added;
      } else if ch.IsNoneEvent() {
        ok := Control(Del, ch);
        ch.index := Deleted;
      } else {
        ok := Control(Mod, ch);
      }
      assert ok;
      forall fd | fd in channels && fd != ch.fd
        ensures AgreesOn(fd)
      {
        assert channels[fd] == was[fd] && was[fd] != ch;
      }
    }

    method RemoveChannel(ch: Channel)
      requires kernel.Keys <= channels.Keys && ch.IsNoneEvent() && !ch.addedToLoop
      requires forall fd :: fd in channels && fd != ch.fd ==> AgreesOn(fd)
      requires ch.fd in channels && channels[ch.fd] == ch && (ch.index == Added <==> ch.fd in kernel)
      modifies this, ch`index
      ensures Knows(ch) && ch.index == New
      ensures channels == old(channels) - {ch.fd} && kernel == old(kernel) - {ch.fd}
    {
      ghost var was := channels;
      assert forall fd :: fd in channels && fd != ch.fd ==> channels[fd] != ch;
      if ch.index == Added {
        var ok := Control(Del, ch);
        assert ok;
      }
      channels := channels - {ch.fd};
      ch.index := New;
      assert forall fd :: fd in channels ==> channels[fd] == was[fd] && AgreesOn(fd);
    }

    method HasChannel(ch: Channel) returns (has: bool)
      requires Knows(ch)
      ensures has <==> ch.index != New
    {
      has := ch.fd in channels && channels[ch.fd] == ch;
    }

    /** What `epoll_wait` may report: each watched descriptor at most once, with the pointer that
        was registered and with flags that were asked for or that are always reported. */
    ghost predicate Reportable(ready: seq<Ready>)
      reads this
    {
      && (forall i :: 0 <= i < |ready| ==>
            ready[i].fd in kernel && ready[i].channel == kernel[ready[i].fd].channel &&
            ready[i].flags <= kernel[ready[i].fd].mask + ALWAYS)
      && (forall i, j :: 0 <= i < j < |ready| ==> ready[i].fd != ready[j].fd)
    }

    /** The active list names, in the order reported, registered channels, each once and each
        holding what was reported for its own descriptor. */
    method FillActiveChannels(ready: seq<Ready>) returns (active: seq<Channel>)
      requires Valid() && Reportable(ready)
      modifies channels.Values`revents
      ensures Valid() && |active| == |ready|
      ensures forall i :: 0 <= i < |active| ==>
        active[i].fd == ready[i].fd && active[i].index == Added && active[i].revents == ready[i].flags
      ensures forall i, j :: 0 <= i < j < |active| ==> active[i] != active[j]
    {
      active := [];
      assert forall i :: 0 <= i < |ready| ==> AgreesOn(ready[i].fd);
      var i := 0;
      while i < |ready|
        invariant i <= |ready| && |active| == i
        invariant forall k :: 0 <= k < i ==> active[k] == ready[k].channel && active[k].revents == ready[k].flags
      {
        assert ready[i].channel in channels.Values by { assert channels[ready[i].fd] == ready[i].channel; }
        ready[i].channel.revents := ready[i].flags;
        active := active + [ready[i].channel];
        i := i + 1;
      }
    }
  }

  // ----- dispatch

  datatype Callback = OnClose | OnError | OnRead | OnWrite

  /** The callbacks `handleEventWithGuard` makes for what was reported, in order. */
  function Dispatch(revents: set<Flag>): seq<Callback> {
    (if Hup in revents && In !in revents then [OnClose] else [])
    + (if Err in revents then [OnError] else [])
    + (if revents * {In, Pri, RdHup} != {} then [OnRead] else [])
    + (if Out in revents then [OnWrite] else [])
  }

  /** Each callback is made exactly for its flags: closing for a hang-up without readable data, the
      error callback for an error, reading for data, priority data or a half-close, writing for
      writability. */
  lemma DispatchIff(revents: set<Flag>)
    ensures OnClose in Dispatch(revents) <==> Hup in revents && In !in revents
    ensures OnError in Dispatch(revents) <==> Err in revents
    ensures OnRead in Dispatch(revents) <==> In in revents || Pri in revents || RdHup in revents
    ensures OnWrite in Dispatch(revents) <==> Out in revents
  {
    assert In in revents ==> In in revents * {In, Pri, RdHup};
    assert Pri in revents ==> Pri in revents * {In, Pri, RdHup};
    assert RdHup in revents ==> RdHup in revents * {In, Pri, RdHup};
  }

  function Turn(cb: Callback): nat {
    match cb case OnClose => 0 case OnError => 1 case OnRead => 2 case OnWrite => 3
  }

  /** Each at most once, in the order close, error, read, write. */
  lemma DispatchInOrder(revents: set<Flag>)
    ensures forall i, j :: 0 <= i < j < |Dispatch(revents)| ==> Turn(Dispatch(revents)[i]) < Turn(Dispatch(revents)[j])
  {
  }

  /** The callbacks that can close a connection are both made only when a hang-up comes with
      priority data or a half-close but without readable data. */
  lemma TwoClosersIff(revents: set<Flag>)
    ensures (OnClose in Dispatch(revents) && OnRead in Dispatch(revents)) <==>
            (Hup in revents && In !in revents && (Pri in revents || RdHup in revents))
  {
    DispatchIff(revents);
  }
}
