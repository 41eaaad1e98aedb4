/** networking/poller: the two pollers keep, each in its own layout, which events of which descriptor the kernel
    is asked for. */
module Pollers {

  // ----- What a poller is asked to keep -----

  /** Not asked for at all, or watched for the events of a mask. A watched descriptor is reported on errors and
      hang-ups even with an empty mask. */
  datatype Watch = Idle | Watching(mask: int)

  type Watches = map<int, Watch>

  const NONE_EVENT := 0

  /** An update in PollPoller: a new channel is watched whatever its events. */
  function PollUpdate(w: Watches, fd: int, events: int): Watches {
    w[fd := if fd in w && events == NONE_EVENT then Idle else Watching(events)]
  }

  /** An update in EPollPoller: so is one that was not watched before. */
  function EpollUpdate(w: Watches, fd: int, events: int): Watches {
    w[fd := if fd in w && w[fd].Watching? && events == NONE_EVENT then Idle else Watching(events)]
  }

  datatype Op = Update(fd: int, events: int) | Remove(fd: int)

  function PollStep(w: Watches, op: Op): Watches {
    if op.Update? then PollUpdate(w, op.fd, op.events) else w - {op.fd}
  }

  function EpollStep(w: Watches, op: Op): Watches {
    if op.Update? then EpollUpdate(w, op.fd, op.events) else w - {op.fd}
  }

  function PollRun(w: Watches, ops: seq<Op>): Watches
    decreases |ops|
  {
    if ops == [] then w else PollRun(PollStep(w, ops[0]), ops[1..])
  }

  function EpollRun(w: Watches, ops: seq<Op>): Watches
    decreases |ops|
  {
    if ops == [] then w else EpollRun(EpollStep(w, ops[0]), ops[1..])
  }

  /** Disabling a channel that is disabled already. */
  predicate Redundant(w: Watches, op: Op) {
    op.Update? && op.fd in w && w[op.fd].Idle? && op.events == 0
  }

  predicate NeverRedundant(w: Watches, ops: seq<Op>)
    decreases |ops|
  {
    ops == [] || (!Redundant(w, ops[0]) && NeverRedundant(PollStep(w, ops[0]), ops[1..]))
  }

  /** The two pollers do the same with a change exactly unless it is redundant: then PollPoller still ignores the
      descriptor, but EPollPoller adds it again with an empty mask. */
  lemma StepsAgree(w: Watches, op: Op)
    ensures PollStep(w, op) == EpollStep(w, op) <==> !Redundant(w, op)
  {
    if op.Update? {
      assert PollUpdate(w, op.fd, op.events)[op.fd].Idle? == (op.fd in w && op.events == NONE_EVENT);
    }
  }

  predicate AgreeAfter(w: Watches, ops: seq<Op>, k: nat)
    requires k <= |ops|
  {
    PollRun(w, ops[..k]) == EpollRun(w, ops[..k])
  }

  lemma AgreeLater(w: Watches, ops: seq<Op>, k: nat)
    requires k < |ops| && PollStep(w, ops[0]) == EpollStep(w, ops[0])
    ensures AgreeAfter(w, ops, k + 1) <==> AgreeAfter(PollStep(w, ops[0]), ops[1..], k)
  {
    hide PollStep, EpollStep;
    assert ops[..k + 1][0] == ops[0] && ops[..k + 1][1..] == ops[1..][..k];
  }

  lemma PartNow(w: Watches, ops: seq<Op>)
    requires ops != [] && Redundant(w, ops[0])
    ensures !AgreeAfter(w, ops, 1)
  {
    StepsAgree(w, ops[0]);
    hide PollStep, EpollStep;
    assert ops[..1][0] == ops[0] && ops[..1][1..] == [];
    assert PollRun(w, ops[..1]) == PollRun(PollStep(w, ops[0]), []) == PollStep(w, ops[0]);
    assert EpollRun(w, ops[..1]) == EpollRun(EpollStep(w, ops[0]), []) == EpollStep(w, ops[0]);
  }

  /** They agree after every step of a run if and only if none of its changes is redundant. */
  lemma {:induction false} RunsAgree(w: Watches, ops: seq<Op>)
    ensures (forall k :: 0 <= k <= |ops| ==> AgreeAfter(w, ops, k)) <==> NeverRedundant(w, ops)
    decreases |ops|
  {
    assert AgreeAfter(w, ops, 0);
    if ops != [] {
      hide PollStep, EpollStep, AgreeAfter, Redundant;
      if Redundant(w, ops[0]) {
        PartNow(w, ops);
      } else {
        var w1, rest := PollStep(w, ops[0]), ops[1..];
        StepsAgree(w, ops[0]);
        RunsAgree(w1, rest);
        forall k | 0 <= k <= |rest| ensures AgreeAfter(w, ops, k + 1) <==> AgreeAfter(w1, rest, k) {
          AgreeLater(w, ops, k);
        }
        if NeverRedundant(w1, rest) {
          forall k | 0 <= k <= |ops| ensures AgreeAfter(w, ops, k) {
            if k > 0 { assert AgreeAfter(w1, rest, k - 1); }
          }
        } else {
          var k :| 0 <= k <= |rest| && !AgreeAfter(w1, rest, k);
          assert !AgreeAfter(w, ops, k + 1);
        }
      }
    }
  }

  // ----- When they agree at the end -----

  /** How often each registered channel was disabled since it last asked for something, or was registered. */
  function StreakStep(m: map<int, nat>, op: Op): map<int, nat> {
    if op.Remove? then m - {op.fd}
    else m[op.fd := if op.fd in m && op.events == 0 then m[op.fd] + 1 else 0]
  }

  function Streaks(m: map<int, nat>, ops: seq<Op>): map<int, nat>
    decreases |ops|
  {
    if ops == [] then m else Streaks(StreakStep(m, ops[0]), ops[1..])
  }

  /** PollPoller ignores a channel once it was disabled, EPollPoller after an odd number of times. */
  predicate Follows(v: Watches, w: Watches, m: map<int, nat>) {
    && v.Keys == w.Keys == m.Keys
    && forall fd :: fd in m ==>
         && (v[fd].Idle? <==> m[fd] > 0)
         && (w[fd].Idle? <==> m[fd] % 2 == 1)
         && (m[fd] == 0 ==> v[fd] == w[fd])
  }

  lemma FollowsStep(v: Watches, w: Watches, m: map<int, nat>, op: Op)
    requires Follows(v, w, m)
    ensures Follows(PollStep(v, op), EpollStep(w, op), StreakStep(m, op))
  {
    if op.Update? && op.fd in m { OddEven(m[op.fd]); }
  }

  lemma OddEven(n: nat)
    ensures (n + 1) % 2 == 1 <==> n % 2 == 0
  {
  }

  lemma {:induction false} FollowsRun(v: Watches, w: Watches, m: map<int, nat>, ops: seq<Op>)
    requires Follows(v, w, m)
    ensures Follows(PollRun(v, ops), EpollRun(w, ops), Streaks(m, ops))
    decreases |ops|
  {
    hide PollStep, EpollStep, StreakStep, Follows;
    if ops != [] {
      FollowsStep(v, w, m, ops[0]);
      FollowsRun(PollStep(v, ops[0]), EpollStep(w, ops[0]), StreakStep(m, ops[0]), ops[1..]);
    }
  }

  /** No registered channel was last disabled an even number of times in a row. */
  predicate NoEvenStreak(ops: seq<Op>) {
    var m := Streaks(map[], ops);
    forall fd :: fd in m ==> m[fd] == 0 || m[fd] % 2 == 1
  }

  /** They agree at the end of a run if and only if no registered channel ends with an even streak of disables. */
  lemma EndsAgree(ops: seq<Op>)
    ensures PollRun(map[], ops) == EpollRun(map[], ops) <==> NoEvenStreak(ops)
  {
    hide PollRun, EpollRun, Streaks;
    FollowsRun(map[], map[], map[], ops);
    var v, w, m := PollRun(map[], ops), EpollRun(map[], ops), Streaks(map[], ops);
    if NoEvenStreak(ops) {
      forall fd | fd in v ensures v[fd] == w[fd] {
        assert fd in m;
      }
    } else {
      var fd :| fd in m && !(m[fd] == 0 || m[fd] % 2 == 1);
      assert v[fd] != w[fd];
    }
  }

  /** The shortest run on which they part: register, disable, disable again. */
  lemma DisabledTwice(fd: int)
    ensures var ops := [Update(fd, 1), Update(fd, 0), Update(fd, 0)];
            PollRun(map[], ops) == map[fd := Idle] && EpollRun(map[], ops) == map[fd := Watching(0)]
  {
    var ops := [Update(fd, 1), Update(fd, NONE_EVENT), Update(fd, NONE_EVENT)];
    var p1 := PollUpdate(map[], fd, 1);
    var p2 := PollUpdate(p1, fd, NONE_EVENT);
    var e1 := EpollUpdate(map[], fd, 1);
    var e2 := EpollUpdate(e1, fd, NONE_EVENT);
    var rest1, rest2 := [Update(fd, NONE_EVENT), Update(fd, NONE_EVENT)], [Update(fd, NONE_EVENT)];
    assert ops[1..] == rest1 && rest1[1..] == rest2 && rest2[1..] == [];
    assert PollRun(p2, rest2) == PollUpdate(p2, fd, NONE_EVENT);
    assert EpollRun(e2, rest2) == EpollUpdate(e2, fd, NONE_EVENT);
    assert PollRun(p1, rest1) == PollRun(p2, rest2) && EpollRun(e1, rest1) == EpollRun(e2, rest2);
  }

  /** The events a descriptor is asked for, as one map that both pollers refine. */
  function Masks(w: Watches): map<int, int> {
    map fd | fd in w :: if w[fd].Watching? then w[fd].mask else NONE_EVENT
  }

  function MaskStep(m: map<int, int>, op: Op): map<int, int> {
    if op.Update? then m[op.fd := op.events] else m - {op.fd}
  }

  function MaskRun(m: map<int, int>, ops: seq<Op>): map<int, int>
    decreases |ops|
  {
    if ops == [] then m else MaskRun(MaskStep(m, ops[0]), ops[1..])
  }

  lemma StepMasks(w: Watches, op: Op)
    ensures Masks(PollStep(w, op)) == MaskStep(Masks(w), op) == Masks(EpollStep(w, op))
    ensures op.fd in w && w[op.fd].Idle? ==> op.fd in Masks(w) && Masks(w)[op.fd] == NONE_EVENT
  {
    assert Masks(PollStep(w, op)).Keys == MaskStep(Masks(w), op).Keys;
    assert Masks(EpollStep(w, op)).Keys == MaskStep(Masks(w), op).Keys;
  }

  /** For every sequence of changes and removals, both pollers ask the kernel for exactly the last events of
      every registered channel. */
  lemma {:induction false} BothRefineMasks(v: Watches, w: Watches, ops: seq<Op>)
    requires Masks(v) == Masks(w)
    ensures Masks(PollRun(v, ops)) == MaskRun(Masks(w), ops) == Masks(EpollRun(w, ops))
    decreases |ops|
  {
    hide Masks, PollStep, EpollStep, MaskStep;
    if ops != [] {
      StepMasks(v, ops[0]);
      StepMasks(w, ops[0]);
      BothRefineMasks(PollStep(v, ops[0]), EpollStep(w, ops[0]), ops[1..]);
    }
  }

  // ----- Channels -----

  class Channel {
    const fd: int
    var events: int
    var revents: int
    var index: int

    constructor (fd: int)
      ensures this.fd == fd && events == NONE_EVENT && revents == 0 && index == -1
    {
      this.fd, events, revents, index := fd, NONE_EVENT, 0, -1;
    }
  }

  // ----- PollPoller -----

  datatype PollFd = PollFd(fd: int, events: int, revents: int)

  /** The descriptor of a slot: an ignored one is stored as -fd - 1. */
  function SlotFd(p: PollFd): int {
    if p.fd < 0 then -p.fd - 1 else p.fd
  }

  function SlotWatch(p: PollFd): Watch {
    if p.fd < 0 then Idle else Watching(p.events)
  }

  /** The descriptors of the first n slots on which something happened, in order. */
  function ReadyFds(slots: seq<PollFd>, n: nat): seq<int>
    requires n <= |slots|
  {
    if n == 0 then []
    else ReadyFds(slots, n - 1) + (if slots[n - 1].revents > 0 then [slots[n - 1].fd] else [])
  }

  lemma {:induction false} ReadyPrefix(slots: seq<PollFd>, m: nat, n: nat)
    requires m <= n <= |slots|
    ensures ReadyFds(slots, m) <= ReadyFds(slots, n)
    decreases n
  {
    if m < n { ReadyPrefix(slots, m, n - 1); }
  }

  /** A slot is reported, right after those before it, exactly when something happened on it. */
  lemma ReadyAreExact(slots: seq<PollFd>, i: nat, n: nat)
    requires i < n <= |slots|
    ensures if slots[i].revents > 0 then ReadyFds(slots, i) + [slots[i].fd] <= ReadyFds(slots, n)
            else i + 1 == n ==> ReadyFds(slots, i) == ReadyFds(slots, n)
  {
    ReadyPrefix(slots, i + 1, n);
  }

  /** The slots given to poll, and the index each registered channel holds, by descriptor. */
  datatype Table = Table(slots: seq<PollFd>, index: map<int, int>)

  /** Slots and channels are in one-to-one correspondence, through the channel's index one way and through the
      slot's descriptor the other. */
  predicate Consistent(t: Table) {
    (forall fd :: fd in t.index ==> HasSlot(t, fd)) && (forall i :: 0 <= i < |t.slots| ==> HasChannel(t, i))
  }

  predicate HasSlot(t: Table, fd: int)
    requires fd in t.index
  {
    fd >= 0 && 0 <= t.index[fd] < |t.slots| && SlotFd(t.slots[t.index[fd]]) == fd
  }

  predicate HasChannel(t: Table, i: int)
    requires 0 <= i < |t.slots|
  {
    && SlotFd(t.slots[i]) in t.index && t.index[SlotFd(t.slots[i])] == i
    && (t.slots[i].fd < 0 ==> t.slots[i].events == NONE_EVENT)
  }

  function WatchesOf(t: Table): Watches
    requires Consistent(t)
  {
    map fd | fd in t.index :: assert HasSlot(t, fd); SlotWatch(t.slots[t.index[fd]])
  }

  function AddSlot(t: Table, fd: int, events: int): Table {
    Table(t.slots + [PollFd(fd, events, 0)], t.index[fd := |t.slots|])
  }

  function SetSlot(t: Table, fd: int, events: int): Table
    requires Consistent(t) && fd in t.index
  {
    assert HasSlot(t, fd);
    t.(slots := t.slots[t.index[fd] := PollFd(if events == NONE_EVENT then -fd - 1 else fd, events, 0)])
  }

  /** The slot is filled with the last one, whose channel learns its new index. */
  function DropSlot(t: Table, fd: int): Table
    requires Consistent(t) && fd in t.index
  {
    assert HasSlot(t, fd);
    var last, idx, rest := |t.slots| - 1, t.index[fd], t.index - {fd};
    if idx == last then Table(t.slots[..last], rest)
    else Table(t.slots[idx := t.slots[last]][..last], rest[SlotFd(t.slots[last]) := idx])
  }

  lemma AddSlotWatches(t: Table, fd: int, events: int)
    requires Consistent(t) && fd >= 0 && fd !in t.index
    ensures Consistent(AddSlot(t, fd, events))
    ensures WatchesOf(AddSlot(t, fd, events)) == PollUpdate(WatchesOf(t), fd, events)
  {
    var t' := AddSlot(t, fd, events);
    forall f | f in t'.index ensures HasSlot(t', f) {
      if f != fd { assert HasSlot(t, f); }
    }
    forall i | 0 <= i < |t'.slots| ensures HasChannel(t', i) {
      if i < |t.slots| { assert HasChannel(t, i); }
    }
    SameWatches(t', PollUpdate(WatchesOf(t), fd, events));
  }

  lemma SetSlotWatches(t: Table, fd: int, events: int)
    requires Consistent(t) && fd in t.index
    ensures Consistent(SetSlot(t, fd, events))
    ensures WatchesOf(SetSlot(t, fd, events)) == PollUpdate(WatchesOf(t), fd, events)
  {
    var t' := SetSlot(t, fd, events);
    assert HasSlot(t, fd);
    forall f | f in t'.index ensures HasSlot(t', f) {
      assert HasSlot(t, f);
    }
    forall i | 0 <= i < |t'.slots| ensures HasChannel(t', i) {
      assert HasChannel(t, i);
    }
    SameWatches(t', PollUpdate(WatchesOf(t), fd, events));
  }

  /** Removal forgets the one descriptor: the channel that was moved keeps its slot and what it is watched for. */
  lemma DropSlotWatches(t: Table, fd: int)
    requires Consistent(t) && fd in t.index
    ensures Consistent(DropSlot(t, fd))
    ensures WatchesOf(DropSlot(t, fd)) == WatchesOf(t) - {fd}
  {
    DropSlotConsistent(t, fd);
    var t' := DropSlot(t, fd);
    assert HasSlot(t, fd) && HasChannel(t, |t.slots| - 1);
    forall f | f in t'.index ensures WatchesOf(t')[f] == WatchesOf(t)[f] {
      assert HasSlot(t, f) && HasSlot(t', f);
      assert HasChannel(t, t.index[f]);
    }
    SameWatches(t', WatchesOf(t) - {fd});
  }

  lemma SlotsOf(t: Table, fd: int)
    requires Consistent(t) && fd in t.index
    ensures HasSlot(t, fd)
  {
  }

  lemma ChannelsOf(t: Table, i: int)
    requires Consistent(t) && 0 <= i < |t.slots|
    ensures HasChannel(t, i)
  {
  }

  lemma DropSlotConsistent(t: Table, fd: int)
    requires Consistent(t) && fd in t.index
    ensures Consistent(DropSlot(t, fd)) && DropSlot(t, fd).index.Keys == t.index.Keys - {fd}
  {
    var t' := DropSlot(t, fd);
    assert HasSlot(t, fd) && HasChannel(t, |t.slots| - 1);
    forall f | f in t'.index ensures HasSlot(t', f) {
      assert HasSlot(t, f);
    }
    forall i | 0 <= i < |t'.slots| ensures HasChannel(t', i) {
      assert HasChannel(t, i);
    }
  }

  lemma SameWatches(t: Table, w: Watches)
    requires Consistent(t) && t.index.Keys == w.Keys
    requires forall fd :: fd in w ==> w[fd] == WatchesOf(t)[fd]
    ensures WatchesOf(t) == w
  {
    var v := WatchesOf(t);
    assert v.Keys == w.Keys;
    forall fd | fd in v ensures v[fd] == w[fd] {
      assert fd in w;
    }
  }

  class PollPoller {
    var pollfds: seq<PollFd>
    var channels: map<int, Channel>

    ghost function View(): Table
      reads this, channels.Values`index
    {
      Table(pollfds, map fd | fd in channels :: channels[fd].index)
    }

    ghost predicate Valid()
      reads this, channels.Values`index
    {
      (forall fd :: fd in channels ==> channels[fd].fd == fd) && Consistent(View())
    }

    constructor ()
      ensures Valid() && WatchesOf(View()) == map[] && channels == map[]
    {
      pollfds, channels := [], map[];
    }

    /** A channel with a negative index is new; any other is the one registered for its descriptor. */
    method UpdateChannel(channel: Channel)
      requires Valid() && channel.fd >= 0
      requires if channel.index < 0 then channel.fd !in channels
               else channel.fd in channels && channels[channel.fd] == channel
      modifies this, channel`index
      ensures Valid() && channels == old(channels)[channel.fd := channel]
      ensures WatchesOf(View()) == PollUpdate(WatchesOf(old(View())), channel.fd, channel.events)
    {
      if channel.index < 0 {
        AddChannel(channel);
      } else {
        SetChannel(channel);
      }
    }

    method AddChannel(channel: Channel)
      requires Valid() && channel.fd >= 0 && channel.fd !in channels
      modifies this, channel`index
      ensures Valid() && channels == old(channels)[channel.fd := channel]
      ensures WatchesOf(View()) == PollUpdate(WatchesOf(old(View())), channel.fd, channel.events)
    {
      ghost var t := View();
      AddSlotWatches(t, channel.fd, channel.events);
      hide Consistent, WatchesOf;
      assert forall fd :: fd in channels ==> channels[fd] != channel;
      pollfds := pollfds + [PollFd(channel.fd, channel.events, 0)];
      channel.index := |pollfds| - 1;
      channels := channels[channel.fd := channel];
      assert View().index == AddSlot(t, channel.fd, channel.events).index;
    }

    method SetChannel(channel: Channel)
      requires Valid() && channel.fd in channels && channels[channel.fd] == channel
      modifies this
      ensures Valid() && channels == old(channels)
      ensures WatchesOf(View()) == PollUpdate(WatchesOf(old(View())), channel.fd, channel.events)
    {
      ghost var t := View();
      SetSlotWatches(t, channel.fd, channel.events);
      SlotsOf(t, channel.fd);
      hide Consistent, WatchesOf;
      var pfd := PollFd(channel.fd, channel.events, 0);
      if channel.events == NONE_EVENT {
        pfd := pfd.(fd := -channel.fd - 1);
      }
      pollfds := pollfds[channel.index := pfd];
      assert View() == SetSlot(t, channel.fd, channel.events);
    }

    /** The removed channel keeps its index, so it cannot be registered with this poller again. */
    method RemoveChannel(channel: Channel)
      requires Valid() && channel.fd in channels && channels[channel.fd] == channel
      requires channel.events == NONE_EVENT && WatchesOf(View())[channel.fd].Idle?
      modifies this, channels.Values`index
      ensures channels == old(channels) - {channel.fd} && channel.index == old(channel.index)
      ensures Valid() && WatchesOf(View()) == WatchesOf(old(View())) - {channel.fd}
    {
      ghost var t := View();
      DropSlotWatches(t, channel.fd);
      SlotsOf(t, channel.fd);
      ChannelsOf(t, |pollfds| - 1);
      assert 0 <= channel.index < |pollfds| && SlotFd(pollfds[|pollfds| - 1]) in channels;
      assert t.index[SlotFd(pollfds[|pollfds| - 1])] == |pollfds| - 1;
      hide Consistent, WatchesOf, HasSlot, HasChannel;
      var idx, last := channel.index, |pollfds| - 1;
      channels := channels - {channel.fd};
      if idx == last {
        pollfds := pollfds[..last];
        assert View().index == t.index - {channel.fd};
      } else {
        var channelAtEnd := pollfds[last].fd;
        if channelAtEnd < 0 {
          channelAtEnd := -channelAtEnd - 1;
        }
        pollfds := pollfds[idx := pollfds[last]][..last];
        assert View().index == t.index - {channel.fd};
        SetIndex(channels[channelAtEnd], idx);
      }
    }

    /** The events every registered channel asks for. */
    ghost function Events(): map<int, int>
      reads this, channels.Values
    {
      map fd | fd in channels :: channels[fd].events
    }

    /** A change of interest or a removal, as the owner of the channel asks for it. */
    method Perform(op: Op)
      requires Valid()
      requires if op.Update? then op.fd >= 0
               else op.fd in channels && channels[op.fd].events == NONE_EVENT && WatchesOf(View())[op.fd].Idle?
      modifies this, channels.Values
      ensures Valid() && WatchesOf(View()) == PollStep(WatchesOf(old(View())), op)
      ensures Events() == MaskStep(old(Events()), op)
      ensures forall c :: c in channels.Values ==> c in old(channels.Values) || fresh(c)
    {
      hide Consistent, WatchesOf, PollUpdate;
      if op.Remove? {
        RemoveChannel(channels[op.fd]);
        assert Events() == old(Events()) - {op.fd};
      } else if op.fd in channels {
        Change(op.fd, op.events);
      } else {
        Register(op.fd, op.events);
      }
    }

    method Register(fd: int, events: int)
      requires Valid() && fd >= 0 && fd !in channels
      modifies this
      ensures Valid() && WatchesOf(View()) == PollUpdate(WatchesOf(old(View())), fd, events)
      ensures Events() == old(Events())[fd := events]
      ensures fd in channels && fresh(channels[fd]) && channels.Values <= old(channels.Values) + {channels[fd]}
    {
      hide Consistent, WatchesOf, PollUpdate;
      var channel := new Channel(fd);
      channel.events := events;
      UpdateChannel(channel);
      assert Events() == old(Events())[fd := events];
    }

    method Change(fd: int, events: int)
      requires Valid() && fd in channels
      modifies this, channels[fd]
      ensures Valid() && channels == old(channels)
      ensures WatchesOf(View()) == PollUpdate(WatchesOf(old(View())), fd, events)
      ensures Events() == old(Events())[fd := events]
    {
      hide Consistent, WatchesOf, PollUpdate;
      var channel := channels[fd];
      assert forall f :: f in channels && f != fd ==> channels[f].fd == f && channels[f] != channel;
      channel.events := events;
      UpdateRegistered(channel);
      assert Events() == old(Events())[fd := events];
    }

    method UpdateRegistered(channel: Channel)
      requires Valid() && channel.fd in channels && channels[channel.fd] == channel
      modifies this, channel`index
      ensures Valid() && channels == old(channels)
      ensures WatchesOf(View()) == PollUpdate(WatchesOf(old(View())), channel.fd, channel.events)
    {
      SlotsOf(View(), channel.fd);
      UpdateChannel(channel);
      assert channels == old(channels);
    }

    method SetIndex(channel: Channel, idx: int)
      requires channel in channels.Values && forall f :: f in channels ==> channels[f].fd == f
      modifies channel`index
      ensures View() == Table(pollfds, old(View()).index[channel.fd := idx])
    {
      channel.index := idx;
      assert forall f :: f in channels && f != channel.fd ==> channels[f] != channel;
      assert View().index == old(View()).index[channel.fd := idx];
    }

    /** Every slot on which something happened is answered by its own channel, in slot order, up to the number of
        events, and those channels alone learn what happened. The kernel reports nothing on an ignored slot. */
    method FillActiveChannels(numEvents: nat) returns (active: seq<Channel>)
      requires Valid()
      requires forall i :: 0 <= i < |pollfds| && pollfds[i].fd < 0 ==> pollfds[i].revents == 0
      modifies channels.Values`revents
      ensures Valid() && View() == old(View())
      ensures var ready := ReadyFds(pollfds, |pollfds|);
              && |active| == (if numEvents < |ready| then numEvents else |ready|)
              && (forall k :: 0 <= k < |active| ==> ready[k] in channels && active[k] == channels[ready[k]])
      ensures forall fd :: fd in channels ==>
                && 0 <= channels[fd].index < |pollfds|
                && channels[fd].revents == if channels[fd] in active then pollfds[channels[fd].index].revents
                                           else old(channels[fd].revents)
    {
      ghost var t := View();
      assert InRange() by { assert forall fd :: fd in channels ==> HasSlot(t, fd); }
      hide Consistent, HasSlot;
      active := [];
      var i, left := 0, numEvents;
      while i < |pollfds| && left > 0
        invariant 0 <= i <= |pollfds| && left == numEvents - |active|
        invariant |ReadyFds(pollfds, i)| == |active|
        invariant forall k :: 0 <= k < |active| ==> Answers(active[k], ReadyFds(pollfds, i)[k], i)
        invariant forall fd :: fd in channels ==>
                    channels[fd].revents == if channels[fd] in active then pollfds[channels[fd].index].revents
                                            else old(channels[fd].revents)
      {
        if pollfds[i].revents > 0 {
          left := left - 1;
          ChannelsOf(t, i);
          var channel := channels[pollfds[i].fd];
          channel.revents := pollfds[i].revents;
          active := active + [channel];
        }
        i := i + 1;
      }
      ReadyPrefix(pollfds, i, |pollfds|);
    }

    ghost predicate InRange()
      reads this, channels.Values`index
    {
      forall fd :: fd in channels ==> 0 <= channels[fd].index < |pollfds|
    }

    ghost predicate Answers(channel: Channel, fd: int, n: int)
      reads this, channel`index
    {
      fd in channels && channels[fd] == channel && 0 <= channel.index < n
    }
  }

  // ----- EPollPoller -----

  const K_NEW := -1
  const K_ADDED := 1
  const K_DELETED := 2

  /** What the registered descriptors are watched for, given what the kernel was told. */
  function KernelWatches(fds: set<int>, kernel: map<int, int>): Watches {
    map fd | fd in fds :: if fd in kernel then Watching(kernel[fd]) else Idle
  }

  lemma ToldToWatch(fds: set<int>, kernel: map<int, int>, fd: int, mask: int)
    ensures KernelWatches(fds + {fd}, kernel[fd := mask]) == KernelWatches(fds, kernel)[fd := Watching(mask)]
  {
    var w, v := KernelWatches(fds + {fd}, kernel[fd := mask]), KernelWatches(fds, kernel)[fd := Watching(mask)];
    assert w.Keys == v.Keys;
  }

  lemma ToldToIgnore(fds: set<int>, kernel: map<int, int>, fd: int)
    ensures fd in fds ==> KernelWatches(fds, kernel - {fd}) == KernelWatches(fds, kernel)[fd := Idle]
    ensures KernelWatches(fds - {fd}, kernel - {fd}) == KernelWatches(fds, kernel) - {fd}
  {
    assert fd in fds ==> KernelWatches(fds, kernel)[fd := Idle].Keys == fds;
    assert KernelWatches(fds - {fd}, kernel - {fd}).Keys == (KernelWatches(fds, kernel) - {fd}).Keys;
  }

  class EPollPoller {
    var channels: map<int, Channel>
    /** What the kernel has been told with epoll_ctl. */
    ghost var kernel: map<int, int>

    /** A registered channel says by its index whether the kernel knows its descriptor, and the kernel knows no
        other. */
    ghost predicate Valid()
      reads this, channels.Values`index
    {
      && (forall fd :: fd in channels ==>
            && channels[fd].fd == fd && (channels[fd].index == K_ADDED || channels[fd].index == K_DELETED)
            && (channels[fd].index == K_ADDED <==> fd in kernel))
      && kernel.Keys <= channels.Keys
    }

    ghost function View(): Watches
      reads this
    {
      KernelWatches(channels.Keys, kernel)
    }

    constructor ()
      ensures Valid() && View() == map[] && channels == map[]
    {
      channels, kernel := map[], map[];
    }

    /** epoll_ctl rejects adding what is there, and changing or deleting what is not: neither is ever asked. */
    method Control(operation: Operation, channel: Channel)
      requires operation == Add <==> channel.fd !in kernel
      modifies this`kernel
      ensures kernel == if operation == Delete then old(kernel) - {channel.fd}
                        else old(kernel)[channel.fd := channel.events]
    {
      if operation == Delete {
        kernel := kernel - {channel.fd};
      } else {
        kernel := kernel[channel.fd := channel.events];
      }
    }

    method UpdateChannel(channel: Channel)
      requires Valid()
      requires if channel.index == K_NEW then channel.fd !in channels
               else channel.fd in channels && channels[channel.fd] == channel
      modifies this, channel`index
      ensures Valid() && channels == old(channels)[channel.fd := channel]
      ensures View() == EpollUpdate(old(View()), channel.fd, channel.events)
    {
      var index := channel.index;
      if index == K_NEW || index == K_DELETED {
        AddChannel(channel);
      } else if channel.events == NONE_EVENT {
        IgnoreChannel(channel);
      } else {
        ToldToWatch(channels.Keys, kernel, channel.fd, channel.events);
        assert channels.Keys + {channel.fd} == channels.Keys;
        Control(Modify, channel);
      }
    }

    method AddChannel(channel: Channel)
      requires Valid()
      requires if channel.index == K_NEW then channel.fd !in channels
               else channel.index == K_DELETED && channel.fd in channels && channels[channel.fd] == channel
      modifies this, channel`index
      ensures Valid() && channels == old(channels)[channel.fd := channel]
      ensures View() == EpollUpdate(old(View()), channel.fd, channel.events)
    {
      ToldToWatch(channels.Keys, kernel, channel.fd, channel.events);
      hide KernelWatches;
      assert forall fd :: fd in channels && fd != channel.fd ==> channels[fd].fd == fd && channels[fd] != channel;
      assert channels[channel.fd := channel].Keys == channels.Keys + {channel.fd};
      if channel.index == K_NEW {
        channels := channels[channel.fd := channel];
      }
      channel.index := K_ADDED;
      Control(Add, channel);
    }

    method IgnoreChannel(channel: Channel)
      requires Valid() && channel.events == NONE_EVENT
      requires channel.index == K_ADDED && channel.fd in channels && channels[channel.fd] == channel
      modifies this, channel`index
      ensures Valid() && channels == old(channels)
      ensures View() == EpollUpdate(old(View()), channel.fd, channel.events)
    {
      ToldToIgnore(channels.Keys, kernel, channel.fd);
      hide KernelWatches;
      assert forall fd :: fd in channels && fd != channel.fd ==> channels[fd].fd == fd && channels[fd] != channel;
      Control(Delete, channel);
      channel.index := K_DELETED;
    }

    /** The events every registered channel asks for. */
    ghost function Events(): map<int, int>
      reads this, channels.Values
    {
      map fd | fd in channels :: channels[fd].events
    }

    /** A change of interest or a removal, as the owner of the channel asks for it. */
    method Perform(op: Op)
      requires Valid()
      requires op.Remove? ==> op.fd in channels && channels[op.fd].events == NONE_EVENT
      modifies this, channels.Values
      ensures Valid() && View() == EpollStep(old(View()), op)
      ensures Events() == MaskStep(old(Events()), op)
      ensures forall c :: c in channels.Values ==> c in old(channels.Values) || fresh(c)
    {
      hide KernelWatches;
      if op.Remove? {
        RemoveChannel(channels[op.fd]);
        assert Events() == old(Events()) - {op.fd};
      } else if op.fd in channels {
        var channel := channels[op.fd];
        assert forall fd :: fd in channels && fd != op.fd ==> channels[fd].fd == fd && channels[fd] != channel;
        channel.events := op.events;
        UpdateChannel(channel);
        assert channels == old(channels);
        assert Events() == old(Events())[op.fd := op.events];
      } else {
        var channel := new Channel(op.fd);
        channel.events := op.events;
        UpdateChannel(channel);
        assert Events() == old(Events())[op.fd := op.events];
      }
    }

    /** The removed channel is new again. */
    method RemoveChannel(channel: Channel)
      requires Valid() && channel.fd in channels && channels[channel.fd] == channel
      requires channel.events == NONE_EVENT
      modifies this, channel`index
      ensures channels == old(channels) - {channel.fd} && channel.index == K_NEW
      ensures Valid() && View() == old(View()) - {channel.fd}
    {
      ToldToIgnore(channels.Keys, kernel, channel.fd);
      channels := channels - {channel.fd};
      if channel.index == K_ADDED {
        Control(Delete, channel);
      }
      channel.index := K_NEW;
      assert channels.Keys == old(channels.Keys) - {channel.fd} && kernel == old(kernel) - {channel.fd};
    }
  }

  datatype Operation = Add | Modify | Delete

  // ----- Both pollers side by side -----

  /** Removals are of channels that were disabled after their registration, as both pollers assert. */
  predicate Drivable(w: Watches, ops: seq<Op>)
    decreases |ops|
  {
    ops == [] ||
    (&& (if ops[0].Update? then ops[0].fd >= 0 else ops[0].fd in w && w[ops[0].fd].Idle?)
     && Drivable(PollStep(w, ops[0]), ops[1..]))
  }

  /** The same seen from the events the channels ask for. */
  predicate MaskDrivable(m: map<int, int>, ops: seq<Op>)
    decreases |ops|
  {
    ops == [] ||
    (&& (ops[0].Remove? ==> ops[0].fd in m && m[ops[0].fd] == NONE_EVENT)
     && MaskDrivable(MaskStep(m, ops[0]), ops[1..]))
  }

  lemma {:induction false} DrivableMasks(w: Watches, ops: seq<Op>)
    requires Drivable(w, ops)
    ensures MaskDrivable(Masks(w), ops)
    decreases |ops|
  {
    hide Masks, PollStep, MaskStep;
    if ops != [] {
      StepMasks(w, ops[0]);
      DrivableMasks(PollStep(w, ops[0]), ops[1..]);
    }
  }

  method DrivePoll(ops: seq<Op>) returns (poll: PollPoller)
    requires Drivable(map[], ops) && MaskDrivable(map[], ops)
    ensures poll.Valid() && WatchesOf(poll.View()) == PollRun(map[], ops) && poll.Events() == MaskRun(map[], ops)
  {
    hide PollUpdate, WatchesOf, Consistent;
    poll := new PollPoller();
    var i := 0;
    while i < |ops|
      invariant 0 <= i <= |ops| && poll.Valid() && fresh(poll) && forall c :: c in poll.channels.Values ==> fresh(c)
      invariant Drivable(WatchesOf(poll.View()), ops[i..]) && MaskDrivable(poll.Events(), ops[i..])
      invariant PollRun(WatchesOf(poll.View()), ops[i..]) == PollRun(map[], ops)
      invariant MaskRun(poll.Events(), ops[i..]) == MaskRun(map[], ops)
    {
      assert ops[i..][1..] == ops[i + 1..];
      poll.Perform(ops[i]);
      i := i + 1;
    }
  }

  method DriveEpoll(ops: seq<Op>) returns (epoll: EPollPoller)
    requires MaskDrivable(map[], ops)
    ensures epoll.Valid() && epoll.View() == EpollRun(map[], ops) && epoll.Events() == MaskRun(map[], ops)
  {
    hide EpollUpdate, KernelWatches;
    epoll := new EPollPoller();
    var i := 0;
    while i < |ops|
      invariant 0 <= i <= |ops| && epoll.Valid() && fresh(epoll) && forall c :: c in epoll.channels.Values ==> fresh(c)
      invariant MaskDrivable(epoll.Events(), ops[i..])
      invariant EpollRun(epoll.View(), ops[i..]) == EpollRun(map[], ops)
      invariant MaskRun(epoll.Events(), ops[i..]) == MaskRun(map[], ops)
    {
      assert ops[i..][1..] == ops[i + 1..];
      epoll.Perform(ops[i]);
      i := i + 1;
    }
  }

  /** Whatever channels do, both pollers end up asking the kernel for exactly the last events of every channel
      that is registered, each in its own layout; and they watch the same descriptors if and only if no channel
      was last disabled an even number of times in a row. */
  method DriveBoth(ops: seq<Op>) returns (poll: PollPoller, epoll: EPollPoller)
    requires Drivable(map[], ops)
    ensures poll.Valid() && epoll.Valid()
    ensures Masks(WatchesOf(poll.View())) == MaskRun(map[], ops) == Masks(epoll.View())
    ensures poll.Events() == MaskRun(map[], ops) == epoll.Events()
    ensures WatchesOf(poll.View()) == epoll.View() <==> NoEvenStreak(ops)
  {
    hide Masks, NoEvenStreak, PollRun, EpollRun, MaskRun, Drivable, MaskDrivable;
    NothingMasked();
    DrivableMasks(map[], ops);
    poll := DrivePoll(ops);
    epoll := DriveEpoll(ops);
    BothRefineMasks(map[], map[], ops);
    EndsAgree(ops);
  }

  lemma NothingMasked()
    ensures Masks(map[]) == map[]
  {
  }
}
