/** The poller over the poll system call (polling.cpp, poll_poll) and the bookkeeping of the
    waiter in front of it (threadwait: add, remove, get_events). */
module Poller {

  const POLLREAD := 1
  const POLLERROR := 24

  /** Only valid descriptors are ever added. */
  type Descriptor = nat

  datatype PollFd = PollFd(fd: Descriptor, events: int, revents: int)

  /** The index map without one descriptor, when the entries behind index are moved up. */
  function Shifted(index: map<Descriptor, nat>, removed: nat): map<Descriptor, nat> {
    map fd | fd in index :: if index[fd] > removed then index[fd] - 1 else index[fd]
  }

  /** The index says, for exactly the descriptors in the vector, where they are: a bijection. */
  ghost predicate Indexes(index: map<Descriptor, nat>, fds: seq<PollFd>) {
    && (forall fd | fd in index :: index[fd] < |fds| && fds[index[fd]].fd == fd)
    && (forall i | 0 <= i < |fds| :: fds[i].fd in index && index[fds[i].fd] == i)
  }

  /** What the pair stands for. */
  ghost function EntriesOf(index: map<Descriptor, nat>, fds: seq<PollFd>): map<Descriptor, PollFd>
    requires Indexes(index, fds)
  {
    map fd | fd in index :: fds[index[fd]]
  }

  function Without<T>(s: seq<T>, i: nat): seq<T>
    requires i < |s|
  {
    s[..i] + s[i + 1..]
  }

  class PollPoll {
    var fds: seq<PollFd>
    var fdindex: map<Descriptor, nat>

    ghost predicate Valid()
      reads this
    {
      Indexes(fdindex, fds)
    }

    ghost function Entries(): map<Descriptor, PollFd>
      reads this
      requires Valid()
    {
      EntriesOf(fdindex, fds)
    }

    constructor ()
      ensures Valid() && Entries() == map[]
    {
      fds, fdindex := [], map[];
    }

    /** revents is whatever the uninitialised field holds until the next poll. Adding a
        descriptor twice, and nothing else, spoils the index. */
    method Add(fd: Descriptor, revents: int)
      requires Valid()
      modifies this
      ensures Valid() <==> fd !in old(Entries())
      ensures Valid() ==> Entries() == old(Entries())[fd := PollFd(fd, POLLREAD, revents)]
      ensures fdindex.Keys == old(fdindex.Keys) + {fd}
    {
      AddIndexes(fdindex, fds, PollFd(fd, POLLREAD, revents));
      fds := fds + [PollFd(fd, POLLREAD, revents)];
      fdindex := fdindex[fd := |fds| - 1];
    }

    /** Looking up a descriptor that is not there makes an entry for index 0. Removing such a
        descriptor, and nothing else, spoils the index. */
    method Remove(fd: Descriptor)
      requires Valid() && |fds| > 0
      modifies this
      ensures Valid() <==> fd in old(Entries())
      ensures Valid() ==> Entries() == old(Entries()) - {fd}
      ensures fdindex.Keys == old(fdindex.Keys) - {fd}
    {
      var index := if fd in fdindex then fdindex[fd] else 0;
      RemoveIndexes(fdindex, fds, fd);
      fdindex := fdindex - {fd};
      fds := Without(fds, index);
      ShiftAfter(index);
    }

    /** The loop of Remove. */
    method ShiftAfter(index: nat)
      modifies this`fdindex
      ensures fdindex == Shifted(old(fdindex), index)
    {
      ghost var before := fdindex;
      var todo := fdindex.Keys;
      while todo != {}
        invariant fdindex.Keys == before.Keys
        invariant todo <= before.Keys
        invariant forall fd | fd in todo :: fdindex[fd] == before[fd]
        invariant forall fd | fd in before.Keys - todo :: fdindex[fd] == Shifted(before, index)[fd]
      {
        var fd :| fd in todo;
        if fdindex[fd] > index {
          fdindex := fdindex[fd := fdindex[fd] - 1];
        }
        todo := todo - {fd};
      }
      assert forall fd | fd in fdindex :: fdindex[fd] == Shifted(before, index)[fd];
    }

    method GetEvents(fd: Descriptor) returns (events: int)
      requires Valid()
      ensures events == if fd in Entries() then Entries()[fd].revents else POLLERROR
    {
      if fd !in fdindex {
        return POLLERROR;
      }
      events := fds[fdindex[fd]].revents;
    }

    /** The system call fills in one report per entry. */
    method Poll(report: seq<int>)
      requires Valid() && |report| == |fds|
      modifies this`fds
      ensures Valid() && fdindex == old(fdindex)
      ensures Entries() == map fd | fd in old(Entries()) :: old(Entries())[fd].(revents := report[fdindex[fd]])
    {
      var entries := fds;
      fds := seq(|entries|, i requires 0 <= i < |entries| => entries[i].(revents := report[i]));
      assert forall fd | fd in Entries() :: Entries()[fd] == old(Entries())[fd].(revents := report[fdindex[fd]]);
    }
  }

  /** One more entry behind the others is indexed exactly when it is for a new descriptor. */
  lemma AddIndexes(index: map<Descriptor, nat>, fds: seq<PollFd>, entry: PollFd)
    requires Indexes(index, fds)
    ensures var index', fds' := index[entry.fd := |fds|], fds + [entry];
            && (Indexes(index', fds') <==> entry.fd !in index)
            && (Indexes(index', fds') ==> EntriesOf(index', fds') == EntriesOf(index, fds)[entry.fd := entry])
  {
    var index', fds' := index[entry.fd := |fds|], fds + [entry];
    if entry.fd in index {
      assert fds'[index[entry.fd]].fd == entry.fd;
    } else {
      var m, m' := EntriesOf(index', fds'), EntriesOf(index, fds)[entry.fd := entry];
      assert forall d | d in m :: m[d] == m'[d];
    }
  }

  /** Moving the later entries up keeps the others indexed, with what they hold, exactly when
      the descriptor had an entry. */
  lemma RemoveIndexes(index: map<Descriptor, nat>, fds: seq<PollFd>, fd: Descriptor)
    requires Indexes(index, fds) && |fds| > 0
    ensures var removed := if fd in index then index[fd] else 0;
            var index', fds' := Shifted(index - {fd}, removed), Without(fds, removed);
            && (Indexes(index', fds') <==> fd in index)
            && (fd in index ==> EntriesOf(index', fds') == EntriesOf(index, fds) - {fd})
  {
    if fd in index {
      PresentLeaves(index, fds, fd);
    } else {
      AbsentSpoils(index, fds, fd);
    }
  }

  lemma PresentLeaves(index: map<Descriptor, nat>, fds: seq<PollFd>, fd: Descriptor)
    requires Indexes(index, fds) && fd in index
    ensures var index', fds' := Shifted(index - {fd}, index[fd]), Without(fds, index[fd]);
            Indexes(index', fds') && EntriesOf(index', fds') == EntriesOf(index, fds) - {fd}
  {
    var removed := index[fd];
    var index', fds' := Shifted(index - {fd}, removed), Without(fds, removed);
    assert forall i | 0 <= i < |fds'| :: fds'[i] == fds[if i < removed then i else i + 1];
    var m, m' := EntriesOf(index', fds'), EntriesOf(index, fds) - {fd};
    assert m.Keys == m'.Keys;
    assert forall d | d in m :: m[d] == m'[d];
  }

  lemma AbsentSpoils(index: map<Descriptor, nat>, fds: seq<PollFd>, fd: Descriptor)
    requires Indexes(index, fds) && |fds| > 0 && fd !in index
    ensures !Indexes(Shifted(index - {fd}, 0), Without(fds, 0))
  {
    var index', fds' := Shifted(index - {fd}, 0), Without(fds, 0);
    assert index'[fds[0].fd] == 0;
    if |fds'| > 0 {
      assert fds'[0] == fds[1];
    }
  }

  // ---- threadwait ----

  datatype Kind = FD | External

  /** Events are compared by kind and number. */
  datatype Ev = Ev(kind: Kind, id: nat)

  /** The waiter over descriptors, or one that came with its event. */
  datatype Waiter = FdWaiter | Own(id: nat)

  class ThreadWait {
    const fdwaiter: PollPoll
    var events: map<Ev, Waiter>
    var waiters: set<Waiter>

    /** The descriptors that are waited for. */
    ghost function Descriptors(): set<Descriptor>
      reads this
    {
      set ev | ev in events && ev.kind == FD :: ev.id
    }

    ghost predicate Valid()
      reads this, fdwaiter
    {
      && fdwaiter.Valid() && fdwaiter.Entries().Keys == Descriptors()
      && (forall ev | ev in events :: events[ev] in waiters && (ev.kind == FD ==> events[ev] == FdWaiter))
    }

    constructor ()
      ensures Valid() && events == map[] && waiters == {} && fresh(fdwaiter)
    {
      fdwaiter := new PollPoll();
      events, waiters := map[], {};
    }

    /** A waiter is kept in waiters even when its last event is gone. Adding a descriptor
        twice, and nothing else, breaks the bookkeeping. */
    method Add(ev: Ev, own: Waiter, revents: int)
      requires Valid()
      modifies this, fdwaiter
      ensures Valid() <==> !(ev.kind == FD && ev in old(events))
      ensures var w := if ev.kind == FD then FdWaiter else own;
              waiters == old(waiters) + {w} && events == if ev in old(events) then old(events) else old(events)[ev := w]
      ensures var before, entry := old(fdwaiter.Entries()), PollFd(ev.id, POLLREAD, revents);
              Valid() ==> fdwaiter.Entries() == (if ev.kind == FD then before[ev.id := entry] else before)
    {
      var w := own;
      assert ev in events && ev.kind == FD ==> ev.id in fdwaiter.Entries();
      if ev.kind == FD {
        w := FdWaiter;
        fdwaiter.Add(ev.id, revents);
      }
      if ev !in events {
        events := events[ev := w];
      }
      waiters := waiters + {w};
    }

    /** An unknown event is ignored, so the poller is only asked to remove what it has. */
    method Remove(ev: Ev)
      requires Valid()
      modifies this, fdwaiter
      ensures Valid() && events == old(events) - {ev} && waiters == old(waiters)
      ensures fdwaiter.Entries() == if ev.kind == FD then old(fdwaiter.Entries()) - {ev.id} else old(fdwaiter.Entries())
    {
      if ev !in events {
        return;
      }
      if ev.kind == FD {
        assert ev.id in fdwaiter.Entries();
        fdwaiter.Remove(ev.id);
      }
      events := events - {ev};
    }

    /** ready tells whether the event's waiter has finished since the last poll, and answer is
        what a waiter of its own says of an event. */
    method GetEvents(ev: Ev, ready: bool, answer: int) returns (reported: int)
      requires Valid()
      ensures ev !in events ==> reported == -1
      ensures ev in events && !ready ==> reported == 0
      ensures ev in events && ready ==> reported == if ev.kind == FD then fdwaiter.Entries()[ev.id].revents else answer
    {
      if ev !in events {
        return -1;
      }
      reported := 0;
      if ready {
        if ev.kind == FD {
          reported := fdwaiter.GetEvents(ev.id);
        } else {
          reported := answer;
        }
      }
    }
  }
}
