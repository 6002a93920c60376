/**
 Descriptor registration of the kqueue event-loop backend: a journaled change
 of two native filters, rolled back when a primitive change fails, and the
 table and health latch kept above it.
 */
module Kqueue {
  import opened Wrappers

  datatype Filter = Readable | Writable

  datatype Mode = Disabled | Edge | Level

  datatype Registration = Registration(read: bool, write: bool, edge: bool)

  const NOTHING := Registration(false, false, true)

  function FilterMode(r: Registration, f: Filter): Mode {
    if (f == Readable && !r.read) || (f == Writable && !r.write) then Disabled
    else if r.edge then Edge else Level
  }

  // ---------- The kernel ----------

  datatype Key = Key(fd: int, filter: Filter)

  /** What the kernel is about to answer to one change request. */
  datatype Answer = Accept | Interrupt | Refuse | Gone

  datatype Errno = Success | EINTR | ENOENT | EBADF | EOTHER

  /** Adding a filter that exists keeps its trigger mode; only deletion clears it. */
  function Put(native: Mode, mode: Mode): Mode {
    if mode == Disabled || native == Disabled then mode else native
  }

  class Kernel {
    var filters: map<Key, Mode>
    var script: seq<Answer>
    ghost var refusals: nat             // changes that were refused for good
    ghost var asked: seq<(Filter, Mode)>  // the changes asked for

    constructor (script: seq<Answer>)
      ensures filters == map[] && this.script == script
    {
      filters, this.script, refusals, asked := map[], script, 0, [];
    }

    /**
     kevent() with one change: a refusal changes nothing, deleting an absent
     filter is reported as such, and a closed descriptor has no filters.
     */
    method Kevent(fd: int, f: Filter, mode: Mode) returns (errno: Errno)
      modifies this`filters, this`script, this`refusals
      ensures |script| < |old(script)| || (script == old(script) == [] && errno == EOTHER)
      ensures errno == Success ==> filters == old(filters)[Key(fd, f) := Put(old(ModeIn(filters, fd, f)), mode)]
      ensures errno == ENOENT ==> mode == Disabled && old(ModeIn(filters, fd, f)) == Disabled
      ensures errno == EBADF ==> old(ModeIn(filters, fd, Readable)) == old(ModeIn(filters, fd, Writable)) == Disabled
      ensures errno != Success ==> filters == old(filters)
      ensures refusals == old(refusals) + if errno == EOTHER || (errno == EBADF && mode != Disabled) then 1 else 0
    {
      if script == [] {
        refusals := refusals + 1;
        return EOTHER;
      }
      var answer := script[0];
      script := script[1..];
      match answer {
        case Interrupt => return EINTR;
        case Refuse =>
          refusals := refusals + 1;
          return EOTHER;
        case Gone =>
          var open := ModeIn(filters, fd, Readable) != Disabled || ModeIn(filters, fd, Writable) != Disabled;
          refusals := refusals + if open || mode != Disabled then 1 else 0;
          return if open then EOTHER else EBADF;
        case Accept =>
          if mode == Disabled && ModeIn(filters, fd, f) == Disabled {
            return ENOENT;
          }
          filters := filters[Key(fd, f) := Put(ModeIn(filters, fd, f), mode)];
          return Success;
      }
    }

    /** apply_filter_change(): retries interruptions; a filter that is missing, or whose descriptor is, counts as deleted. */
    method ApplyFilter(fd: int, f: Filter, mode: Mode) returns (ok: bool)
      modifies this
      ensures ok ==> ModeIn(filters, fd, f) == Put(old(ModeIn(filters, fd, f)), mode)
      ensures !ok ==> ModeIn(filters, fd, f) == old(ModeIn(filters, fd, f))
      ensures Others(old(filters), filters, fd, f)
      ensures refusals == old(refusals) + (if ok then 0 else 1) && asked == old(asked) + [(f, mode)]
    {
      asked := asked + [(f, mode)];
      var errno := Kevent(fd, f, mode);
      while errno == EINTR
        invariant errno == Success ==> ModeIn(filters, fd, f) == Put(old(ModeIn(filters, fd, f)), mode)
        invariant errno != Success ==> ModeIn(filters, fd, f) == old(ModeIn(filters, fd, f))
        invariant errno == ENOENT ==> mode == Disabled && old(ModeIn(filters, fd, f)) == Disabled
        invariant errno == EBADF ==> old(ModeIn(filters, fd, f)) == Disabled
        invariant Others(old(filters), filters, fd, f) && asked == old(asked) + [(f, mode)]
        invariant refusals == old(refusals) + if errno == EOTHER || (errno == EBADF && mode != Disabled) then 1 else 0
        decreases |script|, errno == EINTR
      {
        errno := Kevent(fd, f, mode);
      }
      return errno == Success || (mode == Disabled && (errno == ENOENT || errno == EBADF));
    }

    /** The descriptor is closed behind the backend's back: its filters vanish. */
    method Close(fd: int)
      modifies this`filters
      ensures forall f :: ModeIn(filters, fd, f) == Disabled
      ensures forall other, f :: other != fd ==> ModeIn(filters, other, f) == old(ModeIn(filters, other, f))
    {
      filters := map k | k in filters && k.fd != fd :: filters[k];
    }
  }

  function ModeIn(filters: map<Key, Mode>, fd: int, f: Filter): Mode {
    if Key(fd, f) in filters then filters[Key(fd, f)] else Disabled
  }

  ghost predicate Others(before: map<Key, Mode>, after: map<Key, Mode>, fd: int, f: Filter) {
    forall other, g :: (other != fd || g != f) ==> ModeIn(after, other, g) == ModeIn(before, other, g)
  }

  // ---------- The journal ----------

  datatype Change = Change(filter: Filter, previous: Mode)

  /** The mode filter `f` ends in when the journal is replayed backwards from `mode`. */
  function Undone(journal: seq<Change>, f: Filter, mode: Mode): Mode {
    if journal == [] then mode
    else
      var last := journal[|journal| - 1];
      Undone(journal[..|journal| - 1], f, if last.filter == f then Put(mode, last.previous) else mode)
  }

  lemma UndoneLast(journal: seq<Change>, c: Change, f: Filter, mode: Mode)
    ensures Undone(journal + [c], f, mode) == Undone(journal, f, if c.filter == f then Put(mode, c.previous) else mode)
  {
    assert (journal + [c])[..|journal|] == journal;
  }

  lemma {:induction false} UndoneConcat(journal: seq<Change>, more: seq<Change>, f: Filter, mode: Mode)
    ensures Undone(journal + more, f, mode) == Undone(journal, f, Undone(more, f, mode))
  {
    if more == [] {
      assert journal + more == journal;
    } else {
      var init, last := more[..|more| - 1], more[|more| - 1];
      assert journal + more == journal + init + [last];
      UndoneLast(journal + init, last, f, mode);
      UndoneConcat(journal, init, f, if last.filter == f then Put(mode, last.previous) else mode);
    }
  }

  lemma {:induction false} UndoneElsewhere(journal: seq<Change>, f: Filter, mode: Mode)
    requires forall i :: 0 <= i < |journal| ==> journal[i].filter != f
    ensures Undone(journal, f, mode) == mode
  {
    if journal != [] {
      UndoneElsewhere(journal[..|journal| - 1], f, mode);
    }
  }

  /** The two halves of a journal are undone independently. */
  lemma FiltersApart(first: seq<Change>, second: seq<Change>, read: Mode, write: Mode)
    requires forall i :: 0 <= i < |first| ==> first[i].filter == Readable
    requires forall i :: 0 <= i < |second| ==> second[i].filter == Writable
    ensures Undone(first + second, Readable, read) == Undone(first, Readable, read)
    ensures Undone(first + second, Writable, write) == Undone(second, Writable, write)
  {
    UndoneConcat(first, second, Readable, read);
    UndoneConcat(first, second, Writable, write);
    UndoneElsewhere(second, Readable, read);
    UndoneElsewhere(first, Writable, Undone(second, Writable, write));
  }

  /** A recorded filter mode may be missing natively, but nothing else is there. */
  predicate Recorded(native: Mode, table: Mode) {
    native == Disabled || native == table
  }

  ghost predicate OtherFds(before: map<Key, Mode>, after: map<Key, Mode>, fd: int) {
    forall other, g :: other != fd ==> ModeIn(after, other, g) == ModeIn(before, other, g)
  }

  datatype Status = Applied | FailedRolledBack | RollbackFailed

  lemma UndoneOne(c: Change, mode: Mode)
    ensures Undone([c], c.filter, mode) == Put(mode, c.previous)
  {
    assert [c] == [] + [c];
    UndoneLast([], c, c.filter, mode);
  }

  /**
   The changes that lead from one mode to another: none where nothing differs,
   unless it is to be refreshed, and a deletion first where the trigger differs.
   */
  function Plan(f: Filter, current: Mode, requested: Mode, refresh: bool): seq<(Filter, Mode)> {
    (if current != requested && current != Disabled && requested != Disabled then [(f, Disabled)] else [])
    + if current != requested || (refresh && requested != Disabled) then [(f, requested)] else []
  }

  /** Changes one filter, journalling each primitive change that was made. */
  method ChangeFilter(kernel: Kernel, fd: int, f: Filter, current: Mode, requested: Mode, refresh: bool)
      returns (ok: bool, made: seq<Change>)
    requires Recorded(ModeIn(kernel.filters, fd, f), current)
    modifies kernel
    ensures Others(old(kernel.filters), kernel.filters, fd, f)
    ensures |made| <= 2 && forall i :: 0 <= i < |made| ==> made[i].filter == f
    ensures ok && (refresh || current != requested) ==> ModeIn(kernel.filters, fd, f) == requested
    ensures made == [] ==> ModeIn(kernel.filters, fd, f) == old(ModeIn(kernel.filters, fd, f))
    ensures made != [] ==> Undone(made, f, ModeIn(kernel.filters, fd, f)) == current
    ensures ok ==> Recorded(ModeIn(kernel.filters, fd, f), requested)
    ensures kernel.refusals == old(kernel.refusals) + if ok then 0 else 1
    ensures ok ==> kernel.asked == old(kernel.asked) + Plan(f, current, requested, refresh)
    ensures old(kernel.asked) <= kernel.asked <= old(kernel.asked) + Plan(f, current, requested, refresh)
  {
    made := [];
    if current == requested {
      ok := true;
      if refresh && requested != Disabled {
        ok := kernel.ApplyFilter(fd, f, requested);
        if ok {
          made := [Change(f, current)];
          UndoneOne(made[0], requested);
        }
      }
    } else if current != Disabled && requested != Disabled {
      ok := kernel.ApplyFilter(fd, f, Disabled);
      if ok {
        made := [Change(f, current)];
        UndoneOne(made[0], Disabled);
        ok := kernel.ApplyFilter(fd, f, requested);
        if ok {
          UndoneLast(made, Change(f, Disabled), f, requested);
          made := made + [Change(f, Disabled)];
        }
      }
    } else {
      ok := kernel.ApplyFilter(fd, f, requested);
      if ok {
        made := [Change(f, current)];
        UndoneOne(made[0], requested);
      }
    }
  }

  /** Replays the journal backwards; on success the filters are what the journal says they were. */
  method RollBack(kernel: Kernel, fd: int, journal: seq<Change>) returns (ok: bool)
    modifies kernel
    ensures OtherFds(old(kernel.filters), kernel.filters, fd)
    ensures ok ==> forall f :: ModeIn(kernel.filters, fd, f) == Undone(journal, f, old(ModeIn(kernel.filters, fd, f)))
    ensures kernel.refusals >= old(kernel.refusals) && (ok <==> kernel.refusals == old(kernel.refusals))
  {
    var count := |journal|;
    ok := true;
    assert journal[..count] == journal;
    while count > 0
      invariant 0 <= count <= |journal|
      invariant OtherFds(old(kernel.filters), kernel.filters, fd)
      invariant ok ==> forall f :: Undone(journal[..count], f, ModeIn(kernel.filters, fd, f))
                                == Undone(journal, f, old(ModeIn(kernel.filters, fd, f)))
      invariant kernel.refusals >= old(kernel.refusals) && (ok <==> kernel.refusals == old(kernel.refusals))
    {
      count := count - 1;
      assert journal[..count + 1] == journal[..count] + [journal[count]];
      var applied := kernel.ApplyFilter(fd, journal[count].filter, journal[count].previous);
      ok := ok && applied;
    }
  }

  /** What changing one filter leaves: its new mode, and a journal that leads back. */
  ghost predicate Changed(before: Mode, after: Mode, current: Mode, requested: Mode, refresh: bool, ok: bool,
                          f: Filter, made: seq<Change>)
  {
    && |made| <= 2 && (forall i :: 0 <= i < |made| ==> made[i].filter == f)
    && (ok && (refresh || current != requested) ==> after == requested)
    && (ok ==> Recorded(after, requested))
    && (made == [] ==> after == before)
    && (made != [] ==> Undone(made, f, after) == current)
  }

  lemma Unchanged(mode: Mode, current: Mode, requested: Mode, refresh: bool, f: Filter)
    ensures Changed(mode, mode, current, requested, refresh, false, f, [])
  {
  }

  /** Changes the read filter and, if that worked, the write filter. */
  method ChangeEach(kernel: Kernel, fd: int, current: Registration, requested: Registration, refresh: bool)
    returns (ok: bool, ghost first: bool, made: seq<Change>, more: seq<Change>)
    requires forall f :: Recorded(ModeIn(kernel.filters, fd, f), FilterMode(current, f))
    modifies kernel
    ensures OtherFds(old(kernel.filters), kernel.filters, fd)
    ensures ok ==> first
    ensures Changed(old(ModeIn(kernel.filters, fd, Readable)), ModeIn(kernel.filters, fd, Readable),
                    FilterMode(current, Readable), FilterMode(requested, Readable), refresh, first, Readable, made)
    ensures Changed(old(ModeIn(kernel.filters, fd, Writable)), ModeIn(kernel.filters, fd, Writable),
                    FilterMode(current, Writable), FilterMode(requested, Writable), refresh, ok, Writable, more)
    ensures kernel.refusals == old(kernel.refusals) + if ok then 0 else 1
    ensures ok ==> kernel.asked == old(kernel.asked)
                                  + Plan(Readable, FilterMode(current, Readable), FilterMode(requested, Readable), refresh)
                                  + Plan(Writable, FilterMode(current, Writable), FilterMode(requested, Writable), refresh)
  {
    more := [];
    ok, made := ChangeFilter(kernel, fd, Readable, FilterMode(current, Readable), FilterMode(requested, Readable), refresh);
    first := ok;
    if ok {
      ok, more := ChangeFilter(kernel, fd, Writable, FilterMode(current, Writable), FilterMode(requested, Writable), refresh);
    } else {
      Unchanged(ModeIn(kernel.filters, fd, Writable), FilterMode(current, Writable), FilterMode(requested, Writable),
                refresh, Writable);
    }
  }

  /** Changes both filters as far as possible; the journal leads back to what was there or was recorded. */
  method ChangeBoth(kernel: Kernel, fd: int, current: Registration, requested: Registration, refresh: bool)
      returns (ok: bool, journal: seq<Change>)
    requires forall f :: Recorded(ModeIn(kernel.filters, fd, f), FilterMode(current, f))
    modifies kernel
    ensures OtherFds(old(kernel.filters), kernel.filters, fd) && |journal| <= 4
    ensures ok ==> forall f :: refresh || FilterMode(current, f) != FilterMode(requested, f) ==>
              ModeIn(kernel.filters, fd, f) == FilterMode(requested, f)
    ensures ok ==> forall f :: Recorded(ModeIn(kernel.filters, fd, f), FilterMode(requested, f))
    ensures forall f :: Undone(journal, f, ModeIn(kernel.filters, fd, f))
              in {old(ModeIn(kernel.filters, fd, f)), FilterMode(current, f)}
    ensures journal == [] ==> forall f :: ModeIn(kernel.filters, fd, f) == old(ModeIn(kernel.filters, fd, f))
    ensures kernel.refusals == old(kernel.refusals) + if ok then 0 else 1
    ensures ok ==> kernel.asked == old(kernel.asked)
                                  + Plan(Readable, FilterMode(current, Readable), FilterMode(requested, Readable), refresh)
                                  + Plan(Writable, FilterMode(current, Writable), FilterMode(requested, Writable), refresh)
  {
    var made, more;
    ghost var first;
    ok, first, made, more := ChangeEach(kernel, fd, current, requested, refresh);
    journal := made + more;
    FiltersApart(made, more, ModeIn(kernel.filters, fd, Readable), ModeIn(kernel.filters, fd, Writable));
  }

  /**
   transition_kqueue_filters(): both filters or neither. A success leaves the
   requested modes in place; a clean failure leaves every filter either as it
   was or as it was recorded; a partial refresh of an existing registration is
   never rolled back. It fails only when the kernel refuses a change, and not
   cleanly only when it refuses two, or one of a refresh.
   */
  method Transition(kernel: Kernel, fd: int, current: Registration, requested: Registration, refresh: bool)
      returns (status: Status)
    requires forall f :: Recorded(ModeIn(kernel.filters, fd, f), FilterMode(current, f))
    modifies kernel
    ensures OtherFds(old(kernel.filters), kernel.filters, fd)
    ensures status == Applied ==> forall f :: refresh || FilterMode(current, f) != FilterMode(requested, f) ==>
              ModeIn(kernel.filters, fd, f) == FilterMode(requested, f)
    ensures status == Applied ==> forall f :: Recorded(ModeIn(kernel.filters, fd, f), FilterMode(requested, f))
    ensures status == FailedRolledBack ==> forall f ::
              || ModeIn(kernel.filters, fd, f) == old(ModeIn(kernel.filters, fd, f))
              || (ModeIn(kernel.filters, fd, f) == FilterMode(current, f) && (!refresh || (!current.read && !current.write)))
    ensures status == Applied <==> kernel.refusals == old(kernel.refusals)
    ensures status == RollbackFailed ==>
              kernel.refusals > old(kernel.refusals) + 1 || (refresh && (current.read || current.write))
    ensures kernel.refusals > old(kernel.refusals) + 1 ==> status == RollbackFailed
    ensures status == Applied ==>
              kernel.asked == old(kernel.asked)
                             + Plan(Readable, FilterMode(current, Readable), FilterMode(requested, Readable), refresh)
                             + Plan(Writable, FilterMode(current, Writable), FilterMode(requested, Writable), refresh)
  {
    var ok, journal := ChangeBoth(kernel, fd, current, requested, refresh);
    if ok {
      return Applied;
    }
    if refresh && journal != [] && (current.read || current.write) {
      return RollbackFailed;
    }
    var restored := RollBack(kernel, fd, journal);
    return if restored then FailedRolledBack else RollbackFailed;
  }

  // ---------- The backend ----------

  function Lookup(registered: map<int, Registration>, fd: int): Registration {
    if fd in registered then registered[fd] else NOTHING
  }

  ghost predicate AllRecorded(filters: map<Key, Mode>, registered: map<int, Registration>) {
    forall fd, f :: Recorded(ModeIn(filters, fd, f), FilterMode(Lookup(registered, fd), f))
  }

  datatype Operation = Add(fd: int, wanted: Registration) | Remove(fd: int) | CloseFd(fd: int) | Poll | Wakeup

  class Backend {
    const kernel: Kernel
    var registered: map<int, Registration>
    var healthy: bool

    constructor (kernel: Kernel)
      requires kernel.filters == map[]
      ensures Valid() && healthy && registered == map[] && this.kernel == kernel
    {
      this.kernel := kernel;
      registered, healthy := map[], true;
    }

    /** While the backend is healthy, every native filter is in the table with the same mode. */
    ghost predicate Valid()
      reads this, kernel
    {
      healthy ==> AllRecorded(kernel.filters, registered)
    }

    method Transit(fd: int, current: Registration, requested: Registration, refresh: bool) returns (applied: bool)
      requires forall f :: Recorded(ModeIn(kernel.filters, fd, f), FilterMode(current, f))
      modifies kernel, this`healthy
      ensures OtherFds(old(kernel.filters), kernel.filters, fd) && (healthy ==> old(healthy))
      ensures applied ==> healthy == old(healthy) && forall f ::
                && Recorded(ModeIn(kernel.filters, fd, f), FilterMode(requested, f))
                && (refresh || FilterMode(requested, f) == Disabled ==> ModeIn(kernel.filters, fd, f) == FilterMode(requested, f))
      ensures !applied && healthy ==> forall f ::
                || ModeIn(kernel.filters, fd, f) == old(ModeIn(kernel.filters, fd, f))
                || (ModeIn(kernel.filters, fd, f) == FilterMode(current, f) && (!refresh || (!current.read && !current.write)))
      ensures applied <==> kernel.refusals == old(kernel.refusals)
      ensures old(healthy) && !healthy ==>
                kernel.refusals > old(kernel.refusals) + 1 || (refresh && (current.read || current.write) && !applied)
    {
      var status := Transition(kernel, fd, current, requested, refresh);
      if status == RollbackFailed {
        healthy := false;
      }
      return status == Applied;
    }

    /** add_fd(): a success leaves the native filters exactly as requested; a survivable failure leaves them alone. */
    method AddFd(fd: int, wanted: Registration) returns (ok: bool)
      requires Valid()
      modifies this, kernel
      ensures Valid() && (healthy ==> old(healthy)) && (ok ==> healthy)
      ensures registered == if ok then old(registered)[fd := wanted] else old(registered)
      ensures ok ==> ModeIn(kernel.filters, fd, Readable) == (if !wanted.read then Disabled else if wanted.edge then Edge else Level)
      ensures ok ==> ModeIn(kernel.filters, fd, Writable) == (if !wanted.write then Disabled else if wanted.edge then Edge else Level)
      ensures ok <==> old(healthy) && kernel.refusals == old(kernel.refusals)
      ensures old(healthy) && !healthy ==> kernel.refusals > old(kernel.refusals) + 1 || (!ok && fd in old(registered))
      ensures !ok && healthy ==> forall f :: ModeIn(kernel.filters, fd, f) == old(ModeIn(kernel.filters, fd, f))
      ensures OtherFds(old(kernel.filters), kernel.filters, fd)
    {
      if !healthy {
        return false;
      }
      var current := if fd in registered then registered[fd] else Registration(false, false, wanted.edge);
      ok := Transit(fd, current, wanted, true);
      if ok {
        registered := registered[fd := wanted];
      }
    }

    /** remove_fd(): a success leaves no native filter of the descriptor. */
    method RemoveFd(fd: int) returns (ok: bool)
      requires Valid()
      modifies this, kernel
      ensures Valid() && (healthy ==> old(healthy)) && (ok ==> healthy)
      ensures registered == if ok then old(registered) - {fd} else old(registered)
      ensures ok ==> forall f :: ModeIn(kernel.filters, fd, f) == Disabled
      ensures !ok && healthy && old(Exact(fd)) ==> Exact(fd)
      ensures ok <==> old(healthy) && kernel.refusals == old(kernel.refusals)
      ensures old(healthy) && !healthy ==> kernel.refusals > old(kernel.refusals) + 1
      ensures OtherFds(old(kernel.filters), kernel.filters, fd)
    {
      if !healthy {
        return false;
      }
      if fd !in registered {
        return true;
      }
      ok := Transit(fd, registered[fd], Registration(false, false, registered[fd].edge), false);
      if ok {
        registered := registered - {fd};
      }
    }

    /** The native filters of a descriptor are exactly its recorded ones. */
    ghost predicate Exact(fd: int)
      reads this, kernel
    {
      forall f :: ModeIn(kernel.filters, fd, f) == FilterMode(Lookup(registered, fd), f)
    }

    method Perform(op: Operation) returns (ok: bool)
      requires Valid()
      modifies this, kernel
      ensures Valid() && (healthy ==> old(healthy)) && (ok ==> healthy)
      ensures op.Add? && ok ==> forall f :: ModeIn(kernel.filters, op.fd, f) == FilterMode(op.wanted, f)
      ensures (op.Remove? && ok) || op.CloseFd? ==> forall f :: ModeIn(kernel.filters, op.fd, f) == Disabled
    {
      match op {
        case Add(fd, wanted) => ok := AddFd(fd, wanted);
        case Remove(fd) => ok := RemoveFd(fd);
        case CloseFd(fd) =>
          kernel.Close(fd);
          ok := healthy;
        case Poll | Wakeup => ok := healthy;  // both refuse at once when the backend is unhealthy
      }
    }

    /** Any sequence of operations: once the backend is unhealthy, nothing succeeds any more. */
    method Drive(ops: seq<Operation>) returns (results: seq<bool>, health: seq<bool>)
      requires Valid()
      modifies this, kernel
      ensures Valid() && |results| == |health| == |ops|
      ensures forall i, j :: 0 <= i <= j < |ops| && !health[i] ==> !results[j] && !health[j]
      ensures forall i :: 0 <= i < |ops| && !old(healthy) ==> !results[i]
    {
      results, health := [], [];
      for i := 0 to |ops|
        invariant Valid() && |results| == |health| == i && (healthy ==> old(healthy))
        invariant i > 0 ==> health[i - 1] == healthy
        invariant forall k :: 0 <= k < i && !health[k] ==> !healthy
        invariant forall k, j :: 0 <= k <= j < i && !health[k] ==> !results[j] && !health[j]
        invariant forall k :: 0 <= k < i && !old(healthy) ==> !results[k]
      {
        var ok := Perform(ops[i]);
        results, health := results + [ok], health + [healthy];
      }
    }
  }
}
