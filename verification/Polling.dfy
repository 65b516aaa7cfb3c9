// The one-shot IO registrations of a worker's poller, as the rest of the runtime sees them: a map
// from (fd, direction) to the task to enqueue, and the kernel's table of interests.
module Polling {
  import opened Prelude
  import opened Tasks

  type Key = (nat, Dir)

  datatype Delivery = Delivery(key: Key, task: Task)

  // What the kernel reports for one fd.
  datatype Report = Report(fd: nat, events: set<Dir>, errhup: bool)

  datatype Poller = Poller(armed: map<Key, Task>, kernel: map<nat, set<Dir>>) {

    function Types(fd: nat): set<Dir> {
      set d: Dir | (fd, d) in armed
    }

    // The kernel never watches for something nobody waits for.
    ghost predicate Consistent() {
      forall fd | fd in kernel :: Types(fd) != {} && kernel[fd] <= Types(fd)
    }

    // ... and knows every fd somebody waits on.
    ghost predicate Synced() {
      Consistent() && forall k | k in armed :: k.0 in kernel
    }
  }

  datatype Effect = Effect(poller: Poller, ok: bool, out: seq<Delivery>)

  // EPOLL_CTL_MOD needs the fd in the table, EPOLL_CTL_ADD needs it absent. `accepted` is any
  // further condition of the kernel's.
  function Add(p: Poller, fd: nat, d: Dir, t: Task, accepted: bool): Effect {
    if (fd, d) !in p.armed && accepted && (p.Types(fd) != {} <==> fd in p.kernel)
    then Effect(Poller(p.armed[(fd, d) := t], p.kernel[fd := p.Types(fd) + {d}]), true, [])
    else Effect(p, false, [])
  }

  function Fetch(p: Poller, fd: nat, d: Dir): seq<Delivery> {
    if (fd, d) in p.armed then [Delivery((fd, d), p.armed[(fd, d)])] else []
  }

  function Watch(kernel: map<nat, set<Dir>>, fd: nat, mask: set<Dir>): map<nat, set<Dir>> {
    if mask == {} then kernel - {fd} else kernel[fd := mask]
  }

  function Without(armed: map<Key, Task>, fd: nat, ds: set<Dir>): map<Key, Task> {
    map k | k in armed && !(k.0 == fd && k.1 in ds) :: armed[k]
  }

  // delEvent and handleEvent: the same change; only the second one delivers.
  function Take(p: Poller, fd: nat, d: Dir): Effect {
    if (fd, d) in p.armed && fd in p.kernel
    then Effect(Poller(p.armed - {(fd, d)}, Watch(p.kernel, fd, p.Types(fd) - {d})), true, Fetch(p, fd, d))
    else Effect(p, false, [])
  }

  function TakeAll(p: Poller, fd: nat): Effect {
    if p.Types(fd) != {} && fd in p.kernel
    then Effect(Poller(Without(p.armed, fd, p.Types(fd)), p.kernel - {fd}), true,
                Fetch(p, fd, In) + Fetch(p, fd, Out))
    else Effect(p, false, [])
  }

  // The directions a report stands for: an error or hang-up counts as everything waited for.
  function Real(p: Poller, r: Report): set<Dir> {
    if r.errhup then r.events + p.Types(r.fd) else r.events
  }

  // One report of a poll pass. When something else is still waited for on the fd, the kernel is
  // left with the mask `EPOLLET & left_events`, which is empty.
  function Deliver(p: Poller, r: Report): Effect {
    var hit := Real(p, r);
    if p.Types(r.fd) * hit == {} then Effect(p, false, [])
    else
      var kernel := if r.fd !in p.kernel then p.kernel
                    else if p.Types(r.fd) - hit == {} then p.kernel - {r.fd}
                    else p.kernel[r.fd := {}];
      Effect(Poller(Without(p.armed, r.fd, hit), kernel), true,
             (if In in hit then Fetch(p, r.fd, In) else [])
             + (if Out in hit then Fetch(p, r.fd, Out) else []))
  }

  function Wait(p: Poller, rs: seq<Report>): Effect
    decreases rs
  {
    if rs == [] then Effect(p, true, [])
    else
      var e := Deliver(p, rs[0]);
      var f := Wait(e.poller, rs[1..]);
      Effect(f.poller, true, e.out + f.out)
  }

  // What one epoll_wait may return: fds of the table, each once, and only bits of their masks.
  ghost predicate Reportable(p: Poller, rs: seq<Report>) {
    && (forall i | 0 <= i < |rs| :: rs[i].fd in p.kernel && rs[i].events <= p.kernel[rs[i].fd])
    && (forall i, j | 0 <= i < j < |rs| :: rs[i].fd != rs[j].fd)
  }

  // Closing an fd removes it from the table, whoever closes it.
  function Closed(p: Poller, fd: nat): Poller {
    p.(kernel := p.kernel - {fd})
  }

  function TasksOf(out: seq<Delivery>): seq<Task> {
    if out == [] then [] else [out[0].task] + TasksOf(out[1..])
  }
}
