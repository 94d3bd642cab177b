/**
 * The poll flags a stream asks for and gets back (src/util.c:661-719).  Under Linux the poll and
 * epoll constants coincide, so one record of the four flags in use stands for both kinds of mask.
 */
module PollEvents {

  datatype Events = Events(rd: bool, wr: bool, err: bool, hup: bool) {
    predicate Any() {
      rd || wr || err || hup
    }

    /** The mask registered with the kernel: POLLERR and POLLHUP are always added. */
    function Armed(): Events {
      Events(rd, wr, true, true)
    }
  }

  const NONE := Events(false, false, false, false)
  const IN := Events(true, false, false, false)
  const OUT := Events(false, true, false, false)
  const INOUT := Events(true, true, false, false)

  /** What the kernel may report of `ready` to a descriptor registered with `mask`. */
  function Clip(ready: Events, mask: Events): Events {
    Events(ready.rd && mask.rd, ready.wr && mask.wr, ready.err && mask.err, ready.hup && mask.hup)
  }
}
