/** `exec_with_stdio`: one subprocess under the deadline, with its six pipe ends. */
module Subprocess {
  import Text
  import opened Types
  import opened Watchdog

  // ---- descriptors ------------------------------------------------------------------------------

  const STDIN_READ := 0
  const STDIN_WRITE := 1
  const STDOUT_READ := 2
  const STDOUT_WRITE := 3
  const STDERR_READ := 4
  const STDERR_WRITE := 5

  const STDERR_FILENO := 2

  /** The descriptors open in the parent. `pipe` and `fcntl` hand out any that are free, 0, 1 and 2
      included; closing one that is not open is ruled out by precondition. */
  class Descriptors {
    var open: set<int>

    constructor (open: set<int>)
      ensures this.open == open
    {
      this.open := open;
    }

    method Pipe() returns (err: int, r: int, w: int)
      modifies this
      ensures if err == 0 then r >= 0 && w >= 0 && r != w && {r, w} !! old(open) && open == old(open) + {r, w}
              else err == -1 && open == old(open)
    {
      r, w := *, *;
      if r < 0 || w < 0 || r == w || r in open || w in open {
        return -1, -1, -1;
      }
      open := open + {r, w};
      err := 0;
    }

    /** `fcntl(fd, F_DUPFD_CLOEXEC, 3)`. */
    method DupAboveStdio(fd: int) returns (copy: int)
      requires fd in open
      modifies this
      ensures if copy >= 0 then copy > STDERR_FILENO && copy !in old(open) && open == old(open) + {copy}
              else open == old(open)
    {
      copy := *;
      if copy <= STDERR_FILENO || copy in open {
        return -1;
      }
      open := open + {copy};
    }

    method SetCloexec(fd: int) returns (err: int)
      requires fd in open
      ensures err == 0 || err == -1
    {
      var fails: bool := *;
      err := if fails then -1 else 0;
    }

    method Close(fd: int)
      requires fd in open
      modifies this
      ensures open == old(open) - {fd}
    {
      open := open - {fd};
    }
  }

  ghost function EndSet(s: seq<int>): set<int> {
    set i | 0 <= i < |s| && s[i] >= 0 :: s[i]
  }

  /** The open descriptors are those of `base` and, apart from them, the ends in `s` that are
      still open, no two of which are the same. */
  ghost predicate Holds(open: set<int>, base: set<int>, s: seq<int>) {
    && open == base + EndSet(s) && base !! EndSet(s)
    && forall i, j | 0 <= i < j < |s| && s[i] >= 0 && s[j] >= 0 :: s[i] != s[j]
  }

  lemma DropEnd(open: set<int>, base: set<int>, s: seq<int>, i: nat)
    requires Holds(open, base, s) && i < |s| && s[i] >= 0
    ensures s[i] in open && Holds(open - {s[i]}, base, s[i := -1])
  {
    var t := s[i := -1];
    assert forall j | 0 <= j < |t| && j != i :: t[j] == s[j];
    assert EndSet(t) == EndSet(s) - {s[i]} by {
      forall x | x in EndSet(s) - {s[i]} ensures x in EndSet(t) {
        var j :| 0 <= j < |s| && s[j] >= 0 && s[j] == x;
        assert t[j] == x;
      }
    }
  }

  lemma PutEnd(open: set<int>, base: set<int>, s: seq<int>, i: nat, fd: int)
    requires Holds(open, base, s) && i < |s| && s[i] < 0 && fd >= 0 && fd !in open
    ensures Holds(open + {fd}, base, s[i := fd])
  {
    var t := s[i := fd];
    assert forall j | 0 <= j < |s| && s[j] >= 0 :: s[j] in EndSet(s) && t[j] == s[j];
    assert EndSet(t) == EndSet(s) + {fd} by {
      assert t[i] == fd;
    }
  }

  method CloseEnd(fds: Descriptors, ends: array<int>, i: nat, ghost base: set<int>)
    requires i < ends.Length && ends[i] >= 0 && Holds(fds.open, base, ends[..])
    modifies fds, ends
    ensures Holds(fds.open, base, ends[..]) && ends[..] == old(ends[..])[i := -1]
  {
    DropEnd(fds.open, base, ends[..], i);
    fds.Close(ends[i]);
    ends[i] := -1;
  }

  /** `prepare_pipe_end`: lifts an end that collides with standard descriptors. */
  method PreparePipeEnd(fds: Descriptors, ends: array<int>, i: nat, ghost base: set<int>) returns (err: int)
    requires i < ends.Length && ends[i] >= 0 && Holds(fds.open, base, ends[..])
    modifies fds, ends
    ensures Holds(fds.open, base, ends[..]) && (err == 0 || err == -1) && ends[i] >= 0
    ensures err == 0 ==> ends[i] > STDERR_FILENO
    ensures forall j | 0 <= j < ends.Length && j != i :: ends[j] == old(ends[j])
  {
    assert ends[i] in EndSet(ends[..]) by { assert ends[..][i] == ends[i]; }
    if ends[i] < STDERR_FILENO + 1 {
      var copy := fds.DupAboveStdio(ends[i]);
      if copy < 0 {
        return -1;
      }
      ghost var s := ends[..];
      ghost var before := fds.open - {copy};
      DropEnd(before, base, s, i);
      PutEnd(before - {s[i]}, base, s[i := -1], i, copy);
      assert s[i := -1][i := copy] == s[i := copy];
      assert before - {s[i]} + {copy} == fds.open - {s[i]};
      fds.Close(ends[i]);
      ends[i] := copy;
      return 0;
    }
    err := fds.SetCloexec(ends[i]);
  }

  method OpenPipe(fds: Descriptors, ends: array<int>, i: nat, ghost base: set<int>) returns (err: int)
    requires i + 1 < ends.Length && ends[i] == ends[i + 1] == -1 && Holds(fds.open, base, ends[..])
    modifies fds, ends
    ensures Holds(fds.open, base, ends[..]) && (err == 0 || err == -1)
    ensures err == 0 ==> ends[i] > STDERR_FILENO && ends[i + 1] > STDERR_FILENO
    ensures forall j | 0 <= j < ends.Length && j != i && j != i + 1 :: ends[j] == old(ends[j])
  {
    var r, w;
    err, r, w := fds.Pipe();
    if err != 0 {
      return;
    }
    ghost var s := ends[..];
    ghost var before := fds.open - {r, w};
    PutEnd(before, base, s, i, r);
    PutEnd(before + {r}, base, s[i := r], i + 1, w);
    assert before + {r} + {w} == fds.open;
    ends[i], ends[i + 1] := r, w;
    assert ends[..] == s[i := r][i + 1 := w];
    err := PreparePipeEnd(fds, ends, i, base);
    if err != 0 {
      return;
    }
    err := PreparePipeEnd(fds, ends, i + 1, base);
  }

  /** All three pipes; on success the six ends are distinct and clear of the standard descriptors. */
  method OpenPipes(fds: Descriptors, ends: array<int>, ghost base: set<int>) returns (err: int)
    requires ends.Length == 6 && (forall j | 0 <= j < 6 :: ends[j] == -1) && Holds(fds.open, base, ends[..])
    modifies fds, ends
    ensures Holds(fds.open, base, ends[..]) && (err == 0 || err == -1)
    ensures err == 0 ==> forall j | 0 <= j < 6 :: ends[j] > STDERR_FILENO
  {
    err := OpenPipe(fds, ends, STDIN_READ, base);
    if err != 0 {
      return;
    }
    err := OpenPipe(fds, ends, STDOUT_READ, base);
    if err != 0 {
      return;
    }
    err := OpenPipe(fds, ends, STDERR_READ, base);
  }

  method CloseAll(fds: Descriptors, ends: array<int>, ghost base: set<int>)
    requires Holds(fds.open, base, ends[..])
    modifies fds, ends
    ensures fds.open == base
  {
    var i := 0;
    while i < ends.Length
      invariant 0 <= i <= ends.Length && Holds(fds.open, base, ends[..])
      invariant forall j | 0 <= j < i :: ends[j] < 0
    {
      if ends[i] >= 0 {
        CloseEnd(fds, ends, i, base);
      }
      i := i + 1;
    }
    assert EndSet(ends[..]) == {};
  }

  // ---- talking to the child -----------------------------------------------------------------------

  /** What a stage between two checkpoints keeps, and how long it may block past the deadline. */
  twostate predicate Worked(sup: Supervisor, lateBy: int)
    reads sup
  {
    && sup.Live() && sup.clock >= old(sup.clock) && (old(sup.timedOut) ==> sup.timedOut)
    && sup.Alive() && sup.start == old(sup.start) && sup.refused == old(sup.refused)
    && sup.late <= old(sup.late) + lateBy && (!sup.timedOut ==> sup.timer == old(sup.timer))
  }

  /** What went over the pipes: the input the child was given, whether a write or a read failed for
      another reason than a signal. */
  class Talk {
    ghost var fed: seq<char>
    ghost var broken: bool
    ghost var lost: bool

    constructor ()
      ensures fed == [] && !broken && !lost
    {
      fed, broken, lost := [], false, false;
    }
  }

  /** `write` on a pipe: some progress, or an error. */
  method Write(sup: Supervisor, talk: Talk, data: seq<char>) returns (n: int, interrupted: bool)
    requires sup.Live() && sup.Alive() && data != []
    modifies sup, talk`fed, talk`broken
    ensures Worked(sup, RETRY) && (!old(sup.timedOut) ==> sup.late == old(sup.late))
    ensures n == -1 || 0 < n <= |data|
    ensures talk.fed == if n > 0 then old(talk.fed) + data[..n] else old(talk.fed)
    ensures talk.broken == (old(talk.broken) || (n == -1 && !interrupted))
    ensures n == -1 && interrupted && !sup.timedOut ==> sup.clock > old(sup.clock)
  {
    interrupted := sup.Block();
    n := *;
    if interrupted || n <= 0 || n > |data| {
      talk.broken := talk.broken || !interrupted;
      return -1, interrupted;
    }
    talk.fed := talk.fed + data[..n];
  }

  /** Feeds the child's standard input; stops as soon as the deadline is seen to have expired.
      Before that, and unless the pipe breaks, everything is written, in order. */
  method WriteStdin(sup: Supervisor, talk: Talk, data: seq<char>)
    requires sup.Live() && sup.Alive() && talk.fed == []
    modifies sup, talk`fed, talk`broken
    ensures Worked(sup, RETRY) && talk.fed <= data && (talk.fed == data || talk.broken || sup.timedOut)
  {
    var written := 0;
    while written < |data|
      invariant Worked(sup, RETRY) && 0 <= written <= |data| && talk.fed == data[..written]
      invariant !sup.timedOut ==> sup.late == old(sup.late)
      decreases !sup.timedOut, |data| - written, if sup.timedOut then 0 else sup.timer.value - sup.clock
    {
      if sup.timedOut {
        break;
      }
      sup.Elapse();
      var n, interrupted := Write(sup, talk, data[written..]);
      if n < 0 {
        if interrupted && !sup.timedOut {
          continue;
        }
        break;
      }
      assert data[..written] + data[written..][..n] == data[..written + n];
      written := written + n;
    }
  }

  /** `read` on a pipe that delivers `stream`: the next bytes of it, end of file (0) once it is
      exhausted, or an error. */
  method Read(sup: Supervisor, talk: Talk, stream: seq<char>, buf: array<char>, used: nat, count: nat)
    returns (n: int, interrupted: bool)
    requires sup.Live() && sup.Alive() && used + count <= buf.Length && used <= |stream|
    requires buf[..used] == stream[..used]
    modifies sup, buf, talk`lost
    ensures Worked(sup, RETRY) && (!old(sup.timedOut) ==> sup.late == old(sup.late))
    ensures -1 <= n <= count && (n == 0 ==> count == 0 || used == |stream|)
    ensures buf[..used] == stream[..used]
    ensures talk.lost == (old(talk.lost) || (n == -1 && !interrupted))
    ensures n >= 0 ==> used + n <= |stream| && buf[..used + n] == stream[..used + n]
    ensures n == -1 && interrupted && !sup.timedOut ==> sup.clock > old(sup.clock)
  {
    interrupted := sup.Block();
    n := *;
    if interrupted || n < 0 || n > count || n > |stream| - used || (n == 0 && count > 0 && used < |stream|) {
      talk.lost := talk.lost || !interrupted;
      return -1, interrupted;
    }
    forall i | 0 <= i < n {
      buf[used + i] := stream[used + i];
    }
    assert buf[..used + n] == buf[..used] + stream[used..used + n];
    assert stream[..used + n] == stream[..used] + stream[used..used + n];
  }

  /** `read_all_fd`: to end of file, a full buffer or an error; an interruption is retried only
      while the deadline has not expired. The buffer ends up with a terminated prefix of what the
      child wrote: without an error, as much of it as fits. */
  method ReadAll(sup: Supervisor, talk: Talk, stream: seq<char>, buf: array<char>) returns (err: int)
    requires sup.Live() && sup.Alive() && buf.Length > 0
    modifies sup, buf, talk`lost
    ensures Worked(sup, buf.Length * RETRY) && (err == 0 || err == -1)
    ensures Received(buf, stream) && (err == 0 ==> Complete(buf, stream)) && (old(talk.lost) ==> talk.lost)
    ensures err == -1 ==> sup.timedOut || talk.lost
    ensures err == -1 && !sup.timedOut ==> sup.late == old(sup.late)
  {
    var used := 0;
    err := 0;
    while true
      invariant Worked(sup, used * RETRY) && 0 <= used < buf.Length && used <= |stream|
      invariant buf[..used] == stream[..used] && (old(talk.lost) ==> talk.lost)
      invariant !sup.timedOut ==> sup.late == old(sup.late)
      decreases !sup.timedOut, buf.Length - used, if sup.timedOut then 0 else sup.timer.value - sup.clock
    {
      sup.Elapse();
      var n, interrupted := Read(sup, talk, stream, buf, used, buf.Length - 1 - used);
      if n == 0 {
        break;
      }
      if n < 0 {
        if interrupted && !sup.timedOut {
          continue;
        }
        err := -1;
        break;
      }
      used := used + n;
      if used >= buf.Length - 1 {
        break;
      }
    }
    buf[used] := '\0';
    assert Delivered(buf, stream, used);
  }

  /** The buffer holds the first `n` characters of the stream, terminated. */
  ghost predicate Delivered(buf: array<char>, stream: seq<char>, n: nat)
    reads buf
  {
    n < buf.Length && n <= |stream| && buf[..n] == stream[..n] && buf[n] == '\0'
  }

  /** A buffer that has room for anything holds a terminated prefix of the stream. */
  ghost predicate Received(buf: array<char>, stream: seq<char>)
    reads buf
  {
    buf.Length == 0 || exists n: nat :: Delivered(buf, stream, n)
  }

  /** It holds as much of the stream as fits. */
  ghost predicate Complete(buf: array<char>, stream: seq<char>)
    reads buf
  {
    buf.Length == 0 || Delivered(buf, stream, |Text.Cut(stream, buf.Length)|)
  }

  // ---- exec_with_stdio ----------------------------------------------------------------------------

  /** `posix_spawnp`, whose wait for the exec no signal interrupts. */
  method Spawn(sup: Supervisor) returns (err: int)
    requires sup.Live() && sup.child == NoChild
    modifies sup
    ensures sup.Live() && sup.clock >= old(sup.clock) && sup.start == old(sup.start)
    ensures sup.late == old(sup.late) && sup.refused == old(sup.refused)
    ensures if err == 0 then sup.child == Running else err == -1 && sup.child == NoChild
  {
    sup.Elapse();
    var fails: bool := *;
    if fails {
      return -1;
    }
    sup.child := Running;
    err := 0;
  }

  /** Registering a duplicate onto a standard descriptor needs a source that is not one itself. */
  method AddDup2(ends: array<int>, i: nat) returns (err: int)
    requires ends.Length == 6 && i < 6 && ends[i] > STDERR_FILENO
    ensures err == 0 || err == -1
  {
    var fails: bool := *;
    err := if fails then -1 else 0;
  }

  /** From nothing to a started child: the pipes, the three duplications, the spawn. */
  method Launch(sup: Supervisor, fds: Descriptors, ends: array<int>, ghost base: set<int>) returns (err: int)
    requires sup.Live() && sup.child == NoChild
    requires ends.Length == 6 && (forall j | 0 <= j < 6 :: ends[j] == -1) && Holds(fds.open, base, ends[..])
    modifies sup, fds, ends
    ensures sup.Live() && sup.clock >= old(sup.clock) && sup.start == old(sup.start)
    ensures sup.late == old(sup.late) && sup.refused == old(sup.refused)
    ensures Holds(fds.open, base, ends[..]) && (err == 0 || err == -1)
    ensures if err == 0 then sup.child == Running && forall j | 0 <= j < 6 :: ends[j] >= 0 else sup.child == NoChild
  {
    err := OpenPipes(fds, ends, base);
    if err != 0 {
      return;
    }
    err := AddDup2(ends, STDIN_READ);
    if err != 0 {
      return;
    }
    err := AddDup2(ends, STDOUT_WRITE);
    if err != 0 {
      return;
    }
    err := AddDup2(ends, STDERR_WRITE);
    if err != 0 {
      return;
    }
    err := Spawn(sup);
  }

  /** What a failed or finished run leaves before the deadline is disarmed: a child that was
      started is collected, unless the system refused the wait. */
  ghost predicate Over(sup: Supervisor)
    reads sup
  {
    sup.Live() && (sup.child == NoChild || sup.child == Reaped || sup.refused)
  }

  /** The child was collected before the deadline, with exit status 0. */
  ghost predicate InTime(sup: Supervisor)
    reads sup
  {
    sup.child == Reaped && sup.exitedZero && !sup.timedOut && sup.collectedAt < sup.start + TIMEOUT
  }

  /** Why a run failed. */
  ghost predicate Excused(sup: Supervisor)
    reads sup
  {
    sup.child == NoChild || sup.timedOut || sup.refused || !sup.exitedZero
  }

  /** Collects the child, and classifies it: past the deadline it is a timeout even if it was
      collected in order. */
  method Collect(sup: Supervisor) returns (err: int)
    requires sup.Live() && sup.Alive() && !sup.refused && !sup.timedOut
    modifies sup
    ensures Over(sup) && sup.clock >= old(sup.clock) && sup.start == old(sup.start) && sup.late <= 2 * RETRY
    ensures err == 0 || err == -1
    ensures err == 0 ==> InTime(sup) && old(sup.clock) <= sup.collectedAt
    ensures err != 0 ==> sup.timedOut || sup.refused || !sup.exitedZero
  {
    var zero := false;
    while true
      invariant sup.Live() && sup.Alive() && !sup.refused && sup.clock >= old(sup.clock)
      invariant sup.start == old(sup.start) && !sup.timedOut
      decreases sup.timer.value - sup.clock
    {
      sup.Elapse();
      var w := sup.WaitPid();
      match w {
        case Collected(exitedZero) =>
          zero := exitedZero;
          break;
        case Interrupted =>
          if sup.timedOut {
            var _ := sup.CheckChild();
            return -1;
          }
        case Refused =>
          return -1;
      }
    }
    sup.Elapse();
    if sup.timedOut {
      return -1;
    }
    err := if zero then 0 else -1;
  }

  /** A stage ended at its checkpoint: either all is well and in time, or the run is over. */
  twostate predicate Checked(sup: Supervisor, err: int, lateBy: int)
    reads sup
  {
    && (err == 0 || err == -1) && sup.clock >= old(sup.clock) && sup.start == old(sup.start)
    && (if err == 0 then sup.Live() && sup.Alive() && !sup.refused && !sup.timedOut
        else Over(sup) && sup.timedOut && sup.groupKilled)
    && sup.late <= lateBy * RETRY
  }

  method Checkpoint(sup: Supervisor, ghost lateBy: nat) returns (err: int)
    requires sup.Live() && sup.Alive() && !sup.refused && sup.late <= lateBy * RETRY
    modifies sup
    ensures Checked(sup, err, lateBy + 1)
  {
    sup.Elapse();
    err := sup.CheckChild();
  }

  method FeedStage(sup: Supervisor, talk: Talk, fds: Descriptors, ends: array<int>, stdin: seq<char>,
                   ghost base: set<int>)
    returns (err: int)
    requires sup.Live() && sup.Alive() && !sup.refused && !sup.timedOut && talk.fed == []
    requires ends.Length == 6 && Holds(fds.open, base, ends[..]) && forall j | 0 <= j < 6 :: ends[j] >= 0
    modifies sup, talk`fed, talk`broken, fds, ends
    ensures talk.fed <= stdin && (err == 0 ==> talk.fed == stdin || talk.broken)
    ensures Checked(sup, err, 2) && Holds(fds.open, base, ends[..])
    ensures ends[STDOUT_READ] >= 0 && ends[STDERR_READ] >= 0
  {
    CloseEnd(fds, ends, STDIN_READ, base);
    CloseEnd(fds, ends, STDOUT_WRITE, base);
    CloseEnd(fds, ends, STDERR_WRITE, base);
    WriteStdin(sup, talk, stdin);
    CloseEnd(fds, ends, STDIN_WRITE, base);
    err := Checkpoint(sup, 1);
  }

  method DrainStage(sup: Supervisor, talk: Talk, fds: Descriptors, ends: array<int>, i: nat, stream: seq<char>,
                    buf: array<char>, ghost base: set<int>)
    returns (err: int)
    requires sup.Live() && sup.Alive() && !sup.refused && !sup.timedOut
    requires i < ends.Length && ends[i] >= 0 && Holds(fds.open, base, ends[..])
    modifies sup, talk`lost, fds, ends, buf
    ensures (old(talk.lost) ==> talk.lost) && (err == 0 ==> Complete(buf, stream) || talk.lost)
    ensures Checked(sup, err, buf.Length + 1) && Holds(fds.open, base, ends[..]) && Received(buf, stream)
    ensures forall j | 0 <= j < ends.Length && j != i :: ends[j] == old(ends[j])
  {
    if buf.Length > 0 {
      var _ := ReadAll(sup, talk, stream, buf);
    }
    CloseEnd(fds, ends, i, base);
    err := Checkpoint(sup, buf.Length);
  }

  /** Unless a pipe failed, the child was given all its input and the buffers have its output. */
  ghost predicate Conveyed(talk: Talk, stdin: seq<char>, stdout: seq<char>, stderr: seq<char>, outBuf: array<char>,
                           errBuf: array<char>)
    reads talk, outBuf, errBuf
  {
    (talk.fed == stdin || talk.broken) && (talk.lost || (Complete(outBuf, stdout) && Complete(errBuf, stderr)))
  }

  /** From the spawned child to its collection, with a checkpoint after every stage. */
  method Converse(sup: Supervisor, talk: Talk, fds: Descriptors, ends: array<int>, stdin: seq<char>, stdout: seq<char>,
                  stderr: seq<char>, outBuf: array<char>, errBuf: array<char>, ghost base: set<int>)
    returns (err: int)
    requires sup.Live() && sup.Alive() && !sup.refused && sup.late == 0
    requires ends.Length == 6 && Holds(fds.open, base, ends[..]) && forall j | 0 <= j < 6 :: ends[j] >= 0
    requires outBuf != errBuf && Received(outBuf, stdout) && Received(errBuf, stderr)
    requires talk.fed == [] && !talk.broken && !talk.lost
    modifies sup, talk, fds, ends, outBuf, errBuf
    ensures talk.fed <= stdin && (err == 0 ==> Conveyed(talk, stdin, stdout, stderr, outBuf, errBuf))
    ensures Received(outBuf, stdout) && Received(errBuf, stderr)
    ensures Over(sup) && sup.clock >= old(sup.clock) && sup.start == old(sup.start)
    ensures sup.late <= (outBuf.Length + errBuf.Length + 2) * RETRY
    ensures Holds(fds.open, base, ends[..]) && (err == 0 || err == -1)
    ensures if err == 0 then InTime(sup) && old(sup.clock) <= sup.collectedAt else Excused(sup)
  {
    hide Received, Complete, InTime, Delivered;
    err := Checkpoint(sup, 0);
    if err != 0 {
      return;
    }
    err := FeedStage(sup, talk, fds, ends, stdin, base);
    if err != 0 {
      return;
    }
    err := DrainStage(sup, talk, fds, ends, STDOUT_READ, stdout, outBuf, base);
    if err != 0 {
      return;
    }
    err := DrainStage(sup, talk, fds, ends, STDERR_READ, stderr, errBuf, base);
    if err != 0 {
      return;
    }
    err := Collect(sup);
  }

  /** Everything under the deadline. */
  method Attempt(sup: Supervisor, talk: Talk, fds: Descriptors, ends: array<int>, stdin: seq<char>, stdout: seq<char>,
                 stderr: seq<char>, outBuf: array<char>, errBuf: array<char>, ghost base: set<int>)
    returns (err: int)
    requires sup.Live() && sup.child == NoChild && !sup.refused && sup.late == 0
    requires ends.Length == 6 && (forall j | 0 <= j < 6 :: ends[j] == -1) && Holds(fds.open, base, ends[..])
    requires outBuf != errBuf && Received(outBuf, stdout) && Received(errBuf, stderr)
    requires talk.fed == [] && !talk.broken && !talk.lost
    modifies sup, talk, fds, ends, outBuf, errBuf
    ensures talk.fed <= stdin && (err == 0 ==> Conveyed(talk, stdin, stdout, stderr, outBuf, errBuf))
    ensures Over(sup) && sup.clock >= old(sup.clock) && sup.start == old(sup.start)
    ensures sup.late <= (outBuf.Length + errBuf.Length + 2) * RETRY
    ensures Holds(fds.open, base, ends[..]) && (err == 0 || err == -1)
    ensures Received(outBuf, stdout) && Received(errBuf, stderr)
    ensures if err == 0 then InTime(sup) && old(sup.clock) <= sup.collectedAt else Excused(sup)
  {
    hide Received, Conveyed;
    err := Launch(sup, fds, ends, base);
    if err == 0 {
      err := Converse(sup, talk, fds, ends, stdin, stdout, stderr, outBuf, errBuf, base);
    }
  }

  /** Disarms; a success clears the flag, which an alarm may have set since the last check. */
  method Conclude(sup: Supervisor, err: int)
    requires Over(sup) && if err == 0 then InTime(sup) else Excused(sup)
    modifies sup
    ensures sup.timer == None && !sup.pending && !sup.masked && sup.clock >= old(sup.clock)
    ensures sup.start == old(sup.start) && sup.blocked == old(sup.blocked) && sup.collectedAt == old(sup.collectedAt)
    ensures sup.child == NoChild || sup.child == Reaped || sup.refused
    ensures if err == 0 then InTime(sup) else Excused(sup)
    ensures sup.timedOut ==> err != 0 && sup.clock >= sup.start + TIMEOUT
  {
    sup.Elapse();
    sup.Disarm();
    if err == 0 {
      sup.timedOut := false;
    }
  }

  method Clear(buf: array<char>, ghost stream: seq<char>)
    modifies buf
    ensures Received(buf, stream)
  {
    if buf.Length > 0 {
      buf[0] := '\0';
      assert Delivered(buf, stream, 0);
    }
  }

  /** `exec_with_stdio`. Terminates over every interleaving of alarms; leaves no alarm, no pending
      signal and no descriptor behind; never reports a timeout before the deadline, nor success
      unless the child was collected within it; the buffers hold prefixes of what the child wrote. */
  method ExecWithStdio(sup: Supervisor, talk: Talk, fds: Descriptors, stdin: seq<char>, stdout: seq<char>,
                       stderr: seq<char>, outBuf: array<char>, errBuf: array<char>)
    returns (err: int)
    requires sup.usable && !sup.masked && outBuf != errBuf
    requires talk.fed == [] && !talk.broken && !talk.lost
    modifies sup, talk, fds, outBuf, errBuf
    ensures fds.open == old(fds.open) && (err == 0 || err == -1)
    ensures talk.fed <= stdin && (err == 0 ==> Conveyed(talk, stdin, stdout, stderr, outBuf, errBuf))
    ensures Received(outBuf, stdout) && Received(errBuf, stderr)
    ensures sup.timer == None && !sup.pending && !sup.masked
    ensures sup.child == NoChild || sup.child == Reaped || sup.refused
    ensures sup.timedOut ==> err != 0 && sup.clock >= sup.start + TIMEOUT
    ensures if err == 0 then InTime(sup) && sup.start <= sup.collectedAt else Excused(sup)
    ensures sup.start >= old(sup.clock)
    ensures sup.blocked <= TIMEOUT + (outBuf.Length + errBuf.Length + 2) * RETRY
  {
    hide Received, Conveyed, InTime, Excused;
    var ends := new int[6](_ => -1);
    ghost var base := fds.open;
    Clear(outBuf, stdout);
    Clear(errBuf, stderr);
    sup.Arm();
    assert EndSet(ends[..]) == {};
    err := Attempt(sup, talk, fds, ends, stdin, stdout, stderr, outBuf, errBuf, base);
    Conclude(sup, err);
    CloseAll(fds, ends, base);
  }

  // ---- what a run amounts to ----------------------------------------------------------------------

  /** The C string at the head of a buffer. */
  function TextOf(s: seq<char>): (t: string)
    ensures |t| <= |s| && t == s[..|t|] && '\0' !in t && (|t| < |s| ==> s[|t|] == '\0')
  {
    if s == [] || s[0] == '\0' then [] else [s[0]] + TextOf(s[1..])
  }

  lemma {:induction false} TextOfPrefix(s: seq<char>, t: seq<char>)
    requires s <= t
    ensures TextOf(s) <= TextOf(t)
  {
    if s != [] && s[0] != '\0' {
      assert s[1..] <= t[1..];
      TextOfPrefix(s[1..], t[1..]);
    }
  }

  lemma {:induction false} TextOfTerminated(s: seq<char>, t: seq<char>)
    requires |s| < |t| && t[..|s|] == s && t[|s|] == '\0'
    ensures TextOf(t) == TextOf(s)
  {
    if s != [] && s[0] != '\0' {
      assert t[1..][..|s| - 1] == s[1..];
      TextOfTerminated(s[1..], t[1..]);
    }
  }

  predicate OccursAt(m: string, s: string, i: int) {
    0 <= i <= |s| - |m| && s[i..i + |m|] == m
  }

  ghost predicate Occurs(m: string, s: string) {
    exists i :: OccursAt(m, s, i)
  }

  lemma OccursInLonger(m: string, s: string, t: string)
    requires s <= t && Occurs(m, s)
    ensures Occurs(m, t)
  {
    var i :| OccursAt(m, s, i);
    assert t[i..i + |m|] == s[i..i + |m|];
    assert OccursAt(m, t, i);
  }

  /** `strstr` on a buffer. */
  method Mentions(buf: array<char>, m: string) returns (found: bool)
    ensures found <==> Occurs(m, TextOf(buf[..]))
  {
    var text := TextOf(buf[..]);
    var i := 0;
    while i + |m| <= |text|
      invariant 0 <= i && forall j | 0 <= j < i :: !OccursAt(m, text, j)
      decreases |text| - i
    {
      if text[i..i + |m|] == m {
        assert OccursAt(m, text, i);
        return true;
      }
      i := i + 1;
    }
    found := false;
  }

  /** What the caller can see of a stream in a buffer of the given size. */
  function Visible(stream: seq<char>, size: nat): string {
    if size == 0 then [] else TextOf(Text.Cut(stream, size))
  }

  lemma BufferShows(buf: array<char>, stream: seq<char>)
    requires Received(buf, stream)
    ensures TextOf(buf[..]) <= TextOf(stream)
    ensures Complete(buf, stream) ==> TextOf(buf[..]) == Visible(stream, buf.Length)
  {
    if buf.Length > 0 {
      var n: nat :| Delivered(buf, stream, n);
      TextOfTerminated(stream[..n], buf[..]);
      TextOfPrefix(stream[..n], stream);
      if Complete(buf, stream) {
        TextOfTerminated(Text.Cut(stream, buf.Length), buf[..]);
      }
    }
  }

  /** `run_tuctl_script`, and with an empty marker `run_ktuctl`: what the subprocess amounts to for
      the protocol, where `applied` is whether a failed one took effect all the same. It is
      acknowledged exactly when the child exits with status 0 before the deadline and the marker is
      in its output. The flag left behind is the call's, so a pass that reads the flag learns of
      its own last subprocess, and never that an acknowledged one timed out. */
  method RunCall(sup: Supervisor, talk: Talk, fds: Descriptors, stdin: seq<char>, stdout: seq<char>,
                 stderr: seq<char>, outBuf: array<char>, errBuf: array<char>, marker: string, applied: bool)
    returns (rc: int, call: Call)
    requires sup.usable && !sup.masked && outBuf != errBuf && talk.fed == [] && !talk.broken && !talk.lost
    modifies sup, talk, fds, outBuf, errBuf
    ensures rc == (if call.Acked? then 0 else -1) && sup.timedOut == TimedOut(call)
    ensures call.Acked? ==>
              && sup.child == Reaped && sup.exitedZero && sup.collectedAt < sup.start + TIMEOUT
              && (talk.fed == stdin || talk.broken)
              && (marker == "" || Occurs(marker, TextOf(stdout)) || Occurs(marker, TextOf(stderr)))
    ensures && sup.child == Reaped && sup.exitedZero && !sup.timedOut && !sup.refused && !talk.lost
            && (marker == "" || Occurs(marker, Visible(stdout, outBuf.Length))
                || Occurs(marker, Visible(stderr, errBuf.Length)))
            ==> call.Acked?
    ensures TimedOut(call) ==> sup.clock >= sup.start + TIMEOUT
    ensures sup.timer == None && !sup.pending && !sup.masked && fds.open == old(fds.open)
  {
    rc := ExecWithStdio(sup, talk, fds, stdin, stdout, stderr, outBuf, errBuf);
    if rc != 0 {
      return -1, Failed(applied, sup.timedOut);
    }
    BufferShows(outBuf, stdout);
    BufferShows(errBuf, stderr);
    if marker != "" {
      var out := Mentions(outBuf, marker);
      var err := Mentions(errBuf, marker);
      if !out && !err {
        return -1, Failed(applied, false);
      }
      if out { OccursInLonger(marker, TextOf(outBuf[..]), TextOf(stdout)); }
      if err { OccursInLonger(marker, TextOf(errBuf[..]), TextOf(stderr)); }
    }
    call := Acked;
  }
}
