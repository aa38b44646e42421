/** The subprocess deadline of src/runner.c. The kernel's side (clock, alarm, pending signal, child,
    descriptors) is nondeterministic: time passes and SIGALRM arrives at any unmasked point, between
    any two statements and during every blocking call. A contract proved here holds over all of
    those interleavings. */
module Watchdog {
  import opened Types

  const SECOND := 1000
  const TIMEOUT := 90 * SECOND
  const RETRY := 5 * SECOND

  datatype Child = NoChild | Running | Zombie | Reaped

  datatype Wait = Collected(exitedZero: bool) | Interrupted | Refused

  class Supervisor {
    /** Whether the SIGALRM handler could be installed. */
    const usable: bool
    var clock: int
    /** When the one-shot alarm is due. */
    var timer: Option<int>
    var pending: bool
    var masked: bool
    /** `g_watchdog_timed_out`. */
    var timedOut: bool
    var child: Child

    /** When the deadline was last armed; time spent blocked since, and of that, after it expired. */
    ghost var start: int
    ghost var blocked: int
    ghost var late: int
    /** When the child was collected and whether with exit status 0, whether a wait was refused for
        another reason than a signal, and whether the child's process group was killed. */
    ghost var collectedAt: int
    ghost var exitedZero: bool
    ghost var refused: bool
    ghost var groupKilled: bool

    constructor (usable: bool)
      ensures this.usable == usable && !masked && !pending && timer == None && child == NoChild
    {
      this.usable := usable;
      clock, timer, pending, masked, timedOut, child := 0, None, false, false, false, NoChild;
      start, blocked, late, collectedAt, exitedZero, refused, groupKilled := 0, 0, 0, 0, false, false, false;
    }

    ghost predicate Alive()
      reads this
    {
      child == Running || child == Zombie
    }

    /** Between arm and disarm, with SIGALRM unblocked: an alarm is always on its way. Before the
        deadline it is the deadline itself; afterwards it is at most one retry interval off. */
    ghost predicate Live()
      reads this
    {
      && usable && !masked && !pending && timer.Some? && clock < timer.value
      && start <= clock && 0 <= late
      && (!timedOut ==> timer.value == start + TIMEOUT && late == 0 && blocked <= clock - start)
      && (timedOut ==> timer.value <= clock + RETRY && clock >= start + TIMEOUT && blocked <= TIMEOUT + late)
    }

    // ---- the kernel ------------------------------------------------------------------------------

    /** The alarm handler: sets the flag and arms the next alarm. */
    method AlarmHandler()
      requires usable && !masked && pending
      modifies this`pending, this`timedOut, this`timer
      ensures !pending && timedOut && timer == Some(clock + RETRY)
    {
      pending := false;
      timedOut := true;
      timer := Some(clock + RETRY);
    }

    /** An alarm left alone while it is not due, and turned into a pending signal when it is. */
    static predicate Raised(timer: Option<int>, pending: bool, timer': Option<int>, pending': bool, now: int) {
      if timer.Some? && timer.value <= now then timer' == None && pending'
      else timer' == timer && pending' == pending
    }

    /** Lets some time pass, raising the alarm if it falls due and delivering it if unmasked. */
    method Tick(dt: nat)
      requires usable
      modifies this`clock, this`timer, this`pending, this`timedOut
      ensures clock == old(clock) + dt
      ensures masked ==> timedOut == old(timedOut) && Raised(old(timer), old(pending), timer, pending, clock)
      ensures !masked ==> !pending && (timer.Some? ==> clock < timer.value)
      ensures !masked && old(pending) ==> timer == Some(clock + RETRY) && timedOut
      ensures !masked && !old(pending) && old(timer).Some? ==>
                if clock < old(timer).value then timer == old(timer) && timedOut == old(timedOut)
                else timer == Some(clock + RETRY) && timedOut
    {
      clock := clock + dt;
      if timer.Some? && timer.value <= clock {
        timer := None;
        pending := true;
      }
      if pending && !masked {
        AlarmHandler();
      }
    }

    /** Any amount of time passes between two statements, in any number of steps; a running child
        may exit. */
    method Elapse()
      requires Live()
      modifies this`clock, this`timer, this`pending, this`timedOut, this`child
      ensures Live() && clock >= old(clock) && (old(timedOut) ==> timedOut)
      ensures !timedOut ==> timer == old(timer)
      ensures child == old(child) || (old(child) == Running && child == Zombie)
    {
      var steps: nat :| 0 <= steps;
      while steps > 0
        invariant Live() && clock >= old(clock) && (old(timedOut) ==> timedOut)
        invariant child == old(child) && (!timedOut ==> timer == old(timer))
      {
        var dt: nat :| 0 <= dt;
        Tick(dt);
        steps := steps - 1;
      }
      var exits: bool := *;
      if exits && child == Running {
        child := Zombie;
      }
    }

    /** A blocking call that may be interrupted: it ends when it completes, when some other signal
        arrives, which takes at least one tick, or at the latest when the alarm fires. A call that
        the alarm cuts short may still report partial progress instead of an interruption. */
    method Block() returns (interrupted: bool)
      requires Live()
      modifies this`clock, this`timer, this`pending, this`timedOut, this`blocked, this`late
      ensures Live() && clock >= old(clock) && clock <= old(timer).value && (old(timedOut) ==> timedOut)
      ensures !timedOut ==> timer == old(timer)
      ensures interrupted && !timedOut ==> clock > old(clock)
      ensures late <= old(late) + RETRY && (!old(timedOut) ==> late == old(late))
    {
      var dt: nat :| 0 <= dt;
      interrupted := *;
      if dt == 0 {
        interrupted := false;
      }
      if dt > timer.value - clock {
        dt := timer.value - clock;
      }
      blocked := blocked + dt;
      if timedOut {
        late := late + dt;
      }
      Tick(dt);
    }

    /** `kill(-pid, SIGKILL)`: reaches the child unless it is not a group leader. */
    method KillGroup()
      requires Alive()
      modifies this`child, this`groupKilled
      ensures Alive() && groupKilled
    {
      groupKilled := true;
      var reached: bool := *;
      if reached {
        child := Zombie;
      }
    }

    /** `kill(pid, SIGKILL)`. */
    method KillChild()
      requires Alive()
      modifies this`child
      ensures child == Zombie
    {
      child := Zombie;
    }

    /** `waitpid(pid, …, 0)`: collects a zombie at once, otherwise blocks. */
    method WaitPid() returns (w: Wait)
      requires Live() && Alive()
      modifies this`clock, this`timer, this`pending, this`timedOut, this`blocked, this`late, this`child,
               this`collectedAt, this`exitedZero, this`refused
      ensures Live() && clock >= old(clock) && clock <= old(timer).value && (old(timedOut) ==> timedOut)
      ensures !timedOut ==> timer == old(timer)
      ensures late <= old(late) + RETRY && (!old(timedOut) ==> late == old(late))
      ensures old(refused) ==> refused
      ensures match w
              case Collected(zero) =>
                child == Reaped && collectedAt == clock && exitedZero == zero && refused == old(refused)
              case Interrupted =>
                Alive() && old(child) == Running && (!timedOut ==> clock > old(clock)) && refused == old(refused)
              case Refused => Alive() && refused
      ensures old(child) == Zombie ==> late == old(late)
    {
      var fails, zero: bool := *, *;
      if fails {
        refused := true;
        return Refused;
      }
      if child == Running {
        var interrupted := Block();
        if interrupted {
          return Interrupted;
        }
      }
      child := Reaped;
      collectedAt, exitedZero := clock, zero;
      w := Collected(zero);
    }

    // ---- src/runner.c ------------------------------------------------------------------------------

    /** `watchdog_discard_pending`, with SIGALRM masked. */
    method DiscardPending()
      requires masked
      modifies this`pending
      ensures !pending
    {
      while pending
        decreases pending
      {
        pending := false;
      }
    }

    /** Time passing inside the masked sections. */
    method ElapseMasked()
      requires usable && masked
      modifies this`clock, this`timer, this`pending, this`timedOut
      ensures clock >= old(clock) && timedOut == old(timedOut)
      ensures Raised(old(timer), old(pending), timer, pending, clock)
    {
      var dt: nat :| 0 <= dt;
      Tick(dt);
    }

    /** `watchdog_arm`: whatever alarm, pending signal or flag an earlier use left behind, the new
        deadline starts clean. */
    method Arm()
      requires usable && !masked
      modifies this
      ensures Live() && start >= old(clock) && child == NoChild && !refused && late == 0
    {
      blocked, late, child, refused, groupKilled := 0, 0, NoChild, false, false;
      masked := true;
      ElapseMasked();
      timer := None;
      ElapseMasked();
      DiscardPending();
      timedOut := false;
      timer := Some(clock + TIMEOUT);
      start := clock;
      ElapseMasked();
      masked := false;
      Tick(0);
    }

    /** `watchdog_disarm`: leaves neither an alarm nor a pending signal, and keeps the flag. */
    method Disarm()
      requires Live()
      modifies this`clock, this`timer, this`pending, this`timedOut, this`masked
      ensures timer == None && !pending && !masked && timedOut == old(timedOut) && clock >= old(clock)
    {
      masked := true;
      ElapseMasked();
      timer := None;
      ElapseMasked();
      DiscardPending();
      masked := false;
    }

    /** `watchdog_check` on a child not yet collected. A child past its deadline is killed and
        collected; the second, direct kill bounds the wait by one retry interval. */
    method CheckChild() returns (err: int)
      requires Live() && Alive()
      modifies this`clock, this`timer, this`pending, this`timedOut, this`blocked, this`late, this`child,
               this`collectedAt, this`exitedZero, this`refused, this`groupKilled
      ensures Live() && clock >= old(clock) && (old(timedOut) ==> timedOut) && (old(refused) ==> refused)
      ensures err == 0 ==> Alive() && late == old(late) && refused == old(refused) && !timedOut && start == old(start)
      ensures err != 0 ==> err == -1 && timedOut && groupKilled && (child == Reaped || refused)
      ensures late <= old(late) + RETRY
    {
      if !timedOut {
        return 0;
      }
      err := -1;
      KillGroup();
      Elapse();
      var w := WaitPid();
      while w.Interrupted?
        invariant Live() && clock >= old(clock) && timedOut && (old(refused) ==> refused)
        invariant groupKilled && late <= old(late) + RETRY && (w.Interrupted? ==> Alive())
        invariant !w.Interrupted? ==> child == Reaped || refused
        decreases if w.Interrupted? then (if child == Running then 2 else 1) else 0
      {
        KillChild();
        w := WaitPid();
      }
    }
  }
}
