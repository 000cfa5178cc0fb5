/**
 * The helper thread: one note for every connect handed to it.
 *
 * A job goes from the channel to `pending`, and from there, as a note, to its
 * core's backlog and out through its pipe. The ledger below says where every
 * job is, at every step.
 */
module Helper {
  import opened Wrappers
  import opened Machine
  import opened Ordering
  import opened Notes

  datatype Job = Job(fd: i32, core: nat, deadline: int)

  datatype Revents = Revents(input: bool, output: bool, err: bool, hup: bool, nval: bool)

  const QUIET := Revents(false, false, false, false, false)

  /** One slot of the poll set. */
  datatype Entry = WakePipe | Connecting(fd: i32) | Owing(core: nat)

  /** What reading a socket's error gave: a code, or a failure with or without an errno. */
  datatype SockError = Code(code: i32) | Unreadable(errno: Option<i32>)

  datatype WriteResult = Whole | Short | WouldBlock | Hard

  const EIO: i32 := 5
  const EBADF: i32 := 9
  const ECONNRESET: i32 := 104
  const ETIMEDOUT: i32 := 110
  const ECANCELED: i32 := 125

  type Queues = seq<seq<Note>>

  // -------------------------------------------------------------------------
  // The ledger
  // -------------------------------------------------------------------------

  /** What a job is known by from the outside: its socket, and who is waiting. */
  type Token = (i32, nat)

  /** How many of these jobs are known by `t`. */
  function JobCount(jobs: seq<Job>, t: Token): nat {
    if jobs == [] then 0
    else JobCount(jobs[..|jobs| - 1], t) + if (jobs[|jobs| - 1].fd, jobs[|jobs| - 1].core) == t then 1 else 0
  }

  /** Whether a note answers the job known by `t`; a tick answers nobody. */
  function Answers(core: nat, note: Note, t: Token): nat {
    if note.Connected? && (note.fd, core) == t then 1 else 0
  }

  function NoteCount(core: nat, notes: seq<Note>, t: Token): nat {
    if notes == [] then 0
    else NoteCount(core, notes[..|notes| - 1], t) + Answers(core, notes[|notes| - 1], t)
  }

  function QueueCount(queues: Queues, t: Token): nat {
    if queues == [] then 0
    else QueueCount(queues[..|queues| - 1], t) + NoteCount(|queues| - 1, queues[|queues| - 1], t)
  }

  lemma {:induction false} JobCountConcat(a: seq<Job>, b: seq<Job>, t: Token)
    ensures JobCount(a + b, t) == JobCount(a, t) + JobCount(b, t)
  {
    if b == [] {
      assert a + b == a;
    } else {
      JobCountConcat(a, b[..|b| - 1], t);
      assert (a + b)[..|a + b| - 1] == a + b[..|b| - 1];
    }
  }

  lemma {:induction false} NoteCountConcat(core: nat, a: seq<Note>, b: seq<Note>, t: Token)
    ensures NoteCount(core, a + b, t) == NoteCount(core, a, t) + NoteCount(core, b, t)
  {
    if b == [] {
      assert a + b == a;
    } else {
      NoteCountConcat(core, a, b[..|b| - 1], t);
      assert (a + b)[..|a + b| - 1] == a + b[..|b| - 1];
    }
  }

  /** Changing one queue changes the total by that queue's change. */
  lemma {:induction false} QueueChange(queues: Queues, core: nat, q: seq<Note>, t: Token)
    requires core < |queues|
    ensures QueueCount(queues[core := q], t) == QueueCount(queues, t) - NoteCount(core, queues[core], t) + NoteCount(core, q, t)
  {
    var n := |queues| - 1;
    if core < n {
      QueueChange(queues[..n], core, q, t);
      assert queues[core := q][..n] == queues[..n][core := q];
    } else {
      assert queues[core := q][..n] == queues[..n];
    }
  }

  lemma OneJob(job: Job, t: Token)
    ensures JobCount([job], t) == if (job.fd, job.core) == t then 1 else 0
  {
    assert [job][..0] == [];
  }

  lemma OneNote(core: nat, note: Note, t: Token)
    ensures NoteCount(core, [note], t) == Answers(core, note, t)
  {
    assert [note][..0] == [];
  }

  /** A queued note is one more answer, unless it is a tick. */
  lemma PushCounts(queues: Queues, core: nat, note: Note, t: Token)
    requires core < |queues|
    ensures QueueCount(queues[core := queues[core] + [note]], t) == QueueCount(queues, t) + Answers(core, note, t)
  {
    QueueChange(queues, core, queues[core] + [note], t);
    NoteCountConcat(core, queues[core], [note], t);
    OneNote(core, note, t);
  }

  lemma JobCountSplit(jobs: seq<Job>, i: nat, t: Token)
    requires i < |jobs|
    ensures JobCount(jobs, t) == JobCount(jobs[..i] + jobs[i + 1..], t) + JobCount([jobs[i]], t)
  {
    assert jobs == jobs[..i] + ([jobs[i]] + jobs[i + 1..]);
    JobCountConcat(jobs[..i], [jobs[i]] + jobs[i + 1..], t);
    JobCountConcat([jobs[i]], jobs[i + 1..], t);
    JobCountConcat(jobs[..i], jobs[i + 1..], t);
  }

  /** Where a job stands among the others is not part of the ledger. */
  lemma {:induction false} JobCountForgetsOrder(jobs: seq<Job>, others: seq<Job>, t: Token)
    requires multiset(jobs) == multiset(others)
    ensures JobCount(jobs, t) == JobCount(others, t)
    decreases |jobs|
  {
    SameMembers(jobs, others);
    if |jobs| == 0 {
      assert jobs == others;
    } else {
      var i := Located(jobs, others);
      JobCountForgetsOrder(jobs[1..], others[..i] + others[i + 1..], t);
      JobCountSplit(jobs, 0, t);
      JobCountSplit(others, i, t);
      assert jobs[..0] + jobs[0 + 1..] == jobs[1..];
    }
  }

  // -------------------------------------------------------------------------
  // The poll set
  // -------------------------------------------------------------------------

  function OwingCores(queues: Queues): seq<Entry> {
    if queues == [] then []
    else
      var n := |queues| - 1;
      OwingCores(queues[..n]) + if queues[n] != [] then [Owing(n)] else []
  }

  /** The wake pipe, then every pending socket, then every pipe that owes something. */
  function PollSet(pending: seq<Job>, queues: Queues): seq<Entry> {
    [WakePipe] + MapSeq((j: Job) => Connecting(j.fd), pending) + OwingCores(queues)
  }

  function SeenAt(revents: seq<Revents>, i: nat): Revents {
    if i < |revents| then revents[i] else QUIET
  }

  /** Whatever the poll reported, jobs received after it see nothing of it. */
  ghost predicate LateJobsSeeNothing(pending: seq<Job>, late: seq<Job>, queues: Queues) {
    forall revents: seq<Revents>, j: nat ::
      |revents| == |PollSet(pending, queues)| && |pending| < j <= |pending| + |late| ==> SeenAt(revents, j) == QUIET
  }

  /**
   * Jobs polled are judged by their own entry. Jobs received after the poll are
   * judged by silence, whatever the poll reported, exactly when there were none
   * or no pipe owed anything: otherwise one reads a pipe's entry.
   */
  lemma LateJobsReadSilenceExactly(pending: seq<Job>, late: seq<Job>, queues: Queues)
    ensures forall i :: 0 <= i < |pending| ==> PollSet(pending, queues)[1..][i] == Connecting(pending[i].fd)
    ensures LateJobsSeeNothing(pending, late, queues) <==> late == [] || OwingCores(queues) == []
  {
    var n := |PollSet(pending, queues)|;
    assert n == 1 + |pending| + |OwingCores(queues)|;
    if late != [] && OwingCores(queues) != [] {
      var writable := QUIET.(output := true);
      var revents := seq(n, _ => writable);
      assert SeenAt(revents, |pending| + 1) == writable;
    }
  }

  /** Bounding the lookup by where the pipes start spares every late job. */
  lemma BoundedLookupSparesLateJobs(pending: seq<Job>, queues: Queues, revents: seq<Revents>, i: nat)
    requires |revents| == |PollSet(pending, queues)|
    ensures var start := 1 + |pending|;
            SeenAt(revents[..start], i + 1) == if i < |pending| then revents[i + 1] else QUIET
  {
  }

  // -------------------------------------------------------------------------
  // Judging a connect
  // -------------------------------------------------------------------------

  /** Nothing yet, or the error to report. */
  function Fate(job: Job, seen: Revents, now: int, sock: i32 -> SockError): Option<i32> {
    var timedOut := now >= job.deadline;
    if seen == QUIET && !timedOut then None
    else if seen.nval then Some(EBADF)
    else if timedOut && seen == QUIET then Some(ETIMEDOUT)
    else
      match sock(job.fd)
      case Code(code) => Some(if code == 0 && (seen.err || seen.hup) then ECONNRESET else code)
      case Unreadable(errno) => Some(if errno.Some? then errno.value else EIO)
  }

  /**
   * The misread entry matters: with nothing pending and one core's pipe owing a
   * tick, a job received after the poll reads that pipe's writability and is
   * reported connected while its socket, never polled, has no error yet.
   */
  lemma LateJobReportedConnected(late: Job, sock: i32 -> SockError)
    requires late.deadline > 0 && sock(late.fd) == Code(0)
    ensures var set', revents := PollSet([], [[Tick]]), [QUIET, QUIET.(output := true)];
            && |revents| == |set'| && Connecting(late.fd) !in set'
            && Fate(late, SeenAt(revents, 1), 0, sock) == Some(0)
            && Fate(late, QUIET, 0, sock) == None
  {
    assert [[Tick]][..0] == [];
    assert OwingCores([]) == [];
    assert OwingCores([[Tick]]) == [Owing(0)];
    assert PollSet([], [[Tick]]) == [WakePipe, Owing(0)];
  }

  /** What a retirement pass is decided by. */
  datatype Verdicts = Verdicts(revents: seq<Revents>, now: int, sock: i32 -> SockError)

  function FateAt(jobs: seq<Job>, v: Verdicts, i: nat): Option<i32>
    requires i < |jobs|
  {
    Fate(jobs[i], SeenAt(v.revents, i + 1), v.now, v.sock)
  }

  /** The jobs at `i` and beyond that stay, in their original order. */
  function Survivors(jobs: seq<Job>, v: Verdicts, i: nat): seq<Job>
    requires i <= |jobs|
    decreases |jobs| - i
  {
    if i == |jobs| then []
    else (if FateAt(jobs, v, i).None? then [jobs[i]] else []) + Survivors(jobs, v, i + 1)
  }

  predicate CoresFit(jobs: seq<Job>, queues: Queues) {
    forall i :: 0 <= i < |jobs| ==> jobs[i].core < |queues|
  }

  /** The queues once the jobs at `i` and beyond have been answered, last first. */
  function Answered(jobs: seq<Job>, v: Verdicts, queues: Queues, i: nat): (r: Queues)
    requires i <= |jobs| && CoresFit(jobs, queues)
    ensures |r| == |queues|
    decreases |jobs| - i
  {
    if i == |jobs| then queues
    else
      var later := Answered(jobs, v, queues, i + 1);
      match FateAt(jobs, v, i)
      case None => later
      case Some(err) => later[jobs[i].core := later[jobs[i].core] + [Connected(jobs[i].fd, err)]]
  }

  lemma OneMoreJob(jobs: seq<Job>, i: nat, t: Token)
    requires i < |jobs|
    ensures JobCount(jobs[i..], t) == JobCount([jobs[i]], t) + JobCount(jobs[i + 1..], t)
  {
    assert jobs[i..] == [jobs[i]] + jobs[i + 1..];
    JobCountConcat([jobs[i]], jobs[i + 1..], t);
  }

  /** Retiring moves each finished job from `pending` to its core's queue. */
  lemma {:induction false} RetiringConserves(jobs: seq<Job>, v: Verdicts, queues: Queues, i: nat, t: Token)
    requires i <= |jobs| && CoresFit(jobs, queues)
    ensures JobCount(Survivors(jobs, v, i), t) + QueueCount(Answered(jobs, v, queues, i), t)
         == JobCount(jobs[i..], t) + QueueCount(queues, t)
    decreases |jobs| - i
  {
    if i < |jobs| {
      RetiringConserves(jobs, v, queues, i + 1, t);
      OneMoreJob(jobs, i, t);
      OneJob(jobs[i], t);
      match FateAt(jobs, v, i)
      case None => JobCountConcat([jobs[i]], Survivors(jobs, v, i + 1), t);
      case Some(err) =>
        assert Survivors(jobs, v, i) == Survivors(jobs, v, i + 1);
        PushCounts(Answered(jobs, v, queues, i + 1), jobs[i].core, Connected(jobs[i].fd, err), t);
    } else {
      assert jobs[i..] == [];
    }
  }

  /** At most one tick in a queue, and only with nothing ahead of it. */
  ghost predicate TicksLead(queues: Queues) {
    forall c, j :: 0 <= c < |queues| && 0 < j < |queues[c]| ==> queues[c][j] != Tick
  }

  lemma {:induction false} AnsweringKeepsTicksLeading(jobs: seq<Job>, v: Verdicts, queues: Queues, i: nat)
    requires i <= |jobs| && CoresFit(jobs, queues) && TicksLead(queues)
    ensures TicksLead(Answered(jobs, v, queues, i))
    decreases |jobs| - i
  {
    if i < |jobs| {
      AnsweringKeepsTicksLeading(jobs, v, queues, i + 1);
    }
  }

  // -------------------------------------------------------------------------
  // Writing
  // -------------------------------------------------------------------------

  /** What the next writes to each pipe will return: core, then attempt. */
  type Pipes = (nat, nat) -> WriteResult

  /** Every write is whole or would block: no pipe is broken and none writes short. */
  ghost predicate Healthy(pipes: Pipes) {
    forall core, n :: pipes(core, n).Whole? || pipes(core, n).WouldBlock?
  }

  /** A core's queue after a flush: a prefix went out whole, the rest waits or was dropped. */
  ghost predicate Flushed(pipes: Pipes, before: seq<Note>, sent: nat, kept: seq<Note>) {
    && sent <= |before|
    && (kept == before[sent..] || (kept == [] && !Healthy(pipes)))
  }

  /** One core's queue and pipe, before and after a flush; nothing overtakes anything. */
  ghost predicate FlushedInto(pipes: Pipes, before: seq<Note>, kept: seq<Note>, out: seq<Note>, delivered: seq<Note>) {
    exists sent: nat :: Flushed(pipes, before, sent, kept) && delivered == out + before[..sent]
  }

  ghost function Dropped(core: nat, notes: seq<Note>): (r: multiset<Token>)
    ensures forall t :: r[t] == NoteCount(core, notes, t)
  {
    if notes == [] then multiset{}
    else
      var note := notes[|notes| - 1];
      Dropped(core, notes[..|notes| - 1]) + if note.Connected? then multiset{(note.fd, core)} else multiset{}
  }

  lemma FrontMoves(backlog: Queues, delivered: Queues, core: nat)
    requires core < |backlog| == |delivered| && backlog[core] != []
    ensures forall t :: QueueCount(backlog[core := backlog[core][1..]], t)
                        + QueueCount(delivered[core := delivered[core] + [backlog[core][0]]], t)
                        == QueueCount(backlog, t) + QueueCount(delivered, t)
  {
    var note, rest := backlog[core][0], backlog[core][1..];
    assert backlog[core] == [note] + rest;
    forall t ensures QueueCount(backlog[core := rest], t) + QueueCount(delivered[core := delivered[core] + [note]], t)
                     == QueueCount(backlog, t) + QueueCount(delivered, t)
    {
      QueueChange(backlog, core, rest, t);
      NoteCountConcat(core, [note], rest, t);
      OneNote(core, note, t);
      PushCounts(delivered, core, note, t);
    }
  }

  lemma QueueDropped(backlog: Queues, core: nat, lost: multiset<Token>)
    requires core < |backlog|
    ensures forall t :: QueueCount(backlog[core := []], t) + (lost + Dropped(core, backlog[core]))[t] == QueueCount(backlog, t) + lost[t]
  {
    forall t ensures QueueCount(backlog[core := []], t) + NoteCount(core, backlog[core], t) == QueueCount(backlog, t) {
      QueueChange(backlog, core, [], t);
    }
  }

  /** Cancelling the first pending job moves it to its core's queue. */
  lemma Cancelled(pending: seq<Job>, backlog: Queues, note: Note)
    requires pending != [] && pending[0].core < |backlog| && note.Connected? && note.fd == pending[0].fd
    ensures forall t :: JobCount(pending[1..], t) + QueueCount(backlog[pending[0].core := backlog[pending[0].core] + [note]], t)
                        == JobCount(pending, t) + QueueCount(backlog, t)
  {
    forall t ensures JobCount(pending[1..], t) + QueueCount(backlog[pending[0].core := backlog[pending[0].core] + [note]], t)
                     == JobCount(pending, t) + QueueCount(backlog, t)
    {
      assert pending[0..] == pending;
      OneMoreJob(pending, 0, t);
      OneJob(pending[0], t);
      PushCounts(backlog, pending[0].core, note, t);
    }
  }

  class HelperLoop {
    var pending: seq<Job>
    var backlog: Queues
    var nextTick: int
    var channel: seq<Job>
    ghost var handed: multiset<Token>
    ghost var delivered: Queues
    ghost var lost: multiset<Token>

    /** Every job handed over is in exactly one place. */
    ghost predicate Ledger()
      reads this
    {
      forall t :: handed[t] == JobCount(channel, t) + JobCount(pending, t) + QueueCount(backlog, t)
                               + QueueCount(delivered, t) + lost[t]
    }

    ghost predicate Valid()
      reads this
    {
      && |delivered| == |backlog|
      && CoresFit(pending, backlog) && CoresFit(channel, backlog)
      && TicksLead(backlog)
      && Ledger()
    }

    constructor (cores: nat, firstTick: int)
      ensures Valid() && |backlog| == (if cores == 0 then 1 else cores)
      ensures handed == multiset{} && lost == multiset{} && pending == [] && channel == []
    {
      var n := if cores == 0 then 1 else cores;
      pending, channel, nextTick := [], [], firstTick;
      backlog := seq(n, _ => []);
      handed, lost := multiset{}, multiset{};
      delivered := seq(n, _ => []);
      new;
      forall t ensures QueueCount(backlog, t) == 0 && QueueCount(delivered, t) == 0 {
        EmptyQueues(backlog, t);
        EmptyQueues(delivered, t);
      }
    }

    /** `watch_connect`: at any moment, from any core. */
    method Hand(job: Job)
      requires Valid() && job.core < |backlog|
      modifies this`channel, this`handed
      ensures Valid() && handed == old(handed) + multiset{(job.fd, job.core)}
      ensures channel == old(channel) + [job]
    {
      forall t ensures JobCount(channel + [job], t) == JobCount(channel, t) + JobCount([job], t) {
        JobCountConcat(channel, [job], t);
      }
      forall t ensures JobCount([job], t) == if (job.fd, job.core) == t then 1 else 0 {
        OneJob(job, t);
      }
      channel := channel + [job];
      handed := handed + multiset{(job.fd, job.core)};
    }

    method BuildPollSet() returns (set': seq<Entry>)
      ensures set' == PollSet(pending, backlog)
    {
      set' := [WakePipe];
      for i := 0 to |pending|
        invariant set' == [WakePipe] + MapSeq((j: Job) => Connecting(j.fd), pending[..i])
      {
        assert pending[..i + 1][..i] == pending[..i];
        set' := set' + [Connecting(pending[i].fd)];
      }
      assert pending[..|pending|] == pending;
      ghost var sockets := set';
      for core := 0 to |backlog|
        invariant set' == sockets + OwingCores(backlog[..core])
      {
        assert backlog[..core + 1][..core] == backlog[..core];
        if backlog[core] != [] {
          set' := set' + [Owing(core)];
        }
      }
      assert backlog[..|backlog|] == backlog;
    }

    /** Receives everything handed over by now, polled or not. */
    method Drain()
      requires Valid()
      modifies this`channel, this`pending
      ensures Valid() && channel == [] && pending == old(pending + channel)
    {
      ghost var all := pending + channel;
      ghost var before := channel;
      forall t ensures JobCount(all, t) == JobCount(pending, t) + JobCount(channel, t) {
        JobCountConcat(pending, channel, t);
      }
      while channel != []
        invariant pending + channel == all && CoresFit(all, backlog)
        decreases |channel|
      {
        var job := channel[0];
        channel := channel[1..];
        pending := pending + [job];
      }
      assert pending == all;
    }

    /** Takes job `i` out, filling its place with the last one. */
    method SwapRemove(i: nat)
      requires i < |pending|
      modifies this`pending
      ensures |pending| == old(|pending|) - 1 && pending[..i] == old(pending[..i])
      ensures multiset(pending[i..]) == multiset(old(pending[i + 1..]))
    {
      var last := |pending| - 1;
      ghost var before := pending;
      pending := pending[i := pending[last]][..last];
      if i < last {
        assert before[i + 1..] == before[i + 1..last] + [before[last]];
        assert pending[i..] == [before[last]] + before[i + 1..last];
      } else {
        assert pending[i..] == [] && before[i + 1..] == [];
      }
    }

    method PushNote(core: nat, note: Note)
      requires core < |backlog|
      modifies this`backlog
      ensures backlog == old(backlog)[core := old(backlog)[core] + [note]]
    {
      backlog := backlog[core := backlog[core] + [note]];
    }

    /**
     * Answers the connects that are over, walking backwards so that what fills
     * a hole has been judged already.
     */
    method Judge(v: Verdicts)
      requires CoresFit(pending, backlog)
      modifies this`pending, this`backlog
      ensures multiset(pending) == multiset(Survivors(old(pending), v, 0))
      ensures backlog == Answered(old(pending), v, old(backlog), 0)
    {
      ghost var jobs, queues := pending, backlog;
      var i := |pending|;
      while i > 0
        invariant 0 <= i <= |jobs| && i <= |pending| && pending[..i] == jobs[..i]
        invariant multiset(pending[i..]) == multiset(Survivors(jobs, v, i))
        invariant backlog == Answered(jobs, v, queues, i)
        decreases i
      {
        i := i - 1;
        var job := pending[i];
        assert job == jobs[..i + 1][i] && pending[..i] == jobs[..i];
        assert pending[i..] == [job] + pending[i + 1..];
        var fate := Fate(job, SeenAt(v.revents, i + 1), v.now, v.sock);
        if fate.Some? {
          SwapRemove(i);
          PushNote(job.core, Connected(job.fd, fate.value));
        }
      }
      assert pending[0..] == pending;
    }

    /** Answers what is over, losing track of nothing. */
    method Retire(v: Verdicts)
      requires Valid()
      modifies this`pending, this`backlog
      ensures Valid()
      ensures multiset(pending) == multiset(Survivors(old(pending), v, 0))
      ensures backlog == Answered(old(pending), v, old(backlog), 0)
    {
      ghost var jobs, queues := pending, backlog;
      Judge(v);
      SurvivorsFit(jobs, v, queues, pending);
      RetiredBalance(jobs, v, queues, pending);
      AnsweringKeepsTicksLeading(jobs, v, queues, 0);
    }

    /** A tick is queued only for a core that is owed nothing. */
    method TickAll()
      requires Valid()
      modifies this`backlog
      ensures Valid() && |backlog| == old(|backlog|)
      ensures forall c :: 0 <= c < |backlog| ==> backlog[c] == if old(backlog)[c] == [] then [Tick] else old(backlog)[c]
    {
      ghost var before := backlog;
      for c := 0 to |backlog|
        invariant |backlog| == |before|
        invariant forall d :: 0 <= d < c ==> backlog[d] == if before[d] == [] then [Tick] else before[d]
        invariant forall d :: c <= d < |backlog| ==> backlog[d] == before[d]
        invariant forall t :: QueueCount(backlog, t) == QueueCount(before, t)
      {
        if backlog[c] == [] {
          forall t ensures QueueCount(backlog[c := [] + [Tick]], t) == QueueCount(backlog, t) {
            PushCounts(backlog, c, Tick, t);
          }
          assert [] + [Tick] == [Tick];
          backlog := backlog[c := [Tick]];
        }
      }
    }

    /** Moves the front of a core's queue into its pipe. */
    method Deliver(core: nat)
      requires Valid() && core < |backlog| && backlog[core] != []
      modifies this`backlog, this`delivered
      ensures Valid()
      ensures backlog == old(backlog)[core := old(backlog)[core][1..]]
      ensures delivered == old(delivered)[core := old(delivered)[core] + [old(backlog)[core][0]]]
    {
      ghost var note, rest := backlog[core][0], backlog[core][1..];
      FrontMoves(backlog, delivered, core);
      backlog := backlog[core := backlog[core][1..]];
      delivered := delivered[core := delivered[core] + [note]];
    }

    /** Gives up on a core's queue: its pipe is broken, or tore a note. */
    method Abandon(core: nat)
      requires Valid() && core < |backlog|
      modifies this`backlog, this`lost
      ensures Valid() && backlog == old(backlog)[core := []]
      ensures lost == old(lost) + Dropped(core, old(backlog)[core])
    {
      QueueDropped(backlog, core, lost);
      lost := lost + Dropped(core, backlog[core]);
      backlog := backlog[core := []];
    }

    /** Writes what one core is owed, keeping whatever does not fit. */
    method FlushCore(core: nat, pipes: Pipes, blocking: bool) returns (ghost sent: nat)
      requires Valid() && core < |backlog|
      modifies this`backlog, this`delivered, this`lost
      ensures Valid() && |backlog| == old(|backlog|)
      ensures Flushed(pipes, old(backlog)[core], sent, backlog[core])
      ensures delivered == old(delivered)[core := old(delivered)[core] + old(backlog)[core][..sent]]
      ensures forall c :: 0 <= c < |backlog| && c != core ==> backlog[c] == old(backlog)[c]
      ensures Healthy(pipes) ==> lost == old(lost)
    {
      ghost var before, out := backlog[core], delivered[core];
      var attempts, n := 0, 0;
      sent := 0;
      assert out + before[..0] == out && delivered[core := out] == delivered;
      while backlog[core] != []
        invariant Valid() && |backlog| == old(|backlog|) && attempts <= 101
        invariant sent <= |before| && backlog[core] == before[sent..]
        invariant delivered == old(delivered)[core := out + before[..sent]]
        invariant forall c :: 0 <= c < |backlog| && c != core ==> backlog[c] == old(backlog)[c]
        invariant lost == old(lost)
        decreases |backlog[core]|, 101 - attempts
      {
        match pipes(core, n) {
          case Whole =>
            Deliver(core);
            assert before[sent..][1..] == before[sent + 1..];
            assert before[..sent + 1] == before[..sent] + [before[sent]];
            assert out + before[..sent] + [before[sent]] == out + before[..sent + 1];
            sent := sent + 1;
          case WouldBlock =>
            attempts := attempts + 1;
            if !blocking || attempts > 100 {
              return;
            }
          case _ =>
            Abandon(core);
            return;
        }
        n := n + 1;
      }
    }

    method FlushAll(pipes: Pipes, blocking: bool)
      requires Valid()
      modifies this`backlog, this`delivered, this`lost
      ensures Valid() && |backlog| == old(|backlog|)
      ensures forall c :: 0 <= c < |backlog| ==> FlushedInto(pipes, old(backlog)[c], backlog[c], old(delivered)[c], delivered[c])
      ensures Healthy(pipes) ==> lost == old(lost)
    {
      for core := 0 to |backlog|
        invariant Valid() && |backlog| == old(|backlog|)
        invariant forall c :: 0 <= c < core ==> FlushedInto(pipes, old(backlog)[c], backlog[c], old(delivered)[c], delivered[c])
        invariant forall c :: core <= c < |backlog| ==> backlog[c] == old(backlog)[c] && delivered[c] == old(delivered)[c]
        invariant Healthy(pipes) ==> lost == old(lost)
      {
        ghost var sent := FlushCore(core, pipes, blocking);
        assert FlushedInto(pipes, old(backlog)[core], backlog[core], old(delivered)[core], delivered[core]);
      }
    }

    /** Answers everything outstanding before the thread leaves. */
    method Stop(pipes: Pipes)
      requires Valid() && channel == []
      modifies this
      ensures Valid() && pending == [] && channel == [] && handed == old(handed) && |backlog| == old(|backlog|)
      ensures Healthy(pipes) ==> lost == old(lost)
      ensures Healthy(pipes) && old(lost) == multiset{} ==>
                forall t :: handed[t] == QueueCount(backlog, t) + QueueCount(delivered, t)
    {
      while pending != []
        invariant Valid() && channel == [] && handed == old(handed) && lost == old(lost) && |backlog| == old(|backlog|)
        decreases |pending|
      {
        CancelFirst();
      }
      FlushAll(pipes, true);
      forall t ensures JobCount(pending, t) == 0 && JobCount(channel, t) == 0 {
      }
    }

    /** Answers the first outstanding job with a cancellation. */
    method CancelFirst()
      requires Valid() && pending != []
      modifies this`pending, this`backlog
      ensures Valid() && pending == old(pending)[1..] && |backlog| == old(|backlog|)
    {
      var job := pending[0];
      Cancelled(pending, backlog, Connected(job.fd, ECANCELED));
      pending := pending[1..];
      PushNote(job.core, Connected(job.fd, ECANCELED));
    }

    /** One pass of the loop, from `poll`'s return on; `revents` answers the poll set built before it. */
    method Round(revents: Option<seq<Revents>>, disconnected: bool, now: int, clock: int, later: int, tick: int,
                 sock: i32 -> SockError, pipes: Pipes) returns (stopped: bool)
      requires Valid()
      requires revents.Some? ==> |revents.value| == |PollSet(pending, backlog)|
      modifies this
      ensures Valid() && handed == old(handed) && |backlog| == old(|backlog|)
      ensures Healthy(pipes) ==> lost == old(lost)
      ensures revents.None? ==> stopped && pending == old(pending) && backlog == old(backlog) && channel == old(channel)
      ensures revents.Some? ==> channel == []
      ensures stopped && revents.Some? ==> pending == []
      ensures !stopped ==> multiset(pending) == multiset(Survivors(old(pending + channel), Verdicts(revents.value, now, sock), 0))
    {
      if revents.None? {
        return true;
      }
      var wake := revents.value[0];
      Drain();
      stopped := wake.hup || wake.err || wake.nval || disconnected;
      if stopped {
        Stop(pipes);
        return;
      }
      Retire(Verdicts(revents.value, now, sock));
      Announce(clock, later, tick, pipes);
    }

    /** Ticks if it is time, then writes what every core is owed. */
    method Announce(clock: int, later: int, tick: int, pipes: Pipes)
      requires Valid()
      modifies this`nextTick, this`backlog, this`delivered, this`lost
      ensures Valid() && |backlog| == old(|backlog|)
      ensures Healthy(pipes) ==> lost == old(lost)
      ensures nextTick == if clock >= old(nextTick) then later + tick else old(nextTick)
    {
      if clock >= nextTick {
        nextTick := later + tick;
        TickAll();
      }
      FlushAll(pipes, false);
    }
  }

  lemma {:induction false} EmptyQueues(queues: Queues, t: Token)
    requires forall c :: 0 <= c < |queues| ==> queues[c] == []
    ensures QueueCount(queues, t) == 0
  {
    if queues != [] {
      EmptyQueues(queues[..|queues| - 1], t);
    }
  }

  lemma {:induction false} SurvivorsAreJobs(jobs: seq<Job>, v: Verdicts, i: nat)
    requires i <= |jobs|
    ensures forall j :: j in Survivors(jobs, v, i) ==> j in jobs
    decreases |jobs| - i
  {
    if i < |jobs| {
      SurvivorsAreJobs(jobs, v, i + 1);
    }
  }

  lemma SurvivorsFit(jobs: seq<Job>, v: Verdicts, queues: Queues, left: seq<Job>)
    requires CoresFit(jobs, queues) && multiset(left) == multiset(Survivors(jobs, v, 0))
    ensures CoresFit(left, queues)
  {
    SurvivorsAreJobs(jobs, v, 0);
    SameMembers(left, Survivors(jobs, v, 0));
    forall i | 0 <= i < |left| ensures left[i].core < |queues| {
      assert left[i] in jobs;
    }
  }

  lemma RetiredBalance(jobs: seq<Job>, v: Verdicts, queues: Queues, left: seq<Job>)
    requires CoresFit(jobs, queues) && multiset(left) == multiset(Survivors(jobs, v, 0))
    ensures forall t :: JobCount(left, t) + QueueCount(Answered(jobs, v, queues, 0), t) == JobCount(jobs, t) + QueueCount(queues, t)
  {
    forall t ensures JobCount(left, t) + QueueCount(Answered(jobs, v, queues, 0), t) == JobCount(jobs, t) + QueueCount(queues, t) {
      JobCountForgetsOrder(left, Survivors(jobs, v, 0), t);
      RetiringConserves(jobs, v, queues, 0, t);
      assert jobs[0..] == jobs;
    }
  }
}
