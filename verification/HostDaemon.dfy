/** The daemon helper: one background process for a pidfile, on a machine that uses pids again. */
module HostDaemon {
  import opened Wrappers

  /** What a pidfile can say of the process that it names; a field can be absent. */
  datatype Identity = Identity(lstart: Option<string>, cmdline: Option<string>)

  datatype PidField = NoPid | NotANumber | Pid(pid: int)

  /** A pidfile: missing (or not readable), blank, a JSON object, or any other text. */
  datatype Content =
    | Missing
    | Blank
    | Object(pid: PidField, lstart: Option<string>, cmdline: Option<string>)
    | Text(number: Option<int>)

  datatype Record = Record(pid: int, identity: Option<Identity>)

  /** The recorded pid and identity. The text of an object is never a number, so an object without
      a usable pid is no record; an object without identity fields is read like the old format. */
  function ReadPidRecord(file: Content): Option<Record> {
    match file
    case Missing => None
    case Blank => None
    case Object(Pid(pid), lstart, cmdline) =>
      Some(Record(pid, if lstart.None? && cmdline.None? then None else Some(Identity(lstart, cmdline))))
    case Object(_, _, _) => None
    case Text(None) => None
    case Text(Some(n)) => Some(Record(n, None))
  }

  // ---- The machine -----------------------------------------------------------------------------

  /** A process as it came into being. */
  datatype Birth = Birth(pid: int, lstart: string, cmdline: string) {
    function Shown(): Identity {
      Identity(Some(lstart), Some(cmdline))
    }
  }

  datatype Signal = Term(target: nat) | Kill(target: nat)

  /** `births` lists every process there has been; the process with number n is `births[n]`. `table`
      gives the process that now has a pid, `daemons` the processes that the helper created, and
      `sent` the signals it sent. */
  datatype Host = Host(file: Content, table: map<int, nat>, births: seq<Birth>, daemons: set<nat>, sent: seq<Signal>)

  /** What else happens on the machine: a process ends, or another one is created. */
  datatype Event = Exits(pid: int) | Creates(birth: Birth)

  /** A pid is given only while it is free, and no two processes share pid, start time and command
      line. */
  predicate CanBeBorn(h: Host, b: Birth) {
    b.pid > 0 && b.pid !in h.table && b !in h.births
  }

  function Born(h: Host, b: Birth): Host {
    h.(table := h.table[b.pid := |h.births|], births := h.births + [b])
  }

  function Gone(h: Host, pid: int): Host {
    h.(table := h.table - {pid})
  }

  /** An event that the machine does not allow changes nothing. */
  function Happen(h: Host, e: Event): Host {
    match e
    case Exits(pid) => Gone(h, pid)
    case Creates(b) => if CanBeBorn(h, b) then Born(h, b) else h
  }

  function HappenAll(h: Host, es: seq<Event>): Host
    decreases |es|
  {
    if es == [] then h else HappenAll(Happen(h, es[0]), es[1..])
  }

  /** The pid is in use, by the recorded process as far as the record tells; `ps` says whether the
      identity of a process can be read now. */
  predicate AliveAsRecorded(h: Host, r: Record, ps: bool) {
    r.pid in h.table && (r.identity.None? || (ps && Shown(h, h.table[r.pid]) == r.identity))
  }

  /** What can be read of a process. */
  function Shown(h: Host, n: nat): Option<Identity> {
    if n < |h.births| then Some(h.births[n].Shown()) else None
  }

  function Written(b: Birth, ps: bool): Content {
    if ps then Object(Pid(b.pid), Some(b.lstart), Some(b.cmdline)) else Object(Pid(b.pid), None, None)
  }

  datatype Reply = Serving(pid: int) | StartFailed

  predicate FindsRunning(h: Host, ps: bool) {
    var record := ReadPidRecord(h.file);
    record.Some? && record.value.pid != 0 && AliveAsRecorded(h, record.value, ps)
  }

  /** The new process either fails at once or survives and is recorded. */
  function Launch(h: Host, b: Birth, survives: bool, ps: bool): Host {
    var created := Born(h, b).(daemons := h.daemons + {|h.births|});
    if survives then created.(file := Written(b, ps)) else Gone(created, b.pid)
  }

  function StartOn(h: Host, b: Birth, survives: bool, psAtCheck: bool, psAtWrite: bool): (Host, Reply) {
    if FindsRunning(h, psAtCheck) then (h, Serving(ReadPidRecord(h.file).value.pid))
    else if !CanBeBorn(h, b) then (h, StartFailed)
    else (Launch(h, b, survives, psAtWrite), if survives then Serving(b.pid) else StartFailed)
  }

  /** The wait after the first signal: the machine goes on between two looks at the pid. */
  function Waited(h: Host, pid: int, rounds: seq<seq<Event>>): Host
    decreases |rounds|
  {
    if rounds == [] || pid !in h.table then h else Waited(HappenAll(h, rounds[0]), pid, rounds[1..])
  }

  function Killed(h: Host, pid: int): Host {
    if pid in h.table then Gone(h, pid).(sent := h.sent + [Kill(h.table[pid])]) else h
  }

  function Unlinked(h: Host, unlinks: bool): Host {
    if unlinks then h.(file := Missing) else h
  }

  function StopOn(h: Host, ps: bool, rounds: seq<seq<Event>>, unlinks: bool): (Host, bool) {
    var record := ReadPidRecord(h.file);
    if record.None? || record.value.pid == 0 then (h, false)
    else if !AliveAsRecorded(h, record.value, ps) then (Unlinked(h, unlinks), false)
    else
      var pid := record.value.pid;
      var signalled := h.(sent := h.sent + [Term(h.table[pid])]);
      (Unlinked(Killed(Waited(signalled, pid, rounds), pid), unlinks), true)
  }

  // ---- What always holds -----------------------------------------------------------------------

  ghost predicate Sane(h: Host) {
    && (forall pid | pid in h.table :: pid > 0 && h.table[pid] < |h.births| && h.births[h.table[pid]].pid == pid)
    && (forall i, j | 0 <= i < j < |h.births| :: h.births[i] != h.births[j])
    && (forall d | d in h.daemons :: d < |h.births|)
    && (forall i | 0 <= i < |h.births| :: h.births[i].pid > 0)
  }

  ghost predicate Alive(h: Host, n: nat) {
    n < |h.births| && h.births[n].pid in h.table && h.table[h.births[n].pid] == n
  }

  /** A living daemon is the one on record. */
  ghost predicate OnRecord(h: Host) {
    forall d | d in h.daemons && Alive(h, d) ::
      ReadPidRecord(h.file) in { Some(Record(h.births[d].pid, None)), Some(Record(h.births[d].pid, Some(h.births[d].Shown()))) }
  }

  ghost predicate Inv(h: Host) {
    Sane(h) && OnRecord(h)
  }

  // ---- The single events -----------------------------------------------------------------------

  lemma BirthKeepsInv(h: Host, b: Birth)
    requires Inv(h) && CanBeBorn(h, b)
    ensures Inv(Born(h, b))
    ensures forall n: nat | n < |h.births| :: Alive(Born(h, b), n) <==> Alive(h, n)
    ensures Alive(Born(h, b), |h.births|)
  {
    var after := Born(h, b);
    assert Sane(after);
    forall d | d in after.daemons && Alive(after, d) ensures Alive(h, d) && after.births[d] == h.births[d] {
    }
  }

  lemma ExitKeepsInv(h: Host, pid: int)
    requires Inv(h)
    ensures Inv(Gone(h, pid))
    ensures forall n: nat :: Alive(Gone(h, pid), n) <==> Alive(h, n) && h.births[n].pid != pid
  {
    var after := Gone(h, pid);
    assert Sane(after);
    forall d | d in after.daemons && Alive(after, d) ensures Alive(h, d) {
    }
  }

  /** What else goes on neither touches the record nor the signals nor makes a daemon, and the dead
      stay dead. */
  ghost predicate Elsewhere(h: Host, after: Host) {
    && after.file == h.file && after.daemons == h.daemons && after.sent == h.sent
    && h.births <= after.births
    && (forall n: nat | n < |h.births| && Alive(after, n) :: Alive(h, n))
    && forall t, n | 0 <= t < |h.births| <= n < |after.births| && h.births[t].pid == after.births[n].pid :: !Alive(after, t)
  }

  /** The process that has the pid has changed exactly if one was created with that pid. */
  ghost predicate Handed(h: Host, after: Host, pid: int) {
    pid in h.table && pid in after.table ==>
      (after.table[pid] != h.table[pid] <==> exists n :: |h.births| <= n < |after.births| && after.births[n].pid == pid)
  }

  lemma EventKeepsInv(h: Host, e: Event)
    requires Inv(h)
    ensures Inv(Happen(h, e)) && Elsewhere(h, Happen(h, e))
  {
    match e
    case Exits(pid) => ExitKeepsInv(h, pid);
    case Creates(b) => if CanBeBorn(h, b) { BirthKeepsInv(h, b); }
  }

  lemma {:induction false} EventsKeepInv(h: Host, es: seq<Event>)
    requires Inv(h)
    ensures Inv(HappenAll(h, es)) && Elsewhere(h, HappenAll(h, es))
    decreases |es|
  {
    if es != [] {
      EventKeepsInv(h, es[0]);
      EventsKeepInv(Happen(h, es[0]), es[1..]);
    }
  }

  lemma {:induction false} WaitKeepsInv(h: Host, pid: int, rounds: seq<seq<Event>>)
    requires Inv(h)
    ensures Inv(Waited(h, pid, rounds)) && Elsewhere(h, Waited(h, pid, rounds))
    decreases |rounds|
  {
    if rounds != [] && pid in h.table {
      EventsKeepInv(h, rounds[0]);
      WaitKeepsInv(HappenAll(h, rounds[0]), pid, rounds[1..]);
    }
  }

  /** A process with the pid that was not there before the wait was created during it, and the one
      that was there before does not come back. */
  lemma HandedExactlyWhenCreated(h: Host, after: Host, pid: int)
    requires Sane(h) && Sane(after) && Elsewhere(h, after)
    ensures Handed(h, after, pid)
  {
    if pid in h.table && pid in after.table {
      assert Alive(after, after.table[pid]) && Alive(h, h.table[pid]);
    }
  }

  // ---- The steps of a run ----------------------------------------------------------------------

  datatype Step =
    | Outside(event: Event)
    | StartCall(birth: Birth, survives: bool, psAtCheck: bool, psAtWrite: bool)
    | StopCall(ps: bool, rounds: seq<seq<Event>>, unlinks: bool)

  function Do(h: Host, s: Step): Host {
    match s
    case Outside(e) => Happen(h, e)
    case StartCall(b, survives, psAtCheck, psAtWrite) => StartOn(h, b, survives, psAtCheck, psAtWrite).0
    case StopCall(ps, rounds, unlinks) => StopOn(h, ps, rounds, unlinks).0
  }

  /** A daemon lives, its identity is on record, and the call cannot read the identity it has now:
      the start then creates a second process, the stop removes the record. */
  ghost predicate Blind(h: Host, s: Step) {
    && (exists d :: d in h.daemons && Alive(h, d) && ReadPidRecord(h.file) == Some(Record(h.births[d].pid, Some(h.births[d].Shown()))))
    && match s
       case Outside(_) => false
       case StartCall(b, survives, psAtCheck, _) => !psAtCheck && CanBeBorn(h, b) && survives
       case StopCall(ps, _, unlinks) => !ps && unlinks
  }

  lemma LiveDaemonIsFound(h: Host, d: nat, ps: bool)
    requires Inv(h) && d in h.daemons && Alive(h, d)
    ensures FindsRunning(h, ps) <==> ps || ReadPidRecord(h.file).value.identity.None?
    ensures ReadPidRecord(h.file).Some? && ReadPidRecord(h.file).value.pid == h.births[d].pid
  {
  }

  lemma LaunchKeepsInv(h: Host, b: Birth, survives: bool, ps: bool)
    requires Inv(h) && CanBeBorn(h, b)
    ensures Sane(Launch(h, b, survives, ps))
    ensures OnRecord(Launch(h, b, survives, ps)) <==> !survives || forall d | d in h.daemons :: !Alive(h, d)
  {
    BirthKeepsInv(h, b);
    var after := Launch(h, b, survives, ps);
    assert Sane(after);
    if survives {
      assert ReadPidRecord(after.file) in { Some(Record(b.pid, None)), Some(Record(b.pid, Some(b.Shown()))) };
      if d :| d in h.daemons && Alive(h, d) {
        assert Alive(after, d) && h.births[d].pid != b.pid && after.births[d] == h.births[d];
      }
    } else {
      forall d | d in after.daemons && Alive(after, d) ensures Alive(h, d) && after.births[d] == h.births[d] {
      }
    }
  }

  /** What the first signal is sent to, and the host while it takes effect. */
  function Signalled(h: Host, pid: int): Host
    requires pid in h.table
  {
    h.(sent := h.sent + [Term(h.table[pid])])
  }

  lemma SignalledKeepsInv(h: Host, pid: int)
    requires Inv(h) && pid in h.table
    ensures Inv(Signalled(h, pid))
  {
    assert forall d: nat :: Alive(Signalled(h, pid), d) <==> Alive(h, d);
  }

  /** Whoever has the recorded pid at the end of the wait is killed, and the record removed. */
  lemma KilledKeepsInv(waited: Host, pid: int, unlinks: bool, after: Host)
    requires Inv(waited) && ReadPidRecord(waited.file).Some? && ReadPidRecord(waited.file).value.pid == pid
    requires after == Unlinked(Killed(waited, pid), unlinks)
    ensures Inv(after) && forall d | d in waited.daemons :: !Alive(after, d)
  {
    ExitKeepsInv(waited, pid);
    assert forall d: nat :: Alive(after, d) <==> Alive(waited, d) && waited.births[d].pid != pid;
  }

  /** After the signals and the wait no daemon is left. */
  lemma StoppedKeepsInv(h: Host, pid: int, rounds: seq<seq<Event>>, unlinks: bool, after: Host)
    requires Inv(h) && pid in h.table && ReadPidRecord(h.file).Some? && ReadPidRecord(h.file).value.pid == pid
    requires after == Unlinked(Killed(Waited(Signalled(h, pid), pid, rounds), pid), unlinks)
    ensures Inv(after) && forall d | d in h.daemons :: !Alive(after, d)
  {
    SignalledKeepsInv(h, pid);
    WaitKeepsInv(Signalled(h, pid), pid, rounds);
    KilledKeepsInv(Waited(Signalled(h, pid), pid, rounds), pid, unlinks, after);
  }

  /** Every call and everything else that happens keeps a living daemon on record, except exactly the
      calls that cannot see it. */
  lemma StepKeepsInvExactlyWhen(h: Host, s: Step)
    requires Inv(h)
    ensures Sane(Do(h, s))
    ensures OnRecord(Do(h, s)) <==> !Blind(h, s)
  {
    match s
    case Outside(e) => EventKeepsInv(h, e);
    case StartCall(b, survives, ps, psAtWrite) => StartKeepsInvExactlyWhen(h, b, survives, ps, psAtWrite);
    case StopCall(ps, rounds, unlinks) => StopKeepsInvExactlyWhen(h, ps, rounds, unlinks);
  }

  lemma StartKeepsInvExactlyWhen(h: Host, b: Birth, survives: bool, ps: bool, psAtWrite: bool)
    requires Inv(h)
    ensures Sane(StartOn(h, b, survives, ps, psAtWrite).0)
    ensures OnRecord(StartOn(h, b, survives, ps, psAtWrite).0) <==> !Blind(h, StartCall(b, survives, ps, psAtWrite))
  {
    if d :| d in h.daemons && Alive(h, d) {
      LiveDaemonIsFound(h, d, ps);
    }
    if !FindsRunning(h, ps) && CanBeBorn(h, b) {
      LaunchKeepsInv(h, b, survives, psAtWrite);
    }
  }

  lemma StopKeepsInvExactlyWhen(h: Host, ps: bool, rounds: seq<seq<Event>>, unlinks: bool)
    requires Inv(h)
    ensures Sane(StopOn(h, ps, rounds, unlinks).0)
    ensures OnRecord(StopOn(h, ps, rounds, unlinks).0) <==> !Blind(h, StopCall(ps, rounds, unlinks))
  {
    if d :| d in h.daemons && Alive(h, d) {
      LiveDaemonIsFound(h, d, ps);
    }
    if FindsRunning(h, ps) {
      StoppedKeepsInv(h, ReadPidRecord(h.file).value.pid, rounds, unlinks, StopOn(h, ps, rounds, unlinks).0);
    } else {
      var after := StopOn(h, ps, rounds, unlinks).0;
      assert Sane(after);
      assert forall d: nat :: Alive(after, d) <==> Alive(h, d);
    }
  }

  // ---- Whole runs ------------------------------------------------------------------------------

  function After(h: Host, steps: seq<Step>): Host
    decreases |steps|
  {
    if steps == [] then h else After(Do(h, steps[0]), steps[1..])
  }

  /** No call of the run is blind. */
  ghost predicate Sighted(h: Host, steps: seq<Step>)
    decreases |steps|
  {
    steps == [] || (!Blind(h, steps[0]) && Sighted(Do(h, steps[0]), steps[1..]))
  }

  /** Over every run without a blind call, whatever else happens and however pids are used again, at
      most one process that was ever created for the pidfile is alive. */
  lemma {:induction false} OneDaemonAtATime(h: Host, steps: seq<Step>)
    requires Inv(h) && Sighted(h, steps)
    ensures Inv(After(h, steps))
    ensures forall d, e | d in After(h, steps).daemons && e in After(h, steps).daemons ::
      Alive(After(h, steps), d) && Alive(After(h, steps), e) ==> d == e
    decreases |steps|
  {
    if steps == [] {
      AtMostOne(h);
    } else {
      StepKeepsInvExactlyWhen(h, steps[0]);
      OneDaemonAtATime(Do(h, steps[0]), steps[1..]);
    }
  }

  lemma AtMostOne(h: Host)
    requires Inv(h)
    ensures forall d, e | d in h.daemons && e in h.daemons && Alive(h, d) && Alive(h, e) :: d == e
  {
    forall d, e | d in h.daemons && e in h.daemons && Alive(h, d) && Alive(h, e) ensures d == e {
      assert ReadPidRecord(h.file).value.pid == h.births[d].pid == h.births[e].pid;
    }
  }

  /** With a daemon alive a start changes nothing and answers with its pid, unless it is blind (or
      the process it then creates does not survive). */
  lemma StartFindsTheLiveOne(h: Host, d: nat, b: Birth, survives: bool, ps: bool, psAtWrite: bool)
    requires Inv(h) && d in h.daemons && Alive(h, d)
    requires ps || ReadPidRecord(h.file).value.identity.None?
    ensures StartOn(h, b, survives, ps, psAtWrite) == (h, Serving(h.births[d].pid))
  {
    LiveDaemonIsFound(h, d, ps);
  }

  /** A second daemon beside a live one: exactly when the start is blind. */
  lemma DoubledExactlyWhen(h: Host, d: nat, b: Birth, survives: bool, ps: bool, psAtWrite: bool)
    requires Inv(h) && d in h.daemons && Alive(h, d)
    ensures (exists e :: e in StartOn(h, b, survives, ps, psAtWrite).0.daemons && e != d && Alive(StartOn(h, b, survives, ps, psAtWrite).0, e))
            <==> Blind(h, StartCall(b, survives, ps, psAtWrite))
  {
    LiveDaemonIsFound(h, d, ps);
    AtMostOne(h);
    if !FindsRunning(h, ps) && CanBeBorn(h, b) {
      BirthKeepsInv(h, b);
      var after := Launch(h, b, survives, psAtWrite);
      assert after == StartOn(h, b, survives, ps, psAtWrite).0;
      if survives {
        assert |h.births| in after.daemons && |h.births| != d && Alive(after, |h.births|);
        assert Blind(h, StartCall(b, survives, ps, psAtWrite));
      } else {
        assert forall e: nat | Alive(after, e) :: Alive(h, e);
      }
    }
  }

  /** A stop that sees the daemon ends it: whether it obeys the first signal or not, no daemon is
      alive afterwards. */
  lemma StopEndsTheDaemon(h: Host, d: nat, ps: bool, rounds: seq<seq<Event>>, unlinks: bool)
    requires Inv(h) && d in h.daemons && Alive(h, d)
    requires ps || ReadPidRecord(h.file).value.identity.None?
    ensures var (after, stopped) := StopOn(h, ps, rounds, unlinks);
            stopped && (unlinks ==> after.file == Missing) && forall e | e in h.daemons :: !Alive(after, e)
  {
    LiveDaemonIsFound(h, d, ps);
    StoppedKeepsInv(h, ReadPidRecord(h.file).value.pid, rounds, unlinks, StopOn(h, ps, rounds, unlinks).0);
  }

  /** With the identity of daemon `d` on record, a stop signals somebody if and only if that very
      daemon is alive and its identity can be read; when it is gone, whoever has its pid by now, the
      record is removed and nothing else happens. */
  lemma StaleRecordGetsNoSignal(h: Host, d: nat, ps: bool, rounds: seq<seq<Event>>, unlinks: bool)
    requires Inv(h) && d < |h.births|
    requires ReadPidRecord(h.file) == Some(Record(h.births[d].pid, Some(h.births[d].Shown())))
    ensures StopOn(h, ps, rounds, unlinks).0.sent == h.sent <==> !(ps && Alive(h, d))
    ensures !Alive(h, d) ==> StopOn(h, ps, rounds, unlinks) == (Unlinked(h, unlinks), false)
  {
    var pid := h.births[d].pid;
    RecordedFound(h, d, ps);
    if FindsRunning(h, ps) {
      var first := Signalled(h, pid);
      assert forall n: nat :: Alive(first, n) <==> Alive(h, n);
      WaitKeepsInv(first, pid, rounds);
      assert first.sent <= StopOn(h, ps, rounds, unlinks).0.sent;
    }
  }

  /** A recorded identity is found exactly in the process that it was taken from. */
  lemma RecordedFound(h: Host, d: nat, ps: bool)
    requires Sane(h) && d < |h.births|
    requires ReadPidRecord(h.file) == Some(Record(h.births[d].pid, Some(h.births[d].Shown())))
    ensures FindsRunning(h, ps) <==> ps && Alive(h, d)
  {
    var pid := h.births[d].pid;
    if pid in h.table {
      var n := h.table[pid];
      assert h.births[n].Shown() == h.births[d].Shown() ==> h.births[n] == h.births[d];
    }
  }

  // ---- Signals ---------------------------------------------------------------------------------

  /** The record, if there is one, is that of a daemon, with its identity. */
  ghost predicate OwnRecord(h: Host) {
    ReadPidRecord(h.file).Some? ==>
      exists d :: d in h.daemons && d < |h.births| && ReadPidRecord(h.file) == Some(Record(h.births[d].pid, Some(h.births[d].Shown())))
  }

  ghost predicate SignalsOnlyDaemons(h: Host) {
    forall s | s in h.sent :: s.target in h.daemons
  }

  /** The stop kills at the end of its wait, and by then its pid has been given to another process. */
  ghost predicate KillsAnother(h: Host, s: Step) {
    && s.StopCall? && FindsRunning(h, s.ps)
    && var pid := ReadPidRecord(h.file).value.pid;
       var end := Waited(Signalled(h, pid), pid, s.rounds);
       pid in end.table && exists n :: |h.births| <= n < |end.births| && end.births[n].pid == pid
  }

  /** The first signal of a stop goes to the recorded daemon itself. */
  lemma RecordedMeansDaemon(h: Host, ps: bool)
    requires Inv(h) && OwnRecord(h) && FindsRunning(h, ps)
    ensures h.table[ReadPidRecord(h.file).value.pid] in h.daemons
  {
    var pid := ReadPidRecord(h.file).value.pid;
    var d :| d in h.daemons && d < |h.births| && ReadPidRecord(h.file) == Some(Record(h.births[d].pid, Some(h.births[d].Shown())));
    var n := h.table[pid];
    assert h.births[n].pid == pid && h.births[n].Shown() == h.births[d].Shown();
    assert h.births[n] == h.births[d];
    assert n == d;
  }

  /** As long as every record is written with its identity, signals go to daemons only, except
      exactly for the kill at the end of a wait during which the pid was used again: that second
      signal is sent without another look at the identity. */
  lemma SignalsExactlyWhen(h: Host, s: Step)
    requires Inv(h) && OwnRecord(h) && SignalsOnlyDaemons(h)
    requires s.StartCall? ==> s.psAtWrite
    ensures OwnRecord(Do(h, s))
    ensures SignalsOnlyDaemons(Do(h, s)) <==> !KillsAnother(h, s)
  {
    match s
    case Outside(e) => EventKeepsInv(h, e);
    case StartCall(b, survives, ps, psAtWrite) =>
      var n := |h.births|;
      if !FindsRunning(h, ps) && CanBeBorn(h, b) && survives {
        assert n in Do(h, s).daemons && Do(h, s).births[n] == b;
      }
    case StopCall(ps, rounds, unlinks) =>
      if FindsRunning(h, ps) { StopSignalsExactlyWhen(h, ps, rounds, unlinks); }
  }

  lemma StopSignalsExactlyWhen(h: Host, ps: bool, rounds: seq<seq<Event>>, unlinks: bool)
    requires Inv(h) && OwnRecord(h) && SignalsOnlyDaemons(h) && FindsRunning(h, ps)
    ensures OwnRecord(StopOn(h, ps, rounds, unlinks).0)
    ensures SignalsOnlyDaemons(StopOn(h, ps, rounds, unlinks).0) <==> !KillsAnother(h, StopCall(ps, rounds, unlinks))
  {
    var pid := ReadPidRecord(h.file).value.pid;
    RecordedMeansDaemon(h, ps);
    var first := Signalled(h, pid);
    SignalledKeepsInv(h, pid);
    WaitKeepsInv(first, pid, rounds);
    var end := Waited(first, pid, rounds);
    HandedExactlyWhenCreated(first, end, pid);
    var after := StopOn(h, ps, rounds, unlinks).0;
    StopSends(h, ps, rounds, unlinks);
    if pid in end.table {
      assert Kill(end.table[pid]) in after.sent;
      if end.table[pid] in h.daemons { assert Alive(end, end.table[pid]); }
    }
  }

  lemma StopSends(h: Host, ps: bool, rounds: seq<seq<Event>>, unlinks: bool)
    requires FindsRunning(h, ps)
    ensures var pid := ReadPidRecord(h.file).value.pid;
            var first, after := Signalled(h, pid), StopOn(h, ps, rounds, unlinks).0;
            var end := Waited(first, pid, rounds);
            && after.sent == end.sent + (if pid in end.table then [Kill(end.table[pid])] else [])
            && after.daemons == end.daemons && after.births == end.births
            && after.file == if unlinks then Missing else end.file
  {
  }

  ghost predicate Careful(h: Host, steps: seq<Step>)
    decreases |steps|
  {
    steps == [] ||
    (!Blind(h, steps[0]) && !KillsAnother(h, steps[0]) && (steps[0].StartCall? ==> steps[0].psAtWrite) && Careful(Do(h, steps[0]), steps[1..]))
  }

  /** Over whole runs, then, no process outside the daemons gets a signal. */
  lemma {:induction false} OnlyDaemonsAreSignalled(h: Host, steps: seq<Step>)
    requires Inv(h) && OwnRecord(h) && SignalsOnlyDaemons(h) && Careful(h, steps)
    ensures Inv(After(h, steps)) && OwnRecord(After(h, steps)) && SignalsOnlyDaemons(After(h, steps))
    decreases |steps|
  {
    if steps != [] {
      StepKeepsInvExactlyWhen(h, steps[0]);
      SignalsExactlyWhen(h, steps[0]);
      OnlyDaemonsAreSignalled(Do(h, steps[0]), steps[1..]);
    }
  }

  /** A wait in which no process is created with the pid kills nobody else; one in which the daemon
      obeys and its pid is taken between two looks does. */
  lemma TakenBetweenTwoLooks(h: Host, b: Birth, unlinks: bool)
    requires Inv(h) && OwnRecord(h) && FindsRunning(h, true)
    requires b.pid == ReadPidRecord(h.file).value.pid && b !in h.births
    ensures KillsAnother(h, StopCall(true, [[Exits(b.pid), Creates(b)]], unlinks))
    ensures !KillsAnother(h, StopCall(true, [[Exits(b.pid)], [Creates(b)]], unlinks))
  {
    var first := Signalled(h, b.pid);
    var free := Gone(first, b.pid);
    assert Happen(free, Creates(b)) == Born(first.(table := free.table), b);
    var together := [Exits(b.pid), Creates(b)];
    assert together[1..] == [Creates(b)] && [Creates(b)][1..] == [];
    assert HappenAll(free, [Creates(b)]) == Born(free, b) by { assert HappenAll(Born(free, b), []) == Born(free, b); }
    assert HappenAll(first, together) == Born(free, b);
    assert Waited(first, b.pid, [together]) == Born(free, b) by { assert Waited(Born(free, b), b.pid, [together][1..]) == Born(free, b); }
    assert Born(free, b).births[|h.births|].pid == b.pid;
    var apart := [[Exits(b.pid)], [Creates(b)]];
    assert [Exits(b.pid)][1..] == [];
    assert HappenAll(first, [Exits(b.pid)]) == free by { assert HappenAll(free, []) == free; }
    assert Waited(first, b.pid, apart) == free;
  }

  // ---- The record ------------------------------------------------------------------------------

  /** What a start writes is read back as the pid, with its identity if that could be read: the
      process it created is found alive as long as it has the pid and `ps` works, and no other
      process is, once the identity is on record. */
  lemma RecordReadBack(h: Host, d: nat, ps: bool)
    requires Sane(h) && d < |h.births| && h.file == Written(h.births[d], ps)
    ensures FindsRunning(h, true) <==> if ps then Alive(h, d) else h.births[d].pid in h.table
    ensures FindsRunning(h, false) <==> !ps && h.births[d].pid in h.table
  {
    var pid := h.births[d].pid;
    assert pid in h.table ==> pid > 0;
    if ps && pid in h.table {
      var n := h.table[pid];
      assert h.births[n].Shown() == h.births[d].Shown() ==> h.births[n] == h.births[d];
    }
  }

  /** A record with only one of the two identity fields is never taken for a living process. */
  lemma HalfRecordNeverAlive(h: Host, ps: bool)
    requires h.file.Object? && h.file.lstart.None? != h.file.cmdline.None?
    ensures !FindsRunning(h, ps)
  {
    var record := ReadPidRecord(h.file);
    if record.Some? && record.value.pid in h.table {
      assert record.value.identity == Some(Identity(h.file.lstart, h.file.cmdline));
      assert forall b: Birth :: b.Shown().lstart.Some? && b.Shown().cmdline.Some?;
    }
  }

  /** A pidfile in the old format, with a number only: it is found running exactly when any process has
      that pid, whether or not identities can be read, and a stop signals that process. */
  lemma OldFormatRecord(h: Host, n: int, ps: bool, rounds: seq<seq<Event>>, unlinks: bool)
    requires Sane(h) && h.file == Text(Some(n))
    ensures FindsRunning(h, ps) <==> n in h.table
    ensures n in h.table ==> StopOn(h, ps, rounds, unlinks).1 && h.sent + [Term(h.table[n])] <= StopOn(h, ps, rounds, unlinks).0.sent
    ensures n !in h.table ==> !StopOn(h, ps, rounds, unlinks).1 && StopOn(h, ps, rounds, unlinks).0.sent == h.sent
  {
    if n in h.table { WaitKeepsFile(Signalled(h, n), n, rounds); }
  }

  /** A pidfile that says nothing: missing, blank, neither an object nor a number, or an object without
      a usable pid. A stop leaves it alone. */
  lemma NothingRecorded(h: Host, ps: bool, rounds: seq<seq<Event>>, unlinks: bool)
    requires h.file in {Missing, Blank, Text(None)} || (h.file.Object? && !h.file.pid.Pid?)
    ensures !FindsRunning(h, ps) && StopOn(h, ps, rounds, unlinks) == (h, false)
  {
  }

  lemma {:induction false} WaitKeepsFile(h: Host, pid: int, rounds: seq<seq<Event>>)
    ensures var w := Waited(h, pid, rounds); w.file == h.file && w.sent == h.sent && w.daemons == h.daemons
    decreases |rounds|
  {
    if rounds != [] && pid in h.table {
      EventsKeepFile(h, rounds[0]);
      WaitKeepsFile(HappenAll(h, rounds[0]), pid, rounds[1..]);
    }
  }

  lemma {:induction false} EventsKeepFile(h: Host, es: seq<Event>)
    ensures var w := HappenAll(h, es); w.file == h.file && w.sent == h.sent && w.daemons == h.daemons
    decreases |es|
  {
    if es != [] { EventsKeepFile(Happen(h, es[0]), es[1..]); }
  }

  // ---- The helper itself -----------------------------------------------------------------------

  /** The pidfile and the machine, as the helper's two calls change them. */
  class Helper {
    var file: Content
    var table: map<int, nat>
    var births: seq<Birth>
    var daemons: set<nat>
    var sent: seq<Signal>

    function Abs(): Host
      reads this
    {
      Host(file, table, births, daemons, sent)
    }

    constructor ()
      ensures Abs() == Host(Missing, map[], [], {}, [])
    {
      file, table, births, daemons, sent := Missing, map[], [], {}, [];
    }

    /** What the rest of the machine does while the helper sleeps. */
    method Sleep(es: seq<Event>)
      modifies this
      ensures Abs() == HappenAll(old(Abs()), es)
    {
      var i := 0;
      while i < |es|
        invariant 0 <= i <= |es|
        invariant HappenAll(Abs(), es[i..]) == HappenAll(old(Abs()), es)
      {
        match es[i] {
          case Exits(pid) => table := table - {pid};
          case Creates(b) =>
            if b.pid > 0 && b.pid !in table && b !in births {
              table, births := table[b.pid := |births|], births + [b];
            }
        }
        i := i + 1;
      }
    }

    method AliveNow(pid: int, identity: Option<Identity>, ps: bool) returns (alive: bool)
      ensures alive == AliveAsRecorded(Abs(), Record(pid, identity), ps)
    {
      if pid !in table {
        return false;
      }
      if identity.None? {
        return true;
      }
      var actual := if ps then Shown(Abs(), table[pid]) else None;
      if actual.None? {
        return false;
      }
      return actual.value.lstart == identity.value.lstart && actual.value.cmdline == identity.value.cmdline;
    }

    method StartDaemon(b: Birth, survives: bool, psAtCheck: bool, psAtWrite: bool) returns (reply: Reply)
      modifies this
      ensures (Abs(), reply) == StartOn(old(Abs()), b, survives, psAtCheck, psAtWrite)
      ensures sent == old(sent)
      ensures reply.StartFailed? ==> file == old(file) && table == old(table)
      ensures reply.Serving? && births == old(births) ==> reply.pid in table && Abs() == old(Abs())
      ensures reply.Serving? && births != old(births) ==>
        && survives && reply.pid == b.pid && births == old(births) + [b] && daemons == old(daemons) + {|old(births)|}
        && table == old(table)[b.pid := |old(births)|] && b.pid !in old(table)
        && file == Object(Pid(b.pid), if psAtWrite then Some(b.lstart) else None, if psAtWrite then Some(b.cmdline) else None)
    {
      var existing := ReadPidRecord(file);
      if existing.Some? && existing.value.pid != 0 {
        var alive := AliveNow(existing.value.pid, existing.value.identity, psAtCheck);
        if alive {
          return Serving(existing.value.pid);
        }
      }
      if !CanBeBorn(Abs(), b) {
        return StartFailed;
      }
      table, births, daemons := table[b.pid := |births|], births + [b], daemons + {|births|};
      if !survives {
        table := table - {b.pid};
        return StartFailed;
      }
      file := Written(b, psAtWrite);
      return Serving(b.pid);
    }

    method StopDaemon(ps: bool, rounds: seq<seq<Event>>, unlinks: bool) returns (stopped: bool)
      modifies this
      ensures (Abs(), stopped) == StopOn(old(Abs()), ps, rounds, unlinks)
      ensures !stopped ==> sent == old(sent) && table == old(table) && (file == old(file) || (unlinks && file == Missing))
      ensures stopped ==>
        && ReadPidRecord(old(file)).Some? && file == (if unlinks then Missing else old(file))
        && var pid := ReadPidRecord(old(file)).value.pid;
           && pid in old(table) && pid !in table
           && (sent == old(sent) + [Term(old(table)[pid])] || exists n: nat :: sent == old(sent) + [Term(old(table)[pid]), Kill(n)])
    {
      var record := ReadPidRecord(file);
      if record.None? || record.value.pid == 0 {
        return false;
      }
      var pid := record.value.pid;
      var alive := AliveNow(pid, record.value.identity, ps);
      if !alive {
        if unlinks { file := Missing; }
        return false;
      }
      sent := sent + [Term(table[pid])];
      var i := 0;
      ghost var first := Abs();
      while i < |rounds|
        invariant 0 <= i <= |rounds|
        invariant Waited(Abs(), pid, rounds[i..]) == Waited(first, pid, rounds)
      {
        if pid !in table {
          break;
        }
        Sleep(rounds[i]);
        i := i + 1;
      }
      assert Abs() == Waited(first, pid, rounds);
      WaitKeepsFile(first, pid, rounds);
      if pid in table {
        assert sent + [Kill(table[pid])] == old(sent) + [Term(old(table)[pid]), Kill(table[pid])];
        sent, table := sent + [Kill(table[pid])], table - {pid};
      }
      if unlinks { file := Missing; }
      return true;
    }
  }
}
