/** What the calls that are answered at once do and answer: signals, groups, sessions, cancellation. */
module ProcAnswers {
  import opened Prelude
  import opened ProcModel
  import opened ProcFrame
  import opened ProcRuns
  import opened ProcGroups
  import opened ProcSessions

  // ---------------------------------------------------------------- signals

  /** Root may signal anybody, others whoever has the real user id they have or act as. */
  ghost predicate MaySignal(c: Process, t: Process) {
    c.euid == 0 || c.euid == t.ruid || c.ruid == t.ruid
  }

  /** Some member's parent is in another group of the member's session. */
  ghost predicate Anchored(s: State, g: Pid) {
    exists m | m in s.procs ::
      && s.procs[m].pgid == g && s.procs[m].ppid in s.procs
      && s.procs[s.procs[m].ppid].pgid != g && s.procs[s.procs[m].ppid].sid == s.procs[m].sid
  }

  ghost predicate TerminalStop(sig: nat) { 20 <= sig <= 22 }

  /** The signal stops its target: always, or by default where somebody could continue the group. */
  ghost predicate Stops(s: State, target: Pid, sig: nat, willStop: bool)
    requires target in s.procs
  {
    sig == 19 || (TerminalStop(sig) && willStop && Anchored(s, s.procs[target].pgid))
  }

  ghost predicate Continues(s: State, target: Pid, sig: nat)
    requires target in s.procs
  {
    sig == 18 && s.procs[target].status.Stopped?
  }

  /** A signal that is permitted, addresses a live process and can be delivered. */
  ghost predicate Delivers(s: State, caller: Pid, target: Pid, sig: nat) {
    && 0 < sig <= 64 && caller in s.procs && target in s.procs && MaySignal(s.procs[caller], s.procs[target])
    && !s.procs[target].status.Ending() && s.procs[target].sigPctl
  }

  /** The status of the target becomes `now`, its parent learns `news`, and nothing else of the kind happens. */
  ghost predicate Tells(s: State, t: State, target: Pid, now: ProcessStatus, news: WaitpidStatus)
    requires target in s.procs
  {
    var parent := s.procs[target].ppid;
    && t.procs.Keys == s.procs.Keys && t.procs[target].status == now
    && (forall p | p in s.procs && p != target :: t.procs[p].status == s.procs[p].status)
    && (parent in s.procs ==>
          && target in t.procs[parent].waitpid && t.procs[parent].waitpid[target].status == news
          && (target !in s.procs[parent].waitpid ==> t.procs[parent].waitpid[target].pgid == s.procs[target].pgid))
    && (forall w, k | w in s.procs && !(w == parent && k == target) ::
          (k in t.procs[w].waitpid <==> k in s.procs[w].waitpid) && (k in s.procs[w].waitpid ==> t.procs[w].waitpid[k] == s.procs[w].waitpid[k]))
  }

  lemma OrphanedIff(s: State, g: Pid)
    requires GroupsAgree(s) && g in s.groups
    ensures PgrpIsOrphaned(s, g) == Some(!Anchored(s, g))
  {
    assert GroupSound(s, g);
    forall m | m in s.procs && s.procs[m].pgid == g ensures m in s.groups[g] { assert Indexed(s, m); }
  }

  lemma SignalledTells(s: State, target: Pid, sig: nat)
    requires target in s.procs
    ensures Tells(s, Signalled(s, target, sig), target, SigStatus(sig), SigRecord(sig))
  {}

  /** The signal has a table effect at all. */
  ghost predicate Acts(s: State, caller: Pid, target: Pid, sig: nat, willStop: bool) {
    Delivers(s, caller, target, sig) && (Continues(s, target, sig) || Stops(s, target, sig, willStop))
  }

  lemma ActsIff(s: State, caller: Pid, target: Pid, sig: nat, willStop: bool)
    requires GroupsAgree(s)
    ensures SendSig(s, caller, target, sig, willStop).0 == if Acts(s, caller, target, sig, willStop) then Signalled(s, target, sig) else s
  {
    if target in s.procs {
      var t := s.procs[target];
      assert Indexed(s, target);
      OrphanedIff(s, t.pgid);
      NotifyIsReport(Put(s, target, t.(status := SigStatus(sig))), target, t.ppid, t.pgid, SigRecord(sig));
    }
  }

  /**
   A signal changes the tables exactly if it stops or continues its target: SIGSTOP always stops, a
   terminal stop signal if its action is the default and the group is anchored, SIGCONT continues a
   stopped process.  Then the target has that status and its parent that record.
   */
  lemma SignalEffect(s: State, caller: Pid, target: Pid, sig: nat, willStop: bool)
    requires GroupsAgree(s)
    ensures
      var t := SendSig(s, caller, target, sig, willStop).0;
      if Delivers(s, caller, target, sig) && Continues(s, target, sig) then Tells(s, t, target, PossiblyRunnable, Continued)
      else if Delivers(s, caller, target, sig) && Stops(s, target, sig, willStop) then Tells(s, t, target, Stopped(sig), StoppedBy(sig))
      else t == s
  {
    ActsIff(s, caller, target, sig, willStop);
    if target in s.procs { SignalledTells(s, target, sig); }
  }

  /** Why a signal is refused, in this order; otherwise it counts as sent. */
  lemma SignalAnswer(s: State, caller: Pid, target: Pid, sig: nat, willStop: bool)
    requires GroupsAgree(s)
    ensures
      var r := SendSig(s, caller, target, sig, willStop).1;
      if sig > 64 then r == Some(EINVAL)
      else if caller !in s.procs || target !in s.procs then r == Some(ESRCH)
      else if !MaySignal(s.procs[caller], s.procs[target]) then r == Some(EPERM)
      else if sig == 0 || s.procs[target].status.Ending() then r == None
      else if !s.procs[target].sigPctl then r == Some(ESRCH)
      else if (Continues(s, target, sig) || Stops(s, target, sig, willStop)) && s.procs[target].ppid !in s.procs then r == Some(ESRCH)
      else r == None
  {
    if target in s.procs {
      assert Indexed(s, target);
      OrphanedIff(s, s.procs[target].pgid);
    }
  }

  // ---------------------------------------------------------------- groups and sessions

  /** The call names nobody the caller may move. */
  ghost predicate Stranger(s: State, caller: Pid, target: Pid) {
    || caller !in s.procs || target !in s.procs
    || (target != caller && s.procs[target].ppid != caller)
    || (s.procs[target].ppid != target && s.procs[target].ppid !in s.procs)
  }

  /** The target leads a session, is in another one, or is to join a group that does not exist. */
  ghost predicate Misplaced(s: State, caller: Pid, target: Pid, newPgid: Pid)
    requires !Stranger(s, caller, target)
  {
    || s.procs[target].sid == target || s.procs[target].sid != s.procs[caller].sid
    || (newPgid != target && forall m | m in s.procs :: s.procs[m].pgid != newPgid)
  }

  lemma SetpgidAnswer(s: State, caller: Pid, target: Pid, newPgid: Pid)
    requires GroupsAgree(s)
    ensures
      var (t, r) := Setpgid(s, caller, target, newPgid);
      if Stranger(s, caller, target) then r == Some(ESRCH) && t == s
      else if Misplaced(s, caller, target, newPgid) then r == Some(EPERM) && t == s
      else if s.procs[target].ppid == caller && s.procs[target].disabledSetpgid then r == Some(EACCES) && t == s
      else r == None && target in t.procs && t.procs[target].pgid == newPgid
  {
    if newPgid in s.groups {
      assert GroupSound(s, newPgid);
      assert s.groups[newPgid][0] in s.groups[newPgid];
    }
    forall m | m in s.procs && s.procs[m].pgid == newPgid ensures newPgid in s.groups { assert Indexed(s, m); }
    if target in s.procs && s.procs[target].pgid != newPgid { SetPgidKeeps(s, target, newPgid); }
  }

  lemma SetsidAnswer(s: State, caller: Pid)
    requires GroupsAgree(s)
    ensures
      var (t, r) := Setsid(s, caller);
      if exists p | p in s.procs :: p != caller && s.procs[p].pgid == caller then r == Some(EPERM) && t == s
      else if caller !in s.procs || s.procs[caller].ppid == caller then r == Some(ESRCH) && t == s
      else if s.procs[caller].pgid == caller then r == Some(EPERM) && t == s
      else r == None && caller in t.procs && t.procs[caller].pgid == caller && t.procs[caller].sid == caller
  {
    if caller in s.procs && s.procs[caller].pgid != caller { SetPgidKeeps(s, caller, caller); }
  }

  // ---------------------------------------------------------------- creation and cancellation

  /** A child starts runnable in its parent's group and session, with its ids and one thread, owing and knowing nothing. */
  lemma ForkInherits(s: State, parent: Pid, tid: Tid)
    requires parent in s.procs && s.nextId !in s.procs
    ensures
      var t, a := Fork(s, parent, tid), s.procs[parent];
      && (forall p | p in s.procs :: p in t.procs && t.procs[p] == s.procs[p])
      && s.nextId in t.procs
      && var c := t.procs[s.nextId];
         && c.ppid == parent && c.pgid == a.pgid && c.sid == a.sid && c.ruid == a.ruid && c.euid == a.euid
         && c.threads == {tid} && c.status.PossiblyRunnable? && c.waitpid == map[] && c.waitpidWaiting == [] && !c.sigPctl
  {}

  /** Nothing changes but the process `p`. */
  ghost predicate OnlyChanges(s: State, t: State, p: Pid) {
    && t == s.(procs := t.procs) && t.procs.Keys == s.procs.Keys
    && forall o | o in s.procs && o != p :: t.procs[o] == s.procs[o]
  }

  /** The calls that set one thing set that thing, for a process there is. */
  lemma SettersSet(s: State, p: Pid, tid: Tid, ruid: nat, euid: nat)
    ensures OnlyChanges(s, NewThread(s, p, tid), p) && OnlyChanges(s, SyncSigPctl(s, p), p)
    ensures OnlyChanges(s, DisableSetpgid(s, p), p) && OnlyChanges(s, SetIds(s, p, ruid, euid), p)
    ensures p in s.procs ==>
              && NewThread(s, p, tid).procs[p].threads == s.procs[p].threads + {tid}
              && (SyncSigPctl(s, p).procs[p].sigPctl <==> s.procs[p].sigPctl || s.procs[p].threads != {})
              && DisableSetpgid(s, p).procs[p].disabledSetpgid
              && SetIds(s, p, ruid, euid).procs[p].ruid == ruid && SetIds(s, p, ruid, euid).procs[p].euid == euid
  {}

  /** A cancelled wait is told so and forgotten; a cancelled exit goes on under an internal id. */
  lemma CancelAnswers(s: State, n: nat)
    ensures
      var (t, r) := Cancel(s, n);
      && t.procs == s.procs && t.groups == s.groups && KernelId(n) !in t.states
      && (KernelId(n) in s.states && s.states[KernelId(n)].AwaitingStatusChange? ==> r == Ready(Failed(ECANCELED)) && t.awoken == s.awoken)
      && (KernelId(n) in s.states && s.states[KernelId(n)].AwaitingThreadsTermination? ==>
            && r == (if s.states[KernelId(n)].tag then Ready(Failed(ECANCELED)) else Pending)
            && exists id | id in t.awoken :: id.InternalId? && id in t.states && t.states[id] == AwaitingThreadsTermination(s.states[KernelId(n)].pid, false))
      && (KernelId(n) !in s.states || s.states[KernelId(n)].Placeholder? ==> r == Pending && t.awoken == s.awoken)
  {
    if KernelId(n) in s.states && s.states[KernelId(n)].AwaitingThreadsTermination? {
      var id := InternalId(s.nextInternal);
      assert Cancel(s, n).0.awoken[|s.awoken|] == id;
    }
  }
}
