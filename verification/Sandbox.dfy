/** The workspace manager's own code: the lock, prepare in both forms, start and
    teardown, in the order their steps run. What git and podman answer comes in
    as arguments. */
module Sandbox {
  import opened Kernel
  import opened WorkspaceLock

  datatype Workspace = Workspace(path: string, repository: string, branch: string, baseSha: Sha, remoteHead: Sha, lease: Option<Lease>)

  datatype Container = Container(name: string, workspace: Workspace)

  predicate IdChar(c: char) {
    'A' <= c <= 'Z' || 'a' <= c <= 'z' || '0' <= c <= '9' || c == '_' || c == '-'
  }

  predicate ValidAttemptId(id: string) {
    1 <= |id| <= 60 && forall i | 0 <= i < |id| :: IdChar(id[i])
  }

  /** The answers of one checkout: where the branch is on the remote, and whether
      every git command before and after asking went through. */
  datatype Checkout = Checkout(ready: bool, remoteHead: Option<Sha>, done: bool)

  /** Host git on a workspace, and the containers that had it mounted meanwhile. */
  datatype GitRun = GitRun(repository: string, onIt: set<string>)

  class Manager {
    var serial: nat
    var full: set<string>
    var holders: map<string, Lease>
    var containers: map<string, string>
    var live: map<string, string>
    var git: seq<GitRun>

    /** A new manager finds whatever containers an earlier daemon left. */
    constructor (left: map<string, string>)
      ensures serial == 0 && full == {} && holders == map[] && containers == map[] && live == left && git == []
    {
      serial, full, holders, containers, live, git := 0, {}, map[], map[], left, [];
    }

    /** The containers podman has under a repository's label. */
    function On(repository: string): set<string>
      reads this
    {
      set n | n in live && live[n] == repository
    }

    /** Removes every container of the label, or leaves them and says so. */
    method Sweep(repository: string, answer: bool)
      modifies this`live
      ensures live == if answer then old(live) - old(On(repository)) else old(live)
      ensures answer ==> On(repository) == {}
    {
      if answer { live := live - On(repository); }
    }

    /** Host git on the workspace, come what may. */
    method RunGit(repository: string)
      modifies this`git
      ensures git == old(git) + [GitRun(repository, On(repository))]
    {
      git := git + [GitRun(repository, On(repository))];
    }

    /** No lock call is halfway: a channel is full exactly when held. */
    ghost predicate Settled()
      reads this
    {
      && full == holders.Keys
      && (forall r | r in holders :: holders[r].repository == r && holders[r].serial <= serial)
    }

    /** The manager as the protocol's world with no thread in it. */
    ghost function World(): World
      reads this
    {
      WorkspaceLock.World(serial, full, holders, None, [])
    }

    ghost predicate HeldBy(l: Lease)
      reads this
    {
      l.repository in holders && holders[l.repository] == l
    }

    /** Takes the lock, or gives up when it is taken: a caller that waited until
        its context ended. */
    method Lock(repository: string) returns (held: Option<Lease>)
      requires Settled()
      modifies this`serial, this`full, this`holders
      ensures Settled()
      ensures held.None? <==> repository in old(holders)
      ensures held.None? ==> World() == old(World())
      ensures held.Some? ==>
        && held.value == Lease(repository, old(serial) + 1) && serial == old(serial) + 1
        && holders == old(holders)[repository := held.value]
    {
      if repository in full { return None; }
      full := full + {repository};
      serial := serial + 1;
      var lease := Lease(repository, serial);
      holders := holders[repository := lease];
      return Some(lease);
    }

    /** Releases the lock only for the lease that holds it: the protocol's unlock
        followed by its drain. */
    method Unlock(repository: string, held: Option<Lease>)
      requires held.Some? ==> held.value.repository == repository
      modifies this`full, this`holders
      ensures held.None? ==> World() == old(World())
      ensures held.Some? ==>
        var w := BeginUnlock(old(World()), held.value);
        World() == if w.draining.Some? then Next(w, Drain) else w
    {
      if held.None? { return; }
      if repository !in holders || holders[repository] != held.value { return; }
      holders := holders - {repository};
      full := full - {repository};
    }

    /** Acquire, sweep, check out, warm, in that order; any failure after the
        lock gives it back. */
    method Prepare(repository: string, branch: string, baseSha: Sha, remoteHead: Sha, sweeps: bool, checksOut: bool, warms: bool)
        returns (ws: Option<Workspace>)
      requires Settled()
      modifies this`serial, this`full, this`holders, this`live, this`git
      ensures Settled() && (forall r | r != repository :: r in holders <==> r in old(holders))
      ensures git == old(git) + if repository !in old(holders) && sweeps then [GitRun(repository, {})] else []
      ensures live == if repository !in old(holders) && sweeps then old(live) - old(On(repository)) else old(live)
      ensures ws.Some? <==> repository !in old(holders) && sweeps && checksOut && warms
      ensures ws.None? ==> holders == old(holders)
      ensures ws.Some? ==>
        && ws.value.repository == repository && ws.value.lease == Some(Lease(repository, serial)) && serial > old(serial)
        && holders == old(holders)[repository := Lease(repository, serial)]
    {
      var held := Lock(repository);
      if held.None? { return None; }
      Sweep(repository, sweeps);
      if !sweeps {
        Unlock(repository, held);
        assert holders == old(holders);
        return None;
      }
      RunGit(repository);
      if !checksOut {
        Unlock(repository, held);
        assert holders == old(holders);
        return None;
      }
      var ws' := Workspace(repository, repository, branch, baseSha, remoteHead, held);
      if !warms {
        Unlock(repository, held);
        assert holders == old(holders);
        return None;
      }
      return Some(ws');
    }

    /** The checkout of one exact head: the branch must be at it on the remote. */
    method CheckoutHead(repository: string, branch: string, headSha: Sha, out: Checkout) returns (ws: Option<Workspace>)
      modifies this`git
      ensures git == old(git) + [GitRun(repository, On(repository))]
      ensures ws.Some? <==> out.ready && out.remoteHead == Some(headSha) && ValidSha(headSha) && out.done
      ensures ws.Some? ==> ws.value == Workspace(repository, repository, branch, headSha, headSha, None)
    {
      RunGit(repository);
      if !out.ready { return None; }
      if out.remoteHead.None? || !ValidSha(out.remoteHead.value) { return None; }
      if out.remoteHead.value != headSha { return None; }
      if !out.done { return None; }
      return Some(Workspace(repository, repository, branch, headSha, headSha, None));
    }

    /** Prepare pinned to one head. What it hands out is based on exactly that
        head, and a malformed head never reaches the lock. */
    method PrepareHead(repository: string, branch: string, headSha: Sha, sweeps: bool, out: Checkout, warms: bool)
        returns (ws: Option<Workspace>)
      requires Settled()
      modifies this`serial, this`full, this`holders, this`live, this`git
      ensures git == old(git) + if ValidSha(headSha) && repository !in old(holders) && sweeps then [GitRun(repository, {})] else []
      ensures Settled() && (forall r | r != repository :: r in holders <==> r in old(holders))
      ensures ws.Some? <==>
        ValidSha(headSha) && repository !in old(holders) && sweeps && out.ready && out.remoteHead == Some(headSha) && out.done && warms
      ensures ws.None? ==> holders == old(holders)
      ensures !ValidSha(headSha) ==> serial == old(serial)
      ensures ws.Some? ==>
        && ws.value.repository == repository && ws.value.baseSha == headSha && ws.value.remoteHead == headSha
        && ws.value.lease == Some(Lease(repository, serial)) && serial > old(serial)
        && holders == old(holders)[repository := Lease(repository, serial)]
    {
      if !ValidSha(headSha) { return None; }
      var held := Lock(repository);
      if held.None? { return None; }
      Sweep(repository, sweeps);
      if !sweeps {
        Unlock(repository, held);
        assert holders == old(holders);
        return None;
      }
      var made := CheckoutHead(repository, branch, headSha, out);
      if made.None? || !warms {
        Unlock(repository, held);
        assert holders == old(holders);
        return None;
      }
      return Some(made.value.(lease := held));
    }

    /** A malformed id returns with the lock still held; any other failure
        releases it. */
    method Start(ws: Workspace, attemptId: string, podman: bool) returns (c: Option<Container>)
      requires ws.lease.Some? ==> ws.lease.value.repository == ws.repository
      modifies this`full, this`holders, this`containers, this`live
      ensures live == if c.Some? then old(live)[c.value.name := ws.repository] else old(live)
      ensures c.Some? <==> ValidAttemptId(attemptId) && podman
      ensures c.Some? ==>
        c.value == Container("autophage-" + attemptId, ws) && World() == old(World()) && containers == old(containers)[ws.path := c.value.name]
      ensures c.None? ==> containers == old(containers)
      ensures !ValidAttemptId(attemptId) ==> World() == old(World())
      ensures ValidAttemptId(attemptId) && !podman && ws.lease.Some? && old(HeldBy(ws.lease.value)) ==>
        holders == old(holders) - {ws.repository} && full == old(full) - {ws.repository}
      ensures ws.lease.None? || !old(HeldBy(ws.lease.value)) ==> World() == old(World())
    {
      if !ValidAttemptId(attemptId) { return None; }
      var name := "autophage-" + attemptId;
      if !podman {
        Unlock(ws.repository, ws.lease);
        return None;
      }
      live := live[name := ws.repository];
      containers := containers[ws.path := name];
      return Some(Container(name, ws));
    }

    /** Ends the agent phase: the recorded container goes first, then whatever else
        the label finds. True only when none is left on the workspace. */
    method EndAgentPhase(ws: Workspace, removes: bool, sweeps: bool) returns (ended: bool)
      modifies this`containers, this`live
      ensures containers == old(containers) - {ws.path}
      ensures ended <==> (ws.path in old(containers) ==> removes) && sweeps
      ensures ended ==> On(ws.repository) == {} && (ws.path in old(containers) ==> old(containers)[ws.path] !in live)
      ensures live.Keys <= old(live.Keys) && (forall n | n in live :: live[n] == old(live)[n])
      ensures forall n | n in old(live) && old(live)[n] != ws.repository && !(ws.path in old(containers) && n == old(containers)[ws.path]) :: n in live
    {
      if ws.path in containers {
        var name := containers[ws.path];
        containers := containers - {ws.path};
        if !removes { return false; }
        live := live - {name};
      }
      Sweep(ws.repository, sweeps);
      return sweeps;
    }

    /** Ends the agent phase, commits and pushes. Every host git command finds the
        workspace without a container on it, none runs when the agent phase could
        not be ended, and no head is handed out that is not a checked sha. */
    method CommitAndPush(ws: Workspace, removes: bool, sweeps: bool, commits: bool, head: Sha, pushes: bool)
        returns (made: Option<Sha>, pushed: bool)
      modifies this`containers, this`live, this`git
      ensures containers == old(containers) - {ws.path}
      ensures made.Some? <==> (ws.path in old(containers) ==> removes) && sweeps && commits && ValidSha(head)
      ensures made.Some? ==> made.value == head
      ensures pushed <==> made.Some? && pushes
      ensures git == old(git) +
        if !((ws.path in old(containers) ==> removes) && sweeps) then []
        else if made.None? then [GitRun(ws.repository, {})]
        else [GitRun(ws.repository, {}), GitRun(ws.repository, {})]
      ensures (ws.path in old(containers) ==> removes) && sweeps ==> On(ws.repository) == {}
    {
      var ended := EndAgentPhase(ws, removes, sweeps);
      if !ended { return None, false; }
      RunGit(ws.repository);
      if !commits { return None, false; }
      if !ValidSha(head) { return None, false; }
      RunGit(ws.repository);
      return Some(head), pushes;
    }

    /** Releases the container's lease whether or not its removal worked. */
    method Teardown(c: Container, podman: bool) returns (ok: bool)
      requires c.workspace.lease.Some? ==> c.workspace.lease.value.repository == c.workspace.repository
      modifies this`full, this`holders, this`containers, this`live
      ensures live == if podman then old(live) - {c.name} else old(live)
      ensures ok == podman && containers == old(containers) - {c.workspace.path}
      ensures c.workspace.lease.None? || !old(HeldBy(c.workspace.lease.value)) ==> World() == old(World())
      ensures c.workspace.lease.Some? && old(HeldBy(c.workspace.lease.value)) ==>
        holders == old(holders) - {c.workspace.repository} && full == old(full) - {c.workspace.repository}
    {
      containers := containers - {c.workspace.path};
      ok := podman;
      if podman { live := live - {c.name}; }
      Unlock(c.workspace.repository, c.workspace.lease);
    }

    /** The end of a run that started: push, tear down, and tear down again for good
        measure. */
    method PushAndTearDown(c: Container, ends: bool, sweeps: bool, commits: bool, head: Sha, pushes: bool, removes: bool)
      requires c.workspace.lease.Some? && c.workspace.lease.value.repository == c.workspace.repository && HeldBy(c.workspace.lease.value)
      modifies this`full, this`holders, this`containers, this`live, this`git
      ensures holders == old(holders) - {c.workspace.repository} && full == old(full) - {c.workspace.repository}
      ensures old(git) <= git && (forall i | |old(git)| <= i < |git| :: git[i] == GitRun(c.workspace.repository, {}))
    {
      var made, pushed := CommitAndPush(c.workspace, ends, sweeps, commits, head, pushes);
      var removed := Teardown(c, removes);
      removed := Teardown(c, removes);
    }

    /** One whole round on an unlocked repository, whatever containers an earlier
        daemon left: every path gives the lock back except the one where start is
        handed a malformed id, and host git never runs while a container is on the
        workspace. */
    method Round(repository: string, branch: string, headSha: Sha, sweeps: bool, out: Checkout, warms: bool,
                 attemptId: string, starts: bool, ends: bool, sweepsAgain: bool, commits: bool, head: Sha, pushes: bool, removes: bool)
      requires Settled() && repository !in holders
      modifies this
      ensures Settled()
      ensures holders - {repository} == old(holders)
      ensures repository in holders <==>
        (&& !ValidAttemptId(attemptId)
         && ValidSha(headSha) && sweeps && out.ready && out.remoteHead == Some(headSha) && out.done && warms)
      ensures old(git) <= git && (forall i | |old(git)| <= i < |git| :: git[i] == GitRun(repository, {}))
    {
      var ws := PrepareHead(repository, branch, headSha, sweeps, out, warms);
      if ws.None? { return; }
      var c := Start(ws.value, attemptId, starts);
      if c.None? { return; }
      PushAndTearDown(c.value, ends, sweepsAgain, commits, head, pushes, removes);
    }
  }
}
